/** The Python server, one call at a time: python/base/server.py over python/app/handlers.py.
    Handlers are looked up as values of Contract.Handler and called by a match. */
module PythonServer {
  import opened Wrappers
  import opened Encoding
  import opened Names
  import opened Dispatch
  import opened Json
  import opened Contract

  /** register: both handlers, each under its pair. */
  method Register(framework: Framework<Handler>)
    requires framework.handlers == []
    modifies framework
    ensures Table(framework.handlers) == ROUTES
  {
    hide Utf8, Bytes32Hex, Table;
    IdentifierBytes();
    var _ := framework.Handle(OP_TYPE_GREETING, OP_COMMAND_SAY_HELLO, SayHello);
    var _ := framework.Handle(OP_TYPE_GREETING, OP_COMMAND_SAY_GOODBYE, SayGoodbye);
    assert framework.handlers == [((GREETING, SAY_HELLO), SayHello), ((GREETING, SAY_GOODBYE), SayGoodbye)];
    RegisteredTable();
  }

  class Server {
    const framework: Framework<Handler>
    var greetingCount: nat
    var lastGreeting: string
    var farewellCount: nat
    var lastFarewell: string

    ghost function Now(): State
      reads this
    {
      State(greetingCount, lastGreeting, farewellCount, lastFarewell)
    }

    /** The registry still holds what `register` put there. */
    ghost predicate Valid()
      reads this, framework
    {
      Table(framework.handlers) == ROUTES
    }

    constructor ()
      ensures Valid() && Now() == INITIAL && fresh(framework)
    {
      framework := new Framework<Handler>();
      greetingCount, lastGreeting, farewellCount, lastFarewell := 0, "", 0, "";
      new;
      Register(framework);
    }

    method HandleSayHello(d: Decoders, msg: string, ghost echo: Echo)
      returns (data: Data, status: nat, err: Option<string>)
      modifies this
      ensures var plan := PlanRouted(Python, d, echo, SayHello, msg);
              && Now() == Effect(plan, old(Now()))
              && Result(echo, status, LogText(status, err.GetOr("unknown")), VERSION, data) == Answer(plan, old(Now()))
    {
      hide Encode, Decode, Greeting;
      var raw := PyDecode(msg);
      if raw.None? { return NoPayload, 0, Some("decoding request: invalid hex: " + msg); }
      var req := d.hello(raw.value);
      if req.None? { return NoPayload, 0, Some("decoding request: " + d.complaint(Python, raw.value)); }
      var name := req.value;
      if name == "" { return NoPayload, 0, Some("name must not be empty"); }
      greetingCount := greetingCount + 1;
      var greeting := Greeting(name);
      lastGreeting := greeting;
      return Numbered(Greetings, greeting, greetingCount), 1, None;
    }

    method HandleSayGoodbye(d: Decoders, msg: string, ghost echo: Echo)
      returns (data: Data, status: nat, err: Option<string>)
      modifies this
      ensures var plan := PlanRouted(Python, d, echo, SayGoodbye, msg);
              && Now() == Effect(plan, old(Now()))
              && Result(echo, status, LogText(status, err.GetOr("unknown")), VERSION, data) == Answer(plan, old(Now()))
    {
      hide Encode, Decode, Farewell;
      var raw := PyDecode(msg);
      if raw.None? { return NoPayload, 0, Some("decoding request: invalid hex: " + msg); }
      var req := d.goodbye(raw.value);
      if req.None? { return NoPayload, 0, Some("decoding request: " + d.complaint(Python, raw.value)); }
      var (name, reason) := req.value;
      if name == "" { return NoPayload, 0, Some("name must not be empty"); }
      farewellCount := farewellCount + 1;
      var farewell := Farewell(name, reason);
      lastFarewell := farewell;
      return Numbered(Farewells, farewell, farewellCount), 1, None;
    }

    method ProcessAction(d: Decoders, body: Body) returns (r: Reply)
      requires Valid()
      modifies this
      ensures Valid()
      ensures var plan := PlanAction(Python, d, body);
              Now() == Effect(plan, old(Now())) && r == Answer(plan, old(Now()))
    {
      hide Encode, Decode, FromHex, PlanRouted, Resolve, LogText;
      if !body.Envelope? { return Refused(400); }
      var message := PyDecode(body.message);
      if message.None? { return Refused(400); }
      var f := d.fixed(message.value);
      if f.None? { return Refused(400); }
      var df := f.value;
      var handler := framework.Lookup(df.opType, df.opCommand);
      if handler.None? { return Refused(501); }
      ghost var echo := Echo(body.id, body.submissionTag, df.opType, df.opCommand);
      var original := if df.originalMessage == "" then "0x" else df.originalMessage;
      EmptyMessage(d, echo, handler.value, df.originalMessage);
      var data, status, err;
      if handler.value == SayHello {
        data, status, err := HandleSayHello(d, original, echo);
      } else {
        data, status, err := HandleSayGoodbye(d, original, echo);
      }
      var log := LogText(status, err.GetOr("unknown"));
      r := Result(Echo(body.id, body.submissionTag, df.opType, df.opCommand), status, log, VERSION, data);
    }

    method HandleRequest(d: Decoders, req: Request) returns (r: Reply)
      requires Valid()
      modifies this
      ensures Valid()
      ensures var plan := PlanOf(Python, d, req);
              Now() == Effect(plan, old(Now())) && r == Answer(plan, old(Now()))
    {
      var path := CleanPath(req.path);
      if path == "/action" {
        if req.verb == POST { r := ProcessAction(d, req.body); } else { r := Refused(405); }
        return;
      }
      if path == "/state" {
        if req.verb == GET {
          r := Snapshot(STATE_VERSION, State(greetingCount, lastGreeting, farewellCount, lastFarewell));
        } else {
          r := Refused(405);
        }
        return;
      }
      r := Refused(404);
    }
  }

  /** An empty originalMessage and "0x" lead to the same plan: both decode, to no bytes. */
  lemma EmptyMessage(d: Decoders, echo: Echo, handler: Handler, msg: string)
    ensures PlanRouted(Python, d, echo, handler, if msg == "" then "0x" else msg)
            == PlanRouted(Python, d, echo, handler, msg)
  {}
}
