/** The Go server, one call at a time: go/internal/extension/extension.go and utils.go.
    Module LockedServers adds the interleavings. */
module GoExtension {
  import opened Wrappers
  import opened Encoding
  import opened Dispatch
  import opened Json
  import opened Contract

  type Hash = b: seq<Byte> | |b| == 32 witness Zeros(32)

  function ToHash(name: seq<Byte>): Hash
    requires |name| <= 32
  {
    Pad32(name)
  }

  /** common.Hash from JSON. */
  function ParseHash(s: string): (h: Option<Hash>)
    ensures h.Some? <==> IsHash(s)
    ensures h.Some? ==> Encode(h.value) == Lower(s)
  {
    if IsHash(s) then
      EncodeDecode(s);
      assert Lower(s) == "0x" + Lower(s[2..]);
      Some(Decode(s).value)
    else None
  }

  /** The fields processAction works on once the JSON is decoded. */
  datatype DataFixed = DataFixed(opType: Hash, opCommand: Hash, originalMessage: seq<Byte>)

  class Extension {
    var greetingCount: nat
    var lastGreeting: string
    var farewellCount: nat
    var lastFarewell: string

    ghost function Now(): State
      reads this
    {
      State(greetingCount, lastGreeting, farewellCount, lastFarewell)
    }

    constructor New()
      ensures Now() == INITIAL
    {
      greetingCount, lastGreeting, farewellCount, lastFarewell := 0, "", 0, "";
    }

    method StateHandler() returns (r: Reply)
      ensures r == Answer(Report, Now())
    {
      r := Snapshot(Encode(ToHash(Ascii(VERSION))), State(greetingCount, lastGreeting, farewellCount, lastFarewell));
    }

    method BuildResult(id: Hash, submissionTag: string, df: DataFixed, data: Data, status: nat, err: string)
      returns (r: Reply)
      ensures r == Result(Echo(Encode(id), submissionTag, Encode(df.opType), Encode(df.opCommand)), status, LogText(status, err), VERSION, data)
      ensures ("error: " <= r.log <==> status == 0) && (r.log == "ok" <==> status == 1)
    {
      LogTellsStatus(status, err);
      var log;
      match status {
        case 0 => log := "error: " + err;
        case 1 => log := "ok";
        case _ => log := "pending";
      }
      r := Result(Echo(Encode(id), submissionTag, Encode(df.opType), Encode(df.opCommand)), status, log, VERSION, data);
    }

    method ProcessSayHello(d: Decoders, id: Hash, submissionTag: string, df: DataFixed, ghost raw: string)
      returns (r: Reply)
      requires GoBytes(raw) == Some(df.originalMessage)
      modifies this
      ensures var echo := Echo(Encode(id), submissionTag, Encode(df.opType), Encode(df.opCommand));
              var plan := PlanRouted(Go, d, echo, SayHello, raw);
              Now() == Effect(plan, old(Now())) && r == Answer(plan, old(Now()))
    {
      var req := d.hello(df.originalMessage);
      if req.None? {
        r := BuildResult(id, submissionTag, df, NoPayload, 0, "decoding request: " + d.complaint(Go, df.originalMessage));
        return;
      }
      if req.value == "" {
        r := BuildResult(id, submissionTag, df, NoPayload, 0, "name must not be empty");
        return;
      }
      greetingCount := greetingCount + 1;
      var greetingNumber := greetingCount;
      var greeting := Greeting(req.value);
      lastGreeting := greeting;
      r := BuildResult(id, submissionTag, df, Numbered(Greetings, greeting, greetingNumber), 1, "");
    }

    method ProcessSayGoodbye(d: Decoders, id: Hash, submissionTag: string, df: DataFixed, ghost raw: string)
      returns (r: Reply)
      requires GoBytes(raw) == Some(df.originalMessage)
      modifies this
      ensures var echo := Echo(Encode(id), submissionTag, Encode(df.opType), Encode(df.opCommand));
              var plan := PlanRouted(Go, d, echo, SayGoodbye, raw);
              Now() == Effect(plan, old(Now())) && r == Answer(plan, old(Now()))
    {
      var req := d.goodbye(df.originalMessage);
      if req.None? {
        r := BuildResult(id, submissionTag, df, NoPayload, 0, "decoding request: " + d.complaint(Go, df.originalMessage));
        return;
      }
      if req.value.0 == "" {
        r := BuildResult(id, submissionTag, df, NoPayload, 0, "name must not be empty");
        return;
      }
      farewellCount := farewellCount + 1;
      var farewellNumber := farewellCount;
      var farewell := Farewell(req.value.0, req.value.1);
      lastFarewell := farewell;
      r := BuildResult(id, submissionTag, df, Numbered(Farewells, farewell, farewellNumber), 1, "");
    }

    /** The nested switch over op type and op command. */
    method ProcessAction(d: Decoders, id: Hash, submissionTag: string, df: DataFixed, ghost f: Fixed, ghost rawId: string)
      returns (r: Reply)
      requires ParseHash(rawId) == Some(id) && ParseHash(f.opType) == Some(df.opType)
      requires ParseHash(f.opCommand) == Some(df.opCommand) && GoBytes(f.originalMessage) == Some(df.originalMessage)
      modifies this
      ensures var plan := PlanFixed(Go, d, rawId, submissionTag, f);
              Now() == Effect(plan, old(Now())) && r == Answer(plan, old(Now()))
    {
      hide Encode, Decode, Bytes32Hex, Ascii, Pad32, PlanRouted, PlanFixed, LogText, Resolve;
      RoutedLikeTheSwitch(df.opType, df.opCommand);
      PlanOfHashes(d, id, submissionTag, df, f, rawId);
      if df.opType == ToHash(Ascii(OP_TYPE_GREETING)) {
        if df.opCommand == ToHash(Ascii(OP_COMMAND_SAY_HELLO)) {
          r := ProcessSayHello(d, id, submissionTag, df, f.originalMessage);
        } else if df.opCommand == ToHash(Ascii(OP_COMMAND_SAY_GOODBYE)) {
          r := ProcessSayGoodbye(d, id, submissionTag, df, f.originalMessage);
        } else {
          r := Refused(501);
        }
      } else {
        r := Refused(501);
      }
    }

    /** actionHandler: decode the action, its message and the DataFixed inside it. */
    method ActionHandler(d: Decoders, body: Body) returns (r: Reply)
      modifies this
      ensures var plan := PlanAction(Go, d, body);
              Now() == Effect(plan, old(Now())) && r == Answer(plan, old(Now()))
    {
      if !body.Envelope? { return Refused(400); }
      var message := GoBytes(body.message);
      if message.None? { return Refused(400); }
      var f := d.fixed(message.value);
      if f.None? { return Refused(400); }
      var id, opType, opCommand := ParseHash(body.id), ParseHash(f.value.opType), ParseHash(f.value.opCommand);
      var original := GoBytes(f.value.originalMessage);
      if id.None? || opType.None? || opCommand.None? || original.None? { return Refused(400); }
      r := ProcessAction(d, id.value, body.submissionTag, DataFixed(opType.value, opCommand.value, original.value),
                         f.value, body.id);
    }

    /** The two registered routes; the mux answers 405 and 404 itself. */
    method Handle(d: Decoders, req: Request) returns (r: Reply)
      modifies this
      ensures var plan := PlanOf(Go, d, req);
              Now() == Effect(plan, old(Now())) && r == Answer(plan, old(Now()))
    {
      var path := CleanPath(req.path);
      if path == "/state" {
        if req.verb == GET { r := StateHandler(); } else { r := Refused(405); }
      } else if path == "/action" {
        if req.verb == POST { r := ActionHandler(d, req.body); } else { r := Refused(405); }
      } else {
        r := Refused(404);
      }
    }
  }

  /** The switch and the contract's table pick the same handler for every pair of hashes. */
  lemma RoutedLikeTheSwitch(t: Hash, c: Hash)
    ensures Resolve(ROUTES, Encode(t), Encode(c)) ==
            if t != ToHash(Ascii(OP_TYPE_GREETING)) then None
            else if c == ToHash(Ascii(OP_COMMAND_SAY_HELLO)) then Some(SayHello)
            else if c == ToHash(Ascii(OP_COMMAND_SAY_GOODBYE)) then Some(SayGoodbye)
            else None
  {
    RoutesAreASwitch(Encode(t), Encode(c));
    HashesMatch(t, Ascii(OP_TYPE_GREETING));
    HashesMatch(c, Ascii(OP_COMMAND_SAY_HELLO));
    HashesMatch(c, Ascii(OP_COMMAND_SAY_GOODBYE));
  }

  /** What the contract plans, in terms of the decoded hashes. */
  lemma PlanOfHashes(d: Decoders, id: Hash, submissionTag: string, df: DataFixed, f: Fixed, rawId: string)
    requires ParseHash(rawId) == Some(id) && ParseHash(f.opType) == Some(df.opType)
    requires ParseHash(f.opCommand) == Some(df.opCommand) && GoBytes(f.originalMessage) == Some(df.originalMessage)
    ensures var echo := Echo(Encode(id), submissionTag, Encode(df.opType), Encode(df.opCommand));
            PlanFixed(Go, d, rawId, submissionTag, f) ==
            match Resolve(ROUTES, Encode(df.opType), Encode(df.opCommand))
            case None => Refuse(501)
            case Some(handler) => PlanRouted(Go, d, echo, handler, f.originalMessage)
  {
    hide Encode, Decode, PlanRouted, Normalize, Lower, Resolve;
  }

  lemma HashesMatch(h: Hash, name: seq<Byte>)
    requires |name| <= 32
    ensures Encode(h) == Bytes32Hex(name) <==> h == ToHash(name)
  {
    if Encode(h) == Bytes32Hex(name) {
      EncodeInjective(h, Pad32(name));
    }
  }
}
