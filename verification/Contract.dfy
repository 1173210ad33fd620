/** The one-at-a-time machine every implementation is measured against: decode, dispatch,
    validate, count, respond (docs/extension-contract.md sections 2, 4 and 5). JSON and ABI
    decoding are foreign code and enter as shared function values. */
module Contract {
  import opened Wrappers
  import opened Encoding
  import opened Names
  import opened Dispatch
  import opened Json

  const VERSION: string := "0.1.0"
  const OP_TYPE_GREETING: string := "GREETING"
  const OP_COMMAND_SAY_HELLO: string := "SAY_HELLO"
  const OP_COMMAND_SAY_GOODBYE: string := "SAY_GOODBYE"

  /** UTF-8 of an ASCII literal, byte for character. */
  function Ascii(s: string): (b: seq<Byte>)
    requires forall i :: 0 <= i < |s| ==> s[i] as int < 128
    ensures |b| == |s|
  {
    seq(|s|, i requires 0 <= i < |s| => s[i] as int)
  }

  lemma AsciiIsUtf8(s: string)
    requires forall i :: 0 <= i < |s| ==> s[i] as int < 128
    ensures Utf8(s) == Ascii(s)
  {
    AsciiUtf8(s);
  }

  const GREETING: string := Bytes32Hex(Ascii(OP_TYPE_GREETING))
  const SAY_HELLO: string := Bytes32Hex(Ascii(OP_COMMAND_SAY_HELLO))
  const SAY_GOODBYE: string := Bytes32Hex(Ascii(OP_COMMAND_SAY_GOODBYE))
  const STATE_VERSION: string := Bytes32Hex(Ascii(VERSION))

  /** The names as they are registered. */
  lemma IdentifierBytes()
    ensures |Utf8(OP_TYPE_GREETING)| <= 32 && Bytes32Hex(Utf8(OP_TYPE_GREETING)) == GREETING
    ensures |Utf8(OP_COMMAND_SAY_HELLO)| <= 32 && Bytes32Hex(Utf8(OP_COMMAND_SAY_HELLO)) == SAY_HELLO
    ensures |Utf8(OP_COMMAND_SAY_GOODBYE)| <= 32 && Bytes32Hex(Utf8(OP_COMMAND_SAY_GOODBYE)) == SAY_GOODBYE
  {
    hide Utf8;
    AsciiIsUtf8(OP_TYPE_GREETING);
    AsciiIsUtf8(OP_COMMAND_SAY_HELLO);
    AsciiIsUtf8(OP_COMMAND_SAY_GOODBYE);
  }

  // --- state and wire values -----------------------------------------------------

  datatype State = State(greetingCount: nat, lastGreeting: string, farewellCount: nat, lastFarewell: string)

  const INITIAL: State := State(0, "", 0, "")

  datatype Method = GET | POST

  /** What JSON parsing made of a POST body. */
  datatype Body = NotJson | NoData | Envelope(id: string, submissionTag: string, message: string)

  datatype Request = Request(verb: Method, path: string, body: Body)

  /** The DataFixed fields that matter here, as they stand in the JSON. */
  datatype Fixed = Fixed(opType: string, opCommand: string, originalMessage: string)

  /** The foreign decoders, shared by all implementations; only the error wording differs. */
  datatype Decoders = Decoders(
    fixed: seq<Byte> -> Option<Fixed>,
    hello: seq<Byte> -> Option<string>,
    goodbye: seq<Byte> -> Option<(string, string)>,
    complaint: (Lang, seq<Byte>) -> string)

  datatype Echo = Echo(id: string, submissionTag: string, opType: string, opCommand: string)

  /** The two counters, each with the text last handed out under it. */
  datatype Kind = Greetings | Farewells

  function Counter(kind: Kind, s: State): nat {
    if kind == Greetings then s.greetingCount else s.farewellCount
  }

  function LastText(kind: Kind, s: State): string {
    if kind == Greetings then s.lastGreeting else s.lastFarewell
  }

  datatype Data = NoPayload | Numbered(kind: Kind, text: string, number: nat)

  datatype Reply =
    | Refused(code: nat)
    | Result(echo: Echo, status: nat, log: string, version: string, data: Data)
    | Snapshot(stateVersion: string, state: State)

  function HttpStatus(r: Reply): nat {
    if r.Refused? then r.code else 200
  }

  /** The `data` field on the wire, before hex. */
  function DataText(lang: Lang, d: Data): string {
    match d
    case NoPayload => ""
    case Numbered(Greetings, text, n) => Payload(lang, "greeting", text, "greetingNumber", n)
    case Numbered(Farewells, text, n) => Payload(lang, "farewell", text, "farewellNumber", n)
  }

  function Greeting(name: string): string {
    "Hello, " + name + "! Welcome to Flare Confidential Compute."
  }

  function Farewell(name: string, reason: string): string {
    "Goodbye, " + name + "! Reason: " + reason
  }

  /** The log value of section 4.6: status 0 failed, 1 succeeded, anything else is in progress. */
  function LogText(status: nat, err: string): string {
    if status == 0 then "error: " + err else if status == 1 then "ok" else "pending"
  }

  /** The three log values do not overlap, so a reader can tell the status from the log. */
  lemma LogTellsStatus(status: nat, err: string)
    ensures "error: " <= LogText(status, err) <==> status == 0
    ensures LogText(status, err) == "ok" <==> status == 1
  {
    assert "error: "[0] == 'e';
  }

  // --- what a request asks for, state aside ---------------------------------------------

  datatype Plan =
    | Refuse(status: nat)
    | Fail(echo: Echo, log: string)
    | Count(echo: Echo, kind: Kind, text: string)
    | Report

  datatype Handler = SayHello | SayGoodbye

  const ROUTES: map<Key, Handler> :=
    map[(GREETING, SAY_HELLO) := SayHello, (GREETING, SAY_GOODBYE) := SayGoodbye]

  /** A bytes32 in the form common.Hash accepts. */
  predicate IsHash(s: string) {
    |s| == 66 && HasPrefix(s) && AllHex(s[2..])
  }

  /** hexutil.Bytes: the prefix is compulsory, except on the empty string. */
  function GoBytes(s: string): Option<seq<Byte>> {
    if s == "" then Some([]) else if HasPrefix(s) then Decode(s) else None
  }

  function HexBytes(lang: Lang, s: string): Option<seq<Byte>> {
    match lang
    case Go => GoBytes(s)
    case Python => PyDecode(s)
    case TypeScript => Decode(s)
  }

  /** The identifier as dispatch sees it, and as the reply echoes it. */
  function Identifier(lang: Lang, s: string): string {
    if lang == Go then Lower(s) else Normalize(s)
  }

  function Echoed(lang: Lang, s: string): string {
    if lang == Go then Lower(s) else s
  }

  function CleanPath(path: string): string {
    if path == "" || path[0] == '?' then "" else [path[0]] + CleanPath(path[1..])
  }

  /** What each language's struct decoding refuses with 400 before dispatch. */
  predicate WellFormed(lang: Lang, id: string, f: Fixed) {
    match lang
    case Go => IsHash(id) && IsHash(f.opType) && IsHash(f.opCommand) && GoBytes(f.originalMessage).Some?
    case Python => true
    case TypeScript => f.opType != ""
  }

  function PlanRouted(lang: Lang, d: Decoders, echo: Echo, handler: Handler, message: string): Plan {
    match HexBytes(lang, message)
    case None => Fail(echo, LogText(0, "decoding request: invalid hex: " + message))
    case Some(payload) =>
      match handler
      case SayHello =>
        (match d.hello(payload)
         case None => Fail(echo, LogText(0, "decoding request: " + d.complaint(lang, payload)))
         case Some(name) => if name == "" then Fail(echo, LogText(0, "name must not be empty")) else Count(echo, Greetings, Greeting(name)))
      case SayGoodbye =>
        (match d.goodbye(payload)
         case None => Fail(echo, LogText(0, "decoding request: " + d.complaint(lang, payload)))
         case Some((name, reason)) =>
           if name == "" then Fail(echo, LogText(0, "name must not be empty")) else Count(echo, Farewells, Farewell(name, reason)))
  }

  function PlanFixed(lang: Lang, d: Decoders, id: string, submissionTag: string, f: Fixed): Plan {
    if !WellFormed(lang, id, f) then Refuse(400)
    else
      var echo := Echo(Echoed(lang, id), submissionTag, Echoed(lang, f.opType), Echoed(lang, f.opCommand));
      match Resolve(ROUTES, Identifier(lang, f.opType), Identifier(lang, f.opCommand))
      case None => Refuse(501)
      case Some(handler) => PlanRouted(lang, d, echo, handler, f.originalMessage)
  }

  function PlanAction(lang: Lang, d: Decoders, body: Body): Plan {
    match body
    case NotJson => Refuse(400)
    case NoData => Refuse(400)
    case Envelope(id, submissionTag, message) =>
      match HexBytes(lang, message)
      case None => Refuse(400)
      case Some(bytes) =>
        match d.fixed(bytes)
        case None => Refuse(400)
        case Some(f) => PlanFixed(lang, d, id, submissionTag, f)
  }

  function PlanOf(lang: Lang, d: Decoders, req: Request): Plan {
    var path := CleanPath(req.path);
    if path == "/action" then (if req.verb == POST then PlanAction(lang, d, req.body) else Refuse(405))
    else if path == "/state" then (if req.verb == GET then Report else Refuse(405))
    else Refuse(404)
  }

  // --- what a plan does to the state, and what it answers -------------------------------

  function Effect(plan: Plan, s: State): State {
    match plan
    case Count(_, Greetings, text) => s.(greetingCount := s.greetingCount + 1, lastGreeting := text)
    case Count(_, Farewells, text) => s.(farewellCount := s.farewellCount + 1, lastFarewell := text)
    case _ => s
  }

  function Answer(plan: Plan, s: State): Reply {
    match plan
    case Refuse(status) => Refused(status)
    case Fail(echo, log) => Result(echo, 0, log, VERSION, NoPayload)
    case Count(echo, kind, text) => Result(echo, 1, LogText(1, ""), VERSION, Numbered(kind, text, Counter(kind, s) + 1))
    case Report => Snapshot(STATE_VERSION, s)
  }

  /** The state after serving `plans` one at a time. */
  ghost function Serve(plans: seq<Plan>): State {
    if plans == [] then INITIAL else Effect(plans[|plans| - 1], Serve(plans[..|plans| - 1]))
  }

  /** The replies of that run, in order. */
  ghost function Replies(plans: seq<Plan>): (r: seq<Reply>)
    ensures |r| == |plans|
  {
    if plans == [] then []
    else
      var before := plans[..|plans| - 1];
      Replies(before) + [Answer(plans[|plans| - 1], Serve(before))]
  }

  lemma FailuresAreExplained(lang: Lang, d: Decoders, req: Request)
    ensures PlanOf(lang, d, req).Fail? ==> exists err :: PlanOf(lang, d, req).log == LogText(0, err)
  {
    hide LogText, Resolve, HexBytes, Identifier, WellFormed, Echoed;
  }

  /** In every result, of any implementation to any request: a log of "ok" goes with status 1, a
      numbered payload and a changed state; any other begins with "error: ", carries no payload and
      left the state as it was. */
  lemma LogTellsOutcome(lang: Lang, d: Decoders, req: Request, s: State)
    requires Answer(PlanOf(lang, d, req), s).Result?
    ensures var plan := PlanOf(lang, d, req);
            var r := Answer(plan, s);
            && (r.log == "ok" <==> r.status == 1) && (r.log == "ok" <==> r.data.Numbered?)
            && (r.log == "ok" <==> Effect(plan, s) != s)
            && (r.log != "ok" <==> r.status == 0) && (r.log != "ok" <==> "error: " <= r.log)
  {
    FailuresAreExplained(lang, d, req);
    hide PlanOf, LogText;
    LogTellsStatus(1, "");
    if err :| PlanOf(lang, d, req).Fail? && PlanOf(lang, d, req).log == LogText(0, err) {
      LogTellsStatus(0, err);
    }
  }

  /** Each reply is the answer to its plan after the ones before it. */
  lemma {:induction false} RepliesAt(plans: seq<Plan>, i: nat)
    requires i < |plans|
    ensures Replies(plans)[i] == Answer(plans[i], Serve(plans[..i]))
  {
    var before := plans[..|plans| - 1];
    if i < |before| {
      RepliesAt(before, i);
      assert before[..i] == plans[..i];
    }
  }

  // --- laws of the sequential machine -----------------------------------------------------

  /** The (number, text) pairs that replies hand out under `kind`, in order. */
  ghost function Handed(kind: Kind, replies: seq<Reply>): seq<(nat, string)> {
    if replies == [] then []
    else
      var r := replies[|replies| - 1];
      Handed(kind, replies[..|replies| - 1])
      + if r.Result? && r.data.Numbered? && r.data.kind == kind then [(r.data.number, r.data.text)] else []
  }

  /** The numbers handed out are exactly 1, 2, ..., count in order, and the last text is the one
      handed out with the number count. */
  ghost predicate Gapless(kind: Kind, s: State, replies: seq<Reply>) {
    var handed := Handed(kind, replies);
    && |handed| == Counter(kind, s)
    && (forall i :: 0 <= i < |handed| ==> handed[i].0 == i + 1)
    && LastText(kind, s) == (if handed == [] then "" else handed[|handed| - 1].1)
  }

  lemma {:induction false} NumberingIsGapless(kind: Kind, plans: seq<Plan>)
    ensures Gapless(kind, Serve(plans), Replies(plans))
  {
    if plans != [] {
      var before, plan := plans[..|plans| - 1], plans[|plans| - 1];
      NumberingIsGapless(kind, before);
      GaplessStep(kind, Serve(before), Replies(before), plan);
    }
  }

  /** One more call keeps the numbering gapless; one that is not counted changes no field. */
  lemma GaplessStep(kind: Kind, s: State, replies: seq<Reply>, plan: Plan)
    requires Gapless(kind, s, replies)
    ensures Gapless(kind, Effect(plan, s), replies + [Answer(plan, s)])
    ensures !plan.Count? ==> Effect(plan, s) == s
  {
    var more := replies + [Answer(plan, s)];
    assert more[..|replies|] == replies;
  }

  /** The three identifiers are different bytes32 values, none of them the wildcard. */
  lemma IdentifiersDistinct()
    ensures SAY_HELLO != SAY_GOODBYE && SAY_HELLO != EMPTY_BYTES32 && SAY_GOODBYE != EMPTY_BYTES32
  {
    hide Utf8;
    var h, b := OP_COMMAND_SAY_HELLO, OP_COMMAND_SAY_GOODBYE;
    AsciiIsUtf8(h);
    AsciiIsUtf8(b);
    AsciiIsUtf8("");
    assert Ascii("") == [];
    NamesDiffer(h, b);
    NamesDiffer(h, "");
    NamesDiffer(b, "");
  }

  /** Nothing is registered as a wildcard, so the route table is a two-level switch. */
  lemma RoutesAreASwitch(t: string, c: string)
    ensures Resolve(ROUTES, t, c) ==
            if t == GREETING && c == SAY_HELLO then Some(SayHello)
            else if t == GREETING && c == SAY_GOODBYE then Some(SayGoodbye)
            else None
  {
    IdentifiersDistinct();
    TwoRoutes(GREETING, SAY_HELLO, SAY_GOODBYE, t, c);
  }

  lemma TwoRoutes(g: string, h: string, b: string, t: string, c: string)
    requires h != b && h != EMPTY_BYTES32 && b != EMPTY_BYTES32
    ensures Resolve(map[(g, h) := SayHello, (g, b) := SayGoodbye], t, c) ==
            if t == g && c == h then Some(SayHello) else if t == g && c == b then Some(SayGoodbye) else None
  {}

  /** The two registrations make up the contract's route table. */
  lemma RegisteredTable()
    ensures Table([((GREETING, SAY_HELLO), SayHello), ((GREETING, SAY_GOODBYE), SayGoodbye)]) == ROUTES
  {
    IdentifiersDistinct();
    TwoRegistrations((GREETING, SAY_HELLO), (GREETING, SAY_GOODBYE));
  }

  lemma TwoRegistrations(p: Key, q: Key)
    requires p != q
    ensures Table([(p, SayHello), (q, SayGoodbye)]) == map[p := SayHello, q := SayGoodbye]
  {
    var regs := [(p, SayHello), (q, SayGoodbye)];
    assert regs[1..] == [(q, SayGoodbye)];
    assert Table([(q, SayGoodbye)]) == map[q := SayGoodbye];
  }
}
