/** What a request does, told from the outside: the texts, codes and field updates of
    docs/extension-contract.md spelled out, for each of the three servers and every state. */
module Service {
  import opened Wrappers
  import opened Encoding
  import opened Names
  import opened Dispatch
  import opened Json
  import opened Contract

  // --- the vocabulary ------------------------------------------------------------------------

  /** The path, whatever query follows it. */
  predicate At(path: string, route: string) {
    path == route || route + "?" <= path
  }

  /** v is the value of the hex digit c, in either case. */
  predicate DigitIs(c: char, v: int) {
    0 <= v < 16 && (c == "0123456789abcdef"[v] || c == "0123456789ABCDEF"[v])
  }

  predicate Prefixed(s: string) {
    |s| >= 2 && s[0] == '0' && (s[1] == 'x' || s[1] == 'X')
  }

  /** Two digits a byte, the high one first. */
  predicate Pairs(h: string, b: seq<Byte>) {
    |h| == 2 * |b| && forall i :: 0 <= i < |b| ==> DigitIs(h[2 * i], b[i] / 16) && DigitIs(h[2 * i + 1], b[i] % 16)
  }

  /** The bytes a language reads from hex text: Go insists on the prefix except on nothing, TypeScript
      does without, and Python also skips whitespace between pairs. */
  predicate Denotes(lang: Lang, s: string, b: seq<Byte>) {
    match lang
    case Go => (s == "" && b == []) || (Prefixed(s) && Pairs(s[2..], b))
    case TypeScript => Pairs(if Prefixed(s) then s[2..] else s, b)
    case Python => PyDecode(s) == Some(b)
  }

  /** A bytes32 as the JSON of a Go hash must have it. */
  predicate Word(s: string) {
    |s| == 66 && Prefixed(s) && forall i :: 2 <= i < 66 ==> s[i] in "0123456789abcdefABCDEF"
  }

  /** The identifier stands for the bytes32 h; outside Go the prefix may be missing. */
  predicate StandsFor(lang: Lang, s: string, h: string) {
    Lower(s) == h || (lang != Go && "0x" + Lower(s) == h)
  }

  /** What the JSON decoding of each language requires of an envelope before dispatch. */
  ghost predicate Welcome(lang: Lang, id: string, f: Fixed) {
    match lang
    case Go => Word(id) && Word(f.opType) && Word(f.opCommand) && exists b :: Denotes(Go, f.originalMessage, b)
    case Python => true
    case TypeScript => f.opType != ""
  }

  /** The request is an action whose envelope carries f. */
  ghost predicate Carries(lang: Lang, d: Decoders, req: Request, f: Fixed) {
    && At(req.path, "/action") && req.verb == POST && req.body.Envelope?
    && (exists b :: Denotes(lang, req.body.message, b) && d.fixed(b) == Some(f))
    && Welcome(lang, req.body.id, f)
  }

  function Zeros64(n: nat): string {
    seq(n, _ => '0')
  }

  // --- the vocabulary against the model's ----------------------------------------------------------------

  lemma AtIsCleanPath(path: string, route: string)
    requires '?' !in route
    ensures CleanPath(path) == route <==> At(path, route)
  {
    CleanPathParts(path);
    var c := CleanPath(path);
    if At(path, route) && path != route {
      assert path[|route|] == '?';
      assert forall i :: 0 <= i < |route| ==> path[i] == route[i];
    }
  }

  lemma {:induction false} CleanPathParts(path: string)
    ensures var c := CleanPath(path);
            '?' !in c && c <= path && (|c| < |path| ==> path[|c|] == '?')
  {
    if path != "" && path[0] != '?' {
      CleanPathParts(path[1..]);
    }
  }

  lemma DigitHasValue(c: char, v: int)
    ensures DigitIs(c, v) <==> IsHexDigit(c) && DigitValue(c) == v
  {}

  /** The digits the encoders write. */
  lemma DigitWritten(v: nat)
    requires v < 16
    ensures Digit(v) == "0123456789abcdef"[v]
  {}

  lemma PairsAreBytes(h: string, b: seq<Byte>)
    ensures Pairs(h, b) <==> |h| % 2 == 0 && AllHex(h) && PairBytes(h) == b
  {
    if Pairs(h, b) {
      forall i | 0 <= i < |h| ensures IsHexDigit(h[i]) {
        DigitHasValue(h[i], if i % 2 == 0 then b[i / 2] / 16 else b[i / 2] % 16);
        assert i == 2 * (i / 2) || i == 2 * (i / 2) + 1;
      }
      forall i | 0 <= i < |b| ensures PairBytes(h)[i] == b[i] {
        DigitHasValue(h[2 * i], b[i] / 16);
        DigitHasValue(h[2 * i + 1], b[i] % 16);
      }
    }
    if |h| % 2 == 0 && AllHex(h) && PairBytes(h) == b {
      forall i | 0 <= i < |b| ensures DigitIs(h[2 * i], b[i] / 16) && DigitIs(h[2 * i + 1], b[i] % 16) {
        DigitHasValue(h[2 * i], b[i] / 16);
        DigitHasValue(h[2 * i + 1], b[i] % 16);
      }
    }
  }

  lemma DenotesIsHexBytes(lang: Lang, s: string, b: seq<Byte>)
    ensures Denotes(lang, s, b) <==> HexBytes(lang, s) == Some(b)
  {
    PairsAreBytes(if Prefixed(s) then s[2..] else s, b);
    hide Pairs, PairBytes, PyDecode;
  }

  // --- the identifiers on the wire --------------------------------------------------------------------------

  /** bytes32 of each name: its characters' codes in hex, then zeros. */
  lemma IdentifiersOnTheWire()
    ensures GREETING == "0x" + ("4752454554494e47" + Zeros64(48))
    ensures SAY_HELLO == "0x" + ("5341595f48454c4c4f" + Zeros64(46))
    ensures SAY_GOODBYE == "0x" + ("5341595f474f4f44425945" + Zeros64(42))
  {
    hide Bytes32Hex;
    GreetingOnTheWire();
    HelloOnTheWire();
    GoodbyeOnTheWire();
  }

  lemma GreetingOnTheWire()
    ensures GREETING == "0x" + ("4752454554494e47" + Zeros64(48))
  {
    hide Bytes32Hex;
    WordOf(Ascii("GREETING"), "4752454554494e47");
  }

  lemma HelloOnTheWire()
    ensures SAY_HELLO == "0x" + ("5341595f48454c4c4f" + Zeros64(46))
  {
    hide Bytes32Hex;
    WordOf(Ascii("SAY_HELLO"), "5341595f48454c4c4f");
  }

  lemma GoodbyeOnTheWire()
    ensures SAY_GOODBYE == "0x" + ("5341595f474f4f44425945" + Zeros64(42))
  {
    hide Bytes32Hex;
    WordOf(Ascii("SAY_GOODBYE"), "5341595f474f4f44425945");
  }

  lemma VersionOnTheWire()
    ensures STATE_VERSION == "0x" + ("302e312e30" + Zeros64(54))
  {
    hide Bytes32Hex;
    WordOf(Ascii("0.1.0"), "302e312e30");
  }

  lemma WordOf(b: seq<Byte>, digits: string)
    requires |b| <= 32 && |digits| == 2 * |b|
    requires forall i :: 0 <= i < |b| ==> digits[2 * i] == Digit(b[i] / 16) && digits[2 * i + 1] == Digit(b[i] % 16)
    ensures Bytes32Hex(b) == "0x" + (digits + Zeros64(2 * (32 - |b|)))
  {
    var p, w := Pad32(b), digits + Zeros64(2 * (32 - |b|));
    assert Digit(0) == '0';
    forall i | 0 <= i < 64 ensures BytePairs(p)[i] == w[i] {
      var k := i / 2;
      assert i == 2 * k || i == 2 * k + 1;
      assert k < |b| ==> p[k] == b[k];
      assert k >= |b| ==> p[k] == 0;
    }
    assert BytePairs(p) == w;
  }

  lemma StandsForIsIdentifier(lang: Lang, s: string, h: string)
    requires h == GREETING || h == SAY_HELLO || h == SAY_GOODBYE
    ensures Identifier(lang, s) == h <==> StandsFor(lang, s, h)
  {
    hide Bytes32Hex;
    IdentifiersOnTheWire();
    EmptyWord();
    IdentifiersDistinct();
    GreetingIsNoWildcard();
    var l := Lower(s);
    assert h[0] == '0' && h[1] == 'x' && |h| == 66 && h[2] != '0';
    if "0x" + l == h {
      assert l == h[2..];
      assert !("0x" <= l);
    }
  }

  lemma EmptyWord()
    ensures |EMPTY_BYTES32| == 66
  {}

  lemma GreetingIsNoWildcard()
    ensures GREETING != EMPTY_BYTES32
  {
    hide Utf8;
    AsciiIsUtf8(OP_TYPE_GREETING);
    AsciiIsUtf8("");
    assert Ascii("") == [];
    NamesDiffer(OP_TYPE_GREETING, "");
  }

  lemma WordIsHash(s: string)
    ensures Word(s) <==> IsHash(s)
  {
    assert forall c: char :: c in "0123456789abcdefABCDEF" <==> IsHexDigit(c) by { HexLetters(); }
    if IsHash(s) {
      forall i | 2 <= i < 66 ensures IsHexDigit(s[i]) { assert s[2..][i - 2] == s[i]; }
    }
  }

  lemma HexLetters()
    ensures forall c: char :: c in "0123456789abcdefABCDEF" <==> IsHexDigit(c)
  {
    var t := "0123456789abcdefABCDEF";
    forall c: char | IsHexDigit(c) ensures c in t {
      DigitHasValue(c, DigitValue(c));
      var v := DigitValue(c);
      assert "0123456789abcdef"[v] == t[v];
      assert v >= 10 ==> "0123456789ABCDEF"[v] == t[v + 6];
      assert v < 10 ==> "0123456789ABCDEF"[v] == t[v];
    }
  }

  lemma WelcomeIsWellFormed(lang: Lang, id: string, f: Fixed)
    ensures Welcome(lang, id, f) <==> WellFormed(lang, id, f)
  {
    WordIsHash(id);
    WordIsHash(f.opType);
    WordIsHash(f.opCommand);
    forall b ensures Denotes(Go, f.originalMessage, b) <==> GoBytes(f.originalMessage) == Some(b) {
      DenotesIsHexBytes(Go, f.originalMessage, b);
    }
    hide IsHash, GoBytes, Denotes, Word;
  }

  // --- what a request asks for ------------------------------------------------------------------------------

  /** A plan that dispatch has reached, with the fields it works on. */
  lemma CarriedPlan(lang: Lang, d: Decoders, req: Request, f: Fixed)
    requires Carries(lang, d, req, f)
    ensures WellFormed(lang, req.body.id, f)
    ensures PlanOf(lang, d, req) == PlanFixed(lang, d, req.body.id, req.body.submissionTag, f)
  {
    hide PlanFixed, HexBytes, Denotes, WellFormed, Welcome, CleanPath, At;
    AtIsCleanPath(req.path, "/action");
    WelcomeIsWellFormed(lang, req.body.id, f);
    var b :| Denotes(lang, req.body.message, b) && d.fixed(b) == Some(f);
    DenotesIsHexBytes(lang, req.body.message, b);
  }

  /** Who the reply is addressed to: Go writes its identifiers anew, in lower case. */
  function Addressed(lang: Lang, req: Request, f: Fixed): Echo
    requires req.body.Envelope?
  {
    if lang == Go then Echo(Lower(req.body.id), req.body.submissionTag, Lower(f.opType), Lower(f.opCommand))
    else Echo(req.body.id, req.body.submissionTag, f.opType, f.opCommand)
  }

  lemma RoutedPlan(lang: Lang, d: Decoders, req: Request, f: Fixed, command: string)
    requires Carries(lang, d, req, f) && StandsFor(lang, f.opType, GREETING) && StandsFor(lang, f.opCommand, command)
    requires command == SAY_HELLO || command == SAY_GOODBYE
    ensures PlanOf(lang, d, req) ==
            PlanRouted(lang, d, Addressed(lang, req, f), if command == SAY_HELLO then SayHello else SayGoodbye, f.originalMessage)
  {
    hide PlanRouted, Bytes32Hex, StandsFor, Resolve, WellFormed, Identifier;
    CarriedPlan(lang, d, req, f);
    IdentifiersDistinct();
    StandsForIsIdentifier(lang, f.opType, GREETING);
    StandsForIsIdentifier(lang, f.opCommand, command);
    RoutesAreASwitch(Identifier(lang, f.opType), Identifier(lang, f.opCommand));
  }

  // --- the calls --------------------------------------------------------------------------------------------

  /** SAY_HELLO with a name: the greeting counter goes up by one, the greeting is remembered and
      returned under the new number; the farewell fields stay. */
  lemma HelloCounts(lang: Lang, d: Decoders, req: Request, s: State, f: Fixed, payload: seq<Byte>, name: string)
    requires Carries(lang, d, req, f) && StandsFor(lang, f.opType, GREETING) && StandsFor(lang, f.opCommand, SAY_HELLO)
    requires Denotes(lang, f.originalMessage, payload) && d.hello(payload) == Some(name) && name != ""
    ensures var text := "Hello, " + name + "! Welcome to Flare Confidential Compute.";
            && Effect(PlanOf(lang, d, req), s) == State(s.greetingCount + 1, text, s.farewellCount, s.lastFarewell)
            && Answer(PlanOf(lang, d, req), s) ==
               Result(Addressed(lang, req, f), 1, "ok", "0.1.0", Numbered(Greetings, text, s.greetingCount + 1))
  {
    hide PlanOf, HexBytes, Bytes32Hex, Denotes;
    RoutedPlan(lang, d, req, f, SAY_HELLO);
    DenotesIsHexBytes(lang, f.originalMessage, payload);
  }

  /** SAY_GOODBYE with a name, and any reason: the same for the farewells. */
  lemma GoodbyeCounts(lang: Lang, d: Decoders, req: Request, s: State, f: Fixed, payload: seq<Byte>, name: string, reason: string)
    requires Carries(lang, d, req, f) && StandsFor(lang, f.opType, GREETING) && StandsFor(lang, f.opCommand, SAY_GOODBYE)
    requires Denotes(lang, f.originalMessage, payload) && d.goodbye(payload) == Some((name, reason)) && name != ""
    ensures var text := "Goodbye, " + name + "! Reason: " + reason;
            && Effect(PlanOf(lang, d, req), s) == State(s.greetingCount, s.lastGreeting, s.farewellCount + 1, text)
            && Answer(PlanOf(lang, d, req), s) ==
               Result(Addressed(lang, req, f), 1, "ok", "0.1.0", Numbered(Farewells, text, s.farewellCount + 1))
  {
    hide PlanOf, HexBytes, Bytes32Hex, Denotes, PlanRouted, Addressed, StandsFor, Effect, Answer;
    assert SAY_GOODBYE != SAY_HELLO by { IdentifiersDistinct(); }
    RoutedPlan(lang, d, req, f, SAY_GOODBYE);
    DenotesIsHexBytes(lang, f.originalMessage, payload);
    RoutedGoodbye(lang, d, Addressed(lang, req, f), f.originalMessage, payload, name, reason, s);
  }

  lemma RoutedGoodbye(lang: Lang, d: Decoders, echo: Echo, message: string, payload: seq<Byte>, name: string, reason: string, s: State)
    requires HexBytes(lang, message) == Some(payload) && d.goodbye(payload) == Some((name, reason)) && name != ""
    ensures var text := "Goodbye, " + name + "! Reason: " + reason;
            var plan := PlanRouted(lang, d, echo, SayGoodbye, message);
            && Effect(plan, s) == State(s.greetingCount, s.lastGreeting, s.farewellCount + 1, text)
            && Answer(plan, s) == Result(echo, 1, "ok", "0.1.0", Numbered(Farewells, text, s.farewellCount + 1))
  {
    hide HexBytes;
  }

  /** The payload holds no request: it is no hex, or does not decode. */
  ghost predicate Undecodable<T>(lang: Lang, message: string, decoder: seq<Byte> -> Option<T>) {
    forall b :: Denotes(lang, message, b) ==> decoder(b) == None
  }

  lemma UndecodableBytes<T>(lang: Lang, message: string, decoder: seq<Byte> -> Option<T>)
    ensures Undecodable(lang, message, decoder) <==> HexBytes(lang, message).None? || decoder(HexBytes(lang, message).value) == None
  {
    forall b ensures Denotes(lang, message, b) <==> HexBytes(lang, message) == Some(b) { DenotesIsHexBytes(lang, message, b); }
    hide Denotes, HexBytes;
  }

  /** The call's payload does not decode. */
  ghost predicate BadPayload(lang: Lang, d: Decoders, f: Fixed) {
    || (StandsFor(lang, f.opCommand, SAY_HELLO) && Undecodable(lang, f.originalMessage, d.hello))
    || (StandsFor(lang, f.opCommand, SAY_GOODBYE) && Undecodable(lang, f.originalMessage, d.goodbye))
  }

  /** The payload decodes to an empty name. */
  ghost predicate NoName(lang: Lang, d: Decoders, f: Fixed) {
    exists b :: Denotes(lang, f.originalMessage, b) && Nameless(lang, d, f, b)
  }

  predicate Nameless(lang: Lang, d: Decoders, f: Fixed, b: seq<Byte>) {
    || (StandsFor(lang, f.opCommand, SAY_HELLO) && d.hello(b) == Some(""))
    || (StandsFor(lang, f.opCommand, SAY_GOODBYE) && d.goodbye(b).Some? && d.goodbye(b).value.0 == "")
  }

  lemma RoutedFailure(lang: Lang, d: Decoders, echo: Echo, handler: Handler, message: string, s: State)
    ensures var plan := PlanRouted(lang, d, echo, handler, message);
            var bytes := HexBytes(lang, message);
            var bad := bytes.None? || if handler == SayHello then d.hello(bytes.value).None? else d.goodbye(bytes.value).None?;
            && (bad ==>
                  && Effect(plan, s) == s
                  && var r := Answer(plan, s);
                     r.Result? && r == Result(echo, 0, r.log, "0.1.0", NoPayload) && "error: decoding request: " <= r.log)
            && (!bad && (if handler == SayHello then d.hello(bytes.value).value else d.goodbye(bytes.value).value.0) == "" ==>
                  && Effect(plan, s) == s
                  && Answer(plan, s) == Result(echo, 0, "error: name must not be empty", "0.1.0", NoPayload))
  {
    hide HexBytes;
    DecodingLog(message);
    if HexBytes(lang, message).Some? { DecodingLogs(d.complaint(lang, HexBytes(lang, message).value)); }
    EmptyNameLog();
    hide LogText;
  }

  lemma EmptyNameLog()
    ensures LogText(0, "name must not be empty") == "error: name must not be empty"
  {}

  lemma DecodingLogs(err: string)
    ensures "error: decoding request: " <= LogText(0, "decoding request: " + err)
  {
    assert LogText(0, "decoding request: " + err) == "error: decoding request: " + err;
  }

  lemma DecodingLog(message: string)
    ensures "error: decoding request: " <= LogText(0, "decoding request: invalid hex: " + message)
  {
    assert "decoding request: invalid hex: " + message == "decoding request: " + ("invalid hex: " + message);
    DecodingLogs("invalid hex: " + message);
  }

  /** A payload that does not decode: status 0, no data, an explanation, and nothing changes. */
  lemma UndecodableFails(lang: Lang, d: Decoders, req: Request, s: State, f: Fixed)
    requires Carries(lang, d, req, f) && StandsFor(lang, f.opType, GREETING) && BadPayload(lang, d, f)
    ensures Effect(PlanOf(lang, d, req), s) == s
    ensures var r := Answer(PlanOf(lang, d, req), s);
            r.Result? && r == Result(Addressed(lang, req, f), 0, r.log, "0.1.0", NoPayload) && "error: decoding request: " <= r.log
  {
    hide PlanOf, HexBytes, Bytes32Hex, Undecodable, StandsFor, PlanRouted, Effect, Answer, Addressed;
    assert SAY_GOODBYE != SAY_HELLO by { IdentifiersDistinct(); }
    var hello := StandsFor(lang, f.opCommand, SAY_HELLO) && Undecodable(lang, f.originalMessage, d.hello);
    UndecodableBytes(lang, f.originalMessage, d.hello);
    UndecodableBytes(lang, f.originalMessage, d.goodbye);
    RoutedPlan(lang, d, req, f, if hello then SAY_HELLO else SAY_GOODBYE);
    RoutedFailure(lang, d, Addressed(lang, req, f), if hello then SayHello else SayGoodbye, f.originalMessage, s);
  }

  /** An empty name: the same, with this explanation. */
  lemma EmptyNameFails(lang: Lang, d: Decoders, req: Request, s: State, f: Fixed)
    requires Carries(lang, d, req, f) && StandsFor(lang, f.opType, GREETING) && NoName(lang, d, f)
    ensures Effect(PlanOf(lang, d, req), s) == s
    ensures Answer(PlanOf(lang, d, req), s) == Result(Addressed(lang, req, f), 0, "error: name must not be empty", "0.1.0", NoPayload)
  {
    hide PlanOf, HexBytes, Bytes32Hex, Denotes, StandsFor, PlanRouted, Effect, Answer, Addressed;
    assert SAY_GOODBYE != SAY_HELLO by { IdentifiersDistinct(); }
    var b :| Denotes(lang, f.originalMessage, b) && Nameless(lang, d, f, b);
    var hello := StandsFor(lang, f.opCommand, SAY_HELLO) && d.hello(b) == Some("");
    DenotesIsHexBytes(lang, f.originalMessage, b);
    RoutedPlan(lang, d, req, f, if hello then SAY_HELLO else SAY_GOODBYE);
    RoutedFailure(lang, d, Addressed(lang, req, f), if hello then SayHello else SayGoodbye, f.originalMessage, s);
  }

  /** GET /state shows the four fields, under the version as bytes32, and changes none. */
  lemma StateIsShown(lang: Lang, d: Decoders, req: Request, s: State)
    requires At(req.path, "/state") && req.verb == GET
    ensures Effect(PlanOf(lang, d, req), s) == s
    ensures Answer(PlanOf(lang, d, req), s) ==
            Snapshot("0x" + ("302e312e30" + Zeros64(54)), State(s.greetingCount, s.lastGreeting, s.farewellCount, s.lastFarewell))
  {
    AtIsCleanPath(req.path, "/state");
    VersionOnTheWire();
    hide CleanPath, Bytes32Hex;
  }

  // --- the refusals ------------------------------------------------------------------------------------------

  /** Dispatch knows the command. */
  predicate Known(lang: Lang, f: Fixed) {
    StandsFor(lang, f.opType, GREETING) && (StandsFor(lang, f.opCommand, SAY_HELLO) || StandsFor(lang, f.opCommand, SAY_GOODBYE))
  }

  lemma KnownIsRouted(lang: Lang, f: Fixed)
    ensures Known(lang, f) <==> Resolve(ROUTES, Identifier(lang, f.opType), Identifier(lang, f.opCommand)).Some?
  {
    hide StandsFor, Bytes32Hex, Identifier, Resolve;
    StandsForIsIdentifier(lang, f.opType, GREETING);
    StandsForIsIdentifier(lang, f.opCommand, SAY_HELLO);
    StandsForIsIdentifier(lang, f.opCommand, SAY_GOODBYE);
    RoutesAreASwitch(Identifier(lang, f.opType), Identifier(lang, f.opCommand));
  }

  lemma RoutedNotRefused(lang: Lang, d: Decoders, echo: Echo, handler: Handler, message: string)
    ensures !PlanRouted(lang, d, echo, handler, message).Refuse? && !PlanRouted(lang, d, echo, handler, message).Report?
  {}

  lemma FixedRefusals(lang: Lang, d: Decoders, id: string, tag: string, f: Fixed)
    ensures var plan := PlanFixed(lang, d, id, tag, f);
            && (plan == Refuse(400) <==> !WellFormed(lang, id, f))
            && (plan == Refuse(501) <==> WellFormed(lang, id, f) && !Known(lang, f))
            && (plan.Refuse? ==> plan == Refuse(400) || plan == Refuse(501)) && !plan.Report?
  {
    hide WellFormed, Known, Identifier, Resolve, PlanRouted, Bytes32Hex, LogText;
    KnownIsRouted(lang, f);
    if handler :| Resolve(ROUTES, Identifier(lang, f.opType), Identifier(lang, f.opCommand)) == Some(handler) {
      RoutedNotRefused(lang, d, Echo(Echoed(lang, id), tag, Echoed(lang, f.opType), Echoed(lang, f.opCommand)), handler, f.originalMessage);
    }
  }

  lemma ActionRefusals(lang: Lang, d: Decoders, req: Request)
    requires At(req.path, "/action") && req.verb == POST
    ensures var plan := PlanOf(lang, d, req);
            && (plan == Refuse(400) <==> forall f :: !Carries(lang, d, req, f))
            && (plan == Refuse(501) <==> exists f :: Carries(lang, d, req, f) && !Known(lang, f))
            && (plan.Refuse? ==> plan == Refuse(400) || plan == Refuse(501)) && !plan.Report?
  {
    hide PlanFixed, HexBytes, Denotes, WellFormed, Welcome, CleanPath, At, Known;
    AtIsCleanPath(req.path, "/action");
    if req.body.Envelope? {
      var message := req.body.message;
      forall b ensures Denotes(lang, message, b) <==> HexBytes(lang, message) == Some(b) { DenotesIsHexBytes(lang, message, b); }
      if HexBytes(lang, message).Some? && d.fixed(HexBytes(lang, message).value).Some? {
        var f := d.fixed(HexBytes(lang, message).value).value;
        FixedRefusals(lang, d, req.body.id, req.body.submissionTag, f);
        WelcomeIsWellFormed(lang, req.body.id, f);
        assert Carries(lang, d, req, f) <==> Welcome(lang, req.body.id, f);
        assert forall g :: Carries(lang, d, req, g) ==> g == f;
      }
    }
  }

  /** Each refusal occurs on its own requests and no others: 404 off the two routes, 405 with the
      wrong verb, 400 for a POST that carries no usable envelope, 501 for a command that dispatch
      does not know. */
  lemma RefusedExactlyWhen(lang: Lang, d: Decoders, req: Request, s: State)
    ensures var r := Answer(PlanOf(lang, d, req), s);
            && (r == Refused(404) <==> !At(req.path, "/action") && !At(req.path, "/state"))
            && (r == Refused(405) <==> (At(req.path, "/action") && req.verb != POST) || (At(req.path, "/state") && req.verb != GET))
            && (r == Refused(400) <==> At(req.path, "/action") && req.verb == POST && forall f :: !Carries(lang, d, req, f))
            && (r == Refused(501) <==> exists f :: Carries(lang, d, req, f) && !Known(lang, f))
            && (r.Refused? ==> r.code == 404 || r.code == 405 || r.code == 400 || r.code == 501)
            && (r.Refused? ==> Effect(PlanOf(lang, d, req), s) == s)
  {
    hide PlanAction, CleanPath, At, Known, Carries;
    AtIsCleanPath(req.path, "/action");
    AtIsCleanPath(req.path, "/state");
    assert forall f :: Carries(lang, d, req, f) ==> At(req.path, "/action") && req.verb == POST by { CarriesPosts(lang, d, req); }
    if At(req.path, "/action") && req.verb == POST { ActionRefusals(lang, d, req); }
  }

  lemma CarriesPosts(lang: Lang, d: Decoders, req: Request)
    ensures forall f :: Carries(lang, d, req, f) ==> At(req.path, "/action") && req.verb == POST
  {}

  // --- when the counters move --------------------------------------------------------------------------------

  /** The request is a hello, or a goodbye, with a name. */
  ghost predicate IsHello(lang: Lang, d: Decoders, req: Request) {
    exists f, b :: Carries(lang, d, req, f) && StandsFor(lang, f.opType, GREETING) && StandsFor(lang, f.opCommand, SAY_HELLO)
                   && Denotes(lang, f.originalMessage, b) && d.hello(b).Some? && d.hello(b).value != ""
  }

  ghost predicate IsGoodbye(lang: Lang, d: Decoders, req: Request) {
    exists f, b :: Carries(lang, d, req, f) && StandsFor(lang, f.opType, GREETING) && StandsFor(lang, f.opCommand, SAY_GOODBYE)
                   && Denotes(lang, f.originalMessage, b) && d.goodbye(b).Some? && d.goodbye(b).value.0 != ""
  }

  /** A counter moves exactly on its own requests, by one, and takes its text with it. */
  lemma CountersMoveExactlyWhen(lang: Lang, d: Decoders, req: Request, s: State)
    ensures var t := Effect(PlanOf(lang, d, req), s);
            && (t.greetingCount != s.greetingCount <==> IsHello(lang, d, req))
            && (t.farewellCount != s.farewellCount <==> IsGoodbye(lang, d, req))
            && (!IsHello(lang, d, req) ==> t.lastGreeting == s.lastGreeting)
            && (!IsGoodbye(lang, d, req) ==> t.lastFarewell == s.lastFarewell)
  {
    hide PlanOf, Carries, StandsFor, Denotes, Bytes32Hex, Effect, Answer;
    if IsHello(lang, d, req) {
      var f, b :| Carries(lang, d, req, f) && StandsFor(lang, f.opType, GREETING) && StandsFor(lang, f.opCommand, SAY_HELLO)
                  && Denotes(lang, f.originalMessage, b) && d.hello(b).Some? && d.hello(b).value != "";
      HelloCounts(lang, d, req, s, f, b, d.hello(b).value);
    }
    if IsGoodbye(lang, d, req) {
      var f, b :| Carries(lang, d, req, f) && StandsFor(lang, f.opType, GREETING) && StandsFor(lang, f.opCommand, SAY_GOODBYE)
                  && Denotes(lang, f.originalMessage, b) && d.goodbye(b).Some? && d.goodbye(b).value.0 != "";
      GoodbyeCounts(lang, d, req, s, f, b, d.goodbye(b).value.0, d.goodbye(b).value.1);
    }
    if !IsHello(lang, d, req) && !IsGoodbye(lang, d, req) {
      OtherwiseStill(lang, d, req, s);
    }
  }

  /** Any other request leaves the state as it was. */
  lemma OtherwiseStill(lang: Lang, d: Decoders, req: Request, s: State)
    requires !IsHello(lang, d, req) && !IsGoodbye(lang, d, req)
    ensures Effect(PlanOf(lang, d, req), s) == s
  {
    hide PlanOf, Carries, Known, At, Effect, Answer, IsHello, IsGoodbye;
    RefusedExactlyWhen(lang, d, req, s);
    if f :| Carries(lang, d, req, f) {
      if Known(lang, f) { KnownStill(lang, d, req, s, f); }
    } else if At(req.path, "/state") && req.verb == GET {
      StateIsShown(lang, d, req, s);
    }
  }

  lemma KnownStill(lang: Lang, d: Decoders, req: Request, s: State, f: Fixed)
    requires Carries(lang, d, req, f) && Known(lang, f) && !IsHello(lang, d, req) && !IsGoodbye(lang, d, req)
    ensures Effect(PlanOf(lang, d, req), s) == s
  {
    hide PlanOf, Carries, Denotes, Bytes32Hex, StandsFor, HexBytes, Effect, Answer, Undecodable;
    UndecodableBytes(lang, f.originalMessage, d.hello);
    UndecodableBytes(lang, f.originalMessage, d.goodbye);
    if BadPayload(lang, d, f) {
      UndecodableFails(lang, d, req, s, f);
    } else {
      var b := HexBytes(lang, f.originalMessage).value;
      DenotesIsHexBytes(lang, f.originalMessage, b);
      assert Nameless(lang, d, f, b);
      EmptyNameFails(lang, d, req, s, f);
    }
  }

  // --- the data on the wire ----------------------------------------------------------------------------------

  /** The payload is one JSON object of two fields: the text, which any reader gets back, and the
      number in decimal. Without payload it is empty. */
  lemma DataOnTheWire(lang: Lang, text: string, n: nat)
    ensures DataText(lang, NoPayload) == ""
    ensures DataText(lang, Numbered(Greetings, text, n)) ==
            "{\"greeting\":\"" + EscapeAll(lang, text) + ("\",\"greetingNumber\":" + Decimal(n) + "}")
    ensures DataText(lang, Numbered(Farewells, text, n)) ==
            "{\"farewell\":\"" + EscapeAll(lang, text) + ("\",\"farewellNumber\":" + Decimal(n) + "}")
    ensures ReadAll(EscapeAll(lang, text)) == Some(text)
    ensures (forall i :: 0 <= i < |Decimal(n)| ==> '0' <= Decimal(n)[i] <= '9') && Number(Decimal(n)) == n
  {
    WrittenTextReads(lang, text);
    WrittenNumberReads(n);
    hide EscapeAll, Decimal, ReadAll, Number;
    assert "{\"" + "greeting" + "\":\"" == "{\"greeting\":\"" && "\",\"" + "greetingNumber" + "\":" == "\",\"greetingNumber\":";
    assert "{\"" + "farewell" + "\":\"" == "{\"farewell\":\"" && "\",\"" + "farewellNumber" + "\":" == "\",\"farewellNumber\":";
  }
}
