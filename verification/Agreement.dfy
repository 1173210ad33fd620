/** The three implementations, request for request. */
module Agreement {
  import opened Wrappers
  import opened Encoding
  import opened Dispatch
  import opened Json
  import opened Contract

  predicate StartsLikeHex(s: string) {
    "0x" <= s && !("0x0X" <= s) && Spaceless(s)
  }

  predicate CanonicalHash(s: string) {
    IsHash(s) && Lower(s) == s
  }

  /** A complete request in the shape tee-node sends: identifiers are full lower-case bytes32 and
      the payload is hex; the message itself may be malformed in any other way. */
  predicate Canonical(d: Decoders, req: Request) {
    req.body.Envelope? ==>
      && CanonicalHash(req.body.id)
      && StartsLikeHex(req.body.message)
      && (Decode(req.body.message).Some? && d.fixed(Decode(req.body.message).value).Some? ==>
            var f := d.fixed(Decode(req.body.message).value).value;
            && CanonicalHash(f.opType) && CanonicalHash(f.opCommand)
            && StartsLikeHex(f.originalMessage) && Decode(f.originalMessage).Some?)
  }

  /** Equal but for the wording of an error log. */
  predicate SameReply(a: Reply, b: Reply) {
    || a == b
    || (a.Result? && b.Result? && a.status == 0 && b.status == 0 && a.(log := b.log) == b
        && "error: " <= a.log && "error: " <= b.log)
  }

  predicate SamePlan(a: Plan, b: Plan) {
    || a == b
    || (a.Fail? && b.Fail? && a.echo == b.echo && "error: " <= a.log && "error: " <= b.log)
  }

  lemma HexAgrees(lang: Lang, s: string)
    requires StartsLikeHex(s)
    ensures HexBytes(lang, s) == Decode(s)
  {
    DecodersAgree(s);
  }

  lemma RoutedAgrees(lang: Lang, d: Decoders, echo: Echo, handler: Handler, message: string)
    requires StartsLikeHex(message)
    ensures SamePlan(PlanRouted(Go, d, echo, handler, message), PlanRouted(lang, d, echo, handler, message))
  {
    hide Decode;
    HexAgrees(Go, message);
    HexAgrees(lang, message);
  }

  lemma HashIdentifier(lang: Lang, s: string)
    requires CanonicalHash(s)
    ensures Identifier(lang, s) == s && Echoed(lang, s) == s
  {}

  lemma FixedAgrees(lang: Lang, d: Decoders, id: string, tag: string, f: Fixed)
    requires CanonicalHash(id) && CanonicalHash(f.opType) && CanonicalHash(f.opCommand)
    requires StartsLikeHex(f.originalMessage) && Decode(f.originalMessage).Some?
    ensures SamePlan(PlanFixed(Go, d, id, tag, f), PlanFixed(lang, d, id, tag, f))
  {
    hide Resolve, PlanRouted, Decode, Identifier, Echoed;
    HashIdentifier(Go, f.opType);
    HashIdentifier(Go, f.opCommand);
    HashIdentifier(Go, id);
    HashIdentifier(lang, f.opType);
    HashIdentifier(lang, f.opCommand);
    HashIdentifier(lang, id);
    HexAgrees(Go, f.originalMessage);
    var echo := Echo(id, tag, f.opType, f.opCommand);
    var handler := Resolve(ROUTES, f.opType, f.opCommand);
    if handler.Some? {
      RoutedAgrees(lang, d, echo, handler.value, f.originalMessage);
    }
  }

  /** Any two implementations make the same of a canonical request. */
  lemma PlansAgree(a: Lang, b: Lang, d: Decoders, req: Request)
    requires Canonical(d, req)
    ensures SamePlan(PlanOf(a, d, req), PlanOf(b, d, req))
  {
    hide PlanFixed, Decode, CleanPath, HexBytes;
    if req.body.Envelope? {
      HexAgrees(Go, req.body.message);
      HexAgrees(a, req.body.message);
      HexAgrees(b, req.body.message);
      var bytes := Decode(req.body.message);
      if bytes.Some? && d.fixed(bytes.value).Some? {
        var f := d.fixed(bytes.value).value;
        FixedAgrees(a, d, req.body.id, req.body.submissionTag, f);
        FixedAgrees(b, d, req.body.id, req.body.submissionTag, f);
      }
    }
  }

  ghost function Plans(lang: Lang, d: Decoders, reqs: seq<Request>): (r: seq<Plan>)
    ensures |r| == |reqs|
  {
    seq(|reqs|, i requires 0 <= i < |reqs| => PlanOf(lang, d, reqs[i]))
  }

  /** Over any sequence of canonical requests any two implementations end in the same state and
      answer alike: same HTTP statuses, same result fields, up to the wording of errors. */
  lemma {:induction false} ImplementationsAgree(a: Lang, b: Lang, d: Decoders, reqs: seq<Request>)
    requires forall i :: 0 <= i < |reqs| ==> Canonical(d, reqs[i])
    ensures Serve(Plans(a, d, reqs)) == Serve(Plans(b, d, reqs))
    ensures forall i :: 0 <= i < |reqs| ==>
              && SameReply(Replies(Plans(a, d, reqs))[i], Replies(Plans(b, d, reqs))[i])
              && HttpStatus(Replies(Plans(a, d, reqs))[i]) == HttpStatus(Replies(Plans(b, d, reqs))[i])
  {
    if reqs != [] {
      var n := |reqs| - 1;
      hide PlanOf, Canonical;
      ImplementationsAgree(a, b, d, reqs[..n]);
      PlansAgree(a, b, d, reqs[n]) by { assert Canonical(d, reqs[n]); }
      var p, q := Plans(a, d, reqs), Plans(b, d, reqs);
      assert p[..n] == Plans(a, d, reqs[..n]) && q[..n] == Plans(b, d, reqs[..n]);
      assert SamePlan(p[n], q[n]);
    }
  }

  // --- the signed payload bytes ----------------------------------------------------------------

  lemma AlikeJoined(a: Lang, b: Lang, s: string, t: string)
    ensures AllAlike(a, b, s + t) <==> AllAlike(a, b, s) && AllAlike(a, b, t)
  {
    var u := s + t;
    if AllAlike(a, b, u) {
      forall i | 0 <= i < |s| ensures WrittenAlike(a, b, s[i]) { assert u[i] == s[i]; }
      forall i | 0 <= i < |t| ensures WrittenAlike(a, b, t[i]) { assert u[|s| + i] == t[i]; }
    }
  }

  /** Two implementations sign the same greeting bytes exactly when their JSON writers treat every
      character of the name alike. */
  lemma GreetingBytesAgree(a: Lang, b: Lang, name: string, number: nat)
    ensures DataText(a, Numbered(Greetings, Greeting(name), number)) == DataText(b, Numbered(Greetings, Greeting(name), number))
            <==> AllAlike(a, b, name)
  {
    assert AllAlike(a, b, "Hello, ") && AllAlike(a, b, "! Welcome to Flare Confidential Compute.");
    hide Payload, WrittenAlike, AllAlike;
    PayloadAlike(a, b, "greeting", Greeting(name), "greetingNumber", number);
    AlikeJoined(a, b, "Hello, " + name, "! Welcome to Flare Confidential Compute.");
    AlikeJoined(a, b, "Hello, ", name);
  }

  lemma FarewellBytesAgree(a: Lang, b: Lang, name: string, reason: string, number: nat)
    ensures DataText(a, Numbered(Farewells, Farewell(name, reason), number)) == DataText(b, Numbered(Farewells, Farewell(name, reason), number))
            <==> AllAlike(a, b, name) && AllAlike(a, b, reason)
  {
    hide Payload;
    PayloadAlike(a, b, "farewell", Farewell(name, reason), "farewellNumber", number);
    AlikeJoined(a, b, "Goodbye, " + name + "! Reason: ", reason);
    AlikeJoined(a, b, "Goodbye, " + name, "! Reason: ");
    AlikeJoined(a, b, "Goodbye, ", name);
  }

  /** Byte-exactness across all three is not automatic: it holds exactly for names of ASCII
      below DEL without '<', '>' and '&'. */
  lemma SignedBytesPortable(name: string, number: nat)
    ensures (forall a, b :: DataText(a, Numbered(Greetings, Greeting(name), number)) == DataText(b, Numbered(Greetings, Greeting(name), number)))
            <==> AllPortable(name)
  {
    forall a, b ensures DataText(a, Numbered(Greetings, Greeting(name), number)) == DataText(b, Numbered(Greetings, Greeting(name), number))
                        <==> AllAlike(a, b, name)
    {
      GreetingBytesAgree(a, b, name, number);
    }
    hide DataText, Greeting;
    AllThreeAlike(name);
    if AllPortable(name) {
      forall a, b ensures AllAlike(a, b, name) {}
    }
  }

  /** The same for farewells, whose reason is signed too. */
  lemma SignedFarewellsPortable(name: string, reason: string, number: nat)
    ensures (forall a, b :: DataText(a, Numbered(Farewells, Farewell(name, reason), number)) == DataText(b, Numbered(Farewells, Farewell(name, reason), number)))
            <==> AllPortable(name) && AllPortable(reason)
  {
    hide DataText, Farewell;
    forall a, b ensures DataText(a, Numbered(Farewells, Farewell(name, reason), number)) == DataText(b, Numbered(Farewells, Farewell(name, reason), number))
                        <==> AllAlike(a, b, name) && AllAlike(a, b, reason)
    {
      FarewellBytesAgree(a, b, name, reason, number);
    }
    AllThreeAlike(name);
    AllThreeAlike(reason);
    if AllPortable(name) && AllPortable(reason) {
      forall a, b ensures AllAlike(a, b, name) && AllAlike(a, b, reason) {}
    }
  }

  /** A name the writers disagree on: an ampersand, escaped by Go alone. */
  lemma AmpersandDiffers(number: nat)
    ensures DataText(Go, Numbered(Greetings, Greeting("A&B"), number)) != DataText(Python, Numbered(Greetings, Greeting("A&B"), number))
    ensures DataText(Go, Numbered(Greetings, Greeting("A&B"), number)) != DataText(TypeScript, Numbered(Greetings, Greeting("A&B"), number))
  {
    hide DataText, Greeting;
    GreetingBytesAgree(Go, Python, "A&B", number);
    GreetingBytesAgree(Go, TypeScript, "A&B", number);
    assert "A&B"[1] == '&';
  }
}
