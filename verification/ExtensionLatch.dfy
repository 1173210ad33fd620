/** contracts/InstructionSender.sol against an append-only extension registry, and the R2 and R7
    checks of tools/pkg/validate/checks.go that predict what it will latch. */
module ExtensionLatch {
  import opened Wrappers
  import opened Encoding
  import opened ExtensionEnv
  import R = Report

  /** A 160-bit value; 0 is the zero address. */
  type Address = nat

  const FIRST_PUBLIC_EXTENSION_ID: nat := 0x10000

  datatype Registry = Registry(next: nat, senders: map<nat, Address>) {

    /** getTeeExtensionInstructionsSender: unregistered ids read as the zero address. */
    function SenderOf(id: nat): Address {
      if id in senders then senders[id] else 0
    }

    /** A new extension takes the next public id; nothing else ever changes. */
    function Register(sender: Address): Registry {
      Registry(next + 1, senders[next := sender])
    }
  }

  /** Registration only appends: the new sender stands at the old counter, which moves by one, and
      no other id changes hands. */
  lemma RegisterAppends(r: Registry, sender: Address, id: nat)
    ensures r.Register(sender).next == r.next + 1
    ensures r.Register(sender).SenderOf(id) == if id == r.next then sender else r.SenderOf(id)
  {}

  // --- the contract --------------------------------------------------------------------------

  datatype Sent = Sent(extensionId: nat, opCommand: string, value: nat)

  /** The scan from id i on. */
  function Scan(r: Registry, me: Address, i: nat): Option<nat>
    decreases r.next - i
  {
    if i >= r.next then None else if r.SenderOf(i) == me then Some(i) else Scan(r, me, i + 1)
  }

  /** The least public id below the counter that is registered to `me`. */
  ghost predicate IsLatch(r: Registry, me: Address, id: nat) {
    && FIRST_PUBLIC_EXTENSION_ID <= id < r.next && r.SenderOf(id) == me
    && forall j :: FIRST_PUBLIC_EXTENSION_ID <= j < id ==> r.SenderOf(j) != me
  }

  class InstructionSender {
    const me: Address
    var extensionId: nat

    constructor (me: Address)
      ensures this.me == me && extensionId == 0
    {
      this.me := me;
      extensionId := 0;
    }

    /** The contract in a ledger, without the sends. */
    function In(registry: Registry): Ledger
      reads this
    {
      Ledger(registry, extensionId, [])
    }

    /** ok is false when the call reverts. */
    method SetExtensionId(registry: Registry) returns (ok: bool)
      modifies this
      ensures In(registry) == Step(me, old(In(registry)), Action.SetExtensionId)
      ensures ok <==> old(extensionId) == 0 && exists i: nat :: IsLatch(registry, me, i)
      ensures ok ==> IsLatch(registry, me, extensionId)
      ensures !ok ==> extensionId == old(extensionId)
    {
      ScanFindsLeast(registry, me, FIRST_PUBLIC_EXTENSION_ID);
      if extensionId != 0 { return false; }
      var c: int := registry.next;
      var i := FIRST_PUBLIC_EXTENSION_ID;
      while i < c
        invariant FIRST_PUBLIC_EXTENSION_ID <= i && extensionId == 0
        invariant forall j :: FIRST_PUBLIC_EXTENSION_ID <= j < i ==> registry.SenderOf(j) != me
        decreases c - i
      {
        if registry.SenderOf(i) == me {
          extensionId := i;
          assert IsLatch(registry, me, i);
          return true;
        }
        i := i + 1;
      }
      return false;
    }

    /** sendSayHello and sendSayGoodbye: None when any call in them reverts. */
    method Send(opCommand: string, value: nat, teeFound: bool, accepted: bool) returns (r: Option<Sent>)
      ensures r.None? <==> extensionId == 0 || !teeFound || !accepted
      ensures forall registry ::
                Step(me, In(registry), Action.Send(opCommand, value, teeFound, accepted)).sends == if r.Some? then [r.value] else []
    {
      if extensionId == 0 || !teeFound || !accepted { return None; }
      return Some(Sent(extensionId, opCommand, value));
    }
  }

  lemma {:induction false} ScanFindsLeast(r: Registry, me: Address, i: nat)
    requires FIRST_PUBLIC_EXTENSION_ID <= i
    requires forall j :: FIRST_PUBLIC_EXTENSION_ID <= j < i ==> r.SenderOf(j) != me
    ensures forall id: nat :: Scan(r, me, i) == Some(id) <==> IsLatch(r, me, id)
    decreases r.next - i
  {
    if i < r.next && r.SenderOf(i) != me {
      ScanFindsLeast(r, me, i + 1);
    }
  }

  /** Public ids begin at 65536: that one is found, the one below it is not. */
  lemma PublicIdsBegin(me: Address)
    requires me != 0
    ensures Scan(Registry(65537, map[65536 := me]), me, FIRST_PUBLIC_EXTENSION_ID) == Some(65536)
    ensures Scan(Registry(65536, map[65535 := me]), me, FIRST_PUBLIC_EXTENSION_ID) == None
  {}

  // --- the latch over all runs ------------------------------------------------------------------

  datatype Ledger = Ledger(registry: Registry, extensionId: nat, sends: seq<Sent>)

  datatype Action = Register(sender: Address) | SetExtensionId | Send(opCommand: string, value: nat, teeFound: bool, accepted: bool)

  /** One transaction; a reverted one changes nothing. */
  function Step(me: Address, l: Ledger, a: Action): Ledger {
    match a
    case Register(sender) => l.(registry := l.registry.Register(sender))
    case SetExtensionId =>
      if l.extensionId != 0 then l else l.(extensionId := Scan(l.registry, me, FIRST_PUBLIC_EXTENSION_ID).GetOr(0))
    case Send(opCommand, value, teeFound, accepted) =>
      if l.extensionId != 0 && teeFound && accepted then l.(sends := l.sends + [Sent(l.extensionId, opCommand, value)]) else l
  }

  function Run(me: Address, l: Ledger, actions: seq<Action>): Ledger {
    if actions == [] then l else Step(me, Run(me, l, actions[..|actions| - 1]), actions[|actions| - 1])
  }

  ghost predicate LatchInv(me: Address, l: Ledger) {
    && (l.extensionId != 0 ==> IsLatch(l.registry, me, l.extensionId))
    && (forall i :: 0 <= i < |l.sends| ==> l.sends[i].extensionId == l.extensionId != 0)
  }

  lemma StepKeepsLatch(me: Address, l: Ledger, a: Action)
    requires LatchInv(me, l)
    ensures LatchInv(me, Step(me, l, a))
    ensures l.extensionId != 0 ==> Step(me, l, a).extensionId == l.extensionId
  {
    assert l.extensionId == 0 ==> l.sends == [] by {
      if l.sends != [] { assert l.sends[0].extensionId == l.extensionId; }
    }
    if a.Register? {
      assert forall j: nat :: j < l.registry.next ==> l.registry.Register(a.sender).SenderOf(j) == l.registry.SenderOf(j);
    } else if a.SetExtensionId? {
      ScanFindsLeast(l.registry, me, FIRST_PUBLIC_EXTENSION_ID);
    }
  }

  /** From deployment on, in every run: a latched id is the least public id registered to this
      contract in the registry as it now stands, 0 soundly means unset, and every accepted send
      carried that id, so none was accepted before it was latched. */
  lemma {:induction false} LatchIsLeast(me: Address, registry: Registry, actions: seq<Action>)
    ensures LatchInv(me, Run(me, Ledger(registry, 0, []), actions))
  {
    if actions != [] {
      LatchIsLeast(me, registry, actions[..|actions| - 1]);
      StepKeepsLatch(me, Run(me, Ledger(registry, 0, []), actions[..|actions| - 1]), actions[|actions| - 1]);
    }
  }

  /** Once latched, never another id, whatever is registered or called later. */
  lemma {:induction false} LatchNeverChanges(me: Address, registry: Registry, actions: seq<Action>, later: seq<Action>)
    requires Run(me, Ledger(registry, 0, []), actions).extensionId != 0
    ensures Run(me, Ledger(registry, 0, []), actions + later).extensionId == Run(me, Ledger(registry, 0, []), actions).extensionId
    decreases |later|
  {
    var all := actions + later;
    if later == [] {
      assert all == actions;
    } else {
      var n := |later| - 1;
      assert all[..|all| - 1] == actions + later[..n];
      LatchNeverChanges(me, registry, actions, later[..n]);
      LatchIsLeast(me, registry, actions + later[..n]);
      StepKeepsLatch(me, Run(me, Ledger(registry, 0, []), actions + later[..n]), later[n]);
    }
  }

  /** A run has latched exactly when some setExtensionId in it met a registry that listed the contract. */
  ghost predicate Latched(me: Address, registry: Registry, actions: seq<Action>, k: nat) {
    k < |actions| && actions[k].SetExtensionId? && Listed(me, registry, actions[..k])
  }

  /** After these actions the registry lists the contract under a public id. */
  ghost predicate Listed(me: Address, registry: Registry, actions: seq<Action>) {
    exists id: nat :: IsLatch(Run(me, Ledger(registry, 0, []), actions).registry, me, id)
  }

  lemma LatchedBefore(me: Address, registry: Registry, actions: seq<Action>)
    requires actions != []
    ensures var n := |actions| - 1;
            && (forall k: nat :: k < n ==> (Latched(me, registry, actions, k) <==> Latched(me, registry, actions[..n], k)))
            && (forall k: nat :: k >= n ==> !Latched(me, registry, actions[..n], k))
            && (forall k: nat :: k > n ==> !Latched(me, registry, actions, k))
            && (Latched(me, registry, actions, n) <==> actions[n].SetExtensionId? && Listed(me, registry, actions[..n]))
  {
    var n := |actions| - 1;
    forall k: nat | k < n ensures Latched(me, registry, actions, k) <==> Latched(me, registry, actions[..n], k) {
      assert actions[..n][..k] == actions[..k];
    }
  }

  lemma {:induction false} ScanIsPublic(r: Registry, me: Address, i: nat)
    ensures Scan(r, me, i).Some? ==> Scan(r, me, i).value >= i
    decreases r.next - i
  {
    if i < r.next && r.SenderOf(i) != me { ScanIsPublic(r, me, i + 1); }
  }

  lemma {:induction false} SetExactlyWhenLatched(me: Address, registry: Registry, actions: seq<Action>)
    ensures Run(me, Ledger(registry, 0, []), actions).extensionId != 0 <==> exists k: nat :: Latched(me, registry, actions, k)
  {
    if actions != [] {
      var n := |actions| - 1;
      var before := Run(me, Ledger(registry, 0, []), actions[..n]);
      SetExactlyWhenLatched(me, registry, actions[..n]);
      ScanFindsLeast(before.registry, me, FIRST_PUBLIC_EXTENSION_ID);
      LatchedBefore(me, registry, actions);
      hide Latched, Scan, IsLatch;
      ScanIsPublic(before.registry, me, FIRST_PUBLIC_EXTENSION_ID);
    }
  }

  /** A send goes through if and only if an earlier setExtensionId found the contract registered and
      the outside calls succeed; it then carries the least public id registered to the contract. */
  lemma SendsOnlyOnceLatched(me: Address, registry: Registry, actions: seq<Action>, send: Action)
    requires send.Send?
    ensures var before := Run(me, Ledger(registry, 0, []), actions);
            var after := Run(me, Ledger(registry, 0, []), actions + [send]);
            && (after.sends != before.sends <==> send.teeFound && send.accepted && exists k: nat :: Latched(me, registry, actions, k))
            && (after.sends != before.sends ==>
                  && after.sends == before.sends + [Sent(before.extensionId, send.opCommand, send.value)]
                  && IsLatch(after.registry, me, before.extensionId))
  {
    SetExactlyWhenLatched(me, registry, actions);
    LatchIsLeast(me, registry, actions);
    assert (actions + [send])[..|actions|] == actions;
  }

  // --- the deployment checks ------------------------------------------------------------------------

  /** What the chain client answers; None is a failed query. */
  datatype Client = Client(next: Option<nat>, sender: nat -> Option<Address>)

  datatype Outcome = Pass | Warn | Fail | Absent

  function HexValue(digits: string): nat
    requires AllHex(digits)
  {
    if digits == "" then 0 else HexValue(digits[..|digits| - 1]) * 16 + DigitValue(digits[|digits| - 1])
  }

  function IdOf(extensionId: string): nat
    requires IsExtensionId(extensionId)
  {
    HexValue(extensionId[2..])
  }

  function AddressOf(sender: string): Address
    requires IsAddress(sender)
  {
    HexValue(sender[2..])
  }

  /** big.Int.Int64: the low 64 bits, as a signed number. */
  function Int64(n: nat): int {
    var low := n % 0x1_0000_0000_0000_0000;
    if low < 0x8000_0000_0000_0000 then low else low - 0x1_0000_0000_0000_0000
  }

  /** The ids below n that answer with `a`; failed queries are skipped. */
  function Matches(c: Client, a: Address, n: nat): (ids: seq<nat>)
    ensures forall i: nat :: i in ids <==> i < n && c.sender(i) == Some(a)
    ensures forall i, j :: 0 <= i < j < |ids| ==> ids[i] < ids[j]
  {
    if n == 0 then []
    else
      var before := Matches(c, a, n - 1);
      assert forall i :: 0 <= i < |before| ==> before[i] in before;
      if c.sender(n - 1) == Some(a) then before + [n - 1] else before
  }

  ghost predicate R2Passes(c: Client, extensionId: string, sender: string) {
    IsExtensionId(extensionId) && IsAddress(sender) && c.sender(IdOf(extensionId)) == Some(AddressOf(sender))
  }

  ghost predicate R7Passes(c: Client, extensionId: string, sender: string) {
    && IsExtensionId(extensionId) && IsAddress(sender) && c.next.Some? && c.next.value > 0
    && |Matches(c, AddressOf(sender), if Int64(c.next.value) > 0 then Int64(c.next.value) else 0)| <= 1
  }

  /** The R2 and R7 parts of RegisterRegistrationChecks. */
  method RegistrationChecks(c: Client, extensionId: string, sender: string) returns (r2: Outcome, r7: Outcome)
    ensures r2 == Pass <==> R2Passes(c, extensionId, sender)
    ensures r7 == Pass <==> R7Passes(c, extensionId, sender)
    ensures r2 == Fail <==> !IsExtensionId(extensionId) || (IsAddress(sender) && c.sender(IdOf(extensionId)) != Some(AddressOf(sender)))
    ensures r2 == Absent <==> IsExtensionId(extensionId) && !IsAddress(sender)
    ensures r7 == Warn <==> IsExtensionId(extensionId) && IsAddress(sender) && c.next.Some? && c.next.value > 0 && !R7Passes(c, extensionId, sender)
    ensures r7 == Absent <==> !(IsExtensionId(extensionId) && IsAddress(sender) && c.next.Some? && c.next.value > 0)
    ensures r2 != Warn && r7 != Fail
  {
    r2, r7 := Absent, Absent;
    if !IsExtensionId(extensionId) { return Fail, Absent; }
    var id := IdOf(extensionId);
    if IsAddress(sender) {
      var onChainSender := c.sender(id);
      if onChainSender.None? {
        r2 := Fail;
      } else if onChainSender.value == AddressOf(sender) {
        r2 := Pass;
      } else {
        r2 := Fail;
      }
    }
    if c.next.Some? && c.next.value > 0 && IsAddress(sender) {
      var expected := AddressOf(sender);
      var matchingIds: seq<nat> := [];
      var i := 0;
      while i < Int64(c.next.value)
        invariant 0 <= i && (i <= Int64(c.next.value) || i == 0)
        invariant matchingIds == Matches(c, expected, i)
        decreases Int64(c.next.value) - i
      {
        var answer := c.sender(i);
        i := i + 1;
        if answer.None? { continue; }
        if answer.value == expected { matchingIds := matchingIds + [i - 1]; }
      }
      r7 := if |matchingIds| > 1 then Warn else Pass;
    }
  }

  /** A check's line in the report, by its outcome; none for a check that was not asked. */
  function LineOf(id: string, outcome: Outcome): seq<R.CheckResult> {
    match outcome
    case Pass => [R.CheckResult("register", id, "", R.PASS, "", "")]
    case Warn => [R.CheckResult("register", id, "", R.WARN, "", "")]
    case Fail => [R.CheckResult("register", id, "", R.FAIL, "", "")]
    case Absent => []
  }

  ghost predicate SomeFail(results: seq<R.CheckResult>) {
    exists r :: r in results && r.status == R.FAIL
  }

  /** What the two checks do to the verdict: a report that held no failure holds one exactly if the
      extension id is malformed, or the sender is well-formed and the chain names another, or could
      not be asked. Without a well-formed sender neither check speaks. R7 only ever warns. */
  method AddRegistrationChecks(c: Client, extensionId: string, sender: string, report: R.Report)
    requires report.Valid()
    modifies report, report.backing
    ensures report.Valid()
    ensures old(report.Results()) <= report.Results()
    ensures SomeFail(report.Results()) <==>
              || SomeFail(old(report.Results()))
              || !IsExtensionId(extensionId)
              || (IsAddress(sender) && c.sender(IdOf(extensionId)) != Some(AddressOf(sender)))
  {
    hide HexValue, Matches, IsExtensionId, IsAddress;
    var r2, r7 := RegistrationChecks(c, extensionId, sender);
    ghost var before := report.Results();
    var lines := LineOf("R2", r2) + LineOf("R7", r7);
    for i := 0 to |lines|
      invariant report.Valid() && (report.backing == old(report.backing) || fresh(report.backing))
      invariant report.Results() == before + lines[..i]
    {
      report.Add(lines[i]);
      assert before + lines[..i] + [lines[i]] == before + lines[..i + 1];
    }
    assert lines[..|lines|] == lines;
    FailsJoined(before, LineOf("R2", r2), LineOf("R7", r7));
    LineFails("R2", r2);
    LineFails("R7", r7);
    assert before + (LineOf("R2", r2) + LineOf("R7", r7)) == before + LineOf("R2", r2) + LineOf("R7", r7);
  }

  lemma FailsJoined(a: seq<R.CheckResult>, b: seq<R.CheckResult>, c: seq<R.CheckResult>)
    ensures SomeFail(a + b + c) <==> SomeFail(a) || SomeFail(b) || SomeFail(c)
  {
    assert forall r :: r in a + b + c <==> r in a || r in b || r in c;
  }

  lemma LineFails(id: string, outcome: Outcome)
    ensures SomeFail(LineOf(id, outcome)) <==> outcome == Fail
  {
    if outcome == Fail { assert LineOf(id, outcome)[0] in LineOf(id, outcome); }
  }

  /** A counter beyond int64 turns negative: R7 asks nothing and passes. */
  lemma HugeCounterPasses(c: Client, extensionId: string, sender: string)
    requires IsExtensionId(extensionId) && IsAddress(sender)
    requires c.next.Some? && 0x8000_0000_0000_0000 <= c.next.value < 0x1_0000_0000_0000_0000
    ensures R7Passes(c, extensionId, sender)
  {
    hide HexValue, HexOfLength;
    assert Matches(c, AddressOf(sender), 0) == [];
  }

  // --- the verifier predicts the contract --------------------------------------------------------------

  /** The counter and every answer given come from one registry snapshot; queries may fail. */
  ghost predicate Truthful(c: Client, r: Registry) {
    c.next == Some(r.next) && forall id: nat :: c.sender(id).Some? ==> c.sender(id).value == r.SenderOf(id)
  }

  /** When R2 and R7 pass on the values in extension.env, an unset contract at that address latches
      exactly the EXTENSION_ID of the file if and only if that id is public and below the counter
      and no public id below it that went unanswered is registered to the contract. */
  lemma VerifierPredictsLatch(content: string, c: Client, r: Registry)
    requires Truthful(c, r) && r.next < 0x8000_0000_0000_0000
    requires R2Passes(c, Value(Some(content), EXTENSION_ID), Value(Some(content), INSTRUCTION_SENDER))
    requires R7Passes(c, Value(Some(content), EXTENSION_ID), Value(Some(content), INSTRUCTION_SENDER))
    ensures var id := IdOf(Value(Some(content), EXTENSION_ID));
            var me := AddressOf(Value(Some(content), INSTRUCTION_SENDER));
            Scan(r, me, FIRST_PUBLIC_EXTENSION_ID) == Some(id) <==>
              && FIRST_PUBLIC_EXTENSION_ID <= id < r.next
              && forall j: nat :: FIRST_PUBLIC_EXTENSION_ID <= j < id && c.sender(j).None? ==> r.SenderOf(j) != me
  {
    hide Value, HexValue, Matches, Scan;
    UniqueMatchIsLatch(c, r, AddressOf(Value(Some(content), INSTRUCTION_SENDER)), IdOf(Value(Some(content), EXTENSION_ID)));
  }

  lemma UniqueMatchIsLatch(c: Client, r: Registry, me: Address, id: nat)
    requires Truthful(c, r) && c.sender(id) == Some(me) && |Matches(c, me, r.next)| <= 1
    ensures Scan(r, me, FIRST_PUBLIC_EXTENSION_ID) == Some(id) <==>
              && FIRST_PUBLIC_EXTENSION_ID <= id < r.next
              && forall j: nat :: FIRST_PUBLIC_EXTENSION_ID <= j < id && c.sender(j).None? ==> r.SenderOf(j) != me
  {
    ScanFindsLeast(r, me, FIRST_PUBLIC_EXTENSION_ID);
    var ids := Matches(c, me, r.next);
    if FIRST_PUBLIC_EXTENSION_ID <= id < r.next {
      assert id in ids;
      forall j: nat | j < id && c.sender(j).Some? ensures r.SenderOf(j) != me {
        assert j in ids ==> |ids| > 1;
      }
    }
  }

  /** The registry agrees with every answer R2 and R7 asked for. */
  ghost predicate Consistent(c: Client, r: Registry, id: nat) {
    && c.next == Some(r.next)
    && forall j: nat :: (j < r.next || j == id) && c.sender(j).Some? ==> c.sender(j).value == r.SenderOf(j)
  }

  /** What a pass proves, told from the answers alone: every registry that could have given them
      latches the file's id, if and only if that id is public and below the counter and every
      query for a public id below it was answered. */
  lemma PassProvesLatch(content: string, c: Client)
    requires c.next.Some? && c.next.value < 0x8000_0000_0000_0000
    requires R2Passes(c, Value(Some(content), EXTENSION_ID), Value(Some(content), INSTRUCTION_SENDER))
    requires R7Passes(c, Value(Some(content), EXTENSION_ID), Value(Some(content), INSTRUCTION_SENDER))
    ensures var id := IdOf(Value(Some(content), EXTENSION_ID));
            var me := AddressOf(Value(Some(content), INSTRUCTION_SENDER));
            (forall r :: Consistent(c, r, id) ==> Scan(r, me, FIRST_PUBLIC_EXTENSION_ID) == Some(id)) <==>
              && FIRST_PUBLIC_EXTENSION_ID <= id < c.next.value
              && forall j: nat :: FIRST_PUBLIC_EXTENSION_ID <= j < id ==> c.sender(j).Some?
  {
    hide Value, HexValue, Matches, Scan;
    var id := IdOf(Value(Some(content), EXTENSION_ID));
    var me := AddressOf(Value(Some(content), INSTRUCTION_SENDER));
    forall r | Consistent(c, r, id)
      ensures Scan(r, me, FIRST_PUBLIC_EXTENSION_ID) == Some(id) <==>
              && FIRST_PUBLIC_EXTENSION_ID <= id < r.next
              && forall j: nat :: FIRST_PUBLIC_EXTENSION_ID <= j < id && c.sender(j).None? ==> r.SenderOf(j) != me
    {
      var asked := Client(c.next, (j: nat) => if j < r.next || j == id then c.sender(j) else None);
      MatchesBelow(c, asked, me, r.next);
      UniqueMatchIsLatch(asked, r, me, id);
    }
    var w := Worst(c, me, id);
    assert Consistent(c, w, id);
    assert forall j: nat :: j < w.next && c.sender(j).None? ==> w.SenderOf(j) == me;
  }

  /** The consistent registry in which every unanswered id is registered to `me`. */
  ghost function Worst(c: Client, me: Address, id: nat): Registry
    requires c.next.Some?
  {
    Registry(c.next.value, map j: nat | j < c.next.value + id + 1 :: c.sender(j).GetOr(me))
  }

  lemma {:induction false} MatchesBelow(c: Client, d: Client, a: Address, n: nat)
    requires forall i: nat :: i < n ==> c.sender(i) == d.sender(i)
    ensures Matches(c, a, n) == Matches(d, a, n)
  {
    if n > 0 { MatchesBelow(c, d, a, n - 1); }
  }

  lemma TwoMatchesDiffer(ids: seq<nat>, id: nat)
    requires |ids| > 1 && forall i, j :: 0 <= i < j < |ids| ==> ids[i] < ids[j]
    ensures exists other :: other in ids && other != id
  {
    assert ids[0] in ids && ids[1] in ids && ids[0] < ids[1];
  }

  /** The two ways a pass misleads. R7 skips a query that fails: here that hides the lower of two
      registrations, which is the one the contract latches. */
  lemma UnansweredQueryMisleads(extensionId: string, sender: string)
    requires IsExtensionId(extensionId) && IsAddress(sender)
    requires IdOf(extensionId) == 0x10001 && AddressOf(sender) != 0
    ensures var me := AddressOf(sender);
            var r := Registry(0x10002, map[0x10000 := me, 0x10001 := me]);
            var c := Client(Some(r.next), id => if id == 0x10000 then None else Some(r.SenderOf(id)));
            && Truthful(c, r) && R2Passes(c, extensionId, sender) && R7Passes(c, extensionId, sender)
            && Scan(r, me, FIRST_PUBLIC_EXTENSION_ID) == Some(0x10000)
  {
    hide HexValue;
    var me := AddressOf(sender);
    var r := Registry(0x10002, map[0x10000 := me, 0x10001 := me]);
    var c := Client(Some(r.next), (id: nat) => if id == 0x10000 then None else Some(r.SenderOf(id)));
    var ids := Matches(c, me, r.next);
    if |ids| > 1 { TwoMatchesDiffer(ids, 0x10001); }
    ScanFindsLeast(r, me, FIRST_PUBLIC_EXTENSION_ID);
    assert IsLatch(r, me, 0x10000);
  }

  /** Neither check asks whether the id is public: a registration under a reserved id passes both,
      every query answered, and setExtensionId reverts. */
  lemma ReservedIdMisleads(extensionId: string, sender: string)
    requires IsExtensionId(extensionId) && IsAddress(sender)
    requires IdOf(extensionId) < FIRST_PUBLIC_EXTENSION_ID && AddressOf(sender) != 0
    ensures var id, me := IdOf(extensionId), AddressOf(sender);
            var r := Registry(FIRST_PUBLIC_EXTENSION_ID, map[id := me]);
            var c := Client(Some(r.next), id => Some(r.SenderOf(id)));
            && Truthful(c, r) && R2Passes(c, extensionId, sender) && R7Passes(c, extensionId, sender)
            && Scan(r, me, FIRST_PUBLIC_EXTENSION_ID) == None
  {
    hide HexValue;
    var id, me := IdOf(extensionId), AddressOf(sender);
    var r := Registry(FIRST_PUBLIC_EXTENSION_ID, map[id := me]);
    var c := Client(Some(r.next), (id: nat) => Some(r.SenderOf(id)));
    var ids := Matches(c, me, r.next);
    if |ids| > 1 { TwoMatchesDiffer(ids, id); }
  }

  // --- values to which the two apply ------------------------------------------------------------------------

  /** `digits` as a prefixed hex number of n digits. */
  function Written(n: nat, digits: string): string
    requires |digits| <= n
  {
    "0x" + (seq(n - |digits|, _ => '0') + digits)
  }

  lemma WrittenReads(n: nat, digits: string)
    requires |digits| <= n && AllHex(digits)
    ensures HexOfLength(Written(n, digits), n) && HexValue(Written(n, digits)[2..]) == HexValue(digits)
  {
    LeadingZeros(n - |digits|, digits);
    assert Written(n, digits)[2..] == seq(n - |digits|, _ => '0') + digits;
  }

  lemma SmallNumbers()
    ensures AllHex("10001") && HexValue("10001") == 0x10001
    ensures AllHex("ffff") && HexValue("ffff") == 0xffff
    ensures AllHex("1") && HexValue("1") == 1
  {
    assert "10001"[..4] == "1000" && "1000"[..3] == "100" && "100"[..2] == "10" && "10"[..1] == "1" && "1"[..0] == "";
    assert "ffff"[..3] == "fff" && "fff"[..2] == "ff" && "ff"[..1] == "f" && "f"[..0] == "";
  }

  lemma MisleadingValues()
    ensures var high, reserved, sender := Written(64, "10001"), Written(64, "ffff"), Written(40, "1");
            && IsExtensionId(high) && IdOf(high) == 0x10001
            && IsExtensionId(reserved) && IdOf(reserved) == 0xffff
            && IsAddress(sender) && AddressOf(sender) == 1
  {
    SmallNumbers();
    hide HexValue, AllHex, Written;
    WrittenReads(64, "10001");
    WrittenReads(64, "ffff");
    WrittenReads(40, "1");
  }

  /** Any number of leading zeros leaves a hex number what it is. */
  lemma {:induction false} LeadingZeros(n: nat, digits: string)
    requires AllHex(digits)
    ensures AllHex(seq(n, _ => '0') + digits) && HexValue(seq(n, _ => '0') + digits) == HexValue(digits)
  {
    var padded := seq(n, _ => '0') + digits;
    if digits == "" {
      if n > 0 {
        LeadingZeros(n - 1, "");
        assert padded[..n - 1] == seq(n - 1, _ => '0') + "";
        assert DigitValue('0') == 0;
      } else {
        assert padded == "";
      }
    } else {
      var k := |digits| - 1;
      LeadingZeros(n, digits[..k]);
      assert padded[..|padded| - 1] == seq(n, _ => '0') + digits[..k];
    }
  }
}
