/** What a call does to the shared fields, one reference at a time: the handlers of
    go/internal/extension/extension.go, python/app/handlers.py and typescript/src/app/handlers.ts. */
module SharedMemory {
  import opened Json
  import opened Contract

  // --- programs -------------------------------------------------------------------------

  datatype Field = GreetingCount | LastGreeting | FarewellCount | LastFarewell

  /** An increment is a Load into the thread and a Store of one more. */
  datatype Op =
    | Load(kind: Kind) | Store(kind: Kind)
    | TakeNumber(kind: Kind)
    | StoreText(kind: Kind, text: string)
    | Read(field: Field)

  /** A thread's own variables; `loaded` is the operand of the increment under way. */
  datatype Local = Local(loaded: nat, number: nat, seen: State)

  const FRESH: Local := Local(0, 0, INITIAL)

  /** How the lock is taken: not at all, shared (RLock) or exclusive. */
  datatype Mode = Free | Shared | Exclusive

  function ModeOf(lang: Lang, plan: Plan): Mode {
    match plan
    case Refuse(_) => Free
    case Fail(_, _) => if lang == Go then Free else Exclusive
    case Count(_, _, _) => Exclusive
    case Report => if lang == Go then Shared else Exclusive
  }

  /** The shared-memory operations between taking and releasing the lock, in source order. */
  function OpsOf(lang: Lang, plan: Plan): seq<Op> {
    match plan
    case Count(_, kind, text) =>
      if lang == Go then [Load(kind), Store(kind), TakeNumber(kind), StoreText(kind, text)]
      else [Load(kind), Store(kind), StoreText(kind, text), TakeNumber(kind)]
    case Report => [Read(GreetingCount), Read(LastGreeting), Read(FarewellCount), Read(LastFarewell)]
    case _ => []
  }

  /** What an operation of a thread with variables `l` does to the fields. */
  function OpMemory(op: Op, s: State, l: Local): State {
    match op
    case Store(Greetings) => s.(greetingCount := l.loaded + 1)
    case Store(Farewells) => s.(farewellCount := l.loaded + 1)
    case StoreText(Greetings, text) => s.(lastGreeting := text)
    case StoreText(Farewells, text) => s.(lastFarewell := text)
    case _ => s
  }

  function OpLocal(op: Op, s: State, l: Local): Local {
    match op
    case Load(kind) => l.(loaded := Counter(kind, s))
    case TakeNumber(kind) => l.(number := Counter(kind, s))
    case Read(GreetingCount) => l.(seen := l.seen.(greetingCount := s.greetingCount))
    case Read(LastGreeting) => l.(seen := l.seen.(lastGreeting := s.lastGreeting))
    case Read(FarewellCount) => l.(seen := l.seen.(farewellCount := s.farewellCount))
    case Read(LastFarewell) => l.(seen := l.seen.(lastFarewell := s.lastFarewell))
    case _ => l
  }

  /** The reply a thread builds from its own variables after releasing the lock. */
  function Respond(plan: Plan, l: Local): Reply {
    match plan
    case Count(echo, kind, text) => Result(echo, 1, LogText(1, ""), VERSION, Numbered(kind, text, l.number))
    case Report => Snapshot(STATE_VERSION, l.seen)
    case _ => Answer(plan, INITIAL)
  }

  // --- operations compose to calls -------------------------------------------------------------

  ghost function After(ops: seq<Op>, s: State): (r: (State, Local)) {
    if ops == [] then (s, FRESH)
    else
      var before := After(ops[..|ops| - 1], s);
      (OpMemory(ops[|ops| - 1], before.0, before.1), OpLocal(ops[|ops| - 1], before.0, before.1))
  }

  /** A whole critical section does what the sequential machine does in one step. */
  lemma SectionIsCall(lang: Lang, plan: Plan, s: State)
    requires ModeOf(lang, plan) != Free
    ensures var r := After(OpsOf(lang, plan), s); r.0 == Effect(plan, s) && Respond(plan, r.1) == Answer(plan, s)
  {
    hide After, LogText;
    FourSteps(OpsOf(lang, plan), s);
  }

  /** A critical section touches the fields four times or not at all. */
  lemma FourSteps(ops: seq<Op>, s: State)
    ensures After([], s) == (s, FRESH)
    ensures |ops| == 4 ==>
              var (s1, l1) := (OpMemory(ops[0], s, FRESH), OpLocal(ops[0], s, FRESH));
              var (s2, l2) := (OpMemory(ops[1], s1, l1), OpLocal(ops[1], s1, l1));
              var (s3, l3) := (OpMemory(ops[2], s2, l2), OpLocal(ops[2], s2, l2));
              After(ops, s) == (OpMemory(ops[3], s3, l3), OpLocal(ops[3], s3, l3))
  {
    if |ops| == 4 {
      AfterNext(ops, 0, s);
      AfterNext(ops, 1, s);
      AfterNext(ops, 2, s);
      AfterNext(ops, 3, s);
      hide OpMemory, OpLocal;
      assert ops[..0] == [] && ops[..4] == ops;
    }
  }

  lemma AfterNext(ops: seq<Op>, k: nat, s: State)
    requires k < |ops|
    ensures var r := After(ops[..k], s); After(ops[..k + 1], s) == (OpMemory(ops[k], r.0, r.1), OpLocal(ops[k], r.0, r.1))
  {
    assert ops[..k + 1][..k] == ops[..k];
  }

  lemma {:induction false} ReadersLeaveMemory(lang: Lang, plan: Plan, s: State, k: nat)
    requires ModeOf(lang, plan) == Shared && k <= |OpsOf(lang, plan)|
    ensures After(OpsOf(lang, plan)[..k], s).0 == s
  {
    if k > 0 {
      ReadersLeaveMemory(lang, plan, s, k - 1);
      assert OpsOf(lang, plan)[..k][..k - 1] == OpsOf(lang, plan)[..k - 1];
    }
  }
}
