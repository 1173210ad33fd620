/** The threaded servers under every interleaving: Go locks only its critical section and lets
    state reads share the lock (go/internal/extension/extension.go), Python holds one mutex around
    the whole handler (python/base/server.py). Each reference to a shared field is a step of its
    own. Every run is linearizable with respect to Contract. */
module LockedServers {
  import opened Wrappers
  import opened Json
  import opened Contract
  import opened SharedMemory
  import opened Linearizability

  // --- the machine ------------------------------------------------------------------------

  datatype Phase = Waiting | Inside(done: nat) | Finished

  datatype Call = Call(plan: Plan, phase: Phase, local: Local)

  /** `commits` and `history` only record; no step looks at them. */
  datatype World = World(
    mem: State, writer: Option<nat>, readers: set<nat>, calls: map<nat, Call>, next: nat,
    commits: seq<Commit>, history: seq<Event>)

  datatype Action = Arrive(plan: Plan) | Acquire(id: nat) | Work(id: nat) | Release(id: nat) | Leave(id: nat)

  const START: World := World(INITIAL, None, {}, map[], 0, [], [])

  predicate Enabled(lang: Lang, w: World, a: Action) {
    match a
    case Arrive(_) => true
    case Acquire(id) =>
      && id in w.calls && w.calls[id].phase.Waiting? && w.writer.None?
      && (match ModeOf(lang, w.calls[id].plan)
          case Free => false
          case Shared => true
          case Exclusive => w.readers == {})
    case Work(id) =>
      id in w.calls && w.calls[id].phase.Inside? && w.calls[id].phase.done < |OpsOf(lang, w.calls[id].plan)|
    case Release(id) =>
      id in w.calls && w.calls[id].phase == Inside(|OpsOf(lang, w.calls[id].plan)|)
    case Leave(id) =>
      && id in w.calls
      && (w.calls[id].phase.Finished? || (w.calls[id].phase.Waiting? && ModeOf(lang, w.calls[id].plan) == Free))
  }

  function Step(lang: Lang, w: World, a: Action): World
    requires Enabled(lang, w, a)
  {
    match a
    case Arrive(plan) =>
      w.(calls := w.calls[w.next := Call(plan, Waiting, FRESH)], next := w.next + 1,
         history := w.history + [Invoked(w.next, plan)])
    case Acquire(id) =>
      var call := w.calls[id];
      var entered := w.calls[id := call.(phase := Inside(0))];
      if ModeOf(lang, call.plan) == Shared then w.(calls := entered, readers := w.readers + {id})
      else w.(calls := entered, writer := Some(id))
    case Work(id) =>
      var call := w.calls[id];
      var op := OpsOf(lang, call.plan)[call.phase.done];
      w.(mem := OpMemory(op, w.mem, call.local),
         calls := w.calls[id := call.(phase := Inside(call.phase.done + 1), local := OpLocal(op, w.mem, call.local))])
    case Release(id) =>
      var call := w.calls[id];
      w.(writer := if ModeOf(lang, call.plan) == Shared then w.writer else None,
         readers := w.readers - {id},
         calls := w.calls[id := call.(phase := Finished)],
         commits := w.commits + [Commit(id, call.plan, Respond(call.plan, call.local))])
    case Leave(id) =>
      var call := w.calls[id];
      var reply := Respond(call.plan, call.local);
      w.(calls := w.calls - {id}, history := w.history + [Returned(id, reply)],
         commits := if call.phase.Waiting? then w.commits + [Commit(id, call.plan, reply)] else w.commits)
  }

  /** None when some action was not enabled. */
  function Run(lang: Lang, actions: seq<Action>): Option<World> {
    if actions == [] then Some(START)
    else
      var before := Run(lang, actions[..|actions| - 1]);
      if before.Some? && Enabled(lang, before.value, actions[|actions| - 1])
      then Some(Step(lang, before.value, actions[|actions| - 1])) else None
  }

  // --- the invariant ----------------------------------------------------------------------------

  /** The state the committed calls add up to. */
  ghost function Abstract(w: World): State {
    Serve(PlansOf(w.commits))
  }

  ghost predicate Committed(w: World, id: nat) {
    exists i :: 0 <= i < |w.commits| && w.commits[i].id == id
  }

  ghost predicate CallInv(lang: Lang, w: World, id: nat)
    requires id in w.calls
  {
    var call := w.calls[id];
    && Invoked(id, call.plan) in w.history
    && match call.phase
       case Waiting => !Committed(w, id) && call.local == FRESH
       case Inside(done) =>
         && !Committed(w, id) && done <= |OpsOf(lang, call.plan)|
         && (match ModeOf(lang, call.plan)
             case Free => false
             case Shared => id in w.readers && call.local == After(OpsOf(lang, call.plan)[..done], Abstract(w)).1
             case Exclusive => w.writer == Some(id) && (w.mem, call.local) == After(OpsOf(lang, call.plan)[..done], Abstract(w)))
       case Finished => Commit(id, call.plan, Respond(call.plan, call.local)) in w.commits
  }

  ghost predicate LockInv(lang: Lang, w: World) {
    && (w.writer.None? ==> w.mem == Abstract(w))
    && (w.writer.Some? ==>
          && w.readers == {} && w.writer.value in w.calls
          && w.calls[w.writer.value].phase.Inside? && ModeOf(lang, w.calls[w.writer.value].plan) == Exclusive)
    && (forall id :: id in w.readers ==>
          id in w.calls && w.calls[id].phase.Inside? && ModeOf(lang, w.calls[id].plan) == Shared)
  }

  ghost predicate IdInv(w: World) {
    && (forall id: nat :: Committed(w, id) ==> id < w.next)
    && (forall id: nat, plan :: Invoked(id, plan) in w.history ==> id < w.next)
    && (forall id: nat, reply :: Returned(id, reply) in w.history ==> id < w.next && id !in w.calls)
    && (forall id: nat :: id in w.calls ==> id < w.next)
  }

  ghost predicate Inv(lang: Lang, w: World) {
    && Linearizes(w.commits, w.history)
    && IdInv(w)
    && LockInv(lang, w)
    && forall id :: id in w.calls ==> CallInv(lang, w, id)
  }

  // --- one more commit ---------------------------------------------------------------------------

  /** Nothing that has returned is still live, so a live call may be committed last. */
  lemma CommitLive(w: World, id: nat, plan: Plan)
    requires Linearizes(w.commits, w.history) && IdInv(w)
    requires id in w.calls && !Committed(w, id) && Invoked(id, plan) in w.history
    ensures var more := w.commits + [Commit(id, plan, Answer(plan, Abstract(w)))];
            && Linearizes(more, w.history)
            && Serve(PlansOf(more)) == Effect(plan, Abstract(w))
  {
    hide Linearizes, PlansOf, Serve, Answer, Effect;
    CommitKeepsLinearization(w.commits, w.history, Commit(id, plan, Answer(plan, Abstract(w))));
  }

  // --- every step keeps the invariant ------------------------------------------------------------

  lemma SameCommits(w: World, v: World)
    requires v.commits == w.commits
    ensures Abstract(v) == Abstract(w) && forall id :: Committed(v, id) <==> Committed(w, id)
  {}

  lemma ArriveStep(lang: Lang, w: World, plan: Plan)
    requires Inv(lang, w)
    ensures Inv(lang, Step(lang, w, Arrive(plan)))
  {
    hide Linearizes, OpsOf, ModeOf, Respond, After, Serve, PlansOf, Replies, Abstract, Committed;
    var v := Step(lang, w, Arrive(plan));
    SameCommits(w, v);
    FreshUncommitted(w);
    ArrivalKeepsLinearization(w.commits, w.history, w.next, plan);
    assert IdInv(v) by { hide LockInv, CallInv; }
    assert LockInv(lang, v) by { hide CallInv; }
    hide IdInv, LockInv;
    forall id | id in v.calls ensures CallInv(lang, v, id) {
      if id != w.next { assert CallInv(lang, w, id); }
    }
  }

  lemma FreshUncommitted(w: World)
    requires IdInv(w)
    ensures !Committed(w, w.next) && forall i :: 0 <= i < |w.commits| ==> w.commits[i].id != w.next
  {
    assert forall i :: 0 <= i < |w.commits| ==> Committed(w, w.commits[i].id);
  }

  lemma AcquireStep(lang: Lang, w: World, id: nat)
    requires Inv(lang, w) && Enabled(lang, w, Acquire(id))
    ensures Inv(lang, Step(lang, w, Acquire(id)))
  {
    hide Linearizes, Respond, OpMemory, OpLocal, Abstract, Committed;
    var v := Step(lang, w, Acquire(id));
    SameCommits(w, v);
    assert CallInv(lang, w, id);
    assert OpsOf(lang, w.calls[id].plan)[..0] == [];
    assert After([], Abstract(w)) == (Abstract(w), FRESH);
    hide After, OpsOf;
    forall i | i in v.calls ensures CallInv(lang, v, i) {
      assert CallInv(lang, w, i);
    }
  }

  lemma WorkStep(lang: Lang, w: World, id: nat)
    requires Inv(lang, w) && Enabled(lang, w, Work(id))
    ensures Inv(lang, Step(lang, w, Work(id)))
  {
    hide Linearizes, Respond, OpMemory, OpLocal, OpsOf, Abstract, Committed;
    var v := Step(lang, w, Work(id));
    SameCommits(w, v);
    assert CallInv(lang, w, id);
    var plan, done := w.calls[id].plan, w.calls[id].phase.done;
    AfterNext(OpsOf(lang, plan), done, Abstract(w));
    if ModeOf(lang, plan) == Shared {
      assert id in w.readers;
      ReadersLeaveMemory(lang, plan, Abstract(w), done);
      ReadersLeaveMemory(lang, plan, Abstract(w), done + 1);
    }
    hide After;
    forall i | i in v.calls ensures CallInv(lang, v, i) {
      assert CallInv(lang, w, i);
    }
  }

  /** A finished critical section commits with the reply it has computed. */
  lemma ReleaseCommits(lang: Lang, w: World, id: nat)
    requires Inv(lang, w) && Enabled(lang, w, Release(id))
    ensures var v, call := Step(lang, w, Release(id)), w.calls[id];
            && Linearizes(v.commits, w.history)
            && Abstract(v) == Effect(call.plan, Abstract(w))
            && (ModeOf(lang, call.plan) == Exclusive ==> w.writer == Some(id) && w.mem == Abstract(v))
            && (ModeOf(lang, call.plan) == Shared ==> id in w.readers && Abstract(v) == Abstract(w))
            && ModeOf(lang, call.plan) != Free
            && Commit(id, call.plan, Respond(call.plan, call.local)) in v.commits
            && !Committed(w, id) && (forall i :: Committed(v, i) <==> Committed(w, i) || i == id)
            && forall c :: c in w.commits ==> c in v.commits
  {
    hide Linearizes, Serve, PlansOf, Replies, Answer, Respond, OpsOf, After;
    var v := Step(lang, w, Release(id));
    assert CallInv(lang, w, id);
    var call := w.calls[id];
    var ops := OpsOf(lang, call.plan);
    assert ops[..|ops|] == ops;
    SectionIsCall(lang, call.plan, Abstract(w));
    CommitLive(w, id, call.plan);
    CommittedAfter(w, v);
  }

  lemma ReleaseStep(lang: Lang, w: World, id: nat)
    requires Inv(lang, w) && Enabled(lang, w, Release(id))
    ensures Inv(lang, Step(lang, w, Release(id)))
  {
    hide Linearizes, Abstract, Committed, Respond, Effect, OpsOf, After;
    var v := Step(lang, w, Release(id));
    ReleaseCommits(lang, w, id);
    assert CallInv(lang, w, id);
    forall i | i in v.calls ensures CallInv(lang, v, i) {
      assert CallInv(lang, w, i);
    }
  }

  lemma CommittedAfter(w: World, v: World)
    requires |v.commits| == |w.commits| + 1 && v.commits[..|w.commits|] == w.commits
    ensures forall i :: Committed(v, i) <==> Committed(w, i) || i == v.commits[|w.commits|].id
    ensures forall c :: c in w.commits ==> c in v.commits
  {
    forall i ensures Committed(v, i) <==> Committed(w, i) || i == v.commits[|w.commits|].id {
      if k :| 0 <= k < |w.commits| && w.commits[k].id == i { assert v.commits[k].id == i; }
      if k :| 0 <= k < |v.commits| && v.commits[k].id == i {
        if k < |w.commits| { assert w.commits[k].id == i; }
      }
      assert v.commits[|w.commits|].id == i ==> Committed(v, i);
    }
    forall c | c in w.commits ensures c in v.commits { assert c in v.commits[..|w.commits|]; }
  }

  /** A call that takes no lock commits as it leaves. */
  lemma LeaveCommits(lang: Lang, w: World, id: nat)
    requires Inv(lang, w) && Enabled(lang, w, Leave(id))
    ensures var v, call := Step(lang, w, Leave(id)), w.calls[id];
            && Linearizes(v.commits, w.history) && Abstract(v) == Abstract(w)
            && Commit(id, call.plan, Respond(call.plan, call.local)) in v.commits
            && (forall i :: Committed(w, i) ==> Committed(v, i))
            && (forall i :: Committed(v, i) ==> Committed(w, i) || i == id)
            && forall c :: c in w.commits ==> c in v.commits
  {
    hide Linearizes, Serve, PlansOf, Replies, OpsOf, After;
    var v := Step(lang, w, Leave(id));
    assert CallInv(lang, w, id);
    var call := w.calls[id];
    if call.phase.Waiting? {
      assert Respond(call.plan, call.local) == Answer(call.plan, Abstract(w));
      CommitLive(w, id, call.plan);
      CommittedAfter(w, v);
    } else {
      assert v.commits == w.commits;
    }
  }

  lemma LeaveKeepsIds(lang: Lang, w: World, id: nat)
    requires Inv(lang, w) && Enabled(lang, w, Leave(id))
    ensures IdInv(Step(lang, w, Leave(id)))
  {
    hide LockInv, CallInv, Linearizes, Abstract, Committed, Respond, Serve, PlansOf, Replies, OpsOf, After;
    LeaveCommits(lang, w, id);
  }

  lemma LeaveKeepsLock(lang: Lang, w: World, id: nat)
    requires Inv(lang, w) && Enabled(lang, w, Leave(id))
    ensures LockInv(lang, Step(lang, w, Leave(id)))
  {
    hide IdInv, CallInv, Linearizes, Abstract, Committed, Respond, Serve, PlansOf, Replies, OpsOf, After;
    LeaveCommits(lang, w, id);
  }

  lemma LeaveKeepsCalls(lang: Lang, w: World, id: nat, i: nat)
    requires Inv(lang, w) && Enabled(lang, w, Leave(id)) && i in w.calls && i != id
    ensures CallInv(lang, Step(lang, w, Leave(id)), i)
  {
    hide IdInv, LockInv, Linearizes, Abstract, Committed, Respond, Serve, PlansOf, Replies, OpsOf, After;
    LeaveCommits(lang, w, id);
    assert CallInv(lang, w, i);
  }

  lemma LeaveStep(lang: Lang, w: World, id: nat)
    requires Inv(lang, w) && Enabled(lang, w, Leave(id))
    ensures Inv(lang, Step(lang, w, Leave(id)))
  {
    hide CallInv, LockInv, IdInv, Linearizes, Abstract, Committed, Respond, Serve, PlansOf, Replies, OpsOf, After;
    var v, call := Step(lang, w, Leave(id)), w.calls[id];
    LeaveCommits(lang, w, id);
    LeaveKeepsIds(lang, w, id);
    LeaveKeepsLock(lang, w, id);
    ReturnKeepsLinearization(v.commits, w.history, Commit(id, call.plan, Respond(call.plan, call.local)));
    forall i | i in v.calls ensures CallInv(lang, v, i) {
      LeaveKeepsCalls(lang, w, id, i);
    }
  }

  lemma {:induction false} RunKeepsInv(lang: Lang, actions: seq<Action>)
    requires Run(lang, actions).Some?
    ensures Inv(lang, Run(lang, actions).value)
  {
    if actions != [] {
      RunKeepsInv(lang, actions[..|actions| - 1]);
      var w := Run(lang, actions[..|actions| - 1]).value;
      match actions[|actions| - 1]
      case Arrive(plan) => ArriveStep(lang, w, plan);
      case Acquire(id) => AcquireStep(lang, w, id);
      case Work(id) => WorkStep(lang, w, id);
      case Release(id) => ReleaseStep(lang, w, id);
      case Leave(id) => LeaveStep(lang, w, id);
    }
  }

  // --- the theorems --------------------------------------------------------------------------------

  /** Linearizability: every run of either threaded server, over any number of overlapping calls,
      is explained by serving the same calls one at a time in an order that respects real time. */
  lemma Linearizable(lang: Lang, actions: seq<Action>)
    requires Run(lang, actions).Some?
    ensures exists commits :: Linearizes(commits, Run(lang, actions).value.history)
  {
    RunKeepsInv(lang, actions);
    assert Linearizes(Run(lang, actions).value.commits, Run(lang, actions).value.history);
  }

  /** Whenever no writer holds the lock, memory is the sequential state of the committed calls and
      the numbers handed out so far are gapless: 1..count, the last text being number count's. */
  lemma UnlockedNumbering(lang: Lang, actions: seq<Action>, kind: Kind)
    requires Run(lang, actions).Some? && Run(lang, actions).value.writer.None?
    ensures var w := Run(lang, actions).value; w.mem == Abstract(w) && Gapless(kind, w.mem, RepliesOf(w.commits))
  {
    RunKeepsInv(lang, actions);
    NumberingIsGapless(kind, PlansOf(Run(lang, actions).value.commits));
  }

  /** No run gets stuck: while a call is live, some step other than an arrival is enabled. */
  lemma NoDeadlock(lang: Lang, actions: seq<Action>)
    requires Run(lang, actions).Some? && Run(lang, actions).value.calls != map[]
    ensures exists a: Action :: !a.Arrive? && Enabled(lang, Run(lang, actions).value, a)
  {
    RunKeepsInv(lang, actions);
    var w := Run(lang, actions).value;
    var id :| id in w.calls;
    var busy := if w.writer.Some? then w.writer.value else if r :| r in w.readers then r else id;
    assert CallInv(lang, w, busy);
    var call := w.calls[busy];
    var a := match call.phase
             case Waiting => if ModeOf(lang, call.plan) == Free then Leave(busy) else Acquire(busy)
             case Inside(done) => if done < |OpsOf(lang, call.plan)| then Work(busy) else Release(busy)
             case Finished => Leave(busy);
    assert !a.Arrive? && Enabled(lang, w, a);
  }

  // --- every call returns --------------------------------------------------------------------------

  /** The steps a call has left: taking the lock, its operations, releasing the lock, leaving. */
  function StepsLeft(lang: Lang, call: Call): nat {
    var n := |OpsOf(lang, call.plan)|;
    match call.phase
    case Waiting => if ModeOf(lang, call.plan) == Free then 1 else n + 3
    case Inside(done) => if done <= n then n - done + 2 else 2
    case Finished => 1
  }

  /** The steps left to the live calls with an id below n. */
  ghost function LeftBelow(lang: Lang, calls: map<nat, Call>, n: nat): nat {
    if n == 0 then 0 else LeftBelow(lang, calls, n - 1) + if n - 1 in calls then StepsLeft(lang, calls[n - 1]) else 0
  }

  ghost function Left(lang: Lang, w: World): nat {
    LeftBelow(lang, w.calls, w.next)
  }

  lemma {:induction false} LeftElsewhere(lang: Lang, calls: map<nat, Call>, after: map<nat, Call>, n: nat)
    requires forall i: nat :: i < n ==> (i in calls <==> i in after) && (i in calls ==> calls[i] == after[i])
    ensures LeftBelow(lang, calls, n) == LeftBelow(lang, after, n)
  {
    if n > 0 { LeftElsewhere(lang, calls, after, n - 1); }
  }

  lemma {:induction false} LeftDrops(lang: Lang, calls: map<nat, Call>, after: map<nat, Call>, id: nat, n: nat)
    requires id < n && id in calls
    requires forall i: nat :: i != id ==> (i in calls <==> i in after) && (i in calls ==> calls[i] == after[i])
    requires StepsLeft(lang, calls[id]) == 1 + if id in after then StepsLeft(lang, after[id]) else 0
    ensures LeftBelow(lang, calls, n) == LeftBelow(lang, after, n) + 1
  {
    if n - 1 == id {
      LeftElsewhere(lang, calls, after, id);
    } else {
      LeftDrops(lang, calls, after, id, n - 1);
    }
  }

  lemma {:induction false} NoneLeft(lang: Lang, calls: map<nat, Call>, n: nat)
    requires forall i :: i in calls ==> i < n
    ensures LeftBelow(lang, calls, n) == 0 <==> calls == map[]
  {
    if n > 0 {
      var rest := map i | i in calls && i < n - 1 :: calls[i];
      NoneLeft(lang, rest, n - 1);
      LeftElsewhere(lang, calls, rest, n - 1);
      if calls != map[] && n - 1 !in calls {
        var i :| i in calls;
        assert i in rest;
      }
    }
  }

  /** Whoever takes it, a step that is not an arrival leaves one step fewer. */
  lemma StepCountsDown(lang: Lang, w: World, a: Action)
    requires Inv(lang, w) && Enabled(lang, w, a) && !a.Arrive?
    ensures Left(lang, w) == Left(lang, Step(lang, w, a)) + 1
  {
    hide Linearizes, LockInv, OpsOf, Respond, OpMemory, OpLocal, After, Abstract, Committed;
    var id := match a case Acquire(i) => i case Work(i) => i case Release(i) => i case Leave(i) => i case Arrive(_) => 0;
    assert CallInv(lang, w, id);
    LeftDrops(lang, w.calls, Step(lang, w, a).calls, id, w.next);
  }

  lemma {:induction false} RunCountsDown(lang: Lang, actions: seq<Action>, later: seq<Action>)
    requires Run(lang, actions + later).Some? && forall i :: 0 <= i < |later| ==> !later[i].Arrive?
    ensures Run(lang, actions).Some?
    ensures Left(lang, Run(lang, actions).value) == Left(lang, Run(lang, actions + later).value) + |later|
    decreases |later|
  {
    hide Inv, Left, Enabled, Step;
    var all := actions + later;
    if later == [] {
      assert all == actions;
    } else {
      var n := |later| - 1;
      assert all[..|all| - 1] == actions + later[..n] && all[|all| - 1] == later[n];
      RunCountsDown(lang, actions, later[..n]);
      RunKeepsInv(lang, actions + later[..n]);
      StepCountsDown(lang, Run(lang, actions + later[..n]).value, later[n]);
    }
  }

  /** Once no more calls arrive, every schedule is finite and answers all of them: exactly as many
      steps are taken as the live calls have left, and they can be taken, in any order that the
      lock admits. */
  lemma EveryCallReturns(lang: Lang, actions: seq<Action>, later: seq<Action>)
    requires Run(lang, actions + later).Some? && forall i :: 0 <= i < |later| ==> !later[i].Arrive?
    ensures Run(lang, actions).Some?
    ensures var w, v := Run(lang, actions).value, Run(lang, actions + later).value;
            && |later| <= Left(lang, w)
            && (v.calls == map[] <==> |later| == Left(lang, w))
            && (|later| < Left(lang, w) ==> exists a: Action :: !a.Arrive? && Enabled(lang, v, a))
  {
    hide Left, Enabled, Run;
    RunCountsDown(lang, actions, later);
    RunKeepsInv(lang, actions + later);
    var v := Run(lang, actions + later).value;
    assert Left(lang, v) == 0 <==> v.calls == map[] by { LeftIsNone(lang, v); }
    if v.calls != map[] { NoDeadlock(lang, actions + later); }
  }

  lemma LeftIsNone(lang: Lang, w: World)
    requires IdInv(w)
    ensures Left(lang, w) == 0 <==> w.calls == map[]
  {
    NoneLeft(lang, w.calls, w.next);
  }

  // --- who may be inside together ----------------------------------------------------------------------

  /** Between lock and unlock. */
  predicate Within(w: World, id: nat) {
    id in w.calls && w.calls[id].phase.Inside?
  }

  /** Whatever the schedule: a call that counts shares its section with no other; in Python no call
      does, in Go only state reads do. */
  lemma SectionsExclude(lang: Lang, actions: seq<Action>, a: nat, b: nat)
    requires Run(lang, actions).Some? && a != b && Within(Run(lang, actions).value, a) && Within(Run(lang, actions).value, b)
    ensures lang == Go && Run(lang, actions).value.calls[a].plan.Report? && Run(lang, actions).value.calls[b].plan.Report?
  {
    hide Linearizes, IdInv, OpsOf, After, Abstract;
    RunKeepsInv(lang, actions);
    var w := Run(lang, actions).value;
    assert CallInv(lang, w, a) && CallInv(lang, w, b);
  }

  /** In Go a state read enters whatever reads are going on, and a failed or refused call comes and
      goes whoever holds the lock; in Python both wait for it. */
  lemma GoLocksOnlyItsSection(w: World, id: nat)
    requires id in w.calls && w.calls[id].phase.Waiting?
    ensures w.calls[id].plan.Report? ==> (Enabled(Go, w, Acquire(id)) <==> w.writer.None?)
    ensures w.calls[id].plan.Report? || w.calls[id].plan.Fail? ==>
              (Enabled(Python, w, Acquire(id)) <==> w.writer.None? && w.readers == {}) && !Enabled(Python, w, Leave(id))
    ensures w.calls[id].plan.Fail? || w.calls[id].plan.Refuse? ==> Enabled(Go, w, Leave(id))
    ensures w.calls[id].plan.Count? ==>
              forall lang :: Enabled(lang, w, Acquire(id)) <==> w.writer.None? && w.readers == {}
  {}
}
