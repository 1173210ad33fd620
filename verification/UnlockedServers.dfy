/** Why the servers lock: the machine of LockedServers with the lock taken out of it is not
    linearizable. Two calls in lockstep both load the counter before either stores it. */
module UnlockedServers {
  import opened Wrappers
  import opened Json
  import opened Contract
  import opened SharedMemory
  import opened Linearizability
  import opened LockedServers

  /** As in LockedServers, but whoever wants to enter does. */
  predicate EnabledUnlocked(lang: Lang, w: World, a: Action) {
    if a.Acquire? then a.id in w.calls && w.calls[a.id].phase.Waiting? && ModeOf(lang, w.calls[a.id].plan) != Free
    else Enabled(lang, w, a)
  }

  function StepUnlocked(lang: Lang, w: World, a: Action): World
    requires EnabledUnlocked(lang, w, a)
  {
    if a.Acquire? then w.(calls := w.calls[a.id := w.calls[a.id].(phase := Inside(0))]) else Step(lang, w, a)
  }

  function RunUnlocked(lang: Lang, actions: seq<Action>): Option<World> {
    if actions == [] then Some(START)
    else
      var before := RunUnlocked(lang, actions[..|actions| - 1]);
      if before.Some? && EnabledUnlocked(lang, before.value, actions[|actions| - 1])
      then Some(StepUnlocked(lang, before.value, actions[|actions| - 1])) else None
  }

  lemma OneMore(lang: Lang, actions: seq<Action>, a: Action)
    requires RunUnlocked(lang, actions).Some? && EnabledUnlocked(lang, RunUnlocked(lang, actions).value, a)
    ensures RunUnlocked(lang, actions + [a]) == Some(StepUnlocked(lang, RunUnlocked(lang, actions).value, a))
  {
    assert (actions + [a])[..|actions|] == actions;
  }

  /** An operation that two threads with equal variables do one after the other is done once. */
  lemma TwiceIsOnce(op: Op, s: State, l: Local)
    ensures OpMemory(op, OpMemory(op, s, l), l) == OpMemory(op, s, l)
    ensures OpLocal(op, OpMemory(op, s, l), l) == OpLocal(op, s, l)
  {}

  /** Both calls have done k operations, and memory is as after the k operations of one. */
  ghost predicate InStep(lang: Lang, plan: Plan, k: nat, w: World) {
    var ops := OpsOf(lang, plan);
    && k <= |ops|
    && var (mem, l) := After(ops[..k], INITIAL);
       && w.mem == mem && w.calls == map[0 := Call(plan, Inside(k), l), 1 := Call(plan, Inside(k), l)]
       && w.history == [Invoked(0, plan), Invoked(1, plan)]
  }

  lemma BothEnter(lang: Lang, plan: Plan) returns (actions: seq<Action>)
    requires plan.Count?
    ensures RunUnlocked(lang, actions).Some? && InStep(lang, plan, 0, RunUnlocked(lang, actions).value)
  {
    hide RunUnlocked, OpsOf;
    assert RunUnlocked(lang, []) == Some(START) by { NoActions(lang); }
    OneMore(lang, [], Arrive(plan));
    OneMore(lang, [] + [Arrive(plan)], Arrive(plan));
    var w := RunUnlocked(lang, [] + [Arrive(plan)] + [Arrive(plan)]).value;
    assert w.calls == map[0 := Call(plan, Waiting, FRESH), 1 := Call(plan, Waiting, FRESH)];
    OneMore(lang, [] + [Arrive(plan)] + [Arrive(plan)], Acquire(0));
    OneMore(lang, [] + [Arrive(plan)] + [Arrive(plan)] + [Acquire(0)], Acquire(1));
    actions := [] + [Arrive(plan)] + [Arrive(plan)] + [Acquire(0)] + [Acquire(1)];
    assert OpsOf(lang, plan)[..0] == [];
  }

  lemma NoActions(lang: Lang)
    ensures RunUnlocked(lang, []) == Some(START)
  {}

  lemma BothWork(lang: Lang, plan: Plan, k: nat, before: seq<Action>) returns (actions: seq<Action>)
    requires plan.Count? && k < |OpsOf(lang, plan)|
    requires RunUnlocked(lang, before).Some? && InStep(lang, plan, k, RunUnlocked(lang, before).value)
    ensures RunUnlocked(lang, actions).Some? && InStep(lang, plan, k + 1, RunUnlocked(lang, actions).value)
  {
    hide RunUnlocked, OpsOf, OpMemory, OpLocal, After;
    var w := RunUnlocked(lang, before).value;
    var op := OpsOf(lang, plan)[k];
    TwiceIsOnce(op, w.mem, w.calls[0].local);
    AfterNext(OpsOf(lang, plan), k, INITIAL);
    OneMore(lang, before, Work(0));
    OneMore(lang, before + [Work(0)], Work(1));
    actions := before + [Work(0)] + [Work(1)];
  }

  lemma {:induction false} Lockstep(lang: Lang, plan: Plan, k: nat) returns (actions: seq<Action>)
    requires plan.Count? && k <= |OpsOf(lang, plan)|
    ensures RunUnlocked(lang, actions).Some? && InStep(lang, plan, k, RunUnlocked(lang, actions).value)
  {
    if k == 0 {
      actions := BothEnter(lang, plan);
    } else {
      var before := Lockstep(lang, plan, k - 1);
      actions := BothWork(lang, plan, k - 1, before);
    }
  }

  lemma BothLeave(lang: Lang, plan: Plan, before: seq<Action>) returns (actions: seq<Action>)
    requires plan.Count? && RunUnlocked(lang, before).Some?
    requires InStep(lang, plan, |OpsOf(lang, plan)|, RunUnlocked(lang, before).value)
    ensures RunUnlocked(lang, actions).Some?
    ensures var reply := Answer(plan, INITIAL);
            RunUnlocked(lang, actions).value.history == [Invoked(0, plan), Invoked(1, plan), Returned(0, reply), Returned(1, reply)]
  {
    hide RunUnlocked, OpsOf, After, Respond, Answer;
    var w, ops := RunUnlocked(lang, before).value, OpsOf(lang, plan);
    assert ops[..|ops|] == ops;
    SectionIsCall(lang, plan, INITIAL);
    assert Respond(plan, w.calls[0].local) == Answer(plan, INITIAL);
    OneMore(lang, before, Release(0));
    OneMore(lang, before + [Release(0)], Release(1));
    OneMore(lang, before + [Release(0)] + [Release(1)], Leave(0));
    OneMore(lang, before + [Release(0)] + [Release(1)] + [Leave(0)], Leave(1));
    actions := before + [Release(0)] + [Release(1)] + [Leave(0)] + [Leave(1)];
  }

  /** Without the lock, for every counted request and in every implementation, there is a run whose
      two calls are told the same number: an update is lost and no one-at-a-time order explains it. */
  lemma LockIsNeeded(lang: Lang, plan: Plan)
    requires plan.Count?
    ensures exists actions ::
              RunUnlocked(lang, actions).Some?
              && forall commits :: !Linearizes(commits, RunUnlocked(lang, actions).value.history)
  {
    hide RunUnlocked, Linearizes, After;
    var together := Lockstep(lang, plan, |OpsOf(lang, plan)|);
    var actions := BothLeave(lang, plan, together);
    var history := RunUnlocked(lang, actions).value.history;
    var reply := Answer(plan, INITIAL);
    assert history[2] == Returned(0, reply) && history[3] == Returned(1, reply);
    forall commits ensures !Linearizes(commits, history) {
      SameNumberTwice(commits, history, 0, 1, plan.kind, reply);
    }
  }
}
