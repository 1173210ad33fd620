/** The TypeScript server under concurrent requests, on its own mechanism: requests that reach a
    handler or the state go through the promise queue of PromiseQueue, refused ones are answered
    beside it (typescript/src/base/server.ts). Every run is linearizable. */
module QueuedServer {
  import opened Wrappers
  import opened Json
  import opened Contract
  import opened SharedMemory
  import opened Linearizability
  import opened PromiseQueue

  // --- the machine ------------------------------------------------------------------------

  /** `plans` and `ids` belong to the queue's jobs, `waiting` holds the refused requests not yet
      answered; `commits` and `history` only record. */
  datatype Site = Site(
    w: World, plans: seq<Plan>, ids: seq<nat>, waiting: map<nat, Plan>, next: nat,
    commits: seq<Commit>, history: seq<Event>)

  const IDLE: Site := Site(START, [], [], map[], 0, [], [])

  datatype Move =
    | Accept(plan: Plan, isAsync: bool, outcome: Settlement)
    | Decline(code: nat)
    | Dismiss(id: nat)
    | Inside(action: Action)

  predicate Possible(s: Site, m: Move) {
    match m
    case Accept(plan, _, _) => !plan.Refuse?
    case Decline(_) => true
    case Dismiss(id) => id in s.waiting
    case Inside(a) => !a.Enqueue? && Enabled(s.w, a)
  }

  /** The job that has just ended, if any, takes its place in the order. */
  function Committed(s: Site, v: World): seq<Commit> {
    var f := |s.w.finished|;
    if f < |v.finished| && f < |s.plans| && f < |s.ids|
    then s.commits + [Commit(s.ids[f], s.plans[f], Respond(s.plans[f], v.finished[f].1))] else s.commits
  }

  /** The caller that has just gone on, if any, answers; a rejected handler has no answer. */
  function Answered(s: Site, v: World): seq<Event> {
    var r := |s.w.resumed|;
    if r < |v.resumed| && r < |s.plans| && r < |s.ids| && r < |v.finished| && v.resumed[r].1 == Settled(Fulfilled)
    then s.history + [Returned(s.ids[r], Respond(s.plans[r], v.finished[r].1))] else s.history
  }

  function Moved(s: Site, m: Move): Site
    requires Possible(s, m)
  {
    match m
    case Accept(plan, isAsync, outcome) =>
      s.(w := Step(s.w, Enqueue(Job(OpsOf(TypeScript, plan), isAsync, outcome))),
         plans := s.plans + [plan], ids := s.ids + [s.next], next := s.next + 1,
         history := s.history + [Invoked(s.next, plan)])
    case Decline(code) =>
      var plan := Refuse(code);
      s.(waiting := s.waiting[s.next := plan], next := s.next + 1, history := s.history + [Invoked(s.next, plan)])
    case Dismiss(id) =>
      var reply := Answer(s.waiting[id], INITIAL);
      s.(waiting := s.waiting - {id}, commits := s.commits + [Commit(id, s.waiting[id], reply)],
         history := s.history + [Returned(id, reply)])
    case Inside(a) =>
      var v := Step(s.w, a);
      s.(w := v, commits := Committed(s, v), history := Answered(s, v))
  }

  function Moves(moves: seq<Move>): Option<Site> {
    if moves == [] then Some(IDLE)
    else
      var before := Moves(moves[..|moves| - 1]);
      if before.Some? && Possible(before.value, moves[|moves| - 1]) then Some(Moved(before.value, moves[|moves| - 1])) else None
  }

  // --- the invariant ----------------------------------------------------------------------------

  ghost predicate NoCommit(commits: seq<Commit>, id: nat) {
    forall i :: 0 <= i < |commits| ==> commits[i].id != id
  }

  ghost predicate NoReturn(history: seq<Event>, id: nat) {
    forall reply :: Returned(id, reply) !in history
  }

  ghost predicate IdsInv(s: Site) {
    && |s.ids| == |s.plans|
    && (forall i, j :: 0 <= i < j < |s.ids| ==> s.ids[i] != s.ids[j])
    && (forall i :: 0 <= i < |s.ids| ==> s.ids[i] < s.next && s.ids[i] !in s.waiting)
    && (forall id :: id in s.waiting ==> id < s.next)
    && (forall id: nat :: id >= s.next ==> NoCommit(s.commits, id) && NoReturn(s.history, id))
  }

  /** Jobs: invoked; committed once ended, with the reply their caller will give; not yet returned
      before their caller has gone on. */
  ghost predicate JobsInv(s: Site)
    requires |s.ids| == |s.plans|
  {
    && |s.w.resumed| <= |s.w.finished| <= |s.plans|
    && (forall i :: 0 <= i < |s.ids| ==> Invoked(s.ids[i], s.plans[i]) in s.history)
    && (forall i :: 0 <= i < |s.w.finished| ==> Commit(s.ids[i], s.plans[i], Respond(s.plans[i], s.w.finished[i].1)) in s.commits)
    && (forall i :: |s.w.finished| <= i < |s.ids| ==> NoCommit(s.commits, s.ids[i]))
    && (forall i :: |s.w.resumed| <= i < |s.ids| ==> NoReturn(s.history, s.ids[i]))
  }

  ghost predicate WaitingInv(s: Site) {
    forall id :: id in s.waiting ==>
      s.waiting[id].Refuse? && Invoked(id, s.waiting[id]) in s.history && NoCommit(s.commits, id) && NoReturn(s.history, id)
  }

  /** The queue is as it should be, and its jobs are the handlers' and state reads' operations. */
  ghost predicate QueueInv(s: Site) {
    Inv(s.w) && ServesPlans(s.w.jobs, s.plans) && |s.w.finished| <= |s.w.jobs|
    && Linearizes(s.commits, s.history) && Serve(PlansOf(s.commits)) == Alone(s.w.jobs, |s.w.finished|)
  }

  ghost predicate SiteInv(s: Site) {
    QueueInv(s) && IdsInv(s) && JobsInv(s) && WaitingInv(s)
  }

  // --- what a step of the queue does to the records -------------------------------------------------

  lemma RecordsGrow(w: World, a: Action)
    requires Enabled(w, a) && !a.Enqueue?
    ensures var v := Step(w, a);
            && v.jobs == w.jobs
            && w.finished <= v.finished && |v.finished| <= |w.finished| + 1
            && w.resumed <= v.resumed && |v.resumed| <= |w.resumed| + 1
  {
    hide OpsFrom, Loop.Then, Loop.Settle, OpMemory, OpLocal;
  }

  lemma QueueRecords(w: World, a: Action)
    requires Inv(w) && Enabled(w, a) && !a.Enqueue?
    ensures var v := Step(w, a);
            && Inv(v) && v.jobs == w.jobs
            && w.finished <= v.finished && |v.finished| <= |w.finished| + 1
            && w.resumed <= v.resumed && |v.resumed| <= |w.resumed| + 1
            && |v.resumed| <= |v.finished| <= |v.jobs|
  {
    hide Inv, Step;
    StepKeepsInv(w, a);
    RecordsBounded(Step(w, a));
    RecordsGrow(w, a);
  }

  lemma RecordsBounded(w: World)
    requires Inv(w)
    ensures |w.resumed| <= |w.finished| <= |w.jobs|
  {
    hide Promises, IsolationInv, OrderInv, Chain, Callers;
  }

  /** What the job that ends next answers, and what it leaves in memory. */
  lemma NextAnswer(w: World, plans: seq<Plan>, f: nat)
    requires Inv(w) && ServesPlans(w.jobs, plans) && f < |w.finished|
    ensures |w.finished| <= |w.jobs|
    ensures Respond(plans[f], w.finished[f].1) == Answer(plans[f], Alone(w.jobs, f))
    ensures Alone(w.jobs, f + 1) == Effect(plans[f], Alone(w.jobs, f))
  {
    hide ShapeInv, After, Answer, Respond, Effect;
    OneAtATime(w);
    SectionIsCall(TypeScript, plans[f], Alone(w.jobs, f));
    AloneNext(w.jobs, f);
  }

  // --- every step keeps the invariant ------------------------------------------------------------

  lemma EnqueueRecords(w: World, job: Job)
    requires Inv(w)
    ensures var v := Step(w, Enqueue(job));
            && Inv(v) && v.jobs == w.jobs + [job] && v.finished == w.finished && v.resumed == w.resumed
            && |w.finished| <= |w.jobs| && Alone(v.jobs, |w.finished|) == Alone(w.jobs, |w.finished|)
  {
    StepKeepsInv(w, Enqueue(job));
    RecordsBounded(w);
    hide Inv, Loop.Then;
    AlonePrefix(w.jobs, job, |w.finished|);
  }

  /** Ids not given out yet stay out of the records. */
  lemma StillUnknown(s: Site, t: Site)
    requires IdsInv(s) && s.next <= t.next
    requires t.commits == s.commits || (|t.commits| == |s.commits| + 1 && s.commits <= t.commits && t.commits[|s.commits|].id < t.next)
    requires t.history == s.history || (|t.history| == |s.history| + 1 && s.history <= t.history && t.history[|s.history|].id < t.next)
    ensures forall id: nat :: id >= t.next ==> NoCommit(t.commits, id) && NoReturn(t.history, id)
  {
    forall id: nat | id >= t.next ensures NoCommit(t.commits, id) && NoReturn(t.history, id) {
      assert NoCommit(s.commits, id) && NoReturn(s.history, id);
      forall reply ensures Returned(id, reply) !in t.history {
        if k :| 0 <= k < |t.history| && t.history[k] == Returned(id, reply) {
          assert k < |s.history| ==> s.history[k] == t.history[k];
        }
      }
    }
  }

  lemma AcceptKeepsIds(s: Site, t: Site, plan: Plan)
    requires IdsInv(s)
    requires t == s.(w := t.w, plans := s.plans + [plan], ids := s.ids + [s.next], next := s.next + 1,
                     history := s.history + [Invoked(s.next, plan)])
    ensures IdsInv(t)
  {
    StillUnknown(s, t);
    hide NoCommit, NoReturn;
  }

  lemma AcceptStep(s: Site, plan: Plan, isAsync: bool, outcome: Settlement)
    requires SiteInv(s) && !plan.Refuse?
    ensures SiteInv(Moved(s, Accept(plan, isAsync, outcome)))
  {
    hide Inv, Linearizes, Step, Serve, PlansOf, Alone, Respond, OpsOf, ServesPlans;
    var job := Job(OpsOf(TypeScript, plan), isAsync, outcome);
    EnqueueRecords(s.w, job);
    JobsHavePlans(s.w.jobs, s.plans);
    ServesOneMore(s.w.jobs, s.plans, job, plan);
    assert NoCommit(s.commits, s.next) && NoReturn(s.history, s.next);
    ArrivalKeepsLinearization(s.commits, s.history, s.next, plan);
    var t := Moved(s, Accept(plan, isAsync, outcome));
    AcceptKeepsIds(s, t, plan);
    assert WaitingInv(t) by { hide JobsInv, QueueInv; }
    assert JobsInv(t) by { hide WaitingInv, QueueInv; }
  }

  lemma DeclineStep(s: Site, code: nat)
    requires SiteInv(s)
    ensures SiteInv(Moved(s, Decline(code)))
  {
    hide Inv, Linearizes, Serve, PlansOf, Alone, Respond, OpsOf, ServesPlans;
    assert NoCommit(s.commits, s.next) && NoReturn(s.history, s.next);
    ArrivalKeepsLinearization(s.commits, s.history, s.next, Refuse(code));
    StillUnknown(s, Moved(s, Decline(code)));
  }

  lemma DismissStep(s: Site, id: nat)
    requires SiteInv(s) && id in s.waiting
    ensures SiteInv(Moved(s, Dismiss(id)))
  {
    hide Inv, Linearizes, Serve, PlansOf, Alone, Respond, OpsOf, ServesPlans;
    var plan := s.waiting[id];
    var e := Commit(id, plan, Answer(plan, INITIAL));
    assert e.reply == Answer(plan, Serve(PlansOf(s.commits)));
    CommitKeepsLinearization(s.commits, s.history, e);
    ReturnKeepsLinearization(s.commits + [e], s.history, e);
    StillUnknown(s, Moved(s, Dismiss(id)));
  }

  // --- a step of the queue -------------------------------------------------------------------------

  /** A job that ends is put last; its caller has not gone on yet. */
  lemma CommitEnded(s: Site, v: World)
    requires SiteInv(s) && Inv(v) && v.jobs == s.w.jobs && |v.finished| <= |v.jobs|
    requires s.w.finished <= v.finished && |v.finished| <= |s.w.finished| + 1
    ensures Linearizes(Committed(s, v), s.history)
    ensures Serve(PlansOf(Committed(s, v))) == Alone(v.jobs, |v.finished|)
  {
    hide Inv, Linearizes, Serve, PlansOf, Alone, Respond;
    var f := |s.w.finished|;
    if |v.finished| > f {
      NextAnswer(v, s.plans, f);
      assert NoCommit(s.commits, s.ids[f]) && NoReturn(s.history, s.ids[f]);
      CommitKeepsLinearization(s.commits, s.history, Commit(s.ids[f], s.plans[f], Respond(s.plans[f], v.finished[f].1)));
    }
  }

  lemma AnswerCommitted(s: Site, v: World)
    requires SiteInv(s) && Inv(v) && v.jobs == s.w.jobs && |v.resumed| <= |v.finished| <= |v.jobs|
    requires s.w.finished <= v.finished && |v.finished| <= |s.w.finished| + 1
    requires s.w.resumed <= v.resumed && |v.resumed| <= |s.w.resumed| + 1
    ensures Linearizes(Committed(s, v), Answered(s, v))
  {
    hide Inv, Linearizes, Serve, PlansOf, Alone, Respond;
    CommitEnded(s, v);
    var r := |s.w.resumed|;
    if |v.resumed| > r {
      var e := Commit(s.ids[r], s.plans[r], Respond(s.plans[r], v.finished[r].1));
      assert e in Committed(s, v);
      ReturnKeepsLinearization(Committed(s, v), s.history, e);
    }
  }

  /** How far one step of the queue takes the records. */
  ghost predicate Recorded(s: Site, t: Site) {
    && t == s.(w := t.w, commits := Committed(s, t.w), history := Answered(s, t.w))
    && s.w.finished <= t.w.finished && |t.w.finished| <= |s.w.finished| + 1
    && s.w.resumed <= t.w.resumed && |t.w.resumed| <= |s.w.resumed| + 1
    && |t.w.resumed| <= |t.w.finished| <= |s.plans|
  }

  lemma InsideKeepsJobs(s: Site, t: Site)
    requires IdsInv(s) && JobsInv(s) && Recorded(s, t)
    ensures JobsInv(t)
  {
    hide Respond;
    forall i | |t.w.resumed| <= i < |t.ids| ensures NoReturn(t.history, t.ids[i]) {
      assert NoReturn(s.history, s.ids[i]);
    }
    forall i | |t.w.finished| <= i < |t.ids| ensures NoCommit(t.commits, t.ids[i]) {
      assert NoCommit(s.commits, s.ids[i]);
    }
  }

  lemma InsideKeepsWaiting(s: Site, t: Site)
    requires IdsInv(s) && WaitingInv(s) && Recorded(s, t)
    ensures WaitingInv(t)
  {
    hide Respond;
  }

  lemma InsideStep(s: Site, a: Action)
    requires SiteInv(s) && Possible(s, Inside(a))
    ensures SiteInv(Moved(s, Inside(a)))
  {
    hide Inv, Linearizes, Serve, PlansOf, Alone, Step, ServesPlans, JobsInv, WaitingInv, Committed, Answered;
    var v, t := Step(s.w, a), Moved(s, Inside(a));
    QueueRecords(s.w, a);
    assert |v.jobs| == |s.plans| by { JobsHavePlans(s.w.jobs, s.plans); }
    AnswerCommitted(s, v);
    CommitEnded(s, v);
    InsideKeepsJobs(s, t);
    InsideKeepsWaiting(s, t);
    RecordsBelow(s, v);
    StillUnknown(s, t);
  }

  lemma ServesOneMore(jobs: seq<Job>, plans: seq<Plan>, job: Job, plan: Plan)
    requires ServesPlans(jobs, plans) && !plan.Refuse? && job.ops == OpsOf(TypeScript, plan)
    ensures ServesPlans(jobs + [job], plans + [plan])
  {
    hide OpsOf;
  }

  lemma JobsHavePlans(jobs: seq<Job>, plans: seq<Plan>)
    requires ServesPlans(jobs, plans)
    ensures |jobs| == |plans|
  {}

  lemma RecordsBelow(s: Site, v: World)
    requires IdsInv(s)
    ensures var t := s.(commits := Committed(s, v), history := Answered(s, v));
            && (t.commits == s.commits || (|t.commits| == |s.commits| + 1 && s.commits <= t.commits && t.commits[|s.commits|].id < s.next))
            && (t.history == s.history || (|t.history| == |s.history| + 1 && s.history <= t.history && t.history[|s.history|].id < s.next))
  {
    hide Respond;
  }

  lemma {:induction false} MovesKeepInv(moves: seq<Move>)
    requires Moves(moves).Some?
    ensures SiteInv(Moves(moves).value)
  {
    hide SiteInv, Possible, Moved;
    if moves == [] {
      IdleInv();
    } else {
      MovesKeepInv(moves[..|moves| - 1]);
      MoveKeepsInv(Moves(moves[..|moves| - 1]).value, moves[|moves| - 1]);
    }
  }

  lemma IdleInv()
    ensures SiteInv(IDLE)
  {
    StartInv();
    hide Inv;
  }

  lemma MoveKeepsInv(s: Site, m: Move)
    requires SiteInv(s) && Possible(s, m)
    ensures SiteInv(Moved(s, m))
  {
    hide SiteInv, Moved;
    match m
    case Accept(plan, isAsync, outcome) => AcceptStep(s, plan, isAsync, outcome);
    case Decline(code) => DeclineStep(s, code);
    case Dismiss(id) => DismissStep(s, id);
    case Inside(a) => InsideStep(s, a);
  }

  // --- the theorems --------------------------------------------------------------------------------

  /** Linearizability on the promise queue: every run, over any number of overlapping requests,
      accepted and refused, with handlers that await or reject, is explained by serving the same
      requests one at a time in an order that respects real time. */
  lemma Linearizable(moves: seq<Move>)
    requires Moves(moves).Some?
    ensures exists commits :: Linearizes(commits, Moves(moves).value.history)
  {
    hide Linearizes;
    MovesKeepInv(moves);
    assert Linearizes(Moves(moves).value.commits, Moves(moves).value.history);
  }

  // --- who is answered -----------------------------------------------------------------------------------

  /** Of the callers that have gone on, exactly those whose handler did not reject have their answer. */
  ghost predicate AnswersInv(s: Site) {
    && |s.w.resumed| <= |s.ids| == |s.w.jobs|
    && forall i :: 0 <= i < |s.w.resumed| ==>
         if s.w.jobs[i].outcome == Fulfilled then exists reply :: Returned(s.ids[i], reply) in s.history
         else NoReturn(s.history, s.ids[i])
  }

  lemma ResumedOutcomes(w: World)
    requires Inv(w)
    ensures |w.resumed| <= |w.jobs| && forall i :: 0 <= i < |w.resumed| ==> w.resumed[i].1 == Settled(w.jobs[i].outcome)
  {
    hide Promises, IsolationInv, Chain, Callers;
  }

  /** How the answers carry over to a longer history. */
  lemma AnswersStay(s: Site, t: Site)
    requires AnswersInv(s) && s.ids <= t.ids && s.w.jobs <= t.w.jobs && |t.ids| == |t.w.jobs| && t.w.resumed == s.w.resumed
    requires s.history <= t.history && |t.history| <= |s.history| + 1
    requires |t.history| > |s.history| && t.history[|s.history|].Returned? ==> t.history[|s.history|].id !in s.ids
    ensures AnswersInv(t)
  {
    forall i | 0 <= i < |t.w.resumed|
      ensures if t.w.jobs[i].outcome == Fulfilled then exists reply :: Returned(t.ids[i], reply) in t.history
              else NoReturn(t.history, t.ids[i])
    {
      assert t.ids[i] == s.ids[i] && t.ids[i] in s.ids;
      if reply :| Returned(s.ids[i], reply) in s.history { assert Returned(t.ids[i], reply) in t.history; }
    }
  }

  lemma InsideAnswers(s: Site, a: Action)
    requires SiteInv(s) && Possible(s, Inside(a)) && AnswersInv(s)
    ensures AnswersInv(Moved(s, Inside(a)))
  {
    hide Inv, Linearizes, Serve, PlansOf, Alone, Step, ServesPlans, WaitingInv, Committed, Respond;
    var v, t := Step(s.w, a), Moved(s, Inside(a));
    QueueRecords(s.w, a);
    ResumedOutcomes(v);
    JobsHavePlans(s.w.jobs, s.plans);
    var r := |s.w.resumed|;
    if |v.resumed| == r {
      AnswersStay(s, t);
    } else {
      assert NoReturn(s.history, s.ids[r]);
      forall i | 0 <= i <= r
        ensures if v.jobs[i].outcome == Fulfilled then exists reply :: Returned(s.ids[i], reply) in t.history
                else NoReturn(t.history, s.ids[i])
      {
        if i < r {
          if reply :| Returned(s.ids[i], reply) in s.history { assert Returned(s.ids[i], reply) in t.history; }
        } else if v.jobs[r].outcome == Fulfilled {
          assert Returned(s.ids[r], Respond(s.plans[r], v.finished[r].1)) in t.history;
        }
      }
    }
  }

  lemma MoveAnswers(s: Site, m: Move)
    requires SiteInv(s) && Possible(s, m) && AnswersInv(s)
    ensures AnswersInv(Moved(s, m))
  {
    hide Inv, Linearizes, Serve, PlansOf, Alone, ServesPlans, JobsInv, OpsOf, Respond;
    match m
    case Accept(plan, isAsync, outcome) =>
      EnqueueRecords(s.w, Job(OpsOf(TypeScript, plan), isAsync, outcome));
      AnswersStay(s, Moved(s, m));
    case Decline(code) => AnswersStay(s, Moved(s, m));
    case Dismiss(id) =>
      assert id !in s.ids;
      AnswersStay(s, Moved(s, m));
    case Inside(a) => InsideAnswers(s, a);
  }

  lemma {:induction false} MovesAnswer(moves: seq<Move>)
    requires Moves(moves).Some?
    ensures AnswersInv(Moves(moves).value)
  {
    if moves != [] {
      hide SiteInv, Possible, Moved, AnswersInv;
      MovesAnswer(moves[..|moves| - 1]);
      MovesKeepInv(moves[..|moves| - 1]);
      MoveAnswers(Moves(moves[..|moves| - 1]).value, moves[|moves| - 1]);
    }
  }

  /** When the loop has nothing left to do, every accepted request has its answer, except those
      whose handler rejected, which have none. */
  lemma QuietMeansAnswered(moves: seq<Move>, i: nat)
    requires Moves(moves).Some? && i < |Moves(moves).value.ids|
    requires var w := Moves(moves).value.w; w.loop.microtasks == [] && w.running == map[]
    ensures var s := Moves(moves).value;
            && |s.ids| == |s.w.jobs|
            && (s.w.jobs[i].outcome == Fulfilled <==> exists reply :: Returned(s.ids[i], reply) in s.history)
  {
    MovesAnswer(moves);
    MovesKeepInv(moves);
    QuietResumed(Moves(moves).value.w);
    hide Inv, Linearizes;
  }

  lemma QuietResumed(w: World)
    requires Inv(w) && w.loop.microtasks == [] && w.running == map[]
    ensures |w.resumed| == |w.jobs|
  {
    hide Promises, IsolationInv;
    assert Chain([]) == [] && Callers([]) == [];
  }
}
