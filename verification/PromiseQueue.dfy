/** `serialize` in typescript/src/base/server.ts, over JavaScript promises and the microtask queue.
    Jobs may be synchronous or async, may reject, and arrive at any time; every caller awaits its
    job's promise, and other code may queue microtasks of its own whenever it likes. */
module PromiseQueue {
  import opened Wrappers
  import opened Json
  import opened Contract
  import opened SharedMemory

  // --- the promise machinery ----------------------------------------------------------------

  datatype Settlement = Fulfilled | Rejected

  /** The promises of job k: `run`, what the queue holds after it, and the promise that an async
      function returns. Origin is the resolved promise the queue begins with. */
  datatype Name = Origin | RunOf(job: nat) | LinkOf(job: nat) | InnerOf(job: nat)

  /** Reactions that `then` and `await` register. Both callbacks of `then(fn, fn)` do the same, so
      one reaction stands for both. Adopt is the step by which a promise resolved with another
      promise subscribes to it, Forward the one that passes the outcome on; Foreign is anything
      that touches neither the queue nor the handlers' fields. */
  datatype Reaction =
    | RunJob(job: nat) | Adopt(job: nat) | Forward(job: nat) | Swallow(job: nat)
    | Continue(job: nat)
    | Foreign

  datatype Promise = Pending(reactions: seq<Reaction>) | Settled(outcome: Settlement)

  datatype Loop = Loop(promises: map<Name, Promise>, microtasks: seq<Reaction>) {

    /** A promise that nothing has touched is pending, without reactions. */
    function At(p: Name): Promise {
      if p in promises then promises[p] else Pending([])
    }

    /** p.then(r): queued at once when p has settled already. */
    function Then(p: Name, r: Reaction): Loop {
      match At(p)
      case Pending(rs) => this.(promises := promises[p := Pending(rs + [r])])
      case Settled(_) => this.(microtasks := microtasks + [r])
    }

    /** Settling queues the reactions in the order they were registered; doing so twice is void. */
    function Settle(p: Name, outcome: Settlement): Loop {
      match At(p)
      case Pending(rs) => Loop(promises[p := Settled(outcome)], microtasks + rs)
      case Settled(_) => this
    }
  }

  // --- the server -------------------------------------------------------------------------------

  /** A queued function: its effects on the shared fields, whether it is async (and other code may
      run between them), and how it ends. */
  datatype Job = Job(ops: seq<Op>, isAsync: bool, outcome: Settlement)

  datatype Progress = Progress(done: nat, local: Local)

  /** `started`, `finished` and `resumed` only record: jobs begun, jobs ended with their variables,
      and callers told how their job ended. */
  datatype World = World(
    loop: Loop, queue: Name, jobs: seq<Job>, running: map<nat, Progress>, mem: State,
    started: seq<nat>, finished: seq<(nat, Local)>, resumed: seq<(nat, Promise)>)

  const START: World := World(Loop(map[Origin := Settled(Fulfilled)], []), Origin, [], map[], INITIAL, [], [], [])

  datatype Action = Enqueue(job: Job) | QueueForeign | Microtask | Advance(id: nat) | Complete(id: nat)

  predicate Enabled(w: World, a: Action) {
    match a
    case Enqueue(_) => true
    case QueueForeign => true
    case Microtask => w.loop.microtasks != [] && (w.loop.microtasks[0].RunJob? ==> w.loop.microtasks[0].job < |w.jobs|)
    case Advance(id) => id in w.running && id < |w.jobs| && w.running[id].done < |w.jobs[id].ops|
    case Complete(id) => id in w.running && id < |w.jobs| && w.running[id].done == |w.jobs[id].ops|
  }

  /** run = queue.then(fn, fn); queue = run.then(swallow, swallow). */
  function Serialized(w: World, job: Job): World {
    var k := |w.jobs|;
    w.(loop := w.loop.Then(w.queue, RunJob(k)).Then(RunOf(k), Swallow(k)), queue := LinkOf(k), jobs := w.jobs + [job])
  }

  /** await serialize(fn), all in one turn. */
  function Requested(w: World, job: Job): World {
    var v := Serialized(w, job);
    v.(loop := v.loop.Then(RunOf(|w.jobs|), Continue(|w.jobs|)))
  }

  function OpsFrom(ops: seq<Op>, s: State, l: Local): (State, Local) {
    if ops == [] then (s, l) else OpsFrom(ops[1..], OpMemory(ops[0], s, l), OpLocal(ops[0], s, l))
  }

  /** A synchronous job runs to its end inside the microtask that starts it; an async one returns
      its promise, which `run` will adopt a microtask later. */
  function Started(w: World, id: nat): World
    requires id < |w.jobs|
  {
    var job := w.jobs[id];
    var begun := w.(started := w.started + [id]);
    if job.isAsync then
      begun.(running := w.running[id := Progress(0, FRESH)], loop := w.loop.(microtasks := w.loop.microtasks + [Adopt(id)]))
    else
      var r := OpsFrom(job.ops, w.mem, FRESH);
      begun.(mem := r.0, finished := w.finished + [(id, r.1)], loop := w.loop.Settle(RunOf(id), job.outcome))
  }

  function Popped(w: World): World
    requires w.loop.microtasks != []
  {
    w.(loop := w.loop.(microtasks := w.loop.microtasks[1..]))
  }

  function React(w: World, r: Reaction): World
    requires r.RunJob? ==> r.job < |w.jobs|
  {
    match r
    case RunJob(id) => Started(w, id)
    case Adopt(id) => w.(loop := w.loop.Then(InnerOf(id), Forward(id)))
    case Forward(id) =>
      (match w.loop.At(InnerOf(id))
       case Settled(outcome) => w.(loop := w.loop.Settle(RunOf(id), outcome))
       case Pending(_) => w)
    case Swallow(id) => w.(loop := w.loop.Settle(LinkOf(id), Fulfilled))
    case Continue(id) => w.(resumed := w.resumed + [(id, w.loop.At(RunOf(id)))])
    case Foreign => w
  }

  function Step(w: World, a: Action): World
    requires Enabled(w, a)
  {
    match a
    case Enqueue(job) => Requested(w, job)
    case QueueForeign => w.(loop := w.loop.(microtasks := w.loop.microtasks + [Foreign]))
    case Microtask => React(Popped(w), w.loop.microtasks[0])
    case Advance(id) =>
      var p := w.running[id];
      var op := w.jobs[id].ops[p.done];
      w.(mem := OpMemory(op, w.mem, p.local),
         running := w.running[id := p.(done := p.done + 1, local := OpLocal(op, w.mem, p.local))])
    case Complete(id) =>
      var p := w.running[id];
      w.(running := w.running - {id}, finished := w.finished + [(id, p.local)],
         loop := w.loop.Settle(InnerOf(id), w.jobs[id].outcome))
  }

  /** None when some action was not enabled. */
  function RunFrom(w: World, actions: seq<Action>): Option<World> {
    if actions == [] then Some(w)
    else
      var before := RunFrom(w, actions[..|actions| - 1]);
      if before.Some? && Enabled(before.value, actions[|actions| - 1])
      then Some(Step(before.value, actions[|actions| - 1])) else None
  }

  function Run(actions: seq<Action>): Option<World> {
    RunFrom(START, actions)
  }

  /** The `queue` field and the method that reassigns it. */
  class Server {
    var loop: Loop
    var queue: Name
    var jobs: seq<Job>

    ghost predicate At(w: World)
      reads this
    {
      loop == w.loop && queue == w.queue && jobs == w.jobs
    }

    method Serialize(job: Job, ghost w: World) returns (run: Name)
      requires At(w)
      modifies this
      ensures At(Serialized(w, job)) && run == RunOf(|old(jobs)|)
    {
      var k := |jobs|;
      run := RunOf(k);
      loop := loop.Then(queue, RunJob(k));
      queue := LinkOf(k);
      loop := loop.Then(run, Swallow(k));
      jobs := jobs + [job];
    }

    /** What processAction and processState do with it: await this.serialize(...). */
    method Request(job: Job, ghost w: World)
      requires At(w)
      modifies this
      ensures At(Step(w, Enqueue(job)))
    {
      var run := Serialize(job, w);
      loop := loop.Then(run, Continue(run.job));
    }
  }

  // --- the shape of the chain ---------------------------------------------------------------------

  predicate Drives(r: Reaction) {
    !r.Continue? && !r.Foreign?
  }

  /** The queued microtasks that move the queue on; there is never more than one. */
  ghost function Chain(ms: seq<Reaction>): seq<Reaction> {
    if ms == [] then [] else (if Drives(ms[0]) then [ms[0]] else []) + Chain(ms[1..])
  }

  /** The callers about to be resumed. */
  ghost function Callers(ms: seq<Reaction>): seq<nat> {
    if ms == [] then [] else (if ms[0].Continue? then [ms[0].job] else []) + Callers(ms[1..])
  }

  lemma {:induction false} ChainJoined(a: seq<Reaction>, b: seq<Reaction>)
    ensures Chain(a + b) == Chain(a) + Chain(b)
  {
    if a == [] {
      assert a + b == b;
    } else {
      var head := if Drives(a[0]) then [a[0]] else [];
      calc {
        Chain(a + b);
        { assert (a + b)[0] == a[0] && (a + b)[1..] == a[1..] + b; }
        head + Chain(a[1..] + b);
        { ChainJoined(a[1..], b); }
        head + (Chain(a[1..]) + Chain(b));
        Chain(a) + Chain(b);
      }
    }
  }

  lemma {:induction false} CallersJoined(a: seq<Reaction>, b: seq<Reaction>)
    ensures Callers(a + b) == Callers(a) + Callers(b)
  {
    if a == [] {
      assert a + b == b;
    } else {
      var head := if a[0].Continue? then [a[0].job] else [];
      calc {
        Callers(a + b);
        { assert (a + b)[0] == a[0] && (a + b)[1..] == a[1..] + b; }
        head + Callers(a[1..] + b);
        { CallersJoined(a[1..], b); }
        head + (Callers(a[1..]) + Callers(b));
        Callers(a) + Callers(b);
      }
    }
  }

  lemma ChainOfOne(r: Reaction)
    ensures Chain([r]) == (if Drives(r) then [r] else []) && Callers([r]) == if r.Continue? then [r.job] else []
  {}

  /** Links settled so far, by the microtask that drives the queue: it has moved past so many jobs. */
  ghost function Passed(w: World, t: seq<Reaction>): nat {
    if t == [] || !(t[0].RunJob? || t[0].Adopt? || t[0].Forward? || t[0].Swallow?) then |w.finished| else t[0].job
  }

  /** Job promises settled so far. */
  ghost function Ended(w: World, t: seq<Reaction>): nat {
    if t != [] && t[0].Swallow? then t[0].job + 1 else Passed(w, t)
  }

  /** The promises when k links and s job promises have settled and m jobs have started. */
  ghost predicate Promises(l: Loop, jobs: seq<Job>, k: nat, s: nat, m: nat) {
    && s <= |jobs|
    && l.At(Origin) == Settled(Fulfilled)
    && (forall i: nat :: l.At(RunOf(i)) ==
          if i < s then Settled(jobs[i].outcome) else if i < |jobs| then Pending([Swallow(i), Continue(i)]) else Pending([]))
    && (forall i: nat :: l.At(LinkOf(i)) ==
          if i < k then Settled(Fulfilled) else if i + 1 < |jobs| then Pending([RunJob(i + 1)]) else Pending([]))
    && (forall i: nat :: i >= m ==> l.At(InnerOf(i)) == Pending([]))
  }

  ghost predicate ChainInv(w: World, t: seq<Reaction>) {
    && Promises(w.loop, w.jobs, Passed(w, t), Ended(w, t), |w.started|)
    && w.queue == (if w.jobs == [] then Origin else LinkOf(|w.jobs| - 1))
  }

  /** Whose turn it is, by the one microtask that drives the queue. */
  ghost predicate TurnInv(w: World, t: seq<Reaction>) {
    var n, m, f := |w.jobs|, |w.started|, |w.finished|;
    && |t| <= 1 && f <= m <= n
    && (m > f ==> m == f + 1 && w.running.Keys == {f} && w.running[f].done <= |w.jobs[f].ops|)
    && (m == f ==> w.running == map[])
    && if t == [] then
         (if m == f then f == n else w.loop.At(InnerOf(f)) == Pending([Forward(f)]))
       else
         match t[0]
         case RunJob(j) => j == f == m < n
         case Adopt(j) =>
           m == j + 1 && w.loop.At(InnerOf(j)) == if f == j then Pending([]) else Settled(w.jobs[j].outcome)
         case Forward(j) => m == f == j + 1 && w.loop.At(InnerOf(j)) == Settled(w.jobs[j].outcome)
         case Swallow(j) => m == f == j + 1
         case _ => false
  }

  /** Jobs have begun and ended strictly in the order they were queued. */
  ghost predicate OrderInv(w: World) {
    && (forall i :: 0 <= i < |w.started| ==> w.started[i] == i)
    && (forall i :: 0 <= i < |w.finished| ==> w.finished[i].0 == i)
  }

  /** Callers are resumed in that order too, each told how its own job ended. */
  ghost predicate CallersInv(w: World, s: nat, callers: seq<nat>) {
    && |w.resumed| + |callers| == s <= |w.jobs|
    && (forall i :: 0 <= i < |callers| ==> callers[i] == |w.resumed| + i)
    && (forall i :: 0 <= i < |w.resumed| ==> w.resumed[i] == (i, Settled(w.jobs[i].outcome)))
  }

  ghost predicate ShapeAt(w: World, t: seq<Reaction>, callers: seq<nat>) {
    ChainInv(w, t) && TurnInv(w, t) && OrderInv(w) && CallersInv(w, Ended(w, t), callers)
  }

  ghost predicate ShapeInv(w: World) {
    ShapeAt(w, Chain(w.loop.microtasks), Callers(w.loop.microtasks))
  }

  // --- what settling and subscribing do to the promises ---------------------------------------------------

  lemma RunSettles(l: Loop, jobs: seq<Job>, k: nat, m: nat)
    requires Promises(l, jobs, k, k, m) && k < |jobs|
    ensures var v := l.Settle(RunOf(k), jobs[k].outcome);
            Promises(v, jobs, k, k + 1, m) && v.microtasks == l.microtasks + [Swallow(k), Continue(k)]
  {}

  lemma LinkSettles(l: Loop, jobs: seq<Job>, k: nat, m: nat)
    requires Promises(l, jobs, k, k + 1, m)
    ensures var v := l.Settle(LinkOf(k), Fulfilled);
            && Promises(v, jobs, k + 1, k + 1, m)
            && v.microtasks == l.microtasks + if k + 1 < |jobs| then [RunJob(k + 1)] else []
  {}

  /** Microtasks and further starts leave the promises as they are. */
  lemma PromisesStand(l: Loop, v: Loop, jobs: seq<Job>, k: nat, s: nat, m: nat, n: nat)
    requires Promises(l, jobs, k, s, m) && v.promises == l.promises && m <= n
    ensures Promises(v, jobs, k, s, n) && forall p :: v.At(p) == l.At(p)
  {}

  lemma JobSubscribes(l: Loop, jobs: seq<Job>, k: nat, s: nat, m: nat, job: Job)
    requires Promises(l, jobs, k, s, m) && k <= s
    ensures var n := |jobs|;
            var v := l.Then(if n == 0 then Origin else LinkOf(n - 1), RunJob(n)).Then(RunOf(n), Swallow(n)).Then(RunOf(n), Continue(n));
            && Promises(v, jobs + [job], k, s, m)
            && v.microtasks == l.microtasks + (if k == n then [RunJob(n)] else [])
            && forall j :: v.At(InnerOf(j)) == l.At(InnerOf(j))
  {}

  // --- steps keep the shape --------------------------------------------------------------------------

  /** A request queues its job at once only when everything before it has passed. */
  lemma RequestShape(w: World, job: Job, t: seq<Reaction>, c: seq<nat>)
    requires ShapeAt(w, t, c)
    ensures var n, v := |w.jobs|, Step(w, Enqueue(job));
            if t == [] && |w.finished| == n then
              v.loop.microtasks == w.loop.microtasks + [RunJob(n)] && ShapeAt(v, [RunJob(n)], c)
            else
              v.loop.microtasks == w.loop.microtasks && ShapeAt(v, t, c)
  {
    hide Promises, Loop.Then, Loop.At;
    JobSubscribes(w.loop, w.jobs, Passed(w, t), Ended(w, t), |w.started|, job);
  }

  lemma StartShape(w: World, t: seq<Reaction>, c: seq<nat>)
    requires ShapeAt(w, t, c) && t != [] && t[0].RunJob?
    ensures var id, v := t[0].job, Started(w, t[0].job);
            if w.jobs[id].isAsync then
              v.loop.microtasks == w.loop.microtasks + [Adopt(id)] && ShapeAt(v, [Adopt(id)], c)
            else
              v.loop.microtasks == w.loop.microtasks + [Swallow(id), Continue(id)] && ShapeAt(v, [Swallow(id)], c + [id])
  {
    hide OpsFrom, Promises, Loop.At, Loop.Settle;
    var m := |w.started|;
    if w.jobs[t[0].job].isAsync {
      InnerUntouched(w.loop, w.jobs, Passed(w, t), Ended(w, t), m);
      PromisesStand(w.loop, Started(w, t[0].job).loop, w.jobs, Passed(w, t), Ended(w, t), m, m + 1);
    } else {
      RunSettles(w.loop, w.jobs, t[0].job, m);
      var v := Started(w, t[0].job).loop;
      PromisesStand(v, v, w.jobs, t[0].job, t[0].job + 1, m, m + 1);
    }
  }

  lemma InnerUntouched(l: Loop, jobs: seq<Job>, k: nat, s: nat, m: nat)
    requires Promises(l, jobs, k, s, m)
    ensures l.At(InnerOf(m)) == Pending([])
  {}

  lemma AdoptShape(w: World, t: seq<Reaction>, c: seq<nat>)
    requires ShapeAt(w, t, c) && t != [] && t[0].Adopt?
    ensures var id, v := t[0].job, React(w, t[0]);
            if |w.finished| == id then
              v.loop.microtasks == w.loop.microtasks && ShapeAt(v, [], c)
            else
              v.loop.microtasks == w.loop.microtasks + [Forward(id)] && ShapeAt(v, [Forward(id)], c)
  {}

  lemma ForwardShape(w: World, t: seq<Reaction>, c: seq<nat>)
    requires ShapeAt(w, t, c) && t != [] && t[0].Forward?
    ensures var id, v := t[0].job, React(w, t[0]);
            v.loop.microtasks == w.loop.microtasks + [Swallow(id), Continue(id)] && ShapeAt(v, [Swallow(id)], c + [id])
  {
    RunSettles(w.loop, w.jobs, t[0].job, |w.started|);
  }

  lemma SwallowShape(w: World, t: seq<Reaction>, c: seq<nat>)
    requires ShapeAt(w, t, c) && t != [] && t[0].Swallow?
    ensures var id, v := t[0].job, React(w, t[0]);
            if id + 1 == |w.jobs| then
              v.loop.microtasks == w.loop.microtasks && ShapeAt(v, [], c)
            else
              v.loop.microtasks == w.loop.microtasks + [RunJob(id + 1)] && ShapeAt(v, [RunJob(id + 1)], c)
  {
    LinkSettles(w.loop, w.jobs, t[0].job, |w.started|);
    hide Loop.Settle;
  }

  lemma ContinueShape(w: World, t: seq<Reaction>, c: seq<nat>)
    requires ShapeAt(w, t, c) && c != []
    ensures ShapeAt(React(w, Continue(c[0])), t, c[1..])
  {}

  lemma InnerSettles(l: Loop, jobs: seq<Job>, k: nat, s: nat, m: nat, j: nat)
    requires Promises(l, jobs, k, s, m) && j < m && j < |jobs| && l.At(InnerOf(j)).Pending?
    ensures var v := l.Settle(InnerOf(j), jobs[j].outcome);
            && Promises(v, jobs, k, s, m) && v.At(InnerOf(j)) == Settled(jobs[j].outcome)
            && v.microtasks == l.microtasks + l.At(InnerOf(j)).reactions
  {}

  lemma CompleteShape(w: World, id: nat, t: seq<Reaction>, c: seq<nat>)
    requires ShapeAt(w, t, c) && Enabled(w, Complete(id))
    ensures var v := Step(w, Complete(id));
            if t == [] then
              v.loop.microtasks == w.loop.microtasks + [Forward(id)] && ShapeAt(v, [Forward(id)], c)
            else
              v.loop.microtasks == w.loop.microtasks && ShapeAt(v, t, c)
  {
    hide Promises, Loop.Settle, Loop.At;
    InnerSettles(w.loop, w.jobs, Passed(w, t), Ended(w, t), |w.started|, id);
  }

  lemma ForeignShape(w: World, t: seq<Reaction>, c: seq<nat>)
    requires ShapeAt(w, t, c)
    ensures ShapeAt(Step(w, QueueForeign), t, c)
  {
    hide Promises, Loop.At;
    PromisesStand(w.loop, Step(w, QueueForeign).loop, w.jobs, Passed(w, t), Ended(w, t), |w.started|, |w.started|);
  }

  /** Pushing microtasks on a queue, and taking the first off it. */
  lemma Pushed(ms: seq<Reaction>, r: Reaction)
    ensures Chain(ms + [r]) == if Drives(r) then Chain(ms) + [r] else Chain(ms)
    ensures Callers(ms + [r]) == if r.Continue? then Callers(ms) + [r.job] else Callers(ms)
  {
    ChainJoined(ms, [r]);
    CallersJoined(ms, [r]);
    ChainOfOne(r);
  }

  lemma EnqueueKeepsShape(w: World, job: Job)
    requires ShapeInv(w)
    ensures ShapeInv(Step(w, Enqueue(job)))
  {
    hide ShapeAt, Step, Chain, Callers;
    var ms := w.loop.microtasks;
    RequestShape(w, job, Chain(ms), Callers(ms));
    Pushed(ms, RunJob(|w.jobs|));
    assert Chain(ms) == [] ==> Chain(ms + [RunJob(|w.jobs|)]) == [RunJob(|w.jobs|)];
  }

  lemma ForeignKeepsShape(w: World)
    requires ShapeInv(w)
    ensures ShapeInv(Step(w, QueueForeign))
  {
    hide ShapeAt, Chain, Callers;
    var ms := w.loop.microtasks;
    ForeignShape(w, Chain(ms), Callers(ms));
    Pushed(ms, Foreign);
  }

  lemma CompleteKeepsShape(w: World, id: nat)
    requires ShapeInv(w) && Enabled(w, Complete(id))
    ensures ShapeInv(Step(w, Complete(id)))
  {
    hide ShapeAt, Step, Chain, Callers;
    var ms := w.loop.microtasks;
    CompleteShape(w, id, Chain(ms), Callers(ms));
    Pushed(ms, Forward(id));
    assert Chain(ms) == [] ==> Chain(ms + [Forward(id)]) == [Forward(id)];
  }

  lemma PoppedShape(w: World, t: seq<Reaction>, c: seq<nat>)
    requires ShapeAt(w, t, c) && w.loop.microtasks != []
    ensures ShapeAt(Popped(w), t, c)
  {
    hide Promises, Loop.At;
    PromisesStand(w.loop, Popped(w).loop, w.jobs, Passed(w, t), Ended(w, t), |w.started|, |w.started|);
  }

  /** Taking the first microtask off the queue. */
  lemma Taken(w: World)
    requires ShapeInv(w) && w.loop.microtasks != []
    ensures var t, c := Chain(w.loop.microtasks), Callers(w.loop.microtasks);
            var r, ms := w.loop.microtasks[0], w.loop.microtasks[1..];
            && ShapeAt(Popped(w), t, c)
            && (if Drives(r) then t == [r] && Chain(ms) == [] else t == Chain(ms))
            && (if r.Continue? then c == [r.job] + Callers(ms) else c == Callers(ms))
  {
    var t, c := Chain(w.loop.microtasks), Callers(w.loop.microtasks);
    PoppedShape(w, t, c);
    assert |t| <= 1;
    hide ShapeAt;
  }

  lemma MicrotaskKeepsShape(w: World)
    requires ShapeInv(w) && Enabled(w, Microtask)
    ensures ShapeInv(Step(w, Microtask))
  {
    hide ShapeAt, Started, Chain, Callers;
    Taken(w);
    var t, c := Chain(w.loop.microtasks), Callers(w.loop.microtasks);
    var r, p := w.loop.microtasks[0], Popped(w);
    var ms := p.loop.microtasks;
    var v := Step(w, Microtask);
    assert v == React(p, r);
    match r {
      case RunJob(id) =>
        StartShape(p, t, c);
        Pushed(ms, Adopt(id));
        PushedTwo(ms, id);
        assert v == Started(p, id);
        assert Chain(v.loop.microtasks) == if p.jobs[id].isAsync then [Adopt(id)] else [Swallow(id)];
      case Adopt(id) =>
        AdoptShape(p, t, c);
        Pushed(ms, Forward(id));
        assert Chain(v.loop.microtasks) == if |p.finished| == id then [] else [Forward(id)];
      case Forward(id) =>
        ForwardShape(p, t, c);
        PushedTwo(ms, id);
        assert Chain(v.loop.microtasks) == [Swallow(id)];
      case Swallow(id) =>
        SwallowShape(p, t, c);
        Pushed(ms, RunJob(id + 1));
        assert Chain(v.loop.microtasks) == if id + 1 == |p.jobs| then [] else [RunJob(id + 1)];
      case Continue(id) =>
        ContinueShape(p, t, c);
        assert c[1..] == Callers(ms);
      case Foreign =>
    }
  }

  lemma PushedTwo(ms: seq<Reaction>, k: nat)
    ensures Chain(ms + [Swallow(k), Continue(k)]) == Chain(ms) + [Swallow(k)]
    ensures Callers(ms + [Swallow(k), Continue(k)]) == Callers(ms) + [k]
  {
    Pushed(ms, Swallow(k));
    Pushed(ms + [Swallow(k)], Continue(k));
    hide Chain, Callers;
    assert ms + [Swallow(k)] + [Continue(k)] == ms + [Swallow(k), Continue(k)];
  }

  lemma AdvanceKeepsShape(w: World, id: nat)
    requires ShapeInv(w) && Enabled(w, Advance(id))
    ensures ShapeInv(Step(w, Advance(id)))
  {
    hide Chain, Callers, OpMemory, OpLocal;
  }

  // --- jobs do not disturb each other ----------------------------------------------------------------

  /** Memory after the first `k` jobs, run one at a time and undisturbed. */
  ghost function Alone(jobs: seq<Job>, k: nat): State
    requires k <= |jobs|
  {
    if k == 0 then INITIAL else After(jobs[k - 1].ops, Alone(jobs, k - 1)).0
  }

  ghost predicate IsolationInv(w: World)
    requires |w.finished| <= |w.jobs|
  {
    var f := |w.finished|;
    && (forall i :: 0 <= i < f ==> w.finished[i].1 == After(w.jobs[i].ops, Alone(w.jobs, i)).1)
    && (if f in w.running && f < |w.jobs| && w.running[f].done <= |w.jobs[f].ops|
        then (w.mem, w.running[f].local) == After(w.jobs[f].ops[..w.running[f].done], Alone(w.jobs, f))
        else w.mem == Alone(w.jobs, f))
  }

  ghost predicate Inv(w: World) {
    ShapeInv(w) && IsolationInv(w)
  }

  lemma {:induction false} OpsFromIsAfter(ops: seq<Op>, k: nat, s: State)
    requires k <= |ops|
    ensures var r := After(ops[..k], s); OpsFrom(ops[k..], r.0, r.1) == After(ops, s)
    decreases |ops| - k
  {
    if k == |ops| {
      assert ops[..k] == ops;
    } else {
      AfterNext(ops, k, s);
      assert ops[k..][1..] == ops[k + 1..];
      OpsFromIsAfter(ops, k + 1, s);
    }
  }

  lemma {:induction false} AlonePrefix(jobs: seq<Job>, job: Job, k: nat)
    requires k <= |jobs|
    ensures Alone(jobs + [job], k) == Alone(jobs, k)
  {
    if k > 0 { AlonePrefix(jobs, job, k - 1); }
  }

  lemma AloneNext(jobs: seq<Job>, k: nat)
    requires k < |jobs|
    ensures Alone(jobs, k + 1) == After(jobs[k].ops, Alone(jobs, k)).0
  {}

  lemma EnqueueStep(w: World, job: Job)
    requires Inv(w)
    ensures Inv(Step(w, Enqueue(job)))
  {
    hide ShapeInv, After, Loop.Then;
    var v := Step(w, Enqueue(job));
    EnqueueKeepsShape(w, job);
    OneAtATime(w);
    forall k | 0 <= k <= |w.jobs| ensures Alone(v.jobs, k) == Alone(w.jobs, k) { AlonePrefix(w.jobs, job, k); }
  }

  /** Only the first unfinished job can be running, and none is when the next one starts. */
  lemma OneAtATime(w: World)
    requires ShapeInv(w)
    ensures |w.finished| <= |w.started| <= |w.jobs|
    ensures w.running != map[] ==> w.running.Keys == {|w.finished|} && |w.started| == |w.finished| + 1
    ensures w.loop.microtasks != [] && w.loop.microtasks[0].RunJob? ==>
              w.running == map[] && w.loop.microtasks[0].job == |w.finished| < |w.jobs|
  {
    hide Promises, Callers, CallersInv, Passed, Ended;
    if w.loop.microtasks != [] { Taken(w); }
  }

  lemma MicrotaskStep(w: World)
    requires Inv(w) && Enabled(w, Microtask)
    ensures Inv(Step(w, Microtask))
  {
    hide ShapeInv, Started, Alone, After;
    MicrotaskKeepsShape(w);
    OneAtATime(w);
    if w.loop.microtasks[0].RunJob? {
      StartKeepsIsolation(Popped(w));
    }
  }

  lemma StartKeepsIsolation(w: World)
    requires |w.finished| < |w.jobs| && w.running == map[] && IsolationInv(w)
    ensures IsolationInv(Started(w, |w.finished|))
  {
    hide OpMemory, OpLocal, Alone;
    var f := |w.finished|;
    var ops := w.jobs[f].ops;
    OpsFromIsAfter(ops, 0, w.mem);
    assert ops[..0] == [] && ops[0..] == ops;
    assert After([], w.mem) == (w.mem, FRESH);
    AloneNext(w.jobs, f);
  }

  lemma AdvanceStep(w: World, id: nat)
    requires Inv(w) && Enabled(w, Advance(id))
    ensures Inv(Step(w, Advance(id)))
  {
    AdvanceKeepsShape(w, id);
    hide ChainInv, Promises, CallersInv, Chain, Callers, Alone, OpMemory, OpLocal;
    AfterNext(w.jobs[id].ops, w.running[id].done, Alone(w.jobs, |w.finished|));
  }

  lemma CompleteStep(w: World, id: nat)
    requires Inv(w) && Enabled(w, Complete(id))
    ensures Inv(Step(w, Complete(id)))
  {
    hide ShapeInv, After, Alone, Loop.Settle;
    CompleteKeepsShape(w, id);
    OneAtATime(w);
    CompleteKeepsIsolation(w);
  }

  lemma CompleteKeepsIsolation(w: World)
    requires |w.finished| < |w.jobs| && w.running.Keys == {|w.finished|} && IsolationInv(w)
    requires w.running[|w.finished|].done == |w.jobs[|w.finished|].ops|
    ensures IsolationInv(Step(w, Complete(|w.finished|)))
  {
    hide After, Alone, Loop.Settle;
    var f := |w.finished|;
    var ops := w.jobs[f].ops;
    assert ops[..|ops|] == ops;
    AloneNext(w.jobs, f);
  }

  lemma StepKeepsInv(w: World, a: Action)
    requires Inv(w) && Enabled(w, a)
    ensures Inv(Step(w, a))
  {
    hide Inv, Step;
    match a
    case Enqueue(job) => EnqueueStep(w, job);
    case QueueForeign => ForeignStep(w);
    case Microtask => MicrotaskStep(w);
    case Advance(id) => AdvanceStep(w, id);
    case Complete(id) => CompleteStep(w, id);
  }

  lemma ForeignStep(w: World)
    requires Inv(w)
    ensures Inv(Step(w, QueueForeign))
  {
    ForeignKeepsShape(w);
    hide ShapeAt, Chain, Callers, Alone, After;
  }

  lemma StartInv()
    ensures Inv(START)
  {
    assert Chain([]) == [] && Callers([]) == [];
  }

  lemma {:induction false} RunFromKeepsInv(w: World, actions: seq<Action>)
    requires Inv(w) && RunFrom(w, actions).Some?
    ensures Inv(RunFrom(w, actions).value)
  {
    hide Inv, Enabled, Step;
    if actions != [] {
      RunFromKeepsInv(w, actions[..|actions| - 1]);
      StepKeepsInv(RunFrom(w, actions[..|actions| - 1]).value, actions[|actions| - 1]);
    }
  }

  lemma RunKeepsInv(actions: seq<Action>)
    requires Run(actions).Some?
    ensures Inv(Run(actions).value)
  {
    StartInv();
    RunFromKeepsInv(START, actions);
  }

  // --- order ----------------------------------------------------------------------------------------------

  /** In every run jobs start in the order they were queued and at most one is in progress: the
      first that has started and not ended. */
  lemma FirstInFirstOut(actions: seq<Action>)
    requires Run(actions).Some?
    ensures var w := Run(actions).value;
            && (forall i :: 0 <= i < |w.started| ==> w.started[i] == i)
            && |w.running| <= 1
            && (forall id :: id in w.running ==> id == |w.started| - 1 == |w.finished|)
  {
    RunKeepsInv(actions);
    var w := Run(actions).value;
    OneAtATime(w);
    assert |w.running.Keys| == |w.running|;
  }

  /** Callers go on in queueing order, each after its own job has ended and with that job's outcome. */
  lemma CallersResumeInOrder(actions: seq<Action>)
    requires Run(actions).Some?
    ensures var w := Run(actions).value;
            && |w.resumed| <= |w.finished| <= |w.jobs|
            && forall i :: 0 <= i < |w.resumed| ==> w.resumed[i] == (i, Settled(w.jobs[i].outcome))
  {
    RunKeepsInv(actions);
  }

  /** With nothing left to do, every queued job has ended and every caller has gone on. */
  lemma QuietMeansDone(actions: seq<Action>)
    requires Run(actions).Some?
    requires var w := Run(actions).value; w.loop.microtasks == [] && w.running == map[]
    ensures var w := Run(actions).value; |w.resumed| == |w.finished| == |w.jobs|
  {
    RunKeepsInv(actions);
    hide Promises;
    assert Chain([]) == [] && Callers([]) == [];
  }

  // --- the next job starts ----------------------------------------------------------------------------------

  /** All started jobs have ended, rejected or not, and another is queued. */
  predicate Owed(w: World) {
    |w.started| == |w.finished| < |w.jobs|
  }

  function Count(actions: seq<Action>, a: Action): nat {
    multiset(actions)[a]
  }

  ghost function Position(ms: seq<Reaction>): nat {
    if ms == [] || Drives(ms[0]) then 0 else 1 + Position(ms[1..])
  }

  /** How many microtasks may run before the next job starts, if no code queues more: behind the
      one that drives the queue come a Forward, a Swallow with the resumed caller, and the job. */
  ghost function Wait(ms: seq<Reaction>): nat {
    var t := Chain(ms);
    if t == [] then 0
    else
      match t[0]
      case RunJob(_) => Position(ms) + 1
      case Swallow(_) => |ms| + 1
      case Forward(_) => |ms| + 3
      case Adopt(_) => |ms| + 4
      case _ => 0
  }

  lemma {:induction false} PositionPushed(ms: seq<Reaction>, r: Reaction)
    ensures Chain(ms) != [] ==> Position(ms + [r]) == Position(ms) < |ms|
    ensures Chain(ms) == [] ==> Position(ms) == |ms|
    ensures Chain(ms) == [] && Drives(r) ==> Position(ms + [r]) == |ms|
  {
    if ms != [] {
      assert (ms + [r])[1..] == ms[1..] + [r];
      PositionPushed(ms[1..], r);
    }
  }

  lemma WaitBound(ms: seq<Reaction>)
    ensures Wait(ms) <= |ms| + 4
  {
    PositionPushed(ms, Foreign);
  }

  /** While a job is owed, something drives the queue, so a microtask is ready. */
  lemma OwedIsDriven(w: World)
    requires ShapeInv(w) && Owed(w)
    ensures Enabled(w, Microtask)
    ensures var t := Chain(w.loop.microtasks);
            |t| == 1 && Drives(t[0]) && t[0].job == if t[0].RunJob? then |w.finished| else |w.finished| - 1
  {
    hide Promises, CallersInv, Callers, Passed, Ended;
    OneAtATime(w);
  }

  ghost predicate CountsDown(w: World, v: World) {
    || |v.started| > |w.started|
    || (v.started == w.started && v.finished == w.finished && v.jobs == w.jobs
        && Wait(v.loop.microtasks) < Wait(w.loop.microtasks))
  }

  lemma DrivenCountsDown(w: World)
    requires ShapeInv(w) && Owed(w) && w.loop.microtasks != [] && Drives(w.loop.microtasks[0])
    ensures CountsDown(w, Step(w, Microtask))
  {
    hide ShapeInv, ShapeAt, Chain, Callers, Started, Loop.Then, Loop.Settle;
    OwedIsDriven(w);
    Taken(w);
    var t, c := Chain(w.loop.microtasks), Callers(w.loop.microtasks);
    var r, p := w.loop.microtasks[0], Popped(w);
    var ms := p.loop.microtasks;
    match r {
      case RunJob(id) => assert Step(w, Microtask).started == w.started + [id] by { StartedAdds(p, id); }
      case Adopt(id) =>
        AdoptShape(p, t, c);
        Pushed(ms, Forward(id));
      case Forward(id) =>
        ForwardShape(p, t, c);
        PushedTwo(ms, id);
      case Swallow(id) =>
        SwallowShape(p, t, c);
        Pushed(ms, RunJob(id + 1));
        PositionPushed(ms, RunJob(id + 1));
      case _ =>
    }
  }

  lemma StartedAdds(w: World, id: nat)
    requires id < |w.jobs|
    ensures Started(w, id).started == w.started + [id]
  {
    hide OpsFrom, Loop.Settle;
  }

  lemma MicrotaskCountsDown(w: World)
    requires ShapeInv(w) && Owed(w) && Enabled(w, Microtask)
    ensures CountsDown(w, Step(w, Microtask))
  {
    OwedIsDriven(w);
    hide ShapeInv, ShapeAt, Started;
    if Drives(w.loop.microtasks[0]) {
      DrivenCountsDown(w);
    } else {
      Taken(w);
      hide Chain, Callers;
    }
  }

  lemma EnqueueHolds(w: World, job: Job)
    requires ShapeInv(w) && Owed(w)
    ensures var v := Step(w, Enqueue(job));
            v.started == w.started && v.finished == w.finished && Owed(v) && v.loop.microtasks == w.loop.microtasks
  {
    OwedIsDriven(w);
    RequestShape(w, job, Chain(w.loop.microtasks), Callers(w.loop.microtasks));
    hide ShapeAt, Chain, Callers;
  }

  lemma ForeignHolds(w: World)
    requires ShapeInv(w) && Owed(w)
    ensures Wait(Step(w, QueueForeign).loop.microtasks) <= Wait(w.loop.microtasks) + 1
  {
    OwedIsDriven(w);
    Pushed(w.loop.microtasks, Foreign);
    PositionPushed(w.loop.microtasks, Foreign);
    hide ShapeInv, Chain, Position;
  }

  /** Nothing but microtasks and arrivals can happen while a job is owed; each microtask brings its
      start nearer by one, each microtask queued by other code puts it off by one at most. */
  lemma OwedStep(w: World, a: Action)
    requires Inv(w) && Owed(w) && Enabled(w, a)
    ensures var v := Step(w, a);
            || |v.started| > |w.started|
            || (v.started == w.started && Owed(v)
                && Wait(v.loop.microtasks) + (if a == Microtask then 1 else 0)
                   <= Wait(w.loop.microtasks) + if a == QueueForeign then 1 else 0)
  {
    hide ShapeInv, Wait;
    OneAtATime(w);
    match a
    case Enqueue(job) => EnqueueHolds(w, job);
    case QueueForeign => ForeignHolds(w);
    case Microtask => MicrotaskCountsDown(w);
    case _ =>
  }

  lemma {:induction false} Countdown(w: World, later: seq<Action>)
    requires Inv(w) && Owed(w) && RunFrom(w, later).Some?
    ensures var v := RunFrom(w, later).value;
            || |v.started| > |w.started|
            || (v.started == w.started && Owed(v)
                && Wait(v.loop.microtasks) + Count(later, Microtask) <= Wait(w.loop.microtasks) + Count(later, QueueForeign))
  {
    hide Inv, Wait, Step;
    if later != [] {
      var n := |later| - 1;
      Countdown(w, later[..n]);
      RunFromKeepsInv(w, later[..n]);
      var u := RunFrom(w, later[..n]).value;
      assert later == later[..n] + [later[n]];
      StartedGrows(u, later[n]);
      if |u.started| == |w.started| {
        OwedStep(u, later[n]);
      }
    }
  }

  lemma StartedGrows(w: World, a: Action)
    requires Enabled(w, a)
    ensures |Step(w, a).started| >= |w.started|
  {
    hide OpsFrom, Loop.Settle, Loop.Then;
  }

  /** A rejected job wedges nothing, and the wait is bounded whatever else the loop does: from any
      moment at which every started job has ended and another is queued, that one has started by
      the time the microtasks then queued, four more, and those that other code queued meanwhile
      have run. Until it has, a microtask is ready. */
  lemma NextJobStarts(actions: seq<Action>, later: seq<Action>)
    requires Run(actions).Some? && Owed(Run(actions).value)
    requires RunFrom(Run(actions).value, later).Some?
    ensures var w := Run(actions).value;
            var v := RunFrom(w, later).value;
            && (Count(later, Microtask) >= |w.loop.microtasks| + 4 + Count(later, QueueForeign) ==>
                  |v.started| > |w.started| && v.started[|w.started|] == |w.started|)
            && (|v.started| == |w.started| ==> Enabled(v, Microtask))
  {
    hide ShapeInv, Step, Wait;
    RunKeepsInv(actions);
    var w := Run(actions).value;
    RunFromKeepsInv(w, later);
    var v := RunFrom(w, later).value;
    Countdown(w, later);
    WaitBound(w.loop.microtasks);
    StartOrder(v);
    if |v.started| == |w.started| {
      OwedIsDriven(v);
      DrivenWaits(v);
    }
  }

  lemma RunOneMore(w: World, actions: seq<Action>, a: Action, v: World)
    requires RunFrom(w, actions) == Some(v) && Enabled(v, a)
    ensures RunFrom(w, actions + [a]) == Some(Step(v, a))
  {
    assert (actions + [a])[..|actions|] == actions;
  }

  lemma RunNone(w: World)
    ensures RunFrom(w, []) == Some(w)
  {}

  /** Job 0 has ended before its promise was adopted, and job 1 is queued behind it. */
  ghost predicate AwaitsAdoption(w: World) {
    && w.loop.microtasks == [Adopt(0)] && w.started == [0] && |w.finished| == 1 && |w.jobs| == 2
    && w.loop.At(InnerOf(0)) == Settled(Fulfilled)
    && w.loop.At(RunOf(0)) == Pending([Swallow(0), Continue(0)])
    && w.loop.At(LinkOf(0)) == Pending([RunJob(1)])
  }

  const ASYNC: Job := Job([], true, Fulfilled)

  lemma TwoRequests(w: World)
    requires w == Step(Step(START, Enqueue(ASYNC)), Enqueue(ASYNC))
    ensures w.loop.microtasks == [RunJob(0)] && w.started == [] && w.finished == [] && w.jobs == [ASYNC, ASYNC]
    ensures w.running == map[]
    ensures w.loop.At(InnerOf(0)) == Pending([])
    ensures w.loop.At(RunOf(0)) == Pending([Swallow(0), Continue(0)])
    ensures w.loop.At(LinkOf(0)) == Pending([RunJob(1)])
  {
    assert Step(START, Enqueue(ASYNC)).loop.At(LinkOf(0)) == Pending([]);
  }

  lemma FirstStarts(w: World)
    requires w.loop.microtasks == [RunJob(0)] && w.started == [] && w.finished == [] && w.jobs == [ASYNC, ASYNC]
    requires w.running == map[]
    ensures Enabled(w, Microtask)
    ensures var v := Step(w, Microtask);
            v == w.(loop := Loop(w.loop.promises, [Adopt(0)]), started := [0], running := map[0 := Progress(0, FRESH)])
  {
    hide Requested;
  }

  lemma FirstEndsEarly(w: World)
    requires w == Step(Step(START, Enqueue(ASYNC)), Enqueue(ASYNC))
    ensures Enabled(w, Microtask) && Enabled(Step(w, Microtask), Complete(0))
    ensures AwaitsAdoption(Step(Step(w, Microtask), Complete(0)))
  {
    hide Requested, Started, React, Popped;
    TwoRequests(w);
    FirstStarts(w);
    assert forall p :: Step(w, Microtask).loop.At(p) == w.loop.At(p);
  }

  lemma ReachAdoption() returns (actions: seq<Action>)
    ensures Run(actions).Some? && AwaitsAdoption(Run(actions).value)
  {
    hide RunFrom, AwaitsAdoption;
    var w := Step(Step(START, Enqueue(ASYNC)), Enqueue(ASYNC));
    FirstEndsEarly(w);
    hide Step;
    RunNone(START);
    RunOneMore(START, [], Enqueue(ASYNC), START);
    RunOneMore(START, [] + [Enqueue(ASYNC)], Enqueue(ASYNC), Step(START, Enqueue(ASYNC)));
    RunOneMore(START, [] + [Enqueue(ASYNC)] + [Enqueue(ASYNC)], Microtask, w);
    RunOneMore(START, [] + [Enqueue(ASYNC)] + [Enqueue(ASYNC)] + [Microtask], Complete(0), Step(w, Microtask));
    actions := [] + [Enqueue(ASYNC)] + [Enqueue(ASYNC)] + [Microtask] + [Complete(0)];
  }

  lemma FourMicrotasks(w: World)
    requires AwaitsAdoption(w)
    ensures var later := [Microtask, Microtask, Microtask, Microtask];
            RunFrom(w, later).Some? && RunFrom(w, later).value.started == w.started
  {
    hide RunFrom;
    var w1 := Step(w, Microtask);
    assert w1.loop.microtasks == [Forward(0)];
    var w2 := Step(w1, Microtask);
    assert w2.loop.microtasks == [Swallow(0), Continue(0)];
    var w3 := Step(w2, Microtask);
    assert w3.loop.microtasks == [Continue(0), RunJob(1)];
    var w4 := Step(w3, Microtask);
    RunNone(w);
    RunOneMore(w, [], Microtask, w);
    RunOneMore(w, [] + [Microtask], Microtask, w1);
    RunOneMore(w, [] + [Microtask] + [Microtask], Microtask, w2);
    RunOneMore(w, [] + [Microtask] + [Microtask] + [Microtask], Microtask, w3);
    assert [] + [Microtask] + [Microtask] + [Microtask] + [Microtask] == [Microtask, Microtask, Microtask, Microtask];
    assert w4.started == w.started;
  }

  /** The bound is met: with one microtask queued, the next job can still be waiting after four more. */
  lemma BoundIsMet()
    ensures exists actions, later ::
              && Run(actions).Some? && Owed(Run(actions).value)
              && RunFrom(Run(actions).value, later).Some?
              && Count(later, Microtask) == |Run(actions).value.loop.microtasks| + 3 && Count(later, QueueForeign) == 0
              && RunFrom(Run(actions).value, later).value.started == Run(actions).value.started
  {
    hide RunFrom;
    var actions := ReachAdoption();
    FourMicrotasks(Run(actions).value);
    assert Count([Microtask, Microtask, Microtask, Microtask], Microtask) == 4;
  }

  lemma StartOrder(w: World)
    requires Inv(w)
    ensures forall i :: 0 <= i < |w.started| ==> w.started[i] == i
  {}

  lemma DrivenWaits(w: World)
    requires ShapeInv(w) && Owed(w)
    ensures Wait(w.loop.microtasks) > 0
  {
    OwedIsDriven(w);
    hide ShapeInv, Chain, Position;
  }

  // --- requests as jobs -------------------------------------------------------------------------------------

  ghost predicate ServesPlans(jobs: seq<Job>, plans: seq<Plan>) {
    |jobs| == |plans| && forall i :: 0 <= i < |jobs| ==> !plans[i].Refuse? && jobs[i].ops == OpsOf(TypeScript, plans[i])
  }

  lemma {:induction false} AloneServes(jobs: seq<Job>, plans: seq<Plan>, k: nat)
    requires ServesPlans(jobs, plans) && k <= |jobs|
    ensures Alone(jobs, k) == Serve(plans[..k])
  {
    if k > 0 {
      AloneServes(jobs, plans, k - 1);
      SectionIsCall(TypeScript, plans[k - 1], Alone(jobs, k - 1));
      assert plans[..k][..k - 1] == plans[..k - 1];
    }
  }

  /** When the jobs are handler calls and state reads, every one that has ended is answered exactly
      as the one-at-a-time machine answers it in queueing order, however the others interleave. */
  lemma AnsweredInQueueOrder(actions: seq<Action>, plans: seq<Plan>, i: nat)
    requires Run(actions).Some? && ServesPlans(Run(actions).value.jobs, plans)
    requires i < |Run(actions).value.finished|
    ensures i < |plans| && Respond(plans[i], Run(actions).value.finished[i].1) == Answer(plans[i], Serve(plans[..i]))
  {
    hide ShapeInv, Serve;
    RunKeepsInv(actions);
    var w := Run(actions).value;
    OneAtATime(w);
    AloneServes(w.jobs, plans, i);
    SectionIsCall(TypeScript, plans[i], Serve(plans[..i]));
  }

  /** The answers of the jobs that have ended. */
  ghost function Answers(w: World, plans: seq<Plan>): (r: seq<Reply>)
    requires |w.finished| <= |plans|
    ensures |r| == |w.finished|
  {
    seq(|w.finished|, i requires 0 <= i < |w.finished| => Respond(plans[i], w.finished[i].1))
  }

  /** Between jobs memory is the sequential state of those that have ended, and the numbers handed
      out are gapless: 1..count in queueing order, the last text being number count's. */
  lemma NumberingBetweenJobs(actions: seq<Action>, plans: seq<Plan>, kind: Kind)
    requires Run(actions).Some? && ServesPlans(Run(actions).value.jobs, plans)
    requires Run(actions).value.running == map[]
    ensures var w := Run(actions).value;
            && |w.finished| <= |plans|
            && w.mem == Serve(plans[..|w.finished|])
            && Answers(w, plans) == Replies(plans[..|w.finished|])
            && Gapless(kind, w.mem, Answers(w, plans))
  {
    hide ShapeInv, Serve, Replies, Gapless, Respond;
    RunKeepsInv(actions);
    var w := Run(actions).value;
    OneAtATime(w);
    var f := |w.finished|;
    var served := plans[..f];
    AloneServes(w.jobs, plans, f);
    forall i | 0 <= i < f ensures Answers(w, plans)[i] == Replies(served)[i] {
      AnsweredInQueueOrder(actions, plans, i);
      RepliesAt(served, i);
      assert served[..i] == plans[..i];
    }
    NumberingIsGapless(kind, served);
  }
}
