/** testing/scripts/sequencer.sh: weighted rotation over the agents, its restarts and its lock wait. */
module Sequencer {
  import opened Wrappers

  /** Splitting non-empty text gives at least one agent, which is what the script checks for. */
  type Rotation = r: seq<string> | r != [] witness [""]

  /** One slot: its number, who it fell to, under which rotation, and whether the session was alive. */
  datatype Slot = Slot(number: nat, agent: string, rotation: Rotation, alive: bool)

  datatype Phase =
    | Idle
    | Chosen(slot: Slot)
    | Sent(slot: Slot)

  /** saved is the state file, None while there is no number in it. The histories: begun for every slot
      the script turned to, sent for every heartbeat, done for every slot whose number it saved past.
      restarts counts the crashes so far. */
  datatype Machine = Machine(
    rotation: Rotation, index: nat, phase: Phase, saved: Option<nat>,
    begun: seq<Slot>, sent: seq<Slot>, done: seq<Slot>, restarts: nat)

  function Fresh(rotation: Rotation): Machine {
    Machine(rotation, 0, Idle, None, [], [], [], 0)
  }

  /** Turning to the next slot, with the config read anew: None when it cannot be read or sets nothing. */
  function Begin(m: Machine, config: Option<Rotation>, alive: bool): Machine {
    var rotation := config.GetOr(m.rotation);
    var slot := Slot(m.index, rotation[m.index % |rotation|], rotation, alive);
    m.(rotation := rotation, phase := Chosen(slot), begun := m.begun + [slot])
  }

  function Dispatch(m: Machine): Machine
    requires m.phase.Chosen?
  {
    m.(phase := Sent(m.phase.slot), sent := m.sent + [m.phase.slot])
  }

  function Advance(m: Machine): Machine
    requires !m.phase.Idle?
  {
    m.(index := m.index + 1, phase := Idle, saved := Some(m.index + 1), done := m.done + [m.phase.slot])
  }

  /** A crash, and a later start with the rotation then configured. */
  function Restart(m: Machine, rotation: Rotation): Machine {
    m.(rotation := rotation, index := m.saved.GetOr(0), phase := Idle, restarts := m.restarts + 1)
  }

  /** A slot takes up the config if it can be read and goes on with the old rotation if not; it falls
      to the agent that the index, counted around the rotation, points at. */
  lemma SlotTakesConfig(m: Machine, config: Option<Rotation>, alive: bool)
    ensures var n := Begin(m, config, alive);
            && (config.Some? ==> n.rotation == config.value) && (config.None? ==> n.rotation == m.rotation)
            && n.phase.Chosen? && n.phase.slot.rotation == n.rotation && n.phase.slot.alive == alive
            && n.phase.slot.agent == n.rotation[m.index % |n.rotation|] && n.phase.slot.number == m.index
            && n.index == m.index && n.saved == m.saved && n.sent == m.sent
  {}

  ghost predicate Step(m: Machine, n: Machine) {
    || (m.phase.Idle? && exists config: Option<Rotation>, alive :: n == Begin(m, config, alive))
    || (m.phase.Chosen? && m.phase.slot.alive && n == Dispatch(m))
    || (m.phase.Chosen? && !m.phase.slot.alive && n == Advance(m))
    || (m.phase.Sent? && n == Advance(m))
    || exists rotation: Rotation :: n == Restart(m, rotation)
  }

  ghost predicate Run(ms: seq<Machine>) {
    && ms != []
    && (exists rotation: Rotation :: ms[0] == Fresh(rotation))
    && forall k :: 0 <= k < |ms| - 1 ==> Step(ms[k], ms[k + 1])
  }

  predicate Numbered(slots: seq<Slot>) {
    forall k :: 0 <= k < |slots| ==> slots[k].number == k
  }

  predicate Drawn(s: Slot) {
    s.agent == s.rotation[s.number % |s.rotation|]
  }

  /** From one entry to the next, the number stays or grows by one. */
  predicate Gradual(slots: seq<Slot>) {
    && (slots != [] ==> slots[0].number == 0)
    && forall k :: 0 <= k < |slots| - 1 ==> slots[k].number <= slots[k + 1].number <= slots[k].number + 1
  }

  ghost predicate Inv(m: Machine) {
    && m.index == |m.done| == m.saved.GetOr(0)
    && Numbered(m.done) && Gradual(m.begun)
    && (forall s :: s in m.begun || s in m.done ==> Drawn(s))
    && (forall s :: s in m.done ==> s in m.begun && (s.alive ==> s in m.sent))
    && (forall s :: s in m.sent ==> s.alive && s in m.begun)
    && (m.phase.Idle? ==> m.begun == [] || m.index <= m.begun[|m.begun| - 1].number + 1)
    && (m.begun == [] ==> m.index == 0)
    && (m.begun != [] ==> m.begun[|m.begun| - 1].number <= m.index)
    && (!m.phase.Idle? ==> m.begun != [] && m.phase.slot == m.begun[|m.begun| - 1] && m.phase.slot.number == m.index)
    && (m.phase.Sent? ==> m.phase.slot in m.sent)
    && |m.begun| <= |m.done| + m.restarts + (if m.phase.Idle? then 0 else 1)
  }

  lemma BeginKeepsInv(m: Machine, config: Option<Rotation>, alive: bool)
    requires Inv(m) && m.phase.Idle?
    ensures Inv(Begin(m, config, alive))
  {
  }

  lemma DispatchKeepsInv(m: Machine)
    requires Inv(m) && m.phase.Chosen? && m.phase.slot.alive
    ensures Inv(Dispatch(m))
  {
  }

  lemma AdvanceKeepsInv(m: Machine)
    requires Inv(m) && (m.phase.Sent? || (m.phase.Chosen? && !m.phase.slot.alive))
    ensures Inv(Advance(m))
  {
  }

  lemma RestartKeepsInv(m: Machine, rotation: Rotation)
    requires Inv(m)
    ensures Inv(Restart(m, rotation))
  {
  }

  lemma StepKeepsInv(m: Machine, n: Machine)
    requires Inv(m) && Step(m, n)
    ensures Inv(n)
  {
    hide Inv, Begin, Dispatch, Advance, Restart;
    if rotation: Rotation :| n == Restart(m, rotation) {
      RestartKeepsInv(m, rotation);
    } else if m.phase.Idle? {
      var config: Option<Rotation>, alive :| n == Begin(m, config, alive);
      BeginKeepsInv(m, config, alive);
    } else if m.phase.Chosen? && m.phase.slot.alive {
      DispatchKeepsInv(m);
    } else {
      AdvanceKeepsInv(m);
    }
  }

  lemma {:induction false} RunKeepsInv(ms: seq<Machine>)
    requires Run(ms)
    ensures Inv(ms[|ms| - 1])
  {
    if |ms| > 1 {
      RunKeepsInv(ms[..|ms| - 1]);
      assert Step(ms[|ms| - 2], ms[|ms| - 2 + 1]);
      StepKeepsInv(ms[|ms| - 2], ms[|ms| - 1]);
    }
  }

  /** Whatever the crashes: the finished slots are 0, 1, 2, … with none skipped and none twice; each
      finished one with a living session got its heartbeat; the script turns to slots in order, turning
      back to no slot but the one in flight, and that at most once per restart. */
  lemma RestartsRepeatOnlyTheSlotInFlight(ms: seq<Machine>)
    requires Run(ms)
    ensures var m := ms[|ms| - 1];
            && Numbered(m.done) && |m.done| == m.saved.GetOr(0)
            && (forall s :: s in m.done && s.alive ==> s in m.sent)
            && Gradual(m.begun)
            && |m.begun| <= |m.done| + m.restarts + 1
  {
    RunKeepsInv(ms);
  }

  function Agents(slots: seq<Slot>): (agents: seq<string>)
    ensures |agents| == |slots|
    ensures forall k :: 0 <= k < |slots| ==> agents[k] == slots[k].agent
  {
    if slots == [] then [] else [slots[0].agent] + Agents(slots[1..])
  }

  lemma Wrap(i: nat, k: nat, n: nat)
    requires k < n
    ensures (i + k) % n == if i % n + k < n then i % n + k else i % n + k - n
  {
    var q, s := i / n, i % n;
    assert i == n * q + s;
    if s + k < n {
      Remainder(i + k, n, q, s + k);
    } else {
      assert n * (q + 1) == n * q + n;
      Remainder(i + k, n, q + 1, s + k - n);
    }
  }

  lemma Remainder(a: nat, n: nat, q: nat, s: nat)
    requires s < n && a == n * q + s
    ensures a % n == s
  {
    var d := q - a / n;
    assert n * d == n * q - n * (a / n);
    if d != 0 {
      Multiple(n, d);
      assert false;
    }
  }

  lemma Multiple(n: int, d: int)
    requires d != 0 && n >= 0
    ensures n * d >= n || n * d <= 0 - n
  {
    if d > 0 {
      Scale(n, d);
    } else {
      Scale(n, 0 - d);
      assert n * (0 - d) == 0 - n * d;
    }
  }

  lemma Scale(n: int, d: int)
    requires d >= 1 && n >= 0
    ensures n * d >= n
  {
    assert n * d == n + n * (d - 1);
  }

  /** Fairness: any window of finished slots as long as the rotation they were drawn from holds each
      agent exactly as often as the rotation does, through crashes, dead sessions and configs that
      could not be read. */
  lemma WindowIsFair(ms: seq<Machine>, from: nat, rotation: Rotation)
    requires Run(ms) && from + |rotation| <= |ms[|ms| - 1].done|
    requires forall s :: s in ms[|ms| - 1].done[from..from + |rotation|] ==> s.rotation == rotation
    ensures multiset(Agents(ms[|ms| - 1].done[from..from + |rotation|])) == multiset(rotation)
  {
    RunKeepsInv(ms);
    var window := ms[|ms| - 1].done[from..from + |rotation|];
    assert forall k :: 0 <= k < |window| ==> window[k] in window && window[k] == ms[|ms| - 1].done[from + k];
    hide Run;
    FullTurn(window, from, rotation);
  }

  lemma FullTurn(window: seq<Slot>, from: nat, rotation: Rotation)
    requires |window| == |rotation|
    requires forall k :: 0 <= k < |window| ==> window[k].number == from + k && window[k].rotation == rotation && Drawn(window[k])
    ensures multiset(Agents(window)) == multiset(rotation)
  {
    hide Drawn, Turned;
    assert Agents(window) == Turned(rotation, from) by {
      forall k | 0 <= k < |rotation|
        ensures Agents(window)[k] == Turned(rotation, from)[k]
      {
        DrawnInTurn(window[k], from, k);
      }
    }
    TurnedSame(rotation, from);
  }

  /** The rotation begun at slot `from`. */
  function Turned(rotation: Rotation, from: nat): (r: seq<string>)
    ensures |r| == |rotation|
  {
    var start := from % |rotation|;
    rotation[start..] + rotation[..start]
  }

  lemma TurnedSame(rotation: Rotation, from: nat)
    ensures multiset(Turned(rotation, from)) == multiset(rotation)
  {
    var start := from % |rotation|;
    assert rotation == rotation[..start] + rotation[start..];
  }

  lemma DrawnInTurn(s: Slot, from: nat, k: nat)
    requires k < |s.rotation| && s.number == from + k && Drawn(s)
    ensures s.agent == Turned(s.rotation, from)[k]
  {
    Wrap(from, k, |s.rotation|);
  }

  /** What the lock wait sees after k sleeps: the time written in the lock file, None while there is no
      file, and the clock. */
  datatype Surroundings = Surroundings(lock: nat -> Option<int>, clock: nat -> int, timeout: nat) {

    predicate Stale(k: nat) {
      lock(k).Some? && clock(k) - lock(k).value > timeout
    }

    /** The loop is still going after k sleeps. */
    predicate Waits(k: nat) {
      forall j :: 0 <= j <= k ==> lock(j).Some? && !Stale(j)
    }

    /** sleep 5 passes at least five seconds. */
    ghost predicate Sleeps() {
      forall j: nat, k: nat :: k == j + 1 ==> clock(k) >= clock(j) + 5
    }
  }

  /** The wait, whoever removes or rewrites the lock meanwhile: it is over at the first look at which
      the lock is gone or stale, and clears it by force in just the second case. A wait that never
      ends has no outcome, so the contract speaks of waits that do. */
  method AwaitLock(e: Surroundings) returns (polls: nat, forced: bool)
    requires exists k: nat :: !e.Waits(k)
    ensures !e.Waits(polls) && forall k: nat :: k < polls ==> e.Waits(k)
    ensures forced <==> e.Stale(polls)
    ensures !forced <==> e.lock(polls).None?
    ensures forced ==> e.clock(polls) > e.lock(polls).value + e.timeout
    ensures forall j: nat :: j < polls ==> e.lock(j).Some? && e.clock(j) <= e.lock(j).value + e.timeout
  {
    ghost var end: nat :| !e.Waits(end);
    polls, forced := 0, false;
    while e.lock(polls).Some?
      invariant !forced && polls <= end
      invariant forall j :: 0 <= j < polls ==> e.lock(j).Some? && !e.Stale(j)
      decreases end - polls
    {
      if e.clock(polls) - e.lock(polls).value > e.timeout {
        forced := true;
        break;
      }
      assert e.Waits(polls);
      polls := polls + 1;
    }
  }

  /** A lock that its holder does not rewrite keeps nobody waiting longer than its timeout and one
      more poll: the time left shrinks with every sleep until the wait is over. */
  lemma {:induction false} UnrenewedLockClears(e: Surroundings, written: int, k: nat) returns (end: nat)
    requires e.Sleeps() && forall j: nat :: e.lock(j).Some? ==> e.lock(j).value == written
    requires k == 0 || e.Waits(k - 1)
    ensures k <= end && !e.Waits(end) && forall j: nat :: j < end ==> e.Waits(j)
    ensures end > 0 ==> e.clock(end - 1) <= written + e.timeout
    ensures end > 0 ==> 5 * (end - 1) <= written + e.timeout - e.clock(0)
    decreases written + e.timeout - e.clock(k)
  {
    assert k > 0 ==> e.lock(k - 1).Some? && !e.Stale(k - 1);
    if e.Waits(k) {
      assert e.lock(k).Some? && !e.Stale(k);
      assert e.clock(k + 1) >= e.clock(k) + 5;
      end := UnrenewedLockClears(e, written, k + 1);
    } else {
      end := k;
      if k > 0 { ClockRuns(e, k - 1); }
    }
  }

  lemma {:induction false} ClockRuns(e: Surroundings, k: nat)
    requires e.Sleeps()
    ensures e.clock(k) >= e.clock(0) + 5 * k
  {
    if k > 0 { ClockRuns(e, k - 1); }
  }

  /** Whoever rewrites the lock: the wait survives the timeout only by finding the lock renewed. */
  lemma WaitEndsUnlessRenewed(e: Surroundings, k: nat)
    requires e.Sleeps() && e.Waits(k)
    requires e.clock(0) + 5 * k > e.lock(0).value + e.timeout
    ensures exists j: nat :: j < k && e.lock(j).value < e.lock(j + 1).value
  {
    if forall j: nat :: j < k ==> e.lock(j).value >= e.lock(j + 1).value {
      NeverRenewed(e, k);
    }
  }

  lemma {:induction false} NeverRenewed(e: Surroundings, k: nat)
    requires e.Sleeps() && forall j: nat :: j <= k ==> e.lock(j).Some?
    requires forall j: nat :: j < k ==> e.lock(j).value >= e.lock(j + 1).value
    ensures e.lock(k).value <= e.lock(0).value && e.clock(k) >= e.clock(0) + 5 * k
  {
    ClockRuns(e, k);
    if k > 0 {
      NeverRenewed(e, k - 1);
      assert e.lock(k - 1).value >= e.lock(k - 1 + 1).value;
    }
  }

  /** The running script. It keeps the index in memory and in the state file; the histories are ghost. */
  class Script {
    var rotation: Rotation
    var index: nat
    var stateFile: Option<nat>
    ghost var begun: seq<Slot>
    ghost var sent: seq<Slot>
    ghost var done: seq<Slot>
    ghost var restarts: nat

    /** The machine between two slots. */
    ghost function View(): Machine
      reads this
    {
      Machine(rotation, index, Idle, stateFile, begun, sent, done, restarts)
    }

    constructor (rotation: Rotation)
      ensures View() == Fresh(rotation)
    {
      this.rotation, index, stateFile := rotation, 0, None;
      begun, sent, done, restarts := [], [], [], 0;
    }

    /** Starting over with what the state file holds. */
    method Resume(rotation: Rotation)
      modifies this
      ensures View() == Restart(old(View()), rotation)
    {
      this.rotation, index := rotation, 0;
      if stateFile.Some? {
        index := stateFile.value;
      }
      restarts := restarts + 1;
    }

    /** One pass of the main loop, provided that its wait for the lock, if any, ends. */
    method TakeSlot(config: Option<Rotation>, alive: bool, e: Surroundings) returns (heartbeat: Option<string>)
      requires alive ==> exists k: nat :: !e.Waits(k)
      modifies this
      ensures alive ==> View() == Advance(Dispatch(Begin(old(View()), config, alive)))
      ensures !alive ==> View() == Advance(Begin(old(View()), config, alive))
      ensures heartbeat == if alive then Some(rotation[old(index) % |rotation|]) else None
    {
      if config.Some? {
        rotation := config.value;
      }
      var agent := rotation[index % |rotation|];
      ghost var slot := Slot(index, agent, rotation, alive);
      begun := begun + [slot];
      heartbeat := None;
      if alive {
        var _, _ := AwaitLock(e);
        heartbeat := Some(agent);
        sent := sent + [slot];
      }
      done := done + [slot];
      index := index + 1;
      stateFile := Some(index);
    }
  }
}
