/** The resumable TEE registration: RegisterNode in tools/pkg/fccutils/registration.go and its
    caller tools/cmd/register-tee/main.go, with the FTDC policy gate of policy_consistency.go.
    A run is a function of a script that says how each outside effect turned out; stopping before
    or after an effect covers a crash between any two statements. */
module Registration {
  import opened Wrappers

  // --- persistent world --------------------------------------------------------------------

  /** An instruction id; 0 is the zero hash. */
  type Id = nat

  datatype ChainEvent = Attested(id: Id) | Checked(id: Id, attest: Id) | Promoted(check: Id)

  /** The state file. */
  datatype Saved = Saved(steps: string, attest: Id, check: Id)

  const EMPTY: Saved := Saved("", 0, 0)

  /** `sent` and `lost` only record: the step letters whose transaction was mined since the state
      file was last removed, and those whose record was lost when a run ended. */
  datatype World = World(file: Option<Saved>, log: seq<ChainEvent>, registered: bool, sent: multiset<char>, lost: multiset<char>) {

    function Steps(): string {
      file.GetOr(EMPTY).steps
    }

    function Removed(): World {
      this.(file := None, sent := multiset{}, lost := multiset{})
    }
  }

  // --- how a run turns out ------------------------------------------------------------------------

  /** Mined and seen; not mined; or mined but the process saw an error or died first. */
  datatype Tx = Mined | NotMined | MinedUnseen

  /** File writes are atomic; a failed one is only warned about. */
  datatype Write = Written | WriteFailed | StoppedBefore | StoppedAfter

  /** The answers of the two gate lookups; None is a failed lookup. */
  datatype Gate = Gate(epoch: Option<nat>, policy: Option<nat>)

  datatype Script = Script(
    resume: bool, removable: bool, readable: bool,
    queryAnswered: bool, r: Tx, rSave: Write,
    R: Tx, RSave: Write,
    gate: Gate, a: Tx, aSave: Write,
    proof: bool, p: Tx, readback: bool, cleaned: bool)

  /** policyInSync on uint64 values. */
  function PolicyInSync(epoch: nat, policy: nat): bool {
    policy == epoch || policy == (epoch + 1) % 0x1_0000_0000_0000_0000
  }

  /** Only a confirmed mismatch blocks. */
  function GateBlocks(g: Gate): bool {
    g.epoch.Some? && g.policy.Some? && !PolicyInSync(g.epoch.value, g.policy.value)
  }

  // --- one run --------------------------------------------------------------------------------------

  /** The process: its copy of the state and the two id variables. */
  datatype Proc = Proc(state: Saved, attest: Id, check: Id, running: bool)

  /** After the transaction of a step: append the letter, then save. */
  function Record(letter: char, tx: Tx, write: Write, next: Saved, w: World, p: Proc): (World, Proc) {
    if tx.MinedUnseen? then (w.(lost := w.lost + multiset{letter}), p.(running := false))
    else
      var q := p.(state := next, running := write.Written? || write.WriteFailed?);
      (if write.Written? || write.StoppedAfter? then w.(file := Some(next)) else w, q)
  }

  function Attest(letter: char, tx: Tx, write: Write, w: World, p: Proc): (World, Proc) {
    var id := |w.log| + 1;
    var v := w.(log := w.log + [Attested(id)], registered := w.registered || letter == 'r', sent := w.sent + multiset{letter});
    Record(letter, tx, write, Saved(p.state.steps + [letter], id, p.state.check), v, p.(attest := id))
  }

  /** Pre-registration; on a machine known to be registered, a fresh attestation instead. If the
      lookup failed on a registered machine, register() reverts. */
  function StepPreRegister(cmd: string, s: Script, w: World, p: Proc): (World, Proc) {
    if 'r' !in cmd then (w, p)
    else if 'r' in p.state.steps then (w, p.(attest := p.state.attest))
    else if s.r.NotMined? || (w.registered && !s.queryAnswered) then (w, p.(running := false))
    else Attest('r', s.r, s.rSave, w, p)
  }

  function StepAttest(cmd: string, s: Script, w: World, p: Proc): (World, Proc) {
    if 'R' !in cmd then (w, p)
    else if 'R' in p.state.steps then (w, p.(attest := p.state.attest))
    else if s.R.NotMined? then (w, p.(running := false))
    else Attest('R', s.R, s.RSave, w, p)
  }

  function StepCheck(cmd: string, flag: Id, s: Script, w: World, p: Proc): (World, Proc) {
    if 'a' !in cmd then (w, p.(check := flag))
    else if 'a' in p.state.steps then (w, p.(check := p.state.check))
    else if GateBlocks(s.gate) || s.a.NotMined? then (w, p.(running := false))
    else
      var id := |w.log| + 1;
      var v := w.(log := w.log + [Checked(id, p.attest)], sent := w.sent + multiset{'a'});
      Record('a', s.a, s.aSave, Saved(p.state.steps + "a", p.state.attest, id), v, p.(check := id))
  }

  function StepPromote(cmd: string, s: Script, w: World, p: Proc): (World, Proc) {
    if 'p' !in cmd then (w, p)
    else if !s.proof || s.p.NotMined? then (w, p.(running := false))
    else (w.(log := w.log + [Promoted(p.check)]), p.(running := s.p.Mined? && s.readback))
  }

  /** The process is gone: letters it knew of and the file does not hold are lost. */
  function Exit(s: Script, w: World, p: Proc): World {
    if p.running && s.cleaned then w.Removed()
    else w.(lost := w.lost + (multiset(p.state.steps) - multiset(w.Steps())))
  }

  function Begin(s: Script, w: World): World {
    if !s.resume && s.removable then w.Removed() else w
  }

  function Load(w: World): Proc {
    Proc(w.file.GetOr(EMPTY), 0, 0, true)
  }

  function RunOnce(cmd: string, flag: Id, s: Script, before: World): World {
    var w0 := Begin(s, before);
    if !s.readable then w0
    else
      var (w1, p1) := StepPreRegister(cmd, s, w0, Load(w0));
      var (w2, p2) := if p1.running then StepAttest(cmd, s, w1, p1) else (w1, p1);
      var (w3, p3) := if p2.running then StepCheck(cmd, flag, s, w2, p2) else (w2, p2);
      var (w4, p4) := if p3.running then StepPromote(cmd, s, w3, p3) else (w3, p3);
      Exit(s, w4, p4)
  }

  function Runs(cmd: string, flag: Id, scripts: seq<Script>, w: World): World {
    if scripts == [] then w
    else RunOnce(cmd, flag, scripts[|scripts| - 1], Runs(cmd, flag, scripts[..|scripts| - 1], w))
  }

  // --- what is promised -----------------------------------------------------------------------------------

  function LastAttest(log: seq<ChainEvent>): Id {
    if log == [] then 0
    else if log[|log| - 1].Attested? then log[|log| - 1].id else LastAttest(log[..|log| - 1])
  }

  function LastCheck(log: seq<ChainEvent>): Id {
    if log == [] then 0
    else if log[|log| - 1].Checked? then log[|log| - 1].id else LastCheck(log[..|log| - 1])
  }

  /** Event k, if a check, carries the most recent attestation; if a promotion and checks are part
      of the command, uses the most recent check. */
  ghost predicate EventOk(cmd: string, log: seq<ChainEvent>, k: nat)
    requires k < |log|
  {
    && (log[k].Checked? ==> log[k].attest == LastAttest(log[..k]) && log[k].attest != 0)
    && (log[k].Promoted? && 'a' in cmd ==> log[k].check == LastCheck(log[..k]) && log[k].check != 0)
  }

  ghost predicate LogOk(cmd: string, log: seq<ChainEvent>, from: nat) {
    forall k: nat :: from <= k < |log| ==> EventOk(cmd, log, k)
  }

  // --- freshness ----------------------------------------------------------------------------------------------

  ghost predicate AttestDone(cmd: string, steps: string) {
    ('r' in cmd ==> 'r' in steps) && ('R' in cmd ==> 'R' in steps)
  }

  /** A saved state is trustworthy: once every attestation step of the command is recorded its
      attestation id is the latest, and a recorded check is the latest check. */
  ghost predicate SavedInv(cmd: string, st: Saved, log: seq<ChainEvent>) {
    && (AttestDone(cmd, st.steps) ==> st.attest == LastAttest(log) && st.attest != 0)
    && ('a' in st.steps ==> AttestDone(cmd, st.steps) && st.check == LastCheck(log) && st.check != 0)
  }

  ghost predicate WorldInv(cmd: string, w: World) {
    SavedInv(cmd, w.file.GetOr(EMPTY), w.log)
  }

  ghost predicate Knows(st: Saved, steps: string) {
    forall c :: c in steps ==> c in st.steps
  }

  /** In the middle of a run the process knows at least what the file knows. */
  ghost predicate MidInv(cmd: string, w: World, p: Proc) {
    WorldInv(cmd, w) && (p.running ==> SavedInv(cmd, p.state, w.log) && Knows(p.state, w.Steps()))
  }

  predicate Attests(cmd: string) {
    'r' in cmd || 'R' in cmd
  }

  lemma NewEvent(log: seq<ChainEvent>, e: ChainEvent)
    ensures LastAttest(log + [e]) == if e.Attested? then e.id else LastAttest(log)
    ensures LastCheck(log + [e]) == if e.Checked? then e.id else LastCheck(log)
  {
    assert (log + [e])[..|log|] == log;
  }

  lemma LogExtends(cmd: string, log: seq<ChainEvent>, e: ChainEvent, from: nat)
    requires LogOk(cmd, log, from)
    requires e.Checked? ==> e.attest == LastAttest(log) && e.attest != 0
    requires e.Promoted? && 'a' in cmd ==> e.check == LastCheck(log) && e.check != 0
    ensures LogOk(cmd, log + [e], from)
  {
    var more := log + [e];
    forall k: nat | from <= k < |more| ensures EventOk(cmd, more, k) {
      assert more[..k] == log[..k];
      if k == |log| { assert log[..k] == log; } else { assert EventOk(cmd, log, k); }
    }
  }

  lemma AttestKeeps(cmd: string, letter: char, tx: Tx, write: Write, w: World, p: Proc, from: nat)
    requires p.running && MidInv(cmd, w, p) && LogOk(cmd, w.log, from)
    requires letter !in p.state.steps && letter in cmd && (letter == 'r' || letter == 'R')
    ensures var r := Attest(letter, tx, write, w, p);
            && MidInv(cmd, r.0, r.1) && LogOk(cmd, r.0.log, from)
            && (r.1.running ==> letter in r.1.state.steps && r.1.attest == r.1.state.attest == LastAttest(r.0.log))
            && (r.1.running ==> forall c :: c in p.state.steps ==> c in r.1.state.steps)
  {
    var e := Attested(|w.log| + 1);
    NewEvent(w.log, e);
    LogExtends(cmd, w.log, e, from);
  }

  /** A check recorded, or sent and not recorded, leaves a trustworthy state. */
  lemma CheckTrusted(cmd: string, st: Saved, file: Saved, log: seq<ChainEvent>, e: ChainEvent)
    requires SavedInv(cmd, st, log) && SavedInv(cmd, file, log) && AttestDone(cmd, st.steps) && Attests(cmd)
    requires 'a' !in file.steps && e == Checked(|log| + 1, st.attest)
    ensures SavedInv(cmd, Saved(st.steps + "a", st.attest, e.id), log + [e]) && SavedInv(cmd, file, log + [e])
    ensures LastCheck(log + [e]) == e.id
  {
    NewEvent(log, e);
  }

  lemma CheckKeeps(cmd: string, flag: Id, s: Script, w: World, p: Proc, from: nat)
    requires p.running && MidInv(cmd, w, p) && Attests(cmd) && AttestDone(cmd, p.state.steps)
    requires p.attest == p.state.attest && LogOk(cmd, w.log, from)
    ensures var r := StepCheck(cmd, flag, s, w, p);
            && MidInv(cmd, r.0, r.1) && LogOk(cmd, r.0.log, from)
            && (r.1.running && 'a' in cmd ==> r.1.check == LastCheck(r.0.log) && r.1.check != 0)
  {
    hide LogOk, GateBlocks, AttestDone;
    assert SavedInv(cmd, p.state, w.log) && p.state.attest == LastAttest(w.log) != 0;
    assert 'a' in p.state.steps ==> p.state.check == LastCheck(w.log) != 0;
    if 'a' in cmd && 'a' !in p.state.steps {
      hide SavedInv, LastAttest, LastCheck;
      var e := Checked(|w.log| + 1, p.attest);
      CheckTrusted(cmd, p.state, w.file.GetOr(EMPTY), w.log, e);
      LogExtends(cmd, w.log, e, from);
    }
  }

  lemma PreRegisterKeeps(cmd: string, s: Script, w: World, p: Proc, from: nat)
    requires p.running && MidInv(cmd, w, p) && LogOk(cmd, w.log, from)
    ensures var r := StepPreRegister(cmd, s, w, p);
            && MidInv(cmd, r.0, r.1) && LogOk(cmd, r.0.log, from)
            && (r.1.running && 'r' in cmd ==> 'r' in r.1.state.steps && r.1.attest == r.1.state.attest)
  {
    if 'r' in cmd && 'r' !in p.state.steps {
      AttestKeeps(cmd, 'r', s.r, s.rSave, w, p, from);
    }
  }

  lemma AttestStepKeeps(cmd: string, s: Script, w: World, p: Proc, from: nat)
    requires p.running && MidInv(cmd, w, p) && LogOk(cmd, w.log, from) && Attests(cmd)
    requires 'r' in cmd ==> 'r' in p.state.steps && p.attest == p.state.attest
    ensures var r := StepAttest(cmd, s, w, p);
            && MidInv(cmd, r.0, r.1) && LogOk(cmd, r.0.log, from)
            && (r.1.running ==> AttestDone(cmd, r.1.state.steps) && r.1.attest == r.1.state.attest)
  {
    if 'R' in cmd && 'R' !in p.state.steps {
      AttestKeeps(cmd, 'R', s.R, s.RSave, w, p, from);
    }
  }

  lemma PromoteKeeps(cmd: string, s: Script, w: World, p: Proc, from: nat)
    requires p.running && MidInv(cmd, w, p) && LogOk(cmd, w.log, from)
    requires 'a' in cmd ==> p.check == LastCheck(w.log) && p.check != 0
    ensures var r := StepPromote(cmd, s, w, p); MidInv(cmd, r.0, r.1) && LogOk(cmd, r.0.log, from)
  {
    NewEvent(w.log, Promoted(p.check));
    LogExtends(cmd, w.log, Promoted(p.check), from);
  }

  lemma RunKeepsFresh(cmd: string, flag: Id, s: Script, w: World, from: nat)
    requires WorldInv(cmd, w) && Attests(cmd) && LogOk(cmd, w.log, from)
    ensures var v := RunOnce(cmd, flag, s, w); WorldInv(cmd, v) && LogOk(cmd, v.log, from)
  {
    hide SavedInv, LogOk, StepPreRegister, StepAttest, StepCheck, StepPromote, AttestDone;
    var w0, p0 := Begin(s, w), Load(Begin(s, w));
    if s.readable {
      assert MidInv(cmd, w0, p0) by { NoFileInv(cmd, w0.log); }
      PreRegisterKeeps(cmd, s, w0, p0, from);
      var (w1, p1) := StepPreRegister(cmd, s, w0, p0);
      if p1.running { AttestStepKeeps(cmd, s, w1, p1, from); }
      var (w2, p2) := if p1.running then StepAttest(cmd, s, w1, p1) else (w1, p1);
      if p2.running { CheckKeeps(cmd, flag, s, w2, p2, from); }
      var (w3, p3) := if p2.running then StepCheck(cmd, flag, s, w2, p2) else (w2, p2);
      if p3.running { PromoteKeeps(cmd, s, w3, p3, from); }
      var (w4, p4) := if p3.running then StepPromote(cmd, s, w3, p3) else (w3, p3);
      NoFileInv(cmd, w4.log);
    } else {
      NoFileInv(cmd, w.log);
    }
  }

  lemma NoFileInv(cmd: string, log: seq<ChainEvent>)
    requires Attests(cmd)
    ensures SavedInv(cmd, EMPTY, log)
  {}

  /** Attestation freshness and promotion of the last check, over any sequence of runs with one
      command that attests, whatever fails or crashes, starting without a state file: every check
      sent carries the latest attestation and every promotion uses the latest check. */
  lemma {:induction false} ChecksAreFresh(cmd: string, flag: Id, scripts: seq<Script>, w: World)
    requires Attests(cmd) && w.file.None?
    ensures var v := Runs(cmd, flag, scripts, w); WorldInv(cmd, v) && LogOk(cmd, v.log, |w.log|)
  {
    if scripts == [] {
      NoFileInv(cmd, w.log);
    } else {
      ChecksAreFresh(cmd, flag, scripts[..|scripts| - 1], w);
      RunKeepsFresh(cmd, flag, scripts[|scripts| - 1], Runs(cmd, flag, scripts[..|scripts| - 1], w), |w.log|);
    }
  }

  // --- accounting -------------------------------------------------------------------------------------------------

  ghost predicate NoRepeats(steps: string) {
    forall c :: multiset(steps)[c] <= 1
  }

  /** Every mined step is either in the file or was lost; the file repeats no letter. */
  ghost predicate Accounted(w: World) {
    w.sent == w.lost + multiset(w.Steps()) && NoRepeats(w.Steps())
  }

  /** What went wrong, if anything, between step c's transaction and its record. */
  predicate Mishap(s: Script, c: char) {
    match c
    case 'r' => s.r.MinedUnseen? || s.rSave.WriteFailed? || s.rSave.StoppedBefore?
    case 'R' => s.R.MinedUnseen? || s.RSave.WriteFailed? || s.RSave.StoppedBefore?
    case 'a' => s.a.MinedUnseen? || s.aSave.WriteFailed? || s.aSave.StoppedBefore?
    case _ => false
  }

  /** Mid-run accounting: sums, and letter by letter relative to the world `w0` the run began with. */
  ghost predicate MidSums(w: World, p: Proc) {
    && NoRepeats(p.state.steps) && multiset(w.Steps()) <= multiset(p.state.steps)
    && w.sent == w.lost + multiset(p.state.steps)
  }

  ghost predicate MidLetters(s: Script, w0: World, w: World, p: Proc) {
    && (forall c :: c in w0.Steps() ==> c in p.state.steps && w.sent[c] == w0.sent[c])
    && (forall c :: !Mishap(s, c) ==> w.lost[c] == w0.lost[c] && (c in p.state.steps ==> c in w.Steps()))
  }

  ghost predicate MidCount(s: Script, w0: World, w: World, p: Proc) {
    MidSums(w, p) && MidLetters(s, w0, w, p)
  }

  lemma RecordKeepsSums(letter: char, tx: Tx, write: Write, next: Saved, w: World, v: World, p: Proc, q: Proc)
    requires MidSums(w, p) && letter !in p.state.steps && next.steps == p.state.steps + [letter]
    requires v.file == w.file && v.lost == w.lost && v.sent == w.sent + multiset{letter} && q.state == p.state
    ensures var r := Record(letter, tx, write, next, v, q); MidSums(r.0, r.1)
  {
    assert multiset(next.steps) == multiset(p.state.steps) + multiset{letter};
    assert letter !in multiset(p.state.steps);
  }

  lemma RecordKeepsLetters(s: Script, letter: char, tx: Tx, write: Write, next: Saved, w0: World, w: World, v: World, p: Proc, q: Proc)
    requires MidLetters(s, w0, w, p) && letter !in p.state.steps && next.steps == p.state.steps + [letter]
    requires v.file == w.file && v.lost == w.lost && v.sent == w.sent + multiset{letter} && q.state == p.state
    requires !Mishap(s, letter) ==> !tx.MinedUnseen? && (write.Written? || write.StoppedAfter?)
    ensures var r := Record(letter, tx, write, next, v, q); MidLetters(s, w0, r.0, r.1)
  {
    hide Mishap;
    assert letter !in w0.Steps();
    assert forall c :: c in next.steps <==> c in p.state.steps || c == letter;
  }

  lemma RecordCounts(s: Script, letter: char, tx: Tx, write: Write, next: Saved, w0: World, w: World, v: World, p: Proc, q: Proc)
    requires MidCount(s, w0, w, p) && letter !in p.state.steps && next.steps == p.state.steps + [letter]
    requires v.file == w.file && v.lost == w.lost && v.sent == w.sent + multiset{letter} && q.state == p.state
    requires !Mishap(s, letter) ==> !tx.MinedUnseen? && (write.Written? || write.StoppedAfter?)
    ensures var r := Record(letter, tx, write, next, v, q); MidCount(s, w0, r.0, r.1)
  {
    hide MidSums, MidLetters, Record, Mishap;
    RecordKeepsSums(letter, tx, write, next, w, v, p, q);
    RecordKeepsLetters(s, letter, tx, write, next, w0, w, v, p, q);
  }

  lemma RunCounts(cmd: string, flag: Id, s: Script, w: World)
    requires Accounted(w)
    ensures var v := RunOnce(cmd, flag, s, w); Accounted(v)
    ensures var v, w0 := RunOnce(cmd, flag, s, w), Begin(s, w);
            || (v.file.None? && v.sent == multiset{})
            || (forall c :: (c in w0.Steps() ==> v.sent[c] == w0.sent[c]) && (!Mishap(s, c) ==> v.lost[c] == w0.lost[c]))
  {
    hide Record, Mishap, GateBlocks, MidCount, StepPreRegister, StepAttest, StepCheck, StepPromote;
    var w0 := Begin(s, w);
    if s.readable {
      var p0 := Load(w0);
      LoadCounts(s, w0);
      PreRegisterCounts(cmd, s, w0, w0, p0);
      var (w1, p1) := StepPreRegister(cmd, s, w0, p0);
      if p1.running { AttestCounts(cmd, s, w0, w1, p1); }
      var (w2, p2) := if p1.running then StepAttest(cmd, s, w1, p1) else (w1, p1);
      if p2.running { CheckCounts(cmd, flag, s, w0, w2, p2); }
      var (w3, p3) := if p2.running then StepCheck(cmd, flag, s, w2, p2) else (w2, p2);
      var (w4, p4) := if p3.running then StepPromote(cmd, s, w3, p3) else (w3, p3);
      if p3.running { PromoteCounts(cmd, s, w0, w3, p3); }
      ExitCounts(s, w0, w4, p4);
    }
  }

  lemma PreRegisterCounts(cmd: string, s: Script, w0: World, w: World, p: Proc)
    requires MidCount(s, w0, w, p)
    ensures var r := StepPreRegister(cmd, s, w, p); MidCount(s, w0, r.0, r.1)
  {
    hide Record, MidCount;
    var id := |w.log| + 1;
    if 'r' !in p.state.steps {
      RecordCounts(s, 'r', s.r, s.rSave, Saved(p.state.steps + ['r'], id, p.state.check), w0, w,
                   w.(log := w.log + [Attested(id)], registered := true, sent := w.sent + multiset{'r'}), p, p.(attest := id));
    }
    SameStateCounts(s, w0, w, p, p.(attest := p.state.attest));
    SameStateCounts(s, w0, w, p, p.(running := false));
  }

  lemma SameStateCounts(s: Script, w0: World, w: World, p: Proc, q: Proc)
    requires MidCount(s, w0, w, p) && q.state == p.state
    ensures MidCount(s, w0, w, q)
  {}

  lemma AttestCounts(cmd: string, s: Script, w0: World, w: World, p: Proc)
    requires MidCount(s, w0, w, p)
    ensures var r := StepAttest(cmd, s, w, p); MidCount(s, w0, r.0, r.1)
  {
    hide Record, MidCount;
    var id := |w.log| + 1;
    if 'R' !in p.state.steps {
      RecordCounts(s, 'R', s.R, s.RSave, Saved(p.state.steps + ['R'], id, p.state.check), w0, w,
                   w.(log := w.log + [Attested(id)], sent := w.sent + multiset{'R'}), p, p.(attest := id));
    }
    SameStateCounts(s, w0, w, p, p.(attest := p.state.attest));
    SameStateCounts(s, w0, w, p, p.(running := false));
  }

  lemma CheckCounts(cmd: string, flag: Id, s: Script, w0: World, w: World, p: Proc)
    requires MidCount(s, w0, w, p)
    ensures var r := StepCheck(cmd, flag, s, w, p); MidCount(s, w0, r.0, r.1)
  {
    hide Record, MidCount;
    var id := |w.log| + 1;
    if 'a' !in p.state.steps {
      RecordCounts(s, 'a', s.a, s.aSave, Saved(p.state.steps + "a", p.state.attest, id), w0, w,
                   w.(log := w.log + [Checked(id, p.attest)], sent := w.sent + multiset{'a'}), p, p.(check := id));
    }
    SameStateCounts(s, w0, w, p, p.(check := flag));
    SameStateCounts(s, w0, w, p, p.(check := p.state.check));
    SameStateCounts(s, w0, w, p, p.(running := false));
  }

  lemma LoadCounts(s: Script, w: World)
    requires Accounted(w)
    ensures MidCount(s, w, w, Load(w))
  {}

  lemma PromoteCounts(cmd: string, s: Script, w0: World, w: World, p: Proc)
    requires MidCount(s, w0, w, p)
    ensures var r := StepPromote(cmd, s, w, p); MidCount(s, w0, r.0, r.1)
  {}

  lemma ExitAccounts(s: Script, w: World, p: Proc)
    requires MidSums(w, p)
    ensures Accounted(Exit(s, w, p))
  {
    var pending := multiset(p.state.steps) - multiset(w.Steps());
    assert multiset(p.state.steps) == pending + multiset(w.Steps());
  }

  lemma ExitKeepsLetters(s: Script, w0: World, w: World, p: Proc, c: char)
    requires MidCount(s, w0, w, p) && !(p.running && s.cleaned)
    ensures c in w0.Steps() ==> Exit(s, w, p).sent[c] == w0.sent[c]
    ensures !Mishap(s, c) ==> Exit(s, w, p).lost[c] == w0.lost[c]
  {
    hide Mishap;
    assert multiset(p.state.steps)[c] <= 1;
    if c in p.state.steps && !Mishap(s, c) { assert multiset(w.Steps())[c] >= 1; }
  }

  lemma ExitCounts(s: Script, w0: World, w: World, p: Proc)
    requires MidCount(s, w0, w, p)
    ensures Accounted(Exit(s, w, p))
    ensures !(p.running && s.cleaned) ==> forall c ::
              && (c in w0.Steps() ==> Exit(s, w, p).sent[c] == w0.sent[c])
              && (!Mishap(s, c) ==> Exit(s, w, p).lost[c] == w0.lost[c])
  {
    hide Mishap, MidSums, MidLetters, Accounted, Exit;
    ExitAccounts(s, w, p);
    if !(p.running && s.cleaned) {
      forall c
        ensures c in w0.Steps() ==> Exit(s, w, p).sent[c] == w0.sent[c]
        ensures !Mishap(s, c) ==> Exit(s, w, p).lost[c] == w0.lost[c]
      {
        ExitKeepsLetters(s, w0, w, p, c);
      }
    }
  }

  /** Step accounting over any sequence of runs, from no state file: the steps mined are exactly
      those in the file plus those whose record was lost, and the file never repeats a letter. So a
      step is mined twice only after a loss. */
  lemma {:induction false} StepsAreAccounted(cmd: string, flag: Id, scripts: seq<Script>, w: World)
    requires w.file.None? && w.sent == w.lost == multiset{}
    ensures var v := Runs(cmd, flag, scripts, w);
            Accounted(v) && forall c :: v.sent[c] >= 2 ==> v.lost[c] >= 1
  {
    if scripts != [] {
      var before := Runs(cmd, flag, scripts[..|scripts| - 1], w);
      StepsAreAccounted(cmd, flag, scripts[..|scripts| - 1], w);
      RunCounts(cmd, flag, scripts[|scripts| - 1], before);
    }
  }

  // --- crashes repeat nothing ---------------------------------------------------------------------------------------

  /** No loss between a transaction and its record. The run may stop anywhere else, for any reason. */
  predicate KeepsRecord(s: Script) {
    !Mishap(s, 'r') && !Mishap(s, 'R') && !Mishap(s, 'a')
  }

  function Attestations(log: seq<ChainEvent>): nat {
    if log == [] then 0 else Attestations(log[..|log| - 1]) + if log[|log| - 1].Attested? then 1 else 0
  }

  function Checks(log: seq<ChainEvent>): nat {
    if log == [] then 0 else Checks(log[..|log| - 1]) + if log[|log| - 1].Checked? then 1 else 0
  }

  lemma CountsNext(log: seq<ChainEvent>, e: ChainEvent)
    ensures Attestations(log + [e]) == Attestations(log) + if e.Attested? then 1 else 0
    ensures Checks(log + [e]) == Checks(log) + if e.Checked? then 1 else 0
  {
    assert (log + [e])[..|log|] == log;
  }

  /** Since the world `w0`, the chain has got exactly the events of the steps mined. */
  ghost predicate LogCounted(w0: World, w: World) {
    && Attestations(w.log) == Attestations(w0.log) + w.sent['r'] + w.sent['R']
    && Checks(w.log) == Checks(w0.log) + w.sent['a']
  }

  ghost predicate Commanded(cmd: string, steps: string) {
    forall c :: c in steps ==> c in cmd && c in {'r', 'R', 'a'}
  }

  /** What one step keeps: the log counted, and no letter known that the command lacks. */
  ghost predicate Kept(cmd: string, w0: World, w: World, p: Proc) {
    LogCounted(w0, w) && Commanded(cmd, w.Steps()) && Commanded(cmd, p.state.steps)
  }

  lemma RecordKeeps(cmd: string, letter: char, e: ChainEvent, tx: Tx, write: Write, next: Saved,
                    w0: World, w: World, v: World, p: Proc, q: Proc)
    requires Kept(cmd, w0, w, p) && q.state == p.state && next.steps == p.state.steps + [letter] && letter in cmd
    requires if e.Attested? then letter == 'r' || letter == 'R' else e.Checked? && letter == 'a'
    requires v.file == w.file && v.log == w.log + [e] && v.sent == w.sent + multiset{letter}
    ensures var r := Record(letter, tx, write, next, v, q);
            Kept(cmd, w0, r.0, r.1) && r.1.state.steps == if tx.MinedUnseen? then p.state.steps else next.steps
  {
    CountsNext(w.log, e);
    hide Attestations, Checks;
  }

  lemma SameStateKept(cmd: string, w0: World, w: World, p: Proc, q: Proc)
    requires Kept(cmd, w0, w, p) && q.state == p.state
    ensures Kept(cmd, w0, w, q)
  {}

  lemma PreRegisterKept(cmd: string, s: Script, w0: World, w: World, p: Proc)
    requires Kept(cmd, w0, w, p)
    ensures var r := StepPreRegister(cmd, s, w, p);
            Kept(cmd, w0, r.0, r.1) && (r.1.running && 'r' in cmd ==> 'r' in r.1.state.steps)
  {
    hide Record, Kept;
    var id := |w.log| + 1;
    if 'r' in cmd && 'r' !in p.state.steps {
      RecordKeeps(cmd, 'r', Attested(id), s.r, s.rSave, Saved(p.state.steps + ['r'], id, p.state.check), w0, w,
                  w.(log := w.log + [Attested(id)], registered := true, sent := w.sent + multiset{'r'}), p, p.(attest := id));
      UnseenStops('r', s.r, s.rSave, Saved(p.state.steps + ['r'], id, p.state.check),
                  w.(log := w.log + [Attested(id)], registered := true, sent := w.sent + multiset{'r'}), p.(attest := id));
    }
    SameStateKept(cmd, w0, w, p, p.(attest := p.state.attest));
    SameStateKept(cmd, w0, w, p, p.(running := false));
  }

  lemma UnseenStops(letter: char, tx: Tx, write: Write, next: Saved, w: World, p: Proc)
    ensures Record(letter, tx, write, next, w, p).1.running ==> !tx.MinedUnseen?
  {}

  lemma AttestKept(cmd: string, s: Script, w0: World, w: World, p: Proc)
    requires Kept(cmd, w0, w, p)
    ensures var r := StepAttest(cmd, s, w, p);
            Kept(cmd, w0, r.0, r.1) && Knows(r.1.state, p.state.steps) && (r.1.running && 'R' in cmd ==> 'R' in r.1.state.steps)
  {
    hide Record, Kept;
    var id := |w.log| + 1;
    if 'R' in cmd && 'R' !in p.state.steps {
      RecordKeeps(cmd, 'R', Attested(id), s.R, s.RSave, Saved(p.state.steps + ['R'], id, p.state.check), w0, w,
                  w.(log := w.log + [Attested(id)], sent := w.sent + multiset{'R'}), p, p.(attest := id));
      UnseenStops('R', s.R, s.RSave, Saved(p.state.steps + ['R'], id, p.state.check),
                  w.(log := w.log + [Attested(id)], sent := w.sent + multiset{'R'}), p.(attest := id));
    }
    SameStateKept(cmd, w0, w, p, p.(attest := p.state.attest));
    SameStateKept(cmd, w0, w, p, p.(running := false));
  }

  lemma CheckKept(cmd: string, flag: Id, s: Script, w0: World, w: World, p: Proc)
    requires Kept(cmd, w0, w, p)
    ensures var r := StepCheck(cmd, flag, s, w, p);
            Kept(cmd, w0, r.0, r.1) && Knows(r.1.state, p.state.steps) && (r.1.running && 'a' in cmd ==> 'a' in r.1.state.steps)
  {
    hide Record, Kept;
    var id := |w.log| + 1;
    if 'a' in cmd && 'a' !in p.state.steps {
      RecordKeeps(cmd, 'a', Checked(id, p.attest), s.a, s.aSave, Saved(p.state.steps + "a", p.state.attest, id), w0, w,
                  w.(log := w.log + [Checked(id, p.attest)], sent := w.sent + multiset{'a'}), p, p.(check := id));
      UnseenStops('a', s.a, s.aSave, Saved(p.state.steps + "a", p.state.attest, id),
                  w.(log := w.log + [Checked(id, p.attest)], sent := w.sent + multiset{'a'}), p.(check := id));
    }
    SameStateKept(cmd, w0, w, p, p.(check := flag));
    SameStateKept(cmd, w0, w, p, p.(check := p.state.check));
    SameStateKept(cmd, w0, w, p, p.(running := false));
  }

  lemma PromoteKept(cmd: string, s: Script, w0: World, w: World, p: Proc)
    requires Kept(cmd, w0, w, p)
    ensures var r := StepPromote(cmd, s, w, p); Kept(cmd, w0, r.0, r.1) && r.1.state == p.state && r.0.file == w.file
  {
    CountsNext(w.log, Promoted(p.check));
  }

  /** A run up to its last statement but the removal of the file, and the process then. */
  function Ran(cmd: string, flag: Id, s: Script, w0: World): (World, Proc) {
    var (w1, p1) := StepPreRegister(cmd, s, w0, Load(w0));
    var (w2, p2) := if p1.running then StepAttest(cmd, s, w1, p1) else (w1, p1);
    var (w3, p3) := if p2.running then StepCheck(cmd, flag, s, w2, p2) else (w2, p2);
    if p3.running then StepPromote(cmd, s, w3, p3) else (w3, p3)
  }

  lemma RunIsRan(cmd: string, flag: Id, s: Script, w: World)
    ensures RunOnce(cmd, flag, s, w) ==
            if s.readable then var r := Ran(cmd, flag, s, Begin(s, w)); Exit(s, r.0, r.1) else Begin(s, w)
  {
    hide StepPreRegister, StepAttest, StepCheck, StepPromote, Exit;
  }

  lemma RanKeeps(cmd: string, flag: Id, s: Script, w0: World, w: World)
    requires LogCounted(w0, w) && Commanded(cmd, w.Steps())
    ensures var r := Ran(cmd, flag, s, w);
            Kept(cmd, w0, r.0, r.1) && (r.1.running ==> forall c :: c in {'r', 'R', 'a'} && c in cmd ==> c in r.1.state.steps)
  {
    hide StepPreRegister, StepAttest, StepCheck, StepPromote, LogCounted;
    PreRegisterKept(cmd, s, w0, w, Load(w));
    var (w1, p1) := StepPreRegister(cmd, s, w, Load(w));
    AttestKept(cmd, s, w0, w1, p1);
    var (w2, p2) := if p1.running then StepAttest(cmd, s, w1, p1) else (w1, p1);
    CheckKept(cmd, flag, s, w0, w2, p2);
    var (w3, p3) := if p2.running then StepCheck(cmd, flag, s, w2, p2) else (w2, p2);
    PromoteKept(cmd, s, w0, w3, p3);
  }

  lemma RanCounts(cmd: string, flag: Id, s: Script, w: World)
    requires Accounted(w)
    ensures var r := Ran(cmd, flag, s, w); MidCount(s, w, r.0, r.1)
  {
    hide Record, Mishap, GateBlocks, MidCount, StepPreRegister, StepAttest, StepCheck, StepPromote;
    LoadCounts(s, w);
    PreRegisterCounts(cmd, s, w, w, Load(w));
    var (w1, p1) := StepPreRegister(cmd, s, w, Load(w));
    AttestCounts(cmd, s, w, w1, p1);
    var (w2, p2) := if p1.running then StepAttest(cmd, s, w1, p1) else (w1, p1);
    CheckCounts(cmd, flag, s, w, w2, p2);
    var (w3, p3) := if p2.running then StepCheck(cmd, flag, s, w2, p2) else (w2, p2);
    PromoteCounts(cmd, s, w, w3, p3);
  }

  /** Nothing was lost so far, and the chain since `w0` shows exactly what the file records. */
  ghost predicate Faithful(cmd: string, w0: World, w: World) {
    Accounted(w) && w.lost == multiset{} && LogCounted(w0, w) && Commanded(cmd, w.Steps())
  }

  lemma RanLosesNothing(cmd: string, flag: Id, s: Script, w: World)
    requires Accounted(w) && w.lost == multiset{} && KeepsRecord(s)
    ensures var r := Ran(cmd, flag, s, w);
            && r.0.lost == multiset{} && NoRepeats(r.1.state.steps)
            && r.0.sent == multiset(r.1.state.steps) == multiset(r.0.Steps())
  {
    hide Ran;
    RanCounts(cmd, flag, s, w);
    var (v, p) := Ran(cmd, flag, s, w);
    forall c ensures v.lost[c] == 0 && multiset(p.state.steps)[c] == multiset(v.Steps())[c] {
      assert !Mishap(s, c);
      assert c in p.state.steps ==> c in multiset(v.Steps());
    }
    assert multiset(p.state.steps) == multiset(v.Steps());
    assert v.lost == multiset{};
  }

  /** The process reaches the end of RegisterNode. */
  predicate Completes(cmd: string, flag: Id, s: Script, w: World) {
    s.readable && Ran(cmd, flag, s, Begin(s, w)).1.running
  }

  lemma RunStaysFaithful(cmd: string, flag: Id, s: Script, w0: World, w: World)
    requires Faithful(cmd, w0, w) && KeepsRecord(s) && Begin(s, w) == w
    requires s.cleaned ==> !Completes(cmd, flag, s, w)
    ensures Faithful(cmd, w0, RunOnce(cmd, flag, s, w))
  {
    hide Ran, RunOnce;
    RunIsRan(cmd, flag, s, w);
    if s.readable {
      RanKeeps(cmd, flag, s, w0, w);
      RanLosesNothing(cmd, flag, s, w);
      var (v, p) := Ran(cmd, flag, s, w);
      assert multiset(p.state.steps) - multiset(v.Steps()) == multiset{};
      assert v.lost + multiset{} == v.lost;
      SameLetters(p.state.steps, v.Steps());
    }
  }

  lemma SameLetters(a: string, b: string)
    requires multiset(a) == multiset(b) && NoRepeats(a)
    ensures NoRepeats(b)
  {}

  /** The runs before a successful one: none loses a record, none but the first starts afresh, and
      none removes the state file by completing. */
  ghost predicate Attempts(cmd: string, flag: Id, scripts: seq<Script>, w: World) {
    forall i :: 0 <= i < |scripts| ==>
      && KeepsRecord(scripts[i]) && (i > 0 ==> scripts[i].resume)
      && (scripts[i].cleaned ==> !Completes(cmd, flag, scripts[i], Runs(cmd, flag, scripts[..i], w)))
  }

  lemma {:induction false} AttemptsStayFaithful(cmd: string, flag: Id, scripts: seq<Script>, w: World)
    requires w.file.None? && w.sent == w.lost == multiset{} && Attempts(cmd, flag, scripts, w)
    ensures Faithful(cmd, w, Runs(cmd, flag, scripts, w))
  {
    if scripts != [] {
      hide RunOnce, Completes, KeepsRecord, Faithful;
      var n := |scripts| - 1;
      var init := scripts[..n];
      forall i | 0 <= i < n
        ensures KeepsRecord(init[i]) && (i > 0 ==> init[i].resume)
        ensures init[i].cleaned ==> !Completes(cmd, flag, init[i], Runs(cmd, flag, init[..i], w))
      {
        assert init[i] == scripts[i] && init[..i] == scripts[..i];
      }
      AttemptsStayFaithful(cmd, flag, init, w);
      assert KeepsRecord(scripts[n]) && (n > 0 ==> scripts[n].resume);
      RunStaysFaithful(cmd, flag, scripts[n], w, Runs(cmd, flag, init, w));
    } else {
      NothingYet(cmd, w);
    }
  }

  lemma NothingYet(cmd: string, w: World)
    requires w.file.None? && w.sent == w.lost == multiset{}
    ensures Faithful(cmd, w, w)
  {}

  /** Crashes repeat nothing and resuming skips nothing: any number of runs of one command that stop
      wherever they like, short of losing a record, and then one that completes, leave the chain
      with exactly one attestation for each of r and R and one check for a, as far as commanded, and
      with p as the last event a promotion, of the last check if the command checks. */
  lemma MinedExactlyOnce(cmd: string, flag: Id, scripts: seq<Script>, last: Script, w: World)
    requires w.file.None? && w.sent == w.lost == multiset{} && Attempts(cmd, flag, scripts, w)
    requires KeepsRecord(last) && (last.resume || scripts == []) && Completes(cmd, flag, last, Runs(cmd, flag, scripts, w))
    ensures var log := RunOnce(cmd, flag, last, Runs(cmd, flag, scripts, w)).log;
            && Attestations(log) == Attestations(w.log) + (if 'r' in cmd then 1 else 0) + (if 'R' in cmd then 1 else 0)
            && Checks(log) == Checks(w.log) + (if 'a' in cmd then 1 else 0)
            && ('p' in cmd ==>
                  && log != []
                  && log[|log| - 1] == Promoted(if 'a' in cmd then LastCheck(log[..|log| - 1]) else flag)
                  && forall i :: |Runs(cmd, flag, scripts, w).log| <= i < |log| - 1 ==> !log[i].Promoted?)
  {
    hide Ran, RunOnce, LastCheck;
    if 'p' in cmd { PromotesLastCheck(cmd, flag, scripts, last, w); }
    var before := Runs(cmd, flag, scripts, w);
    AttemptsStayFaithful(cmd, flag, scripts, w);
    assert Begin(last, before) == before;
    RunIsRan(cmd, flag, last, before);
    RanKeeps(cmd, flag, last, w, before);
    RanLosesNothing(cmd, flag, last, before);
    var (v, p) := Ran(cmd, flag, last, before);
    ExitLog(last, v, p);
    OncePerLetter(cmd, p.state.steps, 'r');
    OncePerLetter(cmd, p.state.steps, 'R');
    OncePerLetter(cmd, p.state.steps, 'a');
  }

  lemma OncePerLetter(cmd: string, steps: string, c: char)
    requires NoRepeats(steps) && Commanded(cmd, steps) && (c in cmd ==> c in steps)
    ensures multiset(steps)[c] == if c in cmd then 1 else 0
  {
    assert c in steps ==> multiset(steps)[c] >= 1;
    assert c !in steps ==> multiset(steps)[c] == 0;
  }

  // --- how far a run gets, and what it leaves on chain ---------------------------------------------------------------

  predicate GoesOn(write: Write) {
    write.Written? || write.WriteFailed?
  }

  /** Whether a step of the command is still to be done. */
  predicate Due(cmd: string, w: World, letter: char) {
    letter in cmd && letter !in w.Steps()
  }

  /** Told from the script alone: the run gets past registration, attestation and check. A known
      machine whose lookup fails reverts; a policy that is neither the epoch nor the next blocks. */
  predicate ReachesProof(cmd: string, s: Script, w: World) {
    && s.readable
    && (Due(cmd, w, 'r') ==> (w.registered ==> s.queryAnswered) && s.r.Mined? && GoesOn(s.rSave))
    && (Due(cmd, w, 'R') ==> s.R.Mined? && GoesOn(s.RSave))
    && (Due(cmd, w, 'a') ==>
          && (s.gate.epoch.Some? && s.gate.policy.Some? ==>
                s.gate.policy.value == s.gate.epoch.value
                || s.gate.policy.value == (s.gate.epoch.value + 1) % 0x1_0000_0000_0000_0000)
          && s.a.Mined? && GoesOn(s.aSave))
  }

  /** A run up to the request for the proof. */
  function UpToProof(cmd: string, flag: Id, s: Script, w0: World): (World, Proc) {
    var (w1, p1) := StepPreRegister(cmd, s, w0, Load(w0));
    var (w2, p2) := if p1.running then StepAttest(cmd, s, w1, p1) else (w1, p1);
    if p2.running then StepCheck(cmd, flag, s, w2, p2) else (w2, p2)
  }

  lemma RanFromProof(cmd: string, flag: Id, s: Script, w0: World)
    ensures Ran(cmd, flag, s, w0) ==
            var (w3, p3) := UpToProof(cmd, flag, s, w0); if p3.running then StepPromote(cmd, s, w3, p3) else (w3, p3)
  {
    hide StepPreRegister, StepAttest, StepCheck, StepPromote;
  }

  /** The attestations still due. */
  function DueAttestations(cmd: string, w: World): nat {
    (if Due(cmd, w, 'r') then 1 else 0) + if Due(cmd, w, 'R') then 1 else 0
  }

  /** The attestation that the check carries. */
  function CarriedAttestation(cmd: string, w: World): Id {
    var k := DueAttestations(cmd, w);
    if k > 0 then |w.log| + k else if 'r' in cmd || 'R' in cmd then w.file.GetOr(EMPTY).attest else 0
  }

  /** The check that the proof is asked for. */
  function UsedCheck(cmd: string, flag: Id, w: World): Id {
    if Due(cmd, w, 'a') then |w.log| + DueAttestations(cmd, w) + 1
    else if 'a' in cmd then w.file.GetOr(EMPTY).check
    else flag
  }

  /** The log of a run that reaches the proof: the attestations due, then the check due. */
  ghost predicate LogUpToProof(cmd: string, w: World, log: seq<ChainEvent>) {
    var n, k := |w.log|, DueAttestations(cmd, w);
    && |log| == n + k + (if Due(cmd, w, 'a') then 1 else 0)
    && w.log <= log
    && (forall i :: n <= i < n + k ==> log[i] == Attested(i + 1))
    && (Due(cmd, w, 'a') ==> log[n + k] == Checked(n + k + 1, CarriedAttestation(cmd, w)))
  }

  lemma AfterPreRegister(cmd: string, s: Script, w: World)
    ensures var (v, p) := StepPreRegister(cmd, s, w, Load(w));
            && (p.running <==> (Due(cmd, w, 'r') ==> (w.registered ==> s.queryAnswered) && s.r.Mined? && GoesOn(s.rSave)))
            && (p.running ==>
                  && v.log == w.log + (if Due(cmd, w, 'r') then [Attested(|w.log| + 1)] else [])
                  && p.state.steps == w.Steps() + (if Due(cmd, w, 'r') then ['r'] else [])
                  && p.state.attest == (if Due(cmd, w, 'r') then |w.log| + 1 else w.file.GetOr(EMPTY).attest)
                  && p.state.check == w.file.GetOr(EMPTY).check
                  && p.attest == if 'r' in cmd then p.state.attest else 0)
            && w.log <= v.log && |v.log| <= |w.log| + 1
            && forall i :: |w.log| <= i < |v.log| ==> v.log[i].Attested?
  {
  }

  lemma AfterAttest(cmd: string, s: Script, w: World, p: Proc)
    requires p.running
    ensures var due := 'R' in cmd && 'R' !in p.state.steps;
            var (v, q) := StepAttest(cmd, s, w, p);
            && (q.running <==> (due ==> s.R.Mined? && GoesOn(s.RSave)))
            && (q.running ==>
                  && v.log == w.log + (if due then [Attested(|w.log| + 1)] else [])
                  && q.state.steps == p.state.steps + (if due then ['R'] else [])
                  && q.state.attest == (if due then |w.log| + 1 else p.state.attest)
                  && q.state.check == p.state.check
                  && q.attest == if 'R' in cmd then q.state.attest else p.attest)
            && w.log <= v.log && |v.log| <= |w.log| + 1
            && forall i :: |w.log| <= i < |v.log| ==> v.log[i].Attested?
  {
  }

  lemma AfterCheck(cmd: string, flag: Id, s: Script, w: World, p: Proc)
    requires p.running
    ensures var due := 'a' in cmd && 'a' !in p.state.steps;
            var (v, q) := StepCheck(cmd, flag, s, w, p);
            && (q.running <==> (due ==>
                  && (s.gate.epoch.Some? && s.gate.policy.Some? ==>
                        s.gate.policy.value == s.gate.epoch.value
                        || s.gate.policy.value == (s.gate.epoch.value + 1) % 0x1_0000_0000_0000_0000)
                  && s.a.Mined? && GoesOn(s.aSave)))
            && (q.running ==>
                  && v.log == w.log + (if due then [Checked(|w.log| + 1, p.attest)] else [])
                  && q.check == if due then |w.log| + 1 else if 'a' in cmd then p.state.check else flag)
            && w.log <= v.log && |v.log| <= |w.log| + 1
            && forall i :: |w.log| <= i < |v.log| ==> v.log[i].Checked?
  {
  }

  lemma ReachesExactlyWhen(cmd: string, flag: Id, s: Script, w: World)
    requires s.readable
    ensures var (v, p) := UpToProof(cmd, flag, s, w);
            && (p.running <==> ReachesProof(cmd, s, w))
            && (p.running ==> LogUpToProof(cmd, w, v.log) && p.check == UsedCheck(cmd, flag, w))
            && w.log <= v.log && forall i :: |w.log| <= i < |v.log| ==> !v.log[i].Promoted?
  {
    hide StepPreRegister, StepAttest, StepCheck, GoesOn;
    AfterPreRegister(cmd, s, w);
    var (w1, p1) := StepPreRegister(cmd, s, w, Load(w));
    if p1.running {
      AfterAttest(cmd, s, w1, p1);
      var (w2, p2) := StepAttest(cmd, s, w1, p1);
      if p2.running { AfterCheck(cmd, flag, s, w2, p2); }
    }
  }

  /** A run promotes if and only if it reaches the proof, finds it and has the transaction mined; then
      once, as its last act on chain, with the check sent by this run, or the recorded one, or the
      one given by flag. Without p it promotes nothing. */
  lemma PromotesExactlyWhen(cmd: string, flag: Id, s: Script, w: World)
    ensures var w0, log := Begin(s, w), RunOnce(cmd, flag, s, w).log;
            var promoted := 'p' in cmd && ReachesProof(cmd, s, w0) && s.proof && (s.p.Mined? || s.p.MinedUnseen?);
            && w.log <= log
            && (promoted ==> |log| > |w.log| && log[|log| - 1] == Promoted(UsedCheck(cmd, flag, w0)))
            && forall i :: |w.log| <= i < |log| ==> (log[i].Promoted? <==> promoted && i == |log| - 1)
  {
    hide UpToProof, ReachesProof, LogUpToProof, UsedCheck, Exit;
    var w0 := Begin(s, w);
    RunIsRan(cmd, flag, s, w);
    if s.readable {
      RanFromProof(cmd, flag, s, w0);
      ReachesExactlyWhen(cmd, flag, s, w0);
      var (v, p) := UpToProof(cmd, flag, s, w0);
      ExitLog(s, Ran(cmd, flag, s, w0).0, Ran(cmd, flag, s, w0).1);
      hide Ran;
    } else {
      assert !ReachesProof(cmd, s, w0) by { UnreadableStops(cmd, s, w0); }
    }
  }

  lemma UnreadableStops(cmd: string, s: Script, w: World)
    requires !s.readable
    ensures !ReachesProof(cmd, s, w)
  {}

  /** A run completes if and only if every step due goes through. */
  lemma CompletesExactlyWhen(cmd: string, flag: Id, s: Script, w: World)
    ensures Completes(cmd, flag, s, w) <==>
              ReachesProof(cmd, s, Begin(s, w)) && ('p' in cmd ==> s.proof && s.p.Mined? && s.readback)
  {
    hide UpToProof;
    var w0 := Begin(s, w);
    if s.readable {
      RanFromProof(cmd, flag, s, w0);
      ReachesExactlyWhen(cmd, flag, s, w0);
      hide Ran;
    }
  }

  /** What a completed run leaves: the attestations due, the check due, and the promotion if commanded. */
  lemma CompletedLog(cmd: string, flag: Id, s: Script, w: World)
    requires Completes(cmd, flag, s, w)
    ensures var w0, log := Begin(s, w), RunOnce(cmd, flag, s, w).log;
            if 'p' in cmd then
              log != [] && LogUpToProof(cmd, w0, log[..|log| - 1]) && log[|log| - 1] == Promoted(UsedCheck(cmd, flag, w0))
            else LogUpToProof(cmd, w0, log)
  {
    hide UpToProof, LogUpToProof, UsedCheck, ReachesProof, Exit;
    var w0 := Begin(s, w);
    CompletesExactlyWhen(cmd, flag, s, w);
    RunIsRan(cmd, flag, s, w);
    assert s.readable;
    RanFromProof(cmd, flag, s, w0);
    ReachesExactlyWhen(cmd, flag, s, w0);
    ExitLog(s, Ran(cmd, flag, s, w0).0, Ran(cmd, flag, s, w0).1);
    hide Ran, Completes;
    var (v, p) := UpToProof(cmd, flag, s, w0);
    assert (v.log + [Promoted(p.check)])[..|v.log|] == v.log;
  }

  /** The state file goes when a run has completed and could remove it, and when a run starts afresh;
      a run that starts afresh forgets what the file held. */
  lemma FreshStartForgets(cmd: string, flag: Id, s: Script, w: World)
    requires !s.resume && s.removable
    ensures RunOnce(cmd, flag, s, w) == RunOnce(cmd, flag, s, World(None, w.log, w.registered, multiset{}, multiset{}))
    ensures !s.readable ==> RunOnce(cmd, flag, s, w).file.None?
  {
    hide Ran, Exit;
    RunIsRan(cmd, flag, s, w);
    RunIsRan(cmd, flag, s, World(None, w.log, w.registered, multiset{}, multiset{}));
  }

  lemma SuccessRemovesFile(cmd: string, flag: Id, s: Script, w: World)
    requires Completes(cmd, flag, s, w) && s.cleaned
    ensures RunOnce(cmd, flag, s, w).file.None?
  {
    RunIsRan(cmd, flag, s, w);
    hide Ran;
  }

  // --- the last check is the one used ----------------------------------------------------------------------------

  /** A check on record is the last one on chain. */
  predicate CheckRecorded(st: Saved, log: seq<ChainEvent>) {
    'a' in st.steps ==> st.check == LastCheck(log)
  }

  ghost predicate ChecksRecorded(w: World, p: Proc) {
    && CheckRecorded(w.file.GetOr(EMPTY), w.log)
    && (p.running ==> CheckRecorded(p.state, w.log) && ('a' !in p.state.steps ==> 'a' !in w.Steps()))
  }

  lemma PreRegisterRecords(cmd: string, s: Script, w: World, p: Proc)
    requires p.running && ChecksRecorded(w, p)
    ensures var r := StepPreRegister(cmd, s, w, p); ChecksRecorded(r.0, r.1)
  {
    NewEvent(w.log, Attested(|w.log| + 1));
    hide LastCheck, LastAttest;
  }

  lemma AttestRecords(cmd: string, s: Script, w: World, p: Proc)
    requires p.running && ChecksRecorded(w, p)
    ensures var r := StepAttest(cmd, s, w, p); ChecksRecorded(r.0, r.1)
  {
    NewEvent(w.log, Attested(|w.log| + 1));
    hide LastCheck, LastAttest;
  }

  lemma CheckRecords(cmd: string, flag: Id, s: Script, w: World, p: Proc)
    requires p.running && ChecksRecorded(w, p)
    ensures var r := StepCheck(cmd, flag, s, w, p); ChecksRecorded(r.0, r.1) && (r.1.running && 'a' in cmd ==> r.1.check == LastCheck(r.0.log))
  {
    NewEvent(w.log, Checked(|w.log| + 1, p.attest));
    hide LastCheck, LastAttest, GateBlocks;
  }

  lemma UpToProofRecords(cmd: string, flag: Id, s: Script, w: World)
    requires CheckRecorded(w.file.GetOr(EMPTY), w.log)
    ensures var r := UpToProof(cmd, flag, s, w); ChecksRecorded(r.0, r.1) && (r.1.running && 'a' in cmd ==> r.1.check == LastCheck(r.0.log))
  {
    hide StepPreRegister, StepAttest, StepCheck;
    PreRegisterRecords(cmd, s, w, Load(w));
    var (w1, p1) := StepPreRegister(cmd, s, w, Load(w));
    if p1.running {
      AttestRecords(cmd, s, w1, p1);
      var (w2, p2) := StepAttest(cmd, s, w1, p1);
      if p2.running { CheckRecords(cmd, flag, s, w2, p2); }
    }
  }

  lemma RunRecords(cmd: string, flag: Id, s: Script, w: World)
    requires CheckRecorded(w.file.GetOr(EMPTY), w.log)
    ensures var v := RunOnce(cmd, flag, s, w); CheckRecorded(v.file.GetOr(EMPTY), v.log)
  {
    hide UpToProof;
    var w0 := Begin(s, w);
    RunIsRan(cmd, flag, s, w);
    if s.readable {
      RanFromProof(cmd, flag, s, w0);
      UpToProofRecords(cmd, flag, s, w0);
      var (v, p) := UpToProof(cmd, flag, s, w0);
      NewEvent(v.log, Promoted(p.check));
      hide Ran, LastCheck;
    }
  }

  lemma {:induction false} RunsRecord(cmd: string, flag: Id, scripts: seq<Script>, w: World)
    requires w.file.None?
    ensures var v := Runs(cmd, flag, scripts, w); CheckRecorded(v.file.GetOr(EMPTY), v.log)
  {
    if scripts != [] {
      hide RunOnce;
      RunsRecord(cmd, flag, scripts[..|scripts| - 1], w);
      RunRecords(cmd, flag, scripts[|scripts| - 1], Runs(cmd, flag, scripts[..|scripts| - 1], w));
    }
  }

  /** After any runs, from no state file, a run that completes a command with p ends in exactly one
      promotion: of the last check on chain if the command checks, of the one given by flag if not. */
  lemma PromotesLastCheck(cmd: string, flag: Id, scripts: seq<Script>, last: Script, w: World)
    requires w.file.None? && 'p' in cmd && Completes(cmd, flag, last, Runs(cmd, flag, scripts, w))
    ensures var before, log := Runs(cmd, flag, scripts, w).log, RunOnce(cmd, flag, last, Runs(cmd, flag, scripts, w)).log;
            && |log| > |before| && before <= log
            && log[|log| - 1] == Promoted(if 'a' in cmd then LastCheck(log[..|log| - 1]) else flag)
            && forall i :: |before| <= i < |log| - 1 ==> !log[i].Promoted?
  {
    hide UpToProof, ReachesProof, UsedCheck, Runs;
    var b := Runs(cmd, flag, scripts, w);
    var w0 := Begin(last, b);
    RunsRecord(cmd, flag, scripts, w);
    PromotesExactlyWhen(cmd, flag, last, b);
    CompletesExactlyWhen(cmd, flag, last, b);
    UsedIsLast(cmd, flag, last, b);
    hide RunOnce, Completes;
  }

  lemma UsedIsLast(cmd: string, flag: Id, s: Script, w: World)
    requires CheckRecorded(w.file.GetOr(EMPTY), w.log) && 'p' in cmd && Completes(cmd, flag, s, w)
    ensures var log := RunOnce(cmd, flag, s, w).log;
            log != [] && log[|log| - 1] == Promoted(if 'a' in cmd then LastCheck(log[..|log| - 1]) else flag)
  {
    hide UpToProof, LastCheck, Exit;
    var w0 := Begin(s, w);
    RunIsRan(cmd, flag, s, w);
    assert s.readable;
    RanFromProof(cmd, flag, s, w0);
    UpToProofRecords(cmd, flag, s, w0);
    ReachesExactlyWhen(cmd, flag, s, w0);
    var (v, p) := UpToProof(cmd, flag, s, w0);
    ExitLog(s, Ran(cmd, flag, s, w0).0, Ran(cmd, flag, s, w0).1);
    hide Ran;
    assert (v.log + [Promoted(p.check)])[..|v.log|] == v.log;
  }

  // --- exactly when one run's check is fresh ------------------------------------------------------------------------

  /** Before the run: it will attest itself, or the id it will reuse from the file is the latest. */
  predicate WillBeFresh(cmd: string, w: World) {
    || ('r' in cmd && 'r' !in w.Steps())
    || ('R' in cmd && 'R' !in w.Steps())
    || (Attests(cmd) && w.file.GetOr(EMPTY).attest == LastAttest(w.log) != 0)
  }

  /** From any state file whatever, resuming or not, with any command: the check a run sends is fresh
      if and only if WillBeFresh held once the old file was removed or kept. */
  lemma FreshExactlyWhen(cmd: string, flag: Id, s: Script, w: World, k: nat)
    requires |w.log| <= k < |RunOnce(cmd, flag, s, w).log| && RunOnce(cmd, flag, s, w).log[k].Checked?
    ensures var log := RunOnce(cmd, flag, s, w).log;
            log[k].attest == LastAttest(log[..k]) != 0 <==> WillBeFresh(cmd, Begin(s, w))
  {
    assert Begin(s, Begin(s, w)) == Begin(s, w);
    assert RunOnce(cmd, flag, s, Begin(s, w)) == RunOnce(cmd, flag, s, w);
    FreshOnceBegun(cmd, flag, s, Begin(s, w), k);
  }

  lemma FreshOnceBegun(cmd: string, flag: Id, s: Script, w: World, k: nat)
    requires w == Begin(s, w)
    requires |w.log| <= k < |RunOnce(cmd, flag, s, w).log| && RunOnce(cmd, flag, s, w).log[k].Checked?
    ensures var log := RunOnce(cmd, flag, s, w).log;
            log[k].attest == LastAttest(log[..k]) != 0 <==> WillBeFresh(cmd, w)
  {
    hide Exit, LastAttest, StepPreRegister, StepAttest, StepCheck, StepPromote;
    forall v, q ensures Exit(s, v, q).log == v.log { ExitLog(s, v, q); }
    var log := RunOnce(cmd, flag, s, w).log;
    var (w1, p1) := StepPreRegister(cmd, s, w, Load(w));
    LogAfterPreRegister(cmd, s, w, Load(w));
    if p1.running {
      var (w2, p2) := StepAttest(cmd, s, w1, p1);
      LogAfterAttest(cmd, s, w1, p1);
      assert forall i :: |w.log| <= i < |w2.log| ==> w2.log[i].Attested?;
      if p2.running {
        LogAfterCheck(cmd, flag, s, w2, p2);
        var (w3, p3) := StepCheck(cmd, flag, s, w2, p2);
        LogAfterPromote(cmd, s, w3, p3);
        assert w2.log <= log && log[..|w2.log|] == w2.log;
        assert k == |w2.log|;
        assert log[k] == Checked(|w2.log| + 1, p2.attest);
      }
    }
  }

  lemma ExitLog(s: Script, w: World, p: Proc)
    ensures Exit(s, w, p).log == w.log
  {}

  /** How far a step moves the log and the attestation variable, when the run goes on. */
  ghost predicate AttestMoves(letter: char, cmd: string, w: World, p: Proc, v: World, q: Proc) {
    && (forall k :: |w.log| <= k < |v.log| ==> v.log[k].Attested?)
    && (q.running ==>
          if letter in cmd && letter !in p.state.steps then
            && q.attest == q.state.attest == LastAttest(v.log) == |w.log| + 1
            && q.state.steps == p.state.steps + [letter]
          else
            && v.log == w.log && q.state == p.state && q.attest == (if letter in cmd then p.state.attest else p.attest))
  }

  lemma LogAfterPreRegister(cmd: string, s: Script, w: World, p: Proc)
    ensures var r := StepPreRegister(cmd, s, w, p); AttestMoves('r', cmd, w, p, r.0, r.1) && w.log <= r.0.log
  {
    NewEvent(w.log, Attested(|w.log| + 1));
  }

  lemma LogAfterAttest(cmd: string, s: Script, w: World, p: Proc)
    ensures var r := StepAttest(cmd, s, w, p); AttestMoves('R', cmd, w, p, r.0, r.1) && w.log <= r.0.log
  {
    NewEvent(w.log, Attested(|w.log| + 1));
  }

  lemma LogAfterCheck(cmd: string, flag: Id, s: Script, w: World, p: Proc)
    ensures var r := StepCheck(cmd, flag, s, w, p);
            r.0.log == w.log || r.0.log == w.log + [Checked(|w.log| + 1, p.attest)]
  {}

  lemma LogAfterPromote(cmd: string, s: Script, w: World, p: Proc)
    ensures var r := StepPromote(cmd, s, w, p); r.0.log == w.log || r.0.log == w.log + [Promoted(p.check)]
  {}

  // --- why the command must not change between runs ------------------------------------------------------------------

  const SMOOTH: Script := Script(true, true, true, true, Mined, Written, Mined, Written,
                                 Gate(None, None), Mined, Written, true, Mined, true, true)

  /** A crash right after R is mined, then a resume without R: the check carries attestation 1
      although 2 is the latest. */
  lemma ChangedCommandGoesStale()
    ensures var w1 := RunOnce("rRap", 0, SMOOTH.(R := MinedUnseen), World(None, [], false, multiset{}, multiset{}));
            var log := RunOnce("rap", 0, SMOOTH, w1).log;
            |log| > 2 && log[2] == Checked(3, 1) && LastAttest(log[..2]) == 2
  {
    hide Exit, StepPromote;
    forall s, v, q ensures Exit(s, v, q).log == v.log { ExitLog(s, v, q); }
    var w1 := CrashAfterR(World(None, [], false, multiset{}, multiset{}));
    var (w2, p2) := StepPreRegister("rap", SMOOTH, w1, Load(w1));
    assert "rap"[0] == 'r' && 'R' !in "rap" && "rap"[1] == 'a';
    assert w2 == w1 && p2.attest == 1;
    var (w3, p3) := StepCheck("rap", 0, SMOOTH, w2, p2);
    LogAfterPromote("rap", SMOOTH, w3, p3);
    assert w3.log == [Attested(1), Attested(2)] + [Checked(3, 1)];
    NewEvent([Attested(1)], Attested(2));
  }

  lemma CrashAfterR(w: World) returns (w1: World)
    requires w.file.None? && w.log == [] && !w.registered
    ensures w1 == RunOnce("rRap", 0, SMOOTH.(R := MinedUnseen), w)
    ensures w1.file == Some(Saved("r", 1, 0)) && w1.log == [Attested(1), Attested(2)]
  {
    var s := SMOOTH.(R := MinedUnseen);
    assert "rRap"[0] == 'r' && "rRap"[1] == 'R';
    var (v1, p1) := StepPreRegister("rRap", s, w, Load(w));
    assert "" + ['r'] == "r";
    assert v1.file == Some(Saved("r", 1, 0)) && v1.log == [Attested(1)] && p1.running;
    var (v2, p2) := StepAttest("rRap", s, v1, p1);
    assert v2.file == v1.file && v2.log == [Attested(1), Attested(2)] && !p2.running;
    w1 := Exit(s, v2, p2);
  }

  // --- the code's own form ------------------------------------------------------------------------------------------

  /** register-tee and RegisterNode as they run, on the file and the chain they change. A None id
      or `running` false means that the process ended there. */
  class Operator {
    var file: Option<Saved>
    var log: seq<ChainEvent>
    var registered: bool
    ghost var sent: multiset<char>
    ghost var lost: multiset<char>

    ghost function Now(): World
      reads this
    {
      World(file, log, registered, sent, lost)
    }

    method RemoveState()
      modifies this
      ensures Now() == old(Now()).Removed()
    {
      file := None;
      sent, lost := multiset{}, multiset{};
    }

    /** os.WriteFile, whose failure is only warned about. */
    method SaveState(write: Write, state: Saved) returns (goesOn: bool)
      modifies this`file
      ensures file == if write.Written? || write.StoppedAfter? then Some(state) else old(file)
      ensures goesOn <==> write.Written? || write.WriteFailed?
    {
      if write.Written? || write.StoppedAfter? { file := Some(state); }
      goesOn := write.Written? || write.WriteFailed?;
    }

    /** The chain assigns a fresh id to what `event` makes of it. */
    method Send(tx: Tx, event: Id -> ChainEvent, ghost letter: char) returns (id: Option<Id>)
      modifies this`log, this`sent, this`lost
      ensures tx.NotMined? ==> id.None? && log == old(log) && sent == old(sent) && lost == old(lost)
      ensures !tx.NotMined? ==> log == old(log) + [event(|old(log)| + 1)] && sent == old(sent) + multiset{letter}
      ensures tx.Mined? ==> id == Some(|old(log)| + 1) && lost == old(lost)
      ensures tx.MinedUnseen? ==> id.None? && lost == old(lost) + multiset{letter}
    {
      if tx.NotMined? { return None; }
      id := Some(|log| + 1);
      log := log + [event(|log| + 1)];
      sent := sent + multiset{letter};
      if tx.MinedUnseen? {
        lost := lost + multiset{letter};
        id := None;
      }
    }

    method PreRegister(cmd: string, s: Script, state: Saved) returns (p: Proc)
      modifies this
      ensures (Now(), p) == StepPreRegister(cmd, s, old(Now()), Proc(state, 0, 0, true))
    {
      p := Proc(state, 0, 0, true);
      if 'r' in cmd {
        if 'r' in state.steps { return p.(attest := state.attest); }
        // a registered machine that answers the lookup gets a fresh attestation; one whose lookup
        // failed makes register() revert
        if registered && !s.queryAnswered { return p.(running := false); }
        var id := Send(s.r, (i: Id) => Attested(i), 'r');
        if !s.r.NotMined? { registered := true; }
        if id.None? { return if s.r.NotMined? then p.(running := false) else p.(attest := |log|, running := false); }
        var next := Saved(state.steps + "r", id.value, state.check);
        var goesOn := SaveState(s.rSave, next);
        p := Proc(next, id.value, 0, goesOn);
      }
    }

    method RequestAttestation(cmd: string, s: Script, before: Proc) returns (p: Proc)
      modifies this
      ensures (Now(), p) == StepAttest(cmd, s, old(Now()), before)
    {
      p := before;
      var state := p.state;
      if 'R' in cmd {
        if 'R' in state.steps { return p.(attest := state.attest); }
        var id := Send(s.R, (i: Id) => Attested(i), 'R');
        if id.None? { return if s.R.NotMined? then p.(running := false) else p.(attest := |log|, running := false); }
        var next := Saved(state.steps + "R", id.value, state.check);
        var goesOn := SaveState(s.RSave, next);
        p := Proc(next, id.value, p.check, goesOn);
      }
    }

    method CheckAvailability(cmd: string, flag: Id, s: Script, before: Proc) returns (p: Proc)
      modifies this
      ensures (Now(), p) == StepCheck(cmd, flag, s, old(Now()), before)
    {
      p := before;
      var state := p.state;
      if 'a' in cmd {
        if 'a' in state.steps { return p.(check := state.check); }
        if GateBlocks(s.gate) { return p.(running := false); }
        var attest := p.attest;
        var id := Send(s.a, (i: Id) => Checked(i, attest), 'a');
        if id.None? { return if s.a.NotMined? then p.(running := false) else p.(check := |log|, running := false); }
        var next := Saved(state.steps + "a", state.attest, id.value);
        var goesOn := SaveState(s.aSave, next);
        p := Proc(next, attest, id.value, goesOn);
      } else {
        p := p.(check := flag);
      }
    }

    method Promote(cmd: string, s: Script, before: Proc) returns (p: Proc)
      modifies this`log
      ensures (Now(), p) == StepPromote(cmd, s, old(Now()), before)
    {
      p := before;
      if 'p' in cmd {
        if !s.proof || s.p.NotMined? { return p.(running := false); }
        log := log + [Promoted(p.check)];
        p := p.(running := s.p.Mined? && s.readback);
      }
    }

    method Finish(s: Script, p: Proc)
      modifies this
      ensures Now() == Exit(s, old(Now()), p)
    {
      if p.running && s.cleaned {
        RemoveState();
      } else {
        lost := lost + (multiset(p.state.steps) - multiset(file.GetOr(EMPTY).steps));
      }
    }

    /** main: remove the state file unless resuming, then RegisterNode's steps in order. */
    method RegisterTee(cmd: string, flag: Id, s: Script)
      modifies this
      ensures Now() == RunOnce(cmd, flag, s, old(Now()))
    {
      hide StepPreRegister, StepAttest, StepCheck, StepPromote, Exit;
      if !s.resume && s.removable { RemoveState(); }
      if !s.readable { return; }
      var p := PreRegister(cmd, s, file.GetOr(EMPTY));
      if p.running { p := RequestAttestation(cmd, s, p); }
      if p.running { p := CheckAvailability(cmd, flag, s, p); }
      if p.running { p := Promote(cmd, s, p); }
      Finish(s, p);
    }
  }
}
