/** tools/pkg/validate/report.go, and the --checks filter of tools/cmd/verify-deploy. */
module Report {

  /** Status is an int in the source: Other stands for every value without a name. */
  datatype Status = PASS | WARN | FAIL | SKIP | Other(code: int)

  datatype CheckResult = CheckResult(step: string, id: string, name: string, status: Status, message: string, fix: string)

  type Test = CheckResult -> bool

  function WithId(ids: set<string>): Test {
    (r: CheckResult) => r.id in ids
  }

  function OfStep(step: string): Test {
    (r: CheckResult) => r.step == step
  }

  function OfStatus(status: Status): Test {
    (r: CheckResult) => r.status == status
  }

  /** The results that pass p, in their order. */
  function Kept(rs: seq<CheckResult>, p: Test): (kept: seq<CheckResult>)
    ensures |kept| <= |rs|
    ensures forall r :: r in kept <==> r in rs && p(r)
  {
    if rs == [] then []
    else
      var n := |rs| - 1;
      assert rs == rs[..n] + [rs[n]];
      Kept(rs[..n], p) + if p(rs[n]) then [rs[n]] else []
  }

  lemma KeptNext(rs: seq<CheckResult>, p: Test, k: nat)
    requires k < |rs|
    ensures Kept(rs[..k + 1], p) == Kept(rs[..k], p) + if p(rs[k]) then [rs[k]] else []
  {
    assert rs[..k + 1][..k] == rs[..k];
  }

  lemma {:induction false} KeptJoined(a: seq<CheckResult>, b: seq<CheckResult>, p: Test)
    ensures Kept(a + b, p) == Kept(a, p) + Kept(b, p)
    decreases |b|
  {
    if b == [] {
      assert a + b == a;
    } else {
      var n := |b| - 1;
      assert (a + b)[..|a + b| - 1] == a + b[..n];
      KeptJoined(a, b[..n], p);
    }
  }

  /** Where a surviving result ends up: behind exactly the survivors that stood before it. */
  lemma {:induction false} KeptInOrder(rs: seq<CheckResult>, p: Test, k: nat)
    requires k < |rs| && p(rs[k])
    ensures |Kept(rs[..k], p)| < |Kept(rs, p)|
    ensures Kept(rs, p)[|Kept(rs[..k], p)|] == rs[k]
  {
    hide Kept;
    KeptJoined(rs[..k + 1], rs[k + 1..], p);
    assert rs == rs[..k + 1] + rs[k + 1..];
    KeptNext(rs, p, k);
  }

  /** The survivors number what the original holds of each. */
  lemma {:induction false} KeptCount(rs: seq<CheckResult>, p: Test, r: CheckResult)
    ensures multiset(Kept(rs, p))[r] == if p(r) then multiset(rs)[r] else 0
  {
    if rs != [] {
      var n := |rs| - 1;
      assert rs == rs[..n] + [rs[n]];
      KeptCount(rs[..n], p, r);
    }
  }

  lemma {:induction false} KeptNone(rs: seq<CheckResult>, p: Test)
    requires forall r :: r in rs ==> !p(r)
    ensures Kept(rs, p) == []
  {
    if Kept(rs, p) != [] {
      assert Kept(rs, p)[0] in Kept(rs, p);
    }
  }

  lemma {:induction false} KeptAll(rs: seq<CheckResult>, p: Test)
    requires forall r :: r in rs ==> p(r)
    ensures Kept(rs, p) == rs
  {
    if rs != [] {
      var n := |rs| - 1;
      assert rs == rs[..n] + [rs[n]] && p(rs[n]);
      KeptAll(rs[..n], p);
    }
  }

  predicate Mentions(rs: seq<CheckResult>, step: string) {
    exists r :: r in rs && r.step == step
  }

  /** The steps in the order they first appear. */
  function Steps(rs: seq<CheckResult>): (steps: seq<string>)
    ensures forall s :: s in steps <==> Mentions(rs, s)
    ensures forall i, j :: 0 <= i < j < |steps| ==> steps[i] != steps[j]
  {
    if rs == [] then []
    else
      var n := |rs| - 1;
      assert rs == rs[..n] + [rs[n]];
      var before := Steps(rs[..n]);
      assert forall s :: Mentions(rs, s) <==> Mentions(rs[..n], s) || rs[n].step == s by {
        assert rs[n] in rs;
      }
      if rs[n].step in before then before else before + [rs[n].step]
  }

  lemma StepsNext(rs: seq<CheckResult>, k: nat)
    requires k < |rs|
    ensures Steps(rs[..k + 1]) == Steps(rs[..k]) + if rs[k].step in Steps(rs[..k]) then [] else [rs[k].step]
  {
    assert rs[..k + 1][..k] == rs[..k];
  }

  /** The position of the first result of a step. */
  function FirstAt(rs: seq<CheckResult>, step: string): (at: nat)
    requires Mentions(rs, step)
    ensures at < |rs| && rs[at].step == step
    ensures forall k :: 0 <= k < at ==> rs[k].step != step
  {
    if rs[0].step == step then 0
    else
      assert rs == [rs[0]] + rs[1..];
      1 + FirstAt(rs[1..], step)
  }

  lemma {:induction false} StepsByFirstAppearance(rs: seq<CheckResult>, i: nat, j: nat)
    requires i < j < |Steps(rs)|
    ensures Mentions(rs, Steps(rs)[i]) && Mentions(rs, Steps(rs)[j])
    ensures FirstAt(rs, Steps(rs)[i]) < FirstAt(rs, Steps(rs)[j])
  {
    assert Steps(rs)[i] in Steps(rs) && Steps(rs)[j] in Steps(rs);
    var n := |rs| - 1;
    var before := Steps(rs[..n]);
    assert before[i] in before;
    FirstStays(rs, before[i]);
    if j < |before| {
      StepsByFirstAppearance(rs[..n], i, j);
      assert before[j] in before;
      FirstStays(rs, before[j]);
    }
  }

  lemma FirstStays(rs: seq<CheckResult>, step: string)
    requires rs != [] && Mentions(rs[..|rs| - 1], step)
    ensures Mentions(rs, step)
    ensures FirstAt(rs, step) == FirstAt(rs[..|rs| - 1], step) < |rs| - 1
  {
    var init := rs[..|rs| - 1];
    var at := FirstAt(init, step);
    assert rs[at] == init[at] && rs[at] in rs;
    assert forall k :: 0 <= k < at ==> rs[k] == init[k];
    assert FirstAt(rs, step) <= at;
  }

  /** The results of each step in turn. */
  function Grouped(rs: seq<CheckResult>, steps: seq<string>): seq<CheckResult> {
    if steps == [] then []
    else Grouped(rs, steps[..|steps| - 1]) + Kept(rs, OfStep(steps[|steps| - 1]))
  }

  /** The grouped order of a report. */
  function Arranged(rs: seq<CheckResult>): seq<CheckResult> {
    Grouped(rs, Steps(rs))
  }

  predicate Distinct(steps: seq<string>) {
    forall i, j :: 0 <= i < j < |steps| ==> steps[i] != steps[j]
  }

  lemma {:induction false} GroupedByStep(rs: seq<CheckResult>, steps: seq<string>, step: string)
    requires Distinct(steps)
    ensures Kept(Grouped(rs, steps), OfStep(step)) == if step in steps then Kept(rs, OfStep(step)) else []
  {
    if steps != [] {
      var n := |steps| - 1;
      assert steps == steps[..n] + [steps[n]];
      GroupedByStep(rs, steps[..n], step);
      var group := Kept(rs, OfStep(steps[n]));
      KeptJoined(Grouped(rs, steps[..n]), group, OfStep(step));
      if step == steps[n] {
        assert step !in steps[..n];
        KeptAll(group, OfStep(step));
      } else {
        KeptNone(group, OfStep(step));
      }
    }
  }

  /** Stability: within a step, results keep the order in which they were added. */
  lemma StableWithinStep(rs: seq<CheckResult>, step: string)
    ensures Kept(Arranged(rs), OfStep(step)) == Kept(rs, OfStep(step))
  {
    GroupedByStep(rs, Steps(rs), step);
    if step !in Steps(rs) {
      KeptNone(rs, OfStep(step));
    }
  }

  /** Grouping neither loses nor repeats a result. */
  lemma EachResultOnce(rs: seq<CheckResult>)
    ensures multiset(Arranged(rs)) == multiset(rs)
  {
    forall r: CheckResult
      ensures multiset(Arranged(rs))[r] == multiset(rs)[r]
    {
      StableWithinStep(rs, r.step);
      KeptCount(rs, OfStep(r.step), r);
      KeptCount(Arranged(rs), OfStep(r.step), r);
    }
  }

  lemma {:induction false} StepsJoined(a: seq<CheckResult>, b: seq<CheckResult>, step: string)
    requires b != [] && step !in Steps(a)
    requires forall r :: r in b ==> r.step == step
    ensures Steps(a + b) == Steps(a) + [step]
    decreases |b|
  {
    var n := |b| - 1;
    assert (a + b)[..|a + b| - 1] == a + b[..n];
    assert b[n] in b;
    if n == 0 {
      assert a + b[..n] == a;
    } else {
      StepsJoined(a, b[..n], step);
    }
  }

  lemma {:induction false} StepsOfGrouped(rs: seq<CheckResult>, steps: seq<string>)
    requires Distinct(steps) && forall s :: s in steps ==> s in Steps(rs)
    ensures Steps(Grouped(rs, steps)) == steps
  {
    if steps != [] {
      var n := |steps| - 1;
      assert steps == steps[..n] + [steps[n]];
      StepsOfGrouped(rs, steps[..n]);
      assert steps[n] in steps && Mentions(rs, steps[n]);
      var r :| r in rs && r.step == steps[n];
      assert r in Kept(rs, OfStep(steps[n]));
      StepsJoined(Grouped(rs, steps[..n]), Kept(rs, OfStep(steps[n])), steps[n]);
    }
  }

  lemma {:induction false} SameGroups(rs: seq<CheckResult>, ts: seq<CheckResult>, steps: seq<string>)
    requires forall s :: s in steps ==> Kept(rs, OfStep(s)) == Kept(ts, OfStep(s))
    ensures Grouped(rs, steps) == Grouped(ts, steps)
  {
    if steps != [] {
      SameGroups(rs, ts, steps[..|steps| - 1]);
    }
  }

  /** A grouped report is already grouped: its steps stand together, in the order they first appeared. */
  lemma ArrangedIsSettled(rs: seq<CheckResult>)
    ensures Steps(Arranged(rs)) == Steps(rs)
    ensures Arranged(Arranged(rs)) == Arranged(rs)
  {
    StepsOfGrouped(rs, Steps(rs));
    forall s | s in Steps(rs)
      ensures Kept(rs, OfStep(s)) == Kept(Arranged(rs), OfStep(s))
    {
      StableWithinStep(rs, s);
    }
    SameGroups(rs, Arranged(rs), Steps(rs));
  }

  datatype Counts = Counts(passed: nat, warning: nat, failed: nat, skipped: nat) {
    function Total(): nat {
      passed + warning + failed + skipped
    }
  }

  function Tally(rs: seq<CheckResult>): Counts {
    Counts(|Kept(rs, OfStatus(PASS))|, |Kept(rs, OfStatus(WARN))|,
           |Kept(rs, OfStatus(FAIL))|, |Kept(rs, OfStatus(SKIP))|)
  }

  predicate Named(r: CheckResult) {
    !r.status.Other?
  }

  /** Every result counts under its own status and no other. */
  lemma TallyCounts(rs: seq<CheckResult>, r: CheckResult)
    ensures Tally([]) == Counts(0, 0, 0, 0)
    ensures Tally(rs + [r]) == match r.status
                               case PASS => Tally(rs).(passed := Tally(rs).passed + 1)
                               case WARN => Tally(rs).(warning := Tally(rs).warning + 1)
                               case FAIL => Tally(rs).(failed := Tally(rs).failed + 1)
                               case SKIP => Tally(rs).(skipped := Tally(rs).skipped + 1)
                               case Other(_) => Tally(rs)
  {
    assert (rs + [r])[..|rs|] == rs;
  }

  lemma {:induction false} TallyTotal(rs: seq<CheckResult>)
    ensures Tally(rs).Total() == |Kept(rs, Named)|
  {
    if rs != [] {
      TallyTotal(rs[..|rs| - 1]);
    }
  }

  /** The summary accounts for every result exactly when every status has a name. */
  lemma CountsAddUp(rs: seq<CheckResult>)
    ensures Tally(rs).Total() <= |rs|
    ensures Tally(rs).Total() == |rs| <==> forall r :: r in rs ==> Named(r)
  {
    TallyTotal(rs);
    if forall r :: r in rs ==> Named(r) {
      KeptAll(rs, Named);
    } else if |Kept(rs, Named)| == |rs| {
      FullIsAll(rs, Named);
    }
  }

  lemma {:induction false} FullIsAll(rs: seq<CheckResult>, p: Test)
    requires |Kept(rs, p)| == |rs|
    ensures forall r :: r in rs ==> p(r)
  {
    if rs != [] {
      assert rs == rs[..|rs| - 1] + [rs[|rs| - 1]];
      FullIsAll(rs[..|rs| - 1], p);
    }
  }

  /** The grouped print shows what the summary counts. */
  lemma {:induction false} TallyIgnoresOrder(rs: seq<CheckResult>, ts: seq<CheckResult>)
    requires multiset(rs) == multiset(ts)
    ensures Tally(rs) == Tally(ts)
  {
    SameSize(rs, ts, OfStatus(PASS));
    SameSize(rs, ts, OfStatus(WARN));
    SameSize(rs, ts, OfStatus(FAIL));
    SameSize(rs, ts, OfStatus(SKIP));
  }

  lemma SameSize(rs: seq<CheckResult>, ts: seq<CheckResult>, p: Test)
    requires multiset(rs) == multiset(ts)
    ensures |Kept(rs, p)| == |Kept(ts, p)|
  {
    forall r: CheckResult
      ensures multiset(Kept(rs, p))[r] == multiset(Kept(ts, p))[r]
    {
      KeptCount(rs, p, r);
      KeptCount(ts, p, r);
    }
    assert multiset(Kept(rs, p)) == multiset(Kept(ts, p));
    assert |multiset(Kept(rs, p))| == |multiset(Kept(ts, p))|;
  }

  /** One printed line; Item stands for a result's own line and the notes below it. */
  datatype Line = Heading(text: string) | Item(result: CheckResult, notes: seq<string>) | Gap | Totals(counts: Counts)

  function Label(step: string): string {
    match step
    case "deploy" => "Contract Deployment"
    case "register" => "Extension Registration"
    case "services" => "Service Startup"
    case "tee-version" => "TEE Version Registration"
    case "tee-machine" => "TEE Machine Registration"
    case "test" => "Testing"
    case _ => step
  }

  function Notes(r: CheckResult): seq<string> {
    if r.status != FAIL && r.status != WARN then []
    else (if r.message != "" then [r.message] else []) + if r.fix != "" then ["Fix: " + r.fix] else []
  }

  /** What stands below a result: nothing unless it failed or warns; then its message and its fix,
      each if there is one, the message first. */
  lemma NotesShown(r: CheckResult)
    ensures |Notes(r)| == (if (r.status == FAIL || r.status == WARN) && r.message != "" then 1 else 0)
                          + if (r.status == FAIL || r.status == WARN) && r.fix != "" then 1 else 0
    ensures (r.status == FAIL || r.status == WARN) && r.message != "" ==> Notes(r)[0] == r.message
    ensures (r.status == FAIL || r.status == WARN) && r.fix != "" ==> Notes(r)[|Notes(r)| - 1] == "Fix: " + r.fix
  {}

  /** The steps the tool knows have headings of their own, six different ones; others are headed by their name. */
  lemma LabelsKnown(step: string)
    ensures Label("deploy") == "Contract Deployment" && Label("register") == "Extension Registration"
    ensures Label("services") == "Service Startup" && Label("tee-version") == "TEE Version Registration"
    ensures Label("tee-machine") == "TEE Machine Registration" && Label("test") == "Testing"
    ensures step !in {"deploy", "register", "services", "tee-version", "tee-machine", "test"} ==> Label(step) == step
  {}

  function Items(rs: seq<CheckResult>): (lines: seq<Line>)
    ensures |lines| == |rs|
    ensures forall k :: 0 <= k < |rs| ==> lines[k] == Item(rs[k], Notes(rs[k]))
  {
    if rs == [] then []
    else Items(rs[..|rs| - 1]) + [Item(rs[|rs| - 1], Notes(rs[|rs| - 1]))]
  }

  function Block(rs: seq<CheckResult>, step: string): seq<Line> {
    [Heading(Label(step))] + Items(Kept(rs, OfStep(step))) + [Gap]
  }

  function Blocks(rs: seq<CheckResult>, steps: seq<string>): seq<Line> {
    if steps == [] then [] else Blocks(rs, steps[..|steps| - 1]) + Block(rs, steps[|steps| - 1])
  }

  /** The results a reader of the lines sees. */
  function Shown(lines: seq<Line>): seq<CheckResult> {
    if lines == [] then []
    else
      var last := lines[|lines| - 1];
      Shown(lines[..|lines| - 1]) + if last.Item? then [last.result] else []
  }

  lemma {:induction false} ShownJoined(a: seq<Line>, b: seq<Line>)
    ensures Shown(a + b) == Shown(a) + Shown(b)
    decreases |b|
  {
    if b == [] {
      assert a + b == a;
    } else {
      assert (a + b)[..|a + b| - 1] == a + b[..|b| - 1];
      ShownJoined(a, b[..|b| - 1]);
    }
  }

  /** The headings a reader sees. */
  function Headings(lines: seq<Line>): seq<string> {
    if lines == [] then []
    else
      var last := lines[|lines| - 1];
      Headings(lines[..|lines| - 1]) + if last.Heading? then [last.text] else []
  }

  lemma {:induction false} HeadingsJoined(a: seq<Line>, b: seq<Line>)
    ensures Headings(a + b) == Headings(a) + Headings(b)
    decreases |b|
  {
    if b == [] {
      assert a + b == a;
    } else {
      assert (a + b)[..|a + b| - 1] == a + b[..|b| - 1];
      HeadingsJoined(a, b[..|b| - 1]);
    }
  }

  lemma {:induction false} ItemsHaveNoHeading(rs: seq<CheckResult>)
    ensures Headings(Items(rs)) == []
  {
    if rs != [] { ItemsHaveNoHeading(rs[..|rs| - 1]); }
  }

  function Labels(steps: seq<string>): (labels: seq<string>)
    ensures |labels| == |steps| && forall i :: 0 <= i < |steps| ==> labels[i] == Label(steps[i])
  {
    if steps == [] then [] else Labels(steps[..|steps| - 1]) + [Label(steps[|steps| - 1])]
  }

  /** Each step is headed once, above its own results. */
  lemma BlockIsHeaded(rs: seq<CheckResult>, step: string)
    ensures var b := Block(rs, step);
            && |b| >= 2 && b[0] == Heading(Label(step)) && Headings(b) == [Label(step)]
            && b[|b| - 1] == Gap && Shown(b[1..|b| - 1]) == Kept(rs, OfStep(step))
  {
    hide Label, Kept;
    var items := Items(Kept(rs, OfStep(step)));
    HeadingsJoined([Heading(Label(step))], items);
    HeadingsJoined([Heading(Label(step))] + items, [Gap]);
    ItemsHaveNoHeading(Kept(rs, OfStep(step)));
    assert Block(rs, step)[1..|Block(rs, step)| - 1] == items;
    ShownItems(Kept(rs, OfStep(step)));
  }

  lemma {:induction false} StepsAreHeaded(rs: seq<CheckResult>, steps: seq<string>)
    ensures Headings(Blocks(rs, steps)) == Labels(steps)
  {
    if steps != [] {
      var n := |steps| - 1;
      StepsAreHeaded(rs, steps[..n]);
      BlockIsHeaded(rs, steps[n]);
      hide Block, Headings, Label;
      HeadingsJoined(Blocks(rs, steps[..n]), Block(rs, steps[n]));
    }
  }

  lemma {:induction false} ShownItems(rs: seq<CheckResult>)
    ensures Shown(Items(rs)) == rs
  {
    if rs != [] {
      ShownItems(rs[..|rs| - 1]);
    }
  }

  lemma ShownBlock(rs: seq<CheckResult>, step: string)
    ensures Shown(Block(rs, step)) == Kept(rs, OfStep(step))
  {
    hide Label, Kept, Items;
    var heading, items := [Heading(Label(step))], Items(Kept(rs, OfStep(step)));
    ShownJoined(heading, items);
    ShownJoined(heading + items, [Gap]);
    ShownItems(Kept(rs, OfStep(step)));
  }

  lemma {:induction false} ShownBlocks(rs: seq<CheckResult>, steps: seq<string>)
    ensures Shown(Blocks(rs, steps)) == Grouped(rs, steps)
  {
    if steps != [] {
      var n := |steps| - 1;
      ShownBlocks(rs, steps[..n]);
      ShownBlock(rs, steps[n]);
      hide Shown, Block, Kept;
      ShownJoined(Blocks(rs, steps[..n]), Block(rs, steps[n]));
    }
  }

  class Report {
    /** The slice Results: a backing array and a length. */
    var backing: array<CheckResult>
    var len: nat

    ghost predicate Valid()
      reads this
    {
      len <= backing.Length
    }

    ghost function Results(): seq<CheckResult>
      reads this, backing
      requires Valid()
    {
      backing[..len]
    }

    constructor ()
      ensures Valid() && fresh(backing) && Results() == []
    {
      backing, len := new CheckResult[0], 0;
    }

    /** append: in place while there is room, into a larger array otherwise. */
    method Add(result: CheckResult)
      requires Valid()
      modifies this, backing
      ensures Valid() && (backing == old(backing) || fresh(backing))
      ensures Results() == old(Results()) + [result]
    {
      if len == backing.Length {
        var larger := new CheckResult[2 * len + 1](_ => result);
        for k := 0 to len
          invariant len == old(len) == backing.Length < larger.Length && fresh(larger)
          invariant backing == old(backing) && backing[..] == old(backing[..])
          invariant larger[..k] == backing[..k]
        {
          larger[k] := backing[k];
        }
        backing := larger;
      }
      backing[len] := result;
      len := len + 1;
    }

    /** The --checks filter: it ranges over the very array it overwrites. */
    method KeepOnly(allowed: set<string>)
      requires Valid()
      modifies this, backing
      ensures Valid() && backing == old(backing)
      ensures Results() == Kept(old(Results()), WithId(allowed))
      ensures forall r :: r in Results() <==> r in old(Results()) && r.id in allowed
      ensures forall k :: len <= k < backing.Length ==> backing[k] == old(backing[k])
    {
      hide Kept;
      ghost var was, kept := Results(), [];
      assert Kept(was[..0], WithId(allowed)) == [] by { KeptNone([], WithId(allowed)); }
      var results, n, filtered := backing, len, 0;
      for read := 0 to n
        modifies results
        invariant filtered == |kept| <= read
        invariant kept == Kept(was[..read], WithId(allowed))
        invariant forall k :: 0 <= k < filtered ==> results[k] == kept[k]
        invariant forall k :: filtered <= k < results.Length ==> results[k] == old(backing[k])
      {
        KeptNext(was, WithId(allowed), read);
        if results[read].id in allowed {
          results[filtered] := results[read];
          kept := kept + [was[read]];
          filtered := filtered + 1;
        }
      }
      len := filtered;
      assert was[..|was|] == was;
    }

    method HasFailures() returns (failed: bool)
      requires Valid()
      ensures failed <==> Tally(Results()).failed > 0
      ensures failed <==> exists r :: r in Results() && r.status == FAIL
    {
      assert forall r :: r in Kept(Results(), OfStatus(FAIL)) ==> r in Results() && r.status == FAIL;
      for k := 0 to len
        invariant forall i :: 0 <= i < k ==> backing[i].status != FAIL
      {
        if backing[k].status == FAIL {
          assert backing[k] in Results() && backing[k] in Kept(Results(), OfStatus(FAIL));
          return true;
        }
      }
      KeptNone(Results(), OfStatus(FAIL));
      return false;
    }

    method Summary() returns (counts: Counts)
      requires Valid()
      ensures counts == Tally(Results())
    {
      var passed, warning, failed, skipped := 0, 0, 0, 0;
      for k := 0 to len
        invariant Counts(passed, warning, failed, skipped) == Tally(Results()[..k])
      {
        KeptNext(Results(), OfStatus(PASS), k);
        KeptNext(Results(), OfStatus(WARN), k);
        KeptNext(Results(), OfStatus(FAIL), k);
        KeptNext(Results(), OfStatus(SKIP), k);
        match backing[k].status
        case PASS => passed := passed + 1;
        case WARN => warning := warning + 1;
        case FAIL => failed := failed + 1;
        case SKIP => skipped := skipped + 1;
        case Other(_) =>
      }
      assert Results()[..len] == Results();
      counts := Counts(passed, warning, failed, skipped);
    }

    /** Fprint: each result is shown once, grouped by step, and the totals are those of what is shown. */
    method Fprint() returns (lines: seq<Line>)
      requires Valid()
      ensures lines == Blocks(Results(), Steps(Results())) + [Totals(Tally(Results()))]
      ensures Shown(lines) == Arranged(Results())
      ensures Headings(lines) == Labels(Steps(Results()))
      ensures multiset(Shown(lines)) == multiset(Results())
      ensures lines[|lines| - 1] == Totals(Tally(Shown(lines)))
    {
      ghost var rs := Results();
      var steps: seq<string> := [];
      var seen: set<string> := {};
      for k := 0 to len
        invariant rs == Results() && steps == Steps(rs[..k])
        invariant forall s :: s in seen <==> s in steps
      {
        StepsNext(rs, k);
        if backing[k].step !in seen {
          seen := seen + {backing[k].step};
          steps := steps + [backing[k].step];
        }
      }
      assert rs[..len] == rs;
      lines := [];
      for i := 0 to |steps|
        invariant rs == Results() && lines == Blocks(rs, steps[..i])
      {
        var block := PrintStep(steps[i]);
        assert steps[..i + 1][..i] == steps[..i];
        lines := lines + block;
      }
      assert steps[..|steps|] == steps;
      var counts := Summary();
      ShownBlocks(rs, steps);
      ShownJoined(lines, [Totals(counts)]);
      StepsAreHeaded(rs, steps);
      HeadingsJoined(lines, [Totals(counts)]);
      EachResultOnce(rs);
      TallyIgnoresOrder(rs, Arranged(rs));
      lines := lines + [Totals(counts)];
    }

    method PrintStep(step: string) returns (lines: seq<Line>)
      requires Valid()
      ensures lines == Block(Results(), step)
    {
      ghost var rs := Results();
      var items: seq<Line> := [];
      for k := 0 to len
        invariant rs == Results() && items == Items(Kept(rs[..k], OfStep(step)))
      {
        KeptNext(rs, OfStep(step), k);
        if backing[k].step == step {
          items := items + [Item(backing[k], Notes(backing[k]))];
        }
      }
      assert rs[..len] == rs;
      lines := [Heading(Label(step))] + items + [Gap];
    }
  }
}
