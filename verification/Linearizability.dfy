/** Linearizability with respect to Contract: what a client can see, and when serving the same calls
    one at a time explains it. */
module Linearizability {
  import opened Contract

  /** A linearization entry, and what a client can see. */
  datatype Commit = Commit(id: nat, plan: Plan, reply: Reply)
  datatype Event = Invoked(id: nat, plan: Plan) | Returned(id: nat, reply: Reply)

  // --- what a linearization is ---------------------------------------------------------------

  ghost function PlansOf(commits: seq<Commit>): (p: seq<Plan>)
    ensures |p| == |commits|
  {
    seq(|commits|, i requires 0 <= i < |commits| => commits[i].plan)
  }

  ghost function RepliesOf(commits: seq<Commit>): (r: seq<Reply>)
    ensures |r| == |commits|
  {
    seq(|commits|, i requires 0 <= i < |commits| => commits[i].reply)
  }

  ghost predicate OnceEach(commits: seq<Commit>) {
    forall i, j :: 0 <= i < j < |commits| ==> commits[i].id != commits[j].id
  }

  /** Each entry was invoked, with that very request. */
  ghost predicate AllInvoked(commits: seq<Commit>, history: seq<Event>) {
    forall i :: 0 <= i < |commits| ==> Invoked(commits[i].id, commits[i].plan) in history
  }

  /** Each call that returned is an entry, with the reply it returned. */
  ghost predicate AllReturned(commits: seq<Commit>, history: seq<Event>) {
    forall id: nat, reply :: Returned(id, reply) in history ==> exists plan :: Commit(id, plan, reply) in commits
  }

  /** A call that returned before another was invoked comes first. */
  ghost predicate RealTime(commits: seq<Commit>, history: seq<Event>) {
    forall i, j, p, q | 0 <= i < j < |history| && 0 <= p < |commits| && 0 <= q < |commits| ::
      Precedes(history[i], history[j], commits[p].id, commits[q].id) ==> p < q
  }

  ghost predicate Precedes(e: Event, f: Event, a: nat, b: nat) {
    e.Returned? && f.Invoked? && e.id == a && f.id == b
  }

  /** Serving `commits` one at a time explains `history`. */
  ghost predicate Linearizes(commits: seq<Commit>, history: seq<Event>) {
    && RepliesOf(commits) == Replies(PlansOf(commits))
    && OnceEach(commits)
    && AllInvoked(commits, history)
    && AllReturned(commits, history)
    && RealTime(commits, history)
  }

  // --- extending a linearization ---------------------------------------------------------------------

  lemma CommitExtendsReplies(commits: seq<Commit>, e: Commit)
    requires RepliesOf(commits) == Replies(PlansOf(commits)) && e.reply == Answer(e.plan, Serve(PlansOf(commits)))
    ensures var more := commits + [e];
            && RepliesOf(more) == Replies(PlansOf(more))
            && Serve(PlansOf(more)) == Effect(e.plan, Serve(PlansOf(commits)))
  {
    var more := commits + [e];
    assert PlansOf(more)[..|commits|] == PlansOf(commits);
    assert RepliesOf(more) == RepliesOf(commits) + [e.reply];
  }

  lemma CommitKeepsOrder(commits: seq<Commit>, history: seq<Event>, e: Commit)
    requires RealTime(commits, history)
    requires forall reply :: Returned(e.id, reply) !in history
    ensures RealTime(commits + [e], history)
  {
    var more := commits + [e];
    forall i, j, p, q | 0 <= i < j < |history| && 0 <= p < |more| && 0 <= q < |more|
      ensures Precedes(history[i], history[j], more[p].id, more[q].id) ==> p < q
    {
      if Precedes(history[i], history[j], more[p].id, more[q].id) {
        assert Returned(more[p].id, history[i].reply) in history;
        assert p < |commits|;
      }
    }
  }

  /** A call that has not returned may be put last, with the reply the sequential machine gives. */
  lemma CommitKeepsLinearization(commits: seq<Commit>, history: seq<Event>, e: Commit)
    requires Linearizes(commits, history) && e.reply == Answer(e.plan, Serve(PlansOf(commits)))
    requires Invoked(e.id, e.plan) in history
    requires forall reply :: Returned(e.id, reply) !in history
    requires forall i :: 0 <= i < |commits| ==> commits[i].id != e.id
    ensures var more := commits + [e];
            && Linearizes(more, history)
            && Serve(PlansOf(more)) == Effect(e.plan, Serve(PlansOf(commits)))
  {
    hide RealTime, PlansOf, RepliesOf, Replies, Serve, Answer, Effect;
    var more := commits + [e];
    CommitExtendsReplies(commits, e);
    CommitKeepsOrder(commits, history, e);
    assert OnceEach(more);
    forall i: nat, reply | Returned(i, reply) in history ensures exists p :: Commit(i, p, reply) in more {
      var p :| Commit(i, p, reply) in commits;
      assert Commit(i, p, reply) in more;
    }
  }

  /** Invoking a fresh call constrains nothing yet. */
  lemma ArrivalKeepsLinearization(commits: seq<Commit>, history: seq<Event>, id: nat, plan: Plan)
    requires Linearizes(commits, history)
    requires forall i :: 0 <= i < |commits| ==> commits[i].id != id
    ensures Linearizes(commits, history + [Invoked(id, plan)])
  {
    hide Serve, PlansOf, Replies, RepliesOf;
    var longer := history + [Invoked(id, plan)];
    forall i, j, p, q | 0 <= i < j < |longer| && 0 <= p < |commits| && 0 <= q < |commits|
      ensures Precedes(longer[i], longer[j], commits[p].id, commits[q].id) ==> p < q
    {
      assert commits[q].id != id;
    }
  }

  lemma ReturnKeepsLinearization(commits: seq<Commit>, history: seq<Event>, e: Commit)
    requires Linearizes(commits, history) && e in commits
    ensures Linearizes(commits, history + [Returned(e.id, e.reply)])
  {
    hide Serve, PlansOf, Replies, RepliesOf;
    var longer := history + [Returned(e.id, e.reply)];
    forall id: nat, reply | Returned(id, reply) in longer ensures exists plan :: Commit(id, plan, reply) in commits {
      if Returned(id, reply) !in history { assert Commit(e.id, e.plan, e.reply) in commits; }
    }
    forall i, j, p, q | 0 <= i < j < |longer| && 0 <= p < |commits| && 0 <= q < |commits|
      ensures Precedes(longer[i], longer[j], commits[p].id, commits[q].id) ==> p < q
    {}
  }

  // --- what a linearization rules out --------------------------------------------------------------------

  lemma {:induction false} NumbersBelowCounter(kind: Kind, plans: seq<Plan>, i: nat)
    requires i < |plans| && plans[i].Count? && plans[i].kind == kind
    ensures Replies(plans)[i].Result? && Replies(plans)[i].data.Numbered?
    ensures Replies(plans)[i].data.number <= Counter(kind, Serve(plans))
  {
    var n := |plans| - 1;
    if i < n {
      NumbersBelowCounter(kind, plans[..n], i);
    }
  }

  lemma {:induction false} NumbersDiffer(kind: Kind, plans: seq<Plan>, i: nat, j: nat)
    requires i < j < |plans| && plans[i].Count? && plans[j].Count? && plans[i].kind == kind == plans[j].kind
    ensures Replies(plans)[i] != Replies(plans)[j]
  {
    var n := |plans| - 1;
    if j < n {
      NumbersDiffer(kind, plans[..n], i, j);
    } else {
      NumbersBelowCounter(kind, plans[..n], i);
      assert Replies(plans)[j] == Answer(plans[n], Serve(plans[..n]));
    }
  }

  lemma EntriesDiffer(commits: seq<Commit>, i: nat, j: nat, kind: Kind)
    requires RepliesOf(commits) == Replies(PlansOf(commits)) && i < j < |commits|
    requires commits[i].plan.Count? && commits[j].plan.Count? && commits[i].plan.kind == kind == commits[j].plan.kind
    ensures commits[i].reply != commits[j].reply
  {
    hide Replies;
    NumbersDiffer(kind, PlansOf(commits), i, j);
    assert RepliesOf(commits)[i] == commits[i].reply && RepliesOf(commits)[j] == commits[j].reply;
  }

  /** Two counted calls of one kind that were told the same number have no linearization. */
  lemma SameNumberTwice(commits: seq<Commit>, history: seq<Event>, a: nat, b: nat, kind: Kind, reply: Reply)
    requires a != b && Returned(a, reply) in history && Returned(b, reply) in history
    requires forall id: nat, plan :: Invoked(id, plan) in history ==> plan.Count? && plan.kind == kind
    ensures !Linearizes(commits, history)
  {
    hide RealTime, Replies, PlansOf, RepliesOf;
    if Linearizes(commits, history) {
      var p :| Commit(a, p, reply) in commits;
      var q :| Commit(b, q, reply) in commits;
      var i :| 0 <= i < |commits| && commits[i] == Commit(a, p, reply);
      var j :| 0 <= j < |commits| && commits[j] == Commit(b, q, reply);
      EntriesDiffer(commits, if i < j then i else j, if i < j then j else i, kind);
    }
  }
}
