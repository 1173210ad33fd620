/** The handler registry: `Framework` in python/base/types.py and typescript/src/base/types.ts. */
module Dispatch {
  import opened Wrappers
  import opened Encoding
  import opened Names

  type Key = (string, string)
  type Registration<H> = (Key, H)

  const EMPTY_BYTES32: string := Bytes32Hex([])

  /** The specification: a finite map, where the earliest registration of a pair wins. */
  ghost function Table<H>(regs: seq<Registration<H>>): map<Key, H> {
    if regs == [] then map[] else Table(regs[1..])[regs[0].0 := regs[0].1]
  }

  /** Exact pair, else the wildcard under the same op type, else nothing. */
  function Resolve<H>(table: map<Key, H>, opType: string, opCommand: string): Option<H> {
    if (opType, opCommand) in table then Some(table[(opType, opCommand)])
    else if (opType, EMPTY_BYTES32) in table then Some(table[(opType, EMPTY_BYTES32)])
    else None
  }

  function Normalize(h: string): string {
    if h == "" then EMPTY_BYTES32
    else
      var l := Lower(h);
      if "0x" <= l then l else "0x" + l
  }

  class Framework<H> {
    var handlers: seq<Registration<H>>

    constructor ()
      ensures handlers == []
    {
      handlers := [];
    }

    /** Registers under bytes32 names; a name over 32 bytes throws before anything is stored. */
    method Handle(opType: string, opCommand: string, handler: H) returns (ok: bool)
      modifies this
      ensures ok <==> |Utf8(opType)| <= 32 && |Utf8(opCommand)| <= 32
      ensures handlers == if ok then old(handlers) + [((Bytes32Hex(Utf8(opType)), Bytes32Hex(Utf8(opCommand))), handler)]
                          else old(handlers)
    {
      var t := StringToBytes32Hex(opType);
      if t.None? { return false; }
      var c := StringToBytes32Hex(opCommand);
      if c.None? { return false; }
      handlers := handlers + [((t.value, c.value), handler)];
      ok := true;
    }

    /** Two passes over the list compute what the map specification says. */
    method Lookup(opType: string, opCommand: string) returns (r: Option<H>)
      ensures r == Resolve(Table(handlers), Normalize(opType), Normalize(opCommand))
    {
      var t, c := Normalize(opType), Normalize(opCommand);
      for i := 0 to |handlers|
        invariant forall k :: 0 <= k < i ==> handlers[k].0 != (t, c)
      {
        if handlers[i].0.0 == t && handlers[i].0.1 == c {
          FirstWins(handlers, i);
          return Some(handlers[i].1);
        }
      }
      Absent(handlers, (t, c));
      for i := 0 to |handlers|
        invariant forall k :: 0 <= k < i ==> handlers[k].0 != (t, EMPTY_BYTES32)
      {
        if handlers[i].0.0 == t && handlers[i].0.1 == EMPTY_BYTES32 {
          FirstWins(handlers, i);
          return Some(handlers[i].1);
        }
      }
      Absent(handlers, (t, EMPTY_BYTES32));
      return None;
    }
  }

  lemma {:induction false} FirstWins<H>(regs: seq<Registration<H>>, i: nat)
    requires i < |regs| && forall k :: 0 <= k < i ==> regs[k].0 != regs[i].0
    ensures regs[i].0 in Table(regs) && Table(regs)[regs[i].0] == regs[i].1
  {
    if i > 0 {
      FirstWins(regs[1..], i - 1);
    }
  }

  lemma {:induction false} Absent<H>(regs: seq<Registration<H>>, key: Key)
    ensures key in Table(regs) <==> exists k :: 0 <= k < |regs| && regs[k].0 == key
  {
    if regs != [] {
      Absent(regs[1..], key);
      if key in Table(regs[1..]) {
        var k :| 0 <= k < |regs[1..]| && regs[1..][k].0 == key;
        assert regs[k + 1].0 == key;
      }
      if k :| 0 <= k < |regs| && regs[k].0 == key {
        if k > 0 { assert regs[1..][k - 1].0 == key; }
      }
    }
  }

  // --- order does not matter ---------------------------------------------------

  ghost predicate DistinctPairs<H>(regs: seq<Registration<H>>) {
    forall i, j :: 0 <= i < j < |regs| ==> regs[i].0 != regs[j].0
  }

  lemma TableEntries<H>(regs: seq<Registration<H>>, key: Key, h: H)
    requires DistinctPairs(regs)
    ensures key in Table(regs) && Table(regs)[key] == h <==> (key, h) in regs
  {
    Absent(regs, key);
    if i :| 0 <= i < |regs| && regs[i].0 == key {
      FirstWins(regs, i);
    }
  }

  /** With distinct pairs, every permutation of the registrations resolves alike. */
  lemma OrderIrrelevant<H>(a: seq<Registration<H>>, b: seq<Registration<H>>)
    requires DistinctPairs(a) && DistinctPairs(b)
    requires multiset(a) == multiset(b)
    ensures Table(a) == Table(b)
  {
    forall key, h ensures (key, h) in a <==> (key, h) in b {
      assert (key, h) in a <==> (key, h) in multiset(a);
      assert (key, h) in b <==> (key, h) in multiset(b);
    }
    forall key | key in Table(a) ensures key in Table(b) && Table(b)[key] == Table(a)[key] {
      TableEntries(a, key, Table(a)[key]);
      TableEntries(b, key, Table(a)[key]);
    }
    forall key | key in Table(b) ensures key in Table(a) {
      TableEntries(b, key, Table(b)[key]);
      TableEntries(a, key, Table(b)[key]);
    }
  }

  // --- letter case and prefix ----------------------------------------------------

  lemma CaseIrrelevant(a: string, b: string)
    requires Lower(a) == Lower(b)
    ensures Normalize(a) == Normalize(b)
  {
    assert |a| == |Lower(a)| && |b| == |Lower(b)|;
  }

  /** The prefix is optional on every identifier except the empty one, whose bare form means
      the wildcard, and one that already carries it. */
  lemma PrefixIrrelevant(h: string)
    ensures Normalize("0x" + h) == Normalize(h) <==> h != "" && !("0x" <= Lower(h))
  {
    var l := Lower("0x" + h);
    assert l == "0x" + Lower(h);
    if h == "" {
      assert |EMPTY_BYTES32| == 66;
    }
  }

  /** What an encoder writes is already in normal form. */
  lemma EncodedIsNormal(b: seq<Byte>)
    requires |b| <= 32
    ensures Normalize(Bytes32Hex(b)) == Bytes32Hex(b)
  {
    EncodeIsLower(Pad32(b));
  }

  // --- names reach their own handler or the wildcard, nothing else ---------------------

  datatype Named<H> = Named(opType: string, opCommand: string, handler: H)

  ghost predicate ProperNames<H>(regs: seq<Named<H>>) {
    forall i :: 0 <= i < |regs| ==> ProperName(regs[i].opType) && ProperName(regs[i].opCommand)
  }

  ghost function Registered<H>(regs: seq<Named<H>>): seq<Registration<H>>
    requires ProperNames(regs)
  {
    seq(|regs|, i requires 0 <= i < |regs| =>
      ((Bytes32Hex(Utf8(regs[i].opType)), Bytes32Hex(Utf8(regs[i].opCommand))), regs[i].handler))
  }

  ghost predicate HasCommand<H>(regs: seq<Named<H>>, opType: string, opCommand: string) {
    exists i :: 0 <= i < |regs| && regs[i].opType == opType && regs[i].opCommand == opCommand
  }

  lemma NamedIn<H>(regs: seq<Named<H>>, opType: string, opCommand: string)
    requires ProperNames(regs) && ProperName(opType) && ProperName(opCommand)
    ensures (Bytes32Hex(Utf8(opType)), Bytes32Hex(Utf8(opCommand))) in Table(Registered(regs))
            <==> HasCommand(regs, opType, opCommand)
  {
    var table := Registered(regs);
    Absent(table, (Bytes32Hex(Utf8(opType)), Bytes32Hex(Utf8(opCommand))));
    forall i | 0 <= i < |regs|
      ensures table[i].0 == (Bytes32Hex(Utf8(opType)), Bytes32Hex(Utf8(opCommand))) <==>
              regs[i].opType == opType && regs[i].opCommand == opCommand
    {
      NamesDiffer(regs[i].opType, opType);
      NamesDiffer(regs[i].opCommand, opCommand);
    }
  }

  /** A request for a named pair gets the first handler registered under exactly those names;
      failing that the first wildcard of that op type; failing both, none. */
  lemma NamesReachTheirOwn<H>(regs: seq<Named<H>>, opType: string, opCommand: string)
    requires ProperNames(regs) && ProperName(opType) && ProperName(opCommand)
    ensures match Resolve(Table(Registered(regs)), Bytes32Hex(Utf8(opType)), Bytes32Hex(Utf8(opCommand)))
            case Some(h) => exists i :: 0 <= i < |regs| && regs[i].handler == h && regs[i].opType == opType
                                && regs[i].opCommand == (if HasCommand(regs, opType, opCommand) then opCommand else "")
                                && forall k :: 0 <= k < i ==> regs[k].opType != opType || regs[k].opCommand != regs[i].opCommand
            case None => !HasCommand(regs, opType, opCommand) && !HasCommand(regs, opType, "")
  {
    NamedIn(regs, opType, opCommand);
    NamedIn(regs, opType, "");
    var list := Registered(regs);
    var command := if HasCommand(regs, opType, opCommand) then opCommand else "";
    if HasCommand(regs, opType, command) {
      var f := FirstNamed(regs, opType, command);
      forall k | 0 <= k < f ensures list[k].0 != list[f].0 {
        NamesDiffer(regs[k].opType, opType);
        NamesDiffer(regs[k].opCommand, command);
      }
      FirstWins(list, f);
    }
  }

  lemma {:induction false} FirstNamed<H>(regs: seq<Named<H>>, opType: string, opCommand: string) returns (f: nat)
    requires HasCommand(regs, opType, opCommand)
    ensures f < |regs| && regs[f].opType == opType && regs[f].opCommand == opCommand
    ensures forall k :: 0 <= k < f ==> regs[k].opType != opType || regs[k].opCommand != opCommand
  {
    f := 0;
    while regs[f].opType != opType || regs[f].opCommand != opCommand
      invariant 0 <= f < |regs|
      invariant forall k :: 0 <= k < f ==> regs[k].opType != opType || regs[k].opCommand != opCommand
      decreases |regs| - f
    {
      f := f + 1;
    }
  }
}
