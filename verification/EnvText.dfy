/** Line files of KEY=value: get_val, ensure_nl and set_kv in scripts/use-chain.sh. Keys are taken
    free of regex characters and written values free of sed's; stored text is arbitrary. */
module EnvText {
  import opened Wrappers

  // --- lines ---------------------------------------------------------------------------------

  predicate OneLine(line: string) {
    forall i :: 0 <= i < |line| ==> line[i] != '\n'
  }

  /** Where the first line ends. */
  function LineEnd(t: string): (n: nat)
    ensures n <= |t| && (forall i :: 0 <= i < n ==> t[i] != '\n') && (n < |t| ==> t[n] == '\n')
  {
    if t == "" || t[0] == '\n' then 0 else LineEnd(t[1..]) + 1
  }

  /** Does the first line have its newline? */
  predicate Closed(t: string) {
    LineEnd(t) < |t|
  }

  function Head(t: string): (line: string)
    ensures OneLine(line) && |line| == LineEnd(t)
  {
    t[..LineEnd(t)]
  }

  /** A line, its newline, and more text. */
  function Glue(line: string, rest: string): (t: string)
    ensures t != ""
  {
    line + "\n" + rest
  }

  function Rest(t: string): (rest: string)
    requires Closed(t)
    ensures t == Glue(Head(t), rest) && |rest| < |t|
  {
    t[LineEnd(t) + 1..]
  }

  /** A last line without its newline counts; nothing after a final newline does not. */
  function Lines(t: string): seq<string> {
    if t == "" then [] else [Head(t)] + if Closed(t) then Lines(Rest(t)) else []
  }

  lemma ClosedParts(line: string, rest: string)
    requires OneLine(line)
    ensures var t := Glue(line, rest); Closed(t) && Head(t) == line && Rest(t) == rest
  {
    var t := line + "\n" + rest;
    var n := LineEnd(t);
    assert t[|line|] == '\n' && forall i :: 0 <= i < |line| ==> t[i] == line[i];
    assert n == |line|;
  }

  lemma OpenParts(line: string)
    requires OneLine(line)
    ensures !Closed(line) && Head(line) == line
  {}

  lemma OpenLines(line: string)
    requires OneLine(line) && line != ""
    ensures Lines(line) == [line]
  {
    OpenParts(line);
  }

  lemma LinesCons(line: string, rest: string)
    requires OneLine(line)
    ensures Lines(Glue(line, rest)) == [line] + Lines(rest)
  {
    ClosedParts(line, rest);
    hide Closed, Head, Rest, Glue;
  }

  lemma GlueAppend(line: string, rest: string, u: string)
    ensures Glue(line, rest) + u == Glue(line, rest + u)
  {}

  /** Complete text: empty, or ending in a newline. */
  predicate Terminated(t: string) {
    t == "" || t[|t| - 1] == '\n'
  }

  lemma RestTerminated(t: string)
    requires t != ""
    ensures Terminated(t) ==> Closed(t)
    ensures Closed(t) ==> (Terminated(t) <==> Terminated(Rest(t)))
  {}

  lemma {:induction false} LinesAppend(t: string, u: string)
    requires Terminated(t)
    ensures Lines(t + u) == Lines(t) + Lines(u)
    decreases |t|
  {
    if t == "" {
      assert t + u == u;
    } else {
      RestTerminated(t);
      LinesAppend(Rest(t), u);
      AppendStep(t, Head(t), Rest(t), u);
    }
  }

  lemma AppendStep(t: string, line: string, rest: string, u: string)
    requires OneLine(line) && t == Glue(line, rest) && Lines(rest + u) == Lines(rest) + Lines(u)
    ensures Lines(t + u) == Lines(t) + Lines(u)
  {
    hide Closed, Head, Rest, Glue, Lines, OneLine;
    LinesCons(line, rest);
    LinesCons(line, rest + u);
    GlueAppend(line, rest, u);
    assert [line] + Lines(rest) + Lines(u) == [line] + (Lines(rest) + Lines(u));
  }

  lemma {:induction false} LinesOpen(t: string)
    requires !Terminated(t)
    ensures Lines(t + "\n") == Lines(t)
    decreases |t|
  {
    RestTerminated(t);
    if Closed(t) {
      hide Closed, Head, Rest, LineEnd, Terminated, Glue;
      LinesOpen(Rest(t));
      LinesCons(Head(t), Rest(t));
      LinesCons(Head(t), Rest(t) + "\n");
      GlueAppend(Head(t), Rest(t), "\n");
    } else {
      OpenParts(t);
      LinesCons(t, "");
      assert t + "\n" == Glue(t, "");
    }
  }

  // --- get_val ---------------------------------------------------------------------------------------

  predicate Space(c: char) {
    c == ' ' || 9 as char <= c <= 13 as char
  }

  /** grep "^KEY=" */
  predicate Binds(line: string, key: string) {
    key + "=" <= line
  }

  /** sed s/^[^=]*=// */
  function AfterEquals(line: string): string {
    if '=' !in line then line else if line[0] == '=' then line[1..] else AfterEquals(line[1..])
  }

  /** Whitespace, then '#'. */
  predicate CommentStarts(v: string) {
    |v| >= 2 && Space(v[0]) && (v[1] == '#' || CommentStarts(v[1..]))
  }

  function StripComment(v: string): string {
    if v == "" || CommentStarts(v) then "" else [v[0]] + StripComment(v[1..])
  }

  function StripTail(v: string): string {
    if v == "" || !Space(v[|v| - 1]) then v else StripTail(v[..|v| - 1])
  }

  function Unquote(v: string): string {
    if v == "" then "" else (if v[0] == '"' then "" else [v[0]]) + Unquote(v[1..])
  }

  function Clean(line: string): string {
    Unquote(StripTail(StripComment(AfterEquals(line))))
  }

  /** The first line that binds `key`. */
  function First(lines: seq<string>, key: string): Option<string> {
    if lines == [] then None else if Binds(lines[0], key) then Some(lines[0]) else First(lines[1..], key)
  }

  function GetVal(t: string, key: string): string {
    match First(Lines(t), key)
    case None => ""
    case Some(line) => Clean(line)
  }

  // --- set_kv --------------------------------------------------------------------------------------------

  predicate Bound(t: string, key: string) {
    First(Lines(t), key).Some?
  }

  function Binding(key: string, value: string): string {
    key + "=" + value
  }

  /** sed "s|^KEY=.*|KEY=value|": every binding line is replaced, line ends stay as they are. */
  function Rewrite(t: string, key: string, value: string): string
    decreases |t|
  {
    if t == "" then ""
    else if Closed(t) then Glue(NewLine(Head(t), key, value), Rewrite(Rest(t), key, value))
    else NewLine(t, key, value)
  }

  function NewLine(line: string, key: string, value: string): string {
    if Binds(line, key) then Binding(key, value) else line
  }

  function EnsureNl(t: string): (r: string)
    ensures Terminated(r)
  {
    if Terminated(t) then t else t + "\n"
  }

  function SetKv(t: string, key: string, value: string): string {
    if Bound(t, key) then Rewrite(t, key, value) else EnsureNl(t) + Glue(Binding(key, value), "")
  }

  function SetAll(t: string, kvs: seq<(string, string)>): string {
    if kvs == [] then t else SetKv(SetAll(t, kvs[..|kvs| - 1]), kvs[|kvs| - 1].0, kvs[|kvs| - 1].1)
  }

  predicate KeyChar(c: char) {
    'A' <= c <= 'Z' || 'a' <= c <= 'z' || '0' <= c <= '9' || c == '_'
  }

  predicate PlainKey(key: string) {
    forall i :: 0 <= i < |key| ==> KeyChar(key[i])
  }

  /** No whitespace, no quote, and none of sed's replacement characters. */
  predicate PlainValue(v: string) {
    forall i :: 0 <= i < |v| ==> !Space(v[i]) && v[i] != '"' && v[i] != '&' && v[i] != '\\' && v[i] != '|'
  }

  // --- what set_kv does to the lines -----------------------------------------------------------------------

  function Rewritten(lines: seq<string>, key: string, value: string): (r: seq<string>)
    ensures |r| == |lines|
  {
    seq(|lines|, i requires 0 <= i < |lines| => NewLine(lines[i], key, value))
  }

  lemma BindingIsALine(key: string, value: string)
    requires PlainKey(key) && PlainValue(value)
    ensures OneLine(Binding(key, value)) && Binding(key, value) != "" && Binds(Binding(key, value), key)
  {
    var b := Binding(key, value);
    forall i | 0 <= i < |b| ensures b[i] != '\n' {
      if i < |key| { assert KeyChar(key[i]); } else if i > |key| { assert !Space(value[i - |key| - 1]); }
    }
  }

  lemma RewrittenCons(line: string, lines: seq<string>, key: string, value: string)
    ensures Rewritten([line] + lines, key, value) == [NewLine(line, key, value)] + Rewritten(lines, key, value)
  {
    hide NewLine;
  }

  lemma {:induction false} RewriteLines(t: string, key: string, value: string)
    requires PlainKey(key) && PlainValue(value)
    ensures Lines(Rewrite(t, key, value)) == Rewritten(Lines(t), key, value)
    decreases |t|
  {
    if t != "" {
      BindingIsALine(key, value);
      if Closed(t) {
        RewriteLines(Rest(t), key, value);
        hide Closed, Head, Rest, LineEnd, Binding, Binds, Glue, Lines;
        LinesCons(Head(t), Rest(t));
        LinesCons(NewLine(Head(t), key, value), Rewrite(Rest(t), key, value));
        RewrittenCons(Head(t), Lines(Rest(t)), key, value);
      } else {
        OpenLines(NewLine(t, key, value));
        OpenLines(t);
        RewrittenCons(t, [], key, value);
        assert [t] + [] == [t];
      }
    }
  }

  /** Comments, blanks and other keys keep their lines and their order, every line that bound the
      key is rewritten, and a key not bound is appended on a line of its own. */
  lemma SetKvLines(t: string, key: string, value: string)
    requires PlainKey(key) && PlainValue(value)
    ensures Lines(SetKv(t, key, value)) ==
            Rewritten(Lines(t), key, value) + if Bound(t, key) then [] else [Binding(key, value)]
  {
    if Bound(t, key) {
      RewriteLines(t, key, value);
    } else {
      BindingIsALine(key, value);
      LinesCons(Binding(key, value), "");
      LinesAppend(EnsureNl(t), Glue(Binding(key, value), ""));
      if !Terminated(t) { LinesOpen(t); }
      UnboundLines(Lines(t), key);
      assert Rewritten(Lines(t), key, value) == Lines(t);
    }
  }

  lemma {:induction false} UnboundLines(lines: seq<string>, key: string)
    requires First(lines, key).None?
    ensures forall i :: 0 <= i < |lines| ==> !Binds(lines[i], key)
  {
    if lines != [] { UnboundLines(lines[1..], key); }
  }

  // --- the store laws -----------------------------------------------------------------------------------------

  lemma KeysDisjoint(line: string, k: string, j: string)
    requires PlainKey(k) && PlainKey(j) && Binds(line, k) && Binds(line, j)
    ensures k == j
  {
    assert line[|k|] == '=' && line[|j|] == '=';
    assert |k| < |j| ==> j[|k|] == line[|k|];
    assert |j| < |k| ==> k[|j|] == line[|j|];
    assert !KeyChar('=');
    assert k == line[..|k|] && j == line[..|j|];
  }

  lemma {:induction false} PlainSurvives(v: string)
    requires PlainValue(v)
    ensures StripComment(v) == v && Unquote(v) == v && StripTail(v) == v
  {
    if v != "" { PlainSurvives(v[1..]); }
  }

  lemma {:induction false} AfterKey(key: string, value: string)
    requires PlainKey(key)
    ensures AfterEquals(Binding(key, value)) == value
  {
    var b := Binding(key, value);
    if key == "" {
      assert b == "=" + value;
    } else {
      AfterKey(key[1..], value);
      assert b[1..] == Binding(key[1..], value);
      assert b[0] == key[0] && KeyChar(key[0]);
      assert b[|key|] == '=';
    }
  }

  lemma CleanBinding(key: string, value: string)
    requires PlainKey(key) && PlainValue(value)
    ensures Clean(Binding(key, value)) == value
  {
    AfterKey(key, value);
    PlainSurvives(value);
  }

  lemma {:induction false} FirstRewritten(lines: seq<string>, key: string, value: string, other: string)
    requires PlainKey(key) && PlainKey(other) && PlainValue(value)
    ensures First(Rewritten(lines, key, value), other) ==
            if other == key && First(lines, key).Some? then Some(Binding(key, value)) else First(lines, other)
  {
    if lines != [] {
      BindingIsALine(key, value);
      FirstRewritten(lines[1..], key, value, other);
      assert Rewritten(lines, key, value)[1..] == Rewritten(lines[1..], key, value);
      if Binds(lines[0], key) && Binds(lines[0], other) { KeysDisjoint(lines[0], key, other); }
      if Binds(lines[0], key) && Binds(Binding(key, value), other) { KeysDisjoint(Binding(key, value), key, other); }
    }
  }

  lemma {:induction false} FirstAppended(lines: seq<string>, line: string, key: string)
    ensures First(lines + [line], key) ==
            if First(lines, key).Some? then First(lines, key) else if Binds(line, key) then Some(line) else None
  {
    if lines == [] {
      assert First([line], key) == if Binds(line, key) then Some(line) else First([line][1..], key);
    } else {
      FirstAppended(lines[1..], line, key);
      assert (lines + [line])[1..] == lines[1..] + [line];
    }
  }

  /** Put then get, and the frame: for any text at all, with or without a final newline, a written
      key reads back and every other key reads as before. */
  lemma PutGet(t: string, key: string, value: string, other: string)
    requires PlainKey(key) && PlainKey(other) && PlainValue(value)
    ensures Bound(SetKv(t, key, value), key)
    ensures GetVal(SetKv(t, key, value), other) == if other == key then value else GetVal(t, other)
  {
    SetKvLines(t, key, value);
    FirstRewritten(Lines(t), key, value, other);
    FirstRewritten(Lines(t), key, value, key);
    CleanBinding(key, value);
    BindingIsALine(key, value);
    hide Binding, Binds, Clean, Rewritten;
    if !Bound(t, key) {
      var lines := Rewritten(Lines(t), key, value);
      assert Lines(SetKv(t, key, value)) == lines + [Binding(key, value)];
      FirstAppended(lines, Binding(key, value), other);
      FirstAppended(lines, Binding(key, value), key);
      if other != key && Binds(Binding(key, value), other) { KeysDisjoint(Binding(key, value), key, other); }
    } else {
      assert Lines(SetKv(t, key, value)) == Rewritten(Lines(t), key, value);
    }
  }

  /** No older binding of the key is left behind, however many there were. */
  lemma AllDuplicatesRewritten(t: string, key: string, value: string, line: string)
    requires PlainKey(key) && PlainValue(value)
    requires line in Lines(SetKv(t, key, value)) && Binds(line, key)
    ensures line == Binding(key, value)
  {
    SetKvLines(t, key, value);
  }

  lemma {:induction false} RewriteTwice(t: string, key: string, first: string, second: string)
    requires PlainKey(key) && PlainValue(first)
    ensures Rewrite(Rewrite(t, key, first), key, second) == Rewrite(t, key, second)
    decreases |t|
  {
    if t != "" {
      BindingIsALine(key, first);
      if Closed(t) {
        RewriteTwice(Rest(t), key, first, second);
        hide Closed, Head, Rest, LineEnd, Binding, Binds, Glue;
        ClosedParts(NewLine(Head(t), key, first), Rewrite(Rest(t), key, first));
      } else {
        OpenParts(NewLine(t, key, first));
      }
    }
  }

  lemma {:induction false} RewriteUnbound(t: string, u: string, key: string, value: string)
    requires Terminated(t) && !Bound(t, key)
    ensures Rewrite(t + u, key, value) == t + Rewrite(u, key, value)
    decreases |t|
  {
    if t == "" {
      assert t + u == u;
    } else {
      RestTerminated(t);
      hide Closed, Head, Rest, LineEnd, Terminated, Binds, Glue;
      LinesCons(Head(t), Rest(t));
      RewriteUnbound(Rest(t), u, key, value);
      ClosedParts(Head(t), Rest(t) + u);
      GlueAppend(Head(t), Rest(t), u);
      GlueAppend(Head(t), Rest(t), Rewrite(u, key, value));
    }
  }

  /** A second set_kv on a key leaves exactly the text that it alone would have left. */
  lemma SecondOverwritesFirst(t: string, key: string, first: string, second: string)
    requires PlainKey(key) && PlainValue(first) && PlainValue(second)
    ensures SetKv(SetKv(t, key, first), key, second) == SetKv(t, key, second)
  {
    PutGet(t, key, first, key);
    if Bound(t, key) {
      RewriteTwice(t, key, first, second);
    } else {
      var base := EnsureNl(t);
      if !Terminated(t) { LinesOpen(t); }
      BindingIsALine(key, first);
      hide Binding, Binds, Glue, Terminated, EnsureNl, Rest, Head, Closed;
      var line := Glue(Binding(key, first), "");
      RewriteUnbound(base, line, key, second);
      ClosedParts(Binding(key, first), "");
    }
  }

  // --- setting what is set ---------------------------------------------------------------------------

  /** Some line binds the key, and every line that does holds this value. */
  ghost predicate Holds(t: string, key: string, value: string) {
    Bound(t, key) && forall line :: line in Lines(t) && Binds(line, key) ==> line == Binding(key, value)
  }

  lemma {:induction false} RewriteSame(t: string, key: string, value: string)
    requires forall line :: line in Lines(t) && Binds(line, key) ==> line == Binding(key, value)
    ensures Rewrite(t, key, value) == t
    decreases |t|
  {
    if t != "" {
      assert Head(t) in Lines(t);
      if Closed(t) {
        RewriteSame(Rest(t), key, value);
      } else {
        assert Head(t) == t;
      }
    }
  }

  /** Setting a key to what all its lines hold already changes nothing, not even a missing newline. */
  lemma SettingWhatIsSet(t: string, key: string, value: string)
    requires Holds(t, key, value)
    ensures SetKv(t, key, value) == t
  {
    RewriteSame(t, key, value);
  }

  lemma SetHolds(t: string, key: string, value: string)
    requires PlainKey(key) && PlainValue(value)
    ensures Holds(SetKv(t, key, value), key, value)
  {
    PutGet(t, key, value, key);
    hide SetKv, Lines, Binds, Binding;
    forall line | line in Lines(SetKv(t, key, value)) && Binds(line, key) ensures line == Binding(key, value) {
      AllDuplicatesRewritten(t, key, value, line);
    }
  }

  /** What holds of a key goes on holding when another is set. */
  lemma HoldsThrough(t: string, key: string, value: string, other: string, content: string)
    requires PlainKey(key) && PlainKey(other) && key != other && PlainValue(value) && PlainValue(content)
    requires Holds(t, key, value)
    ensures Holds(SetKv(t, other, content), key, value)
  {
    SetKvLines(t, other, content);
    StaysBound(t, other, content, key);
    hide SetKv, Lines, Bound, Rewritten;
    var before, after := Lines(t), Lines(SetKv(t, other, content));
    forall line | line in after && Binds(line, key) ensures line == Binding(key, value) {
      if line !in before {
        NewLinesBind(t, other, content, line);
        KeysDisjoint(line, key, other);
      }
    }
  }

  /** A line that was not there before binds the key set. */
  lemma NewLinesBind(t: string, key: string, value: string, line: string)
    requires PlainKey(key) && PlainValue(value) && line in Lines(SetKv(t, key, value)) && line !in Lines(t)
    ensures Binds(line, key)
  {
    SetKvLines(t, key, value);
    hide SetKv, Lines;
  }

  lemma StaysBound(t: string, key: string, value: string, other: string)
    requires PlainKey(key) && PlainKey(other) && PlainValue(value) && Bound(t, other)
    ensures Bound(SetKv(t, key, value), other)
  {
    SetKvLines(t, key, value);
    FirstRewritten(Lines(t), key, value, other);
    if Bound(t, key) {
      assert Lines(SetKv(t, key, value)) == Rewritten(Lines(t), key, value);
    } else {
      FirstAppended(Rewritten(Lines(t), key, value), Binding(key, value), other);
    }
  }

  // --- what get_val makes of a line a person wrote ---------------------------------------------------

  /** The line decides what get_val reads: it binds the key, and none before it does. */
  ghost predicate Decides(t: string, key: string, line: string) {
    exists i :: 0 <= i < |Lines(t)| && Lines(t)[i] == line && key + "=" <= line
             && forall j :: 0 <= j < i ==> !(key + "=" <= Lines(t)[j])
  }

  /** Whitespace within a line: blanks, tabs, vertical tabs, form feeds, carriage returns. */
  predicate Blanks(s: string) {
    forall i :: 0 <= i < |s| ==> s[i] == ' ' || s[i] == '\t' || s[i] == 11 as char || s[i] == 12 as char || s[i] == '\r'
  }

  /** No double quote, and no '#' right behind whitespace. */
  predicate Uncommented(v: string) {
    && (forall i :: 0 <= i < |v| ==> v[i] != '"')
    && (forall i :: 0 <= i < |v| - 1 ==> v[i + 1] == '#' ==> !Space(v[i]))
  }

  predicate EndsBlank(v: string) {
    v != "" && Space(v[|v| - 1])
  }

  /** What may follow a value on its line: nothing, blanks, or blanks and a comment. */
  predicate Trailer(s: string) {
    Blanks(s) || exists n :: 1 <= n < |s| && Blanks(s[..n]) && s[n] == '#'
  }

  lemma {:induction false} FirstDecides(lines: seq<string>, key: string, i: nat)
    requires i < |lines| && key + "=" <= lines[i] && forall j :: 0 <= j < i ==> !(key + "=" <= lines[j])
    ensures First(lines, key) == Some(lines[i])
  {
    if i > 0 { FirstDecides(lines[1..], key, i - 1); }
  }

  /** A comment starts with whitespace that runs up to a '#'. */
  lemma {:induction false} CommentRuns(w: string) returns (k: nat)
    requires CommentStarts(w)
    ensures k + 1 < |w| && w[k + 1] == '#' && forall j :: 0 <= j <= k ==> Space(w[j])
  {
    if w[1] == '#' {
      k := 0;
    } else {
      k := CommentRuns(w[1..]);
      k := k + 1;
    }
  }

  lemma {:induction false} RunsComment(w: string, k: nat)
    requires k + 1 < |w| && w[k + 1] == '#' && forall j :: 0 <= j <= k ==> Space(w[j])
    ensures CommentStarts(w)
  {
    if k > 0 { RunsComment(w[1..], k - 1); }
  }

  /** Not ending in whitespace, and with no '#' right behind whitespace. */
  predicate Tight(u: string) {
    !EndsBlank(u) && forall i :: 0 <= i < |u| - 1 ==> u[i + 1] == '#' ==> !Space(u[i])
  }

  /** Inside a value no comment starts, whatever follows. */
  lemma NoCommentInside(u: string, s: string)
    requires u != "" && Tight(u)
    ensures !CommentStarts(u + s)
  {
    if CommentStarts(u + s) {
      var k := CommentRuns(u + s);
      RunReachesIn(u, s, k);
      assert false;
    }
  }

  lemma RunReachesIn(u: string, s: string, k: nat)
    requires u != "" && k + 1 < |u + s| && (u + s)[k + 1] == '#' && forall j :: 0 <= j <= k ==> Space((u + s)[j])
    ensures !Tight(u)
  {
    if k + 1 < |u| {
      assert u[k + 1] == '#' && Space((u + s)[k]) && u[k] == (u + s)[k];
    } else {
      assert Space((u + s)[|u| - 1]) && u[|u| - 1] == (u + s)[|u| - 1];
    }
  }

  lemma StripsTrailer(u: string, s: string)
    requires Tight(u) && Trailer(s)
    ensures StripTail(StripComment(u + s)) == u
  {
    StripsComment(u, s);
    assert Blanks("") && u + "" == u;
    StripsBlanks(u, if Blanks(s) then s else "");
  }

  lemma {:induction false} StripsComment(u: string, s: string)
    requires Tight(u) && Trailer(s)
    ensures StripComment(u + s) == if Blanks(s) then u + s else u
  {
    hide Trailer, CommentStarts, Blanks;
    if u != "" {
      NoCommentInside(u, s);
      assert (u + s)[1..] == u[1..] + s && Tight(u[1..]);
      StripsComment(u[1..], s);
    } else {
      assert u + s == s;
      TrailerStripped(s);
    }
  }

  lemma TrailerStripped(s: string)
    requires Trailer(s)
    ensures StripComment(s) == if Blanks(s) then s else ""
  {
    if Blanks(s) {
      BlanksStay(s);
    } else {
      var n :| 1 <= n < |s| && Blanks(s[..n]) && s[n] == '#';
      assert forall j :: 0 <= j <= n - 1 ==> s[j] == s[..n][j];
      RunsComment(s, n - 1);
    }
  }

  lemma {:induction false} BlanksStay(s: string)
    requires Blanks(s)
    ensures StripComment(s) == s
  {
    if s != "" {
      if CommentStarts(s) {
        var k := CommentRuns(s);
        assert false;
      }
      BlanksStay(s[1..]);
    }
  }

  lemma {:induction false} StripsBlanks(u: string, s: string)
    requires !EndsBlank(u) && Blanks(s)
    ensures StripTail(u + s) == u
  {
    if s == "" {
      assert u + s == u;
    } else {
      var n := |s| - 1;
      assert (u + s)[|u + s| - 1] == s[n] && (u + s)[..|u + s| - 1] == u + s[..n];
      StripsBlanks(u, s[..n]);
    }
  }

  lemma {:induction false} UnquotePlain(v: string)
    requires forall i :: 0 <= i < |v| ==> v[i] != '"'
    ensures Unquote(v) == v
  {
    if v != "" { UnquotePlain(v[1..]); }
  }

  lemma {:induction false} UnquoteJoined(a: string, b: string)
    ensures Unquote(a + b) == Unquote(a) + Unquote(b)
  {
    if a == "" {
      assert a + b == b;
    } else {
      assert (a + b)[1..] == a[1..] + b;
      UnquoteJoined(a[1..], b);
    }
  }

  lemma UnquoteQuoted(v: string)
    requires forall i :: 0 <= i < |v| ==> v[i] != '"'
    ensures Unquote("\"" + v + "\"") == v
  {
    UnquoteJoined("\"" + v, "\"");
    UnquoteJoined("\"", v);
    UnquotePlain(v);
    assert Unquote("\"") == "";
  }

  /** A bare value reads as itself: a '#' in it stays unless whitespace precedes it, and the blanks
      and the comment behind it are dropped. The first of several binding lines decides. */
  lemma ReadsBare(t: string, key: string, v: string, trailer: string)
    requires PlainKey(key) && Uncommented(v) && !EndsBlank(v) && Trailer(trailer)
    requires Decides(t, key, key + "=" + (v + trailer))
    ensures GetVal(t, key) == v
  {
    LineDecides(t, key, v + trailer);
    StripsTrailer(v, trailer);
    UnquotePlain(v);
  }

  /** A quoted value reads as what is between the quotes, blanks at its ends included. */
  lemma ReadsQuoted(t: string, key: string, v: string, trailer: string)
    requires PlainKey(key) && Uncommented(v) && Trailer(trailer)
    requires Decides(t, key, key + "=" + ("\"" + v + "\"" + trailer))
    ensures GetVal(t, key) == v
  {
    var u := "\"" + v + "\"";
    LineDecides(t, key, u + trailer);
    assert forall i :: 1 <= i < |u| - 1 ==> u[i] == v[i - 1];
    StripsTrailer(u, trailer);
    UnquoteQuoted(v);
  }

  lemma LineDecides(t: string, key: string, value: string)
    requires PlainKey(key) && Decides(t, key, key + "=" + value)
    ensures GetVal(t, key) == Unquote(StripTail(StripComment(value)))
  {
    var i :| 0 <= i < |Lines(t)| && Lines(t)[i] == key + "=" + value && forall j :: 0 <= j < i ==> !(key + "=" <= Lines(t)[j]);
    FirstDecides(Lines(t), key, i);
    AfterKey(key, value);
    hide First, Lines, AfterEquals, StripComment, StripTail, Unquote;
    assert Binding(key, value) == key + "=" + value;
  }

  /** Without a binding line the value is empty. */
  lemma ReadsNothing(t: string, key: string)
    requires forall i :: 0 <= i < |Lines(t)| ==> !(key + "=" <= Lines(t)[i])
    ensures GetVal(t, key) == ""
  {
    if First(Lines(t), key).Some? { FirstIsALine(Lines(t), key); }
  }

  lemma {:induction false} FirstIsALine(lines: seq<string>, key: string)
    requires First(lines, key).Some?
    ensures exists i :: 0 <= i < |lines| && key + "=" <= lines[i]
  {
    if !Binds(lines[0], key) {
      FirstIsALine(lines[1..], key);
      var i :| 0 <= i < |lines[1..]| && key + "=" <= lines[1..][i];
      assert key + "=" <= lines[i + 1];
    }
  }

  /** A key no line binds goes on a line of its own behind the text, which gets its missing newline
      first; an empty file stays without one. */
  lemma AppendedText(t: string, key: string, value: string)
    requires forall i :: 0 <= i < |Lines(t)| ==> !(key + "=" <= Lines(t)[i])
    ensures SetKv(t, key, value) ==
            (if t == "" || t[|t| - 1] == '\n' then t else t + "\n") + (key + "=" + value + "\n" + "")
  {
    if First(Lines(t), key).Some? { FirstIsALine(Lines(t), key); }
  }
}
