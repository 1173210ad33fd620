/** config/<chain>/extension.env: written by scripts/pre-build.sh, read by the two parsers of
    tools/pkg/validate/checks.go and by get_val. */
module ExtensionEnv {
  import opened Wrappers
  import opened Encoding
  import opened EnvText
  import opened Report

  const EXTENSION_ID: string := "EXTENSION_ID"
  const INSTRUCTION_SENDER: string := "INSTRUCTION_SENDER"

  predicate HexOfLength(s: string, n: nat) {
    |s| == n + 2 && s[0] == '0' && s[1] == 'x' && AllHex(s[2..])
  }

  /** ^0x[0-9a-fA-F]{40}$ and ^0x[0-9a-fA-F]{64}$ */
  predicate IsAddress(s: string) {
    HexOfLength(s, 40)
  }

  predicate IsExtensionId(s: string) {
    HexOfLength(s, 64)
  }

  /** unicode.IsSpace, which strings.TrimSpace removes at both ends. */
  predicate UnicodeSpace(c: char) {
    var n := c as int;
    || Space(c) || n == 0x85 || n == 0xA0 || n == 0x1680 || 0x2000 <= n <= 0x200a
    || n == 0x2028 || n == 0x2029 || n == 0x202f || n == 0x205f || n == 0x3000
  }

  function TrimLeft(s: string): string {
    if s != "" && UnicodeSpace(s[0]) then TrimLeft(s[1..]) else s
  }

  function TrimRight(s: string): string {
    if s != "" && UnicodeSpace(s[|s| - 1]) then TrimRight(s[..|s| - 1]) else s
  }

  function TrimSpace(s: string): string {
    TrimRight(TrimLeft(s))
  }

  function BeforeEquals(s: string): string {
    if s == "" || s[0] == '=' then "" else [s[0]] + BeforeEquals(s[1..])
  }

  /** The pair a line stands for: nothing for a blank, a comment, or a line without '='. */
  function Entry(line: string): Option<(string, string)> {
    var l := TrimSpace(line);
    if l == "" || l[0] == '#' || '=' !in l then None
    else Some((TrimSpace(BeforeEquals(l)), TrimSpace(AfterEquals(l))))
  }

  /** The specification both parsers meet: the last line that sets the key. */
  ghost function LastSet(lines: seq<string>, key: string): Option<string> {
    if lines == [] then None
    else
      match Entry(lines[|lines| - 1])
      case Some((k, v)) => if k == key then Some(v) else LastSet(lines[..|lines| - 1], key)
      case None => LastSet(lines[..|lines| - 1], key)
  }

  ghost function Value(content: Option<string>, key: string): string {
    if content.None? then "" else LastSet(Lines(content.value), key).GetOr("")
  }

  /** parseExtensionEnv: a missing file reads as two empty values. */
  method ParseExtensionEnv(content: Option<string>) returns (extensionId: string, instructionSender: string)
    ensures extensionId == Value(content, EXTENSION_ID) && instructionSender == Value(content, INSTRUCTION_SENDER)
  {
    extensionId, instructionSender := "", "";
    if content.None? { return; }
    var lines := Lines(content.value);
    for i := 0 to |lines|
      invariant extensionId == LastSet(lines[..i], EXTENSION_ID).GetOr("")
      invariant instructionSender == LastSet(lines[..i], INSTRUCTION_SENDER).GetOr("")
    {
      assert lines[..i + 1][..i] == lines[..i];
      var entry := Entry(lines[i]);
      if entry.None? { continue; }
      var (key, val) := entry.value;
      if key == EXTENSION_ID {
        extensionId := val;
      } else if key == INSTRUCTION_SENDER {
        instructionSender := val;
      }
      assert EXTENSION_ID[0] != INSTRUCTION_SENDER[0];
    }
    assert lines[..|lines|] == lines;
  }

  /** CheckExtensionEnvFormat: the statuses of its results, INSTRUCTION_SENDER first; one SKIP when
      there is no file. Both keys pass exactly when the values parseExtensionEnv returns match. */
  method CheckExtensionEnvFormat(content: Option<string>) returns (results: seq<Status>)
    ensures content.None? ==> results == [SKIP]
    ensures content.Some? ==>
              && |results| == 2
              && (results[0] == if IsAddress(Value(content, INSTRUCTION_SENDER)) then PASS else FAIL)
              && (results[1] == if IsExtensionId(Value(content, EXTENSION_ID)) then PASS else FAIL)
    ensures results == [PASS, PASS] <==>
            IsAddress(Value(content, INSTRUCTION_SENDER)) && IsExtensionId(Value(content, EXTENSION_ID))
  {
    if content.None? { return [SKIP]; }
    var lines := Lines(content.value);
    var vars: map<string, string> := map[];
    for i := 0 to |lines|
      invariant forall key :: key in vars <==> LastSet(lines[..i], key).Some?
      invariant forall key :: key in vars ==> LastSet(lines[..i], key) == Some(vars[key])
    {
      assert lines[..i + 1][..i] == lines[..i];
      var entry := Entry(lines[i]);
      if entry.Some? {
        vars := vars[entry.value.0 := entry.value.1];
      }
    }
    assert lines[..|lines|] == lines;
    results := [];
    if INSTRUCTION_SENDER !in vars {
      results := results + [FAIL];
    } else if !IsAddress(vars[INSTRUCTION_SENDER]) {
      results := results + [FAIL];
    } else {
      results := results + [PASS];
    }
    if EXTENSION_ID !in vars {
      results := results + [FAIL];
    } else if !IsExtensionId(vars[EXTENSION_ID]) {
      results := results + [FAIL];
    } else {
      results := results + [PASS];
    }
  }

  // --- what pre-build.sh prints ---------------------------------------------------------------

  /** The banner above the two settings: one comment line, whatever it says. */
  predicate IsComment(line: string) {
    OneLine(line) && line != "" && line[0] == '#'
  }

  function Printed(banner: string, extensionId: string, instructionSender: string): string {
    Glue(banner, Glue(Binding(EXTENSION_ID, extensionId), Glue(Binding(INSTRUCTION_SENDER, instructionSender), "")))
  }

  predicate NoSpace(s: string) {
    forall i :: 0 <= i < |s| ==> !UnicodeSpace(s[i])
  }

  lemma TrimNothing(s: string)
    requires NoSpace(s)
    ensures TrimSpace(s) == s
  {}

  lemma {:induction false} BeforeKey(key: string, value: string)
    requires PlainKey(key)
    ensures BeforeEquals(Binding(key, value)) == key
  {
    var b := Binding(key, value);
    if key == "" {
      assert b == "=" + value;
    } else {
      BeforeKey(key[1..], value);
      assert b[1..] == Binding(key[1..], value);
      assert b[0] == key[0] && KeyChar(key[0]);
    }
  }

  lemma EntryOfBinding(key: string, value: string)
    requires key != "" && PlainKey(key) && NoSpace(value)
    ensures Entry(Binding(key, value)) == Some((key, value))
  {
    var b := Binding(key, value);
    forall i | 0 <= i < |b| ensures !UnicodeSpace(b[i]) {
      if i < |key| { assert KeyChar(key[i]) && b[i] == key[i]; } else if i > |key| { assert b[i] == value[i - |key| - 1]; }
    }
    assert b[0] == key[0] && KeyChar(key[0]);
    assert b[|key|] == '=';
    TrimNothing(b);
    BeforeKey(key, value);
    AfterKey(key, value);
    forall i | 0 <= i < |key| ensures !UnicodeSpace(key[i]) { assert KeyChar(key[i]); }
    TrimNothing(key);
    TrimNothing(value);
  }

  lemma HexIsPlain(s: string, n: nat)
    requires HexOfLength(s, n)
    ensures NoSpace(s) && PlainValue(s)
  {
    forall i | 0 <= i < |s| ensures !UnicodeSpace(s[i]) && !Space(s[i]) && s[i] != '"' && s[i] != '&' && s[i] != '\\' && s[i] != '|' {
      if i >= 2 { assert s[i] == s[2..][i - 2]; }
    }
  }

  lemma PrintedLines(banner: string, extensionId: string, instructionSender: string)
    requires IsComment(banner) && IsExtensionId(extensionId) && IsAddress(instructionSender)
    ensures Lines(Printed(banner, extensionId, instructionSender)) ==
            [banner, Binding(EXTENSION_ID, extensionId), Binding(INSTRUCTION_SENDER, instructionSender)]
  {
    HexIsPlain(extensionId, 64);
    HexIsPlain(instructionSender, 40);
    BindingIsALine(EXTENSION_ID, extensionId);
    BindingIsALine(INSTRUCTION_SENDER, instructionSender);
    hide Glue, Binding, Lines;
    assert Lines("") == [] by { EmptyHasNoLines(); }
    LinesCons(Binding(INSTRUCTION_SENDER, instructionSender), "");
    LinesCons(Binding(EXTENSION_ID, extensionId), Glue(Binding(INSTRUCTION_SENDER, instructionSender), ""));
    LinesCons(banner, Glue(Binding(EXTENSION_ID, extensionId), Glue(Binding(INSTRUCTION_SENDER, instructionSender), "")));
  }

  lemma EmptyHasNoLines()
    ensures Lines("") == []
  {}

  /** Print then parse: what pre-build validated and wrote is what the Go parsers and get_val read. */
  lemma PrintedParses(banner: string, extensionId: string, instructionSender: string)
    requires IsComment(banner) && IsExtensionId(extensionId) && IsAddress(instructionSender)
    ensures var t := Printed(banner, extensionId, instructionSender);
            && Value(Some(t), EXTENSION_ID) == extensionId == GetVal(t, EXTENSION_ID)
            && Value(Some(t), INSTRUCTION_SENDER) == instructionSender == GetVal(t, INSTRUCTION_SENDER)
  {
    hide Entry, Clean, Binds, Binding, Glue, Lines, LastSet, First, Printed, HexOfLength;
    PrintedLines(banner, extensionId, instructionSender);
    HexIsPlain(extensionId, 64);
    HexIsPlain(instructionSender, 40);
    EntryOfBinding(EXTENSION_ID, extensionId);
    EntryOfBinding(INSTRUCTION_SENDER, instructionSender);
    CleanBinding(EXTENSION_ID, extensionId);
    CleanBinding(INSTRUCTION_SENDER, instructionSender);
    BindingIsALine(EXTENSION_ID, extensionId);
    BindingIsALine(INSTRUCTION_SENDER, instructionSender);
    CommentIsNoEntry(banner);
    assert EXTENSION_ID[0] != INSTRUCTION_SENDER[0];
    ThreeLines(banner, EXTENSION_ID, extensionId, INSTRUCTION_SENDER, instructionSender);
  }

  lemma ThreeLines(c: string, j: string, v: string, k: string, w: string)
    requires Entry(c).None? && !Binds(c, j) && !Binds(c, k) && j != k && PlainKey(j) && PlainKey(k)
    requires Entry(Binding(j, v)) == Some((j, v)) && Entry(Binding(k, w)) == Some((k, w))
    requires Binds(Binding(j, v), j) && Binds(Binding(k, w), k)
    ensures var lines := [c, Binding(j, v), Binding(k, w)];
            && LastSet(lines, j) == Some(v) && LastSet(lines, k) == Some(w)
            && First(lines, j) == Some(Binding(j, v)) && First(lines, k) == Some(Binding(k, w))
  {
    var a, b := Binding(j, v), Binding(k, w);
    if Binds(a, k) { KeysDisjoint(a, j, k); }
    hide Entry, Binding, Binds;
    var lines := [c, a, b];
    assert lines[..2] == [c, a] && [c, a][..1] == [c] && [c][..0] == [];
    assert lines[1..] == [a, b] && [a, b][1..] == [b];
    assert LastSet([c, a], j) == Some(v);
    assert First([b], k) == Some(b);
  }

  lemma CommentIsNoEntry(line: string)
    requires IsComment(line)
    ensures Entry(line).None? && !Binds(line, EXTENSION_ID) && !Binds(line, INSTRUCTION_SENDER)
  {
    TrimKeepsHead(line);
    assert Binding(EXTENSION_ID, "")[0] == 'E' && Binding(INSTRUCTION_SENDER, "")[0] == 'I';
  }

  lemma {:induction false} TrimKeepsHead(line: string)
    requires line != "" && !UnicodeSpace(line[0])
    ensures TrimSpace(line) != "" && TrimSpace(line)[0] == line[0]
    decreases |line|
  {
    if UnicodeSpace(line[|line| - 1]) { TrimKeepsHead(line[..|line| - 1]); }
  }

  // --- lines a person wrote -----------------------------------------------------------------------------

  /** The white space of unicode.IsSpace, code point by code point. */
  lemma SpacesListed(c: char)
    ensures UnicodeSpace(c) <==> c as int in {
              9, 10, 11, 12, 13, 32, 0x85, 0xA0, 0x1680, 0x2000, 0x2001, 0x2002, 0x2003, 0x2004, 0x2005, 0x2006,
              0x2007, 0x2008, 0x2009, 0x200A, 0x2028, 0x2029, 0x202F, 0x205F, 0x3000}
  {}

  predicate AllSpace(s: string) {
    forall i :: 0 <= i < |s| ==> UnicodeSpace(s[i])
  }

  /** Neither begins nor ends with whitespace. */
  predicate Trimmed(s: string) {
    s == "" || (!UnicodeSpace(s[0]) && !UnicodeSpace(s[|s| - 1]))
  }

  lemma {:induction false} TrimsLeft(a: string, s: string)
    requires AllSpace(a) && (s == "" || !UnicodeSpace(s[0]))
    ensures TrimLeft(a + s) == s
  {
    if a == "" {
      assert a + s == s;
    } else {
      assert (a + s)[1..] == a[1..] + s;
      TrimsLeft(a[1..], s);
    }
  }

  lemma {:induction false} TrimsRight(s: string, d: string)
    requires AllSpace(d) && (s == "" || !UnicodeSpace(s[|s| - 1]))
    ensures TrimRight(s + d) == s
    decreases |d|
  {
    if d == "" {
      assert s + d == s;
    } else {
      var n := |d| - 1;
      assert (s + d)[..|s + d| - 1] == s + d[..n] && (s + d)[|s + d| - 1] == d[n];
      TrimsRight(s, d[..n]);
    }
  }

  lemma Trims(a: string, s: string, d: string)
    requires AllSpace(a) && AllSpace(d) && Trimmed(s)
    ensures TrimSpace(a + s + d) == s
  {
    if s == "" {
      assert a + s + d == a + d + "" && AllSpace(a + d);
      TrimsLeft(a + d, "");
    } else {
      assert a + s + d == a + (s + d);
      TrimsLeft(a, s + d);
      TrimsRight(s, d);
    }
  }

  lemma {:induction false} SplitsAtEquals(k: string, v: string)
    requires '=' !in k
    ensures BeforeEquals(k + "=" + v) == k && AfterEquals(k + "=" + v) == v
  {
    var l := k + "=" + v;
    assert l[|k|] == '=';
    if k == "" {
      assert l == "=" + v;
    } else {
      assert l[1..] == k[1..] + "=" + v && l[0] == k[0];
      SplitsAtEquals(k[1..], v);
    }
  }

  /** A setting reads as its key and value however it is spaced: before the key, around the first
      '=', behind the value. Further '=' belong to the value. */
  lemma SpacedSetting(a: string, key: string, b: string, c: string, value: string, d: string)
    requires AllSpace(a) && AllSpace(b) && AllSpace(c) && AllSpace(d) && (value == "" ==> c == "")
    requires key != "" && key[0] != '#' && '=' !in key && Trimmed(key) && Trimmed(value)
    ensures Entry(a + (key + b + "=" + (c + value)) + d) == Some((key, value))
  {
    hide TrimSpace, BeforeEquals, AfterEquals;
    var l := key + b + "=" + (c + value);
    assert '=' !in key + b && !UnicodeSpace('=');
    assert l[0] == key[0] && l[|key + b|] == '=';
    assert l[|l| - 1] == if value != "" then value[|value| - 1] else '=';
    Trims(a, l, d);
    SplitsAtEquals(key + b, c + value);
    assert "" + key + b == key + b && c + value + "" == c + value;
    Trims("", key, b);
    Trims(c, value, "");
  }

  /** Blank lines, comments however indented, and lines without '=' set nothing. */
  lemma NoSetting(line: string)
    requires AllSpace(line) || '=' !in line || exists n :: 0 <= n < |line| && AllSpace(line[..n]) && line[n] == '#'
    ensures Entry(line).None?
  {
    if AllSpace(line) {
      assert line + "" + "" == line;
      Trims(line, "", "");
    } else if '=' !in line {
      TrimIsPart(line);
    } else {
      var n :| 0 <= n < |line| && AllSpace(line[..n]) && line[n] == '#';
      assert line == line[..n] + line[n..] && !UnicodeSpace('#');
      TrimsLeft(line[..n], line[n..]);
      RightKeepsHead(line[n..]);
    }
  }

  lemma {:induction false} RightKeepsHead(s: string)
    requires s != "" && !UnicodeSpace(s[0])
    ensures TrimRight(s) != "" && TrimRight(s)[0] == s[0]
  {
    if UnicodeSpace(s[|s| - 1]) { RightKeepsHead(s[..|s| - 1]); }
  }

  lemma TrimIsPart(s: string)
    ensures forall c :: c in TrimSpace(s) ==> c in s
  {
    LeftIsPart(s);
    RightIsPart(TrimLeft(s));
  }

  lemma {:induction false} LeftIsPart(s: string)
    ensures forall c :: c in TrimLeft(s) ==> c in s
  {
    if s != "" { LeftIsPart(s[1..]); }
  }

  lemma {:induction false} RightIsPart(s: string)
    ensures forall c :: c in TrimRight(s) ==> c in s
  {
    if s != "" { RightIsPart(s[..|s| - 1]); }
  }

  /** Where a key is set twice the readers part: the Go parsers take the last setting, get_val the
      first. */
  lemma DuplicatesDisagree(key: string, v: string, w: string)
    requires key != "" && PlainKey(key) && NoSpace(v) && NoSpace(w) && PlainValue(v) && PlainValue(w)
    ensures var t := key + "=" + v + "\n" + (key + "=" + w + "\n" + "");
            Value(Some(t), key) == w && GetVal(t, key) == v
  {
    assert Glue(Binding(key, v), Glue(Binding(key, w), "")) == key + "=" + v + "\n" + (key + "=" + w + "\n" + "");
    hide Glue, Binding;
    BothSettings(key, v, w);
  }

  lemma BothSettings(key: string, v: string, w: string)
    requires key != "" && PlainKey(key) && NoSpace(v) && NoSpace(w) && PlainValue(v) && PlainValue(w)
    ensures var t := Glue(Binding(key, v), Glue(Binding(key, w), "")); Value(Some(t), key) == w && GetVal(t, key) == v
  {
    hide Entry, Binding, Glue, Clean, Lines, Binds;
    var a, b := Binding(key, v), Binding(key, w);
    BindingIsALine(key, v);
    BindingIsALine(key, w);
    EntryOfBinding(key, v);
    EntryOfBinding(key, w);
    CleanBinding(key, v);
    EmptyHasNoLines();
    LinesCons(b, "");
    LinesCons(a, Glue(b, ""));
    assert Lines(Glue(a, Glue(b, ""))) == [a, b] && [a, b][..1] == [a];
  }
}
