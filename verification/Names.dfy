/** Names as text: UTF-8 as TextEncoder, TextDecoder and Python's codec have it, and the bytes32 form
    of a name in typescript/src/base/encoding.ts and python/base/encoding.py. A char is a Unicode
    scalar value. */
module Names {
  import opened Wrappers
  import opened Encoding

  const REPLACEMENT: char := '\U{FFFD}'
  const BOM: char := '\U{FEFF}'

  // --- encoding ------------------------------------------------------------------------------

  function Utf8Char(c: char): (b: seq<Byte>)
    ensures 1 <= |b| <= 4
  {
    var n := c as int;
    if n < 0x80 then [n]
    else if n < 0x800 then [0xC0 + n / 0x40, 0x80 + n % 0x40]
    else if n < 0x10000 then [0xE0 + n / 0x1000, 0x80 + n / 0x40 % 0x40, 0x80 + n % 0x40]
    else [0xF0 + n / 0x40000, 0x80 + n / 0x1000 % 0x40, 0x80 + n / 0x40 % 0x40, 0x80 + n % 0x40]
  }

  function Utf8(s: string): seq<Byte> {
    if s == "" then [] else Utf8Char(s[0]) + Utf8(s[1..])
  }

  // --- decoding ------------------------------------------------------------------------------

  /** How many continuation bytes a lead byte announces, and the range of the first of them; no
      range for a byte that cannot lead. */
  function Lead(n: Byte): (nat, Byte, Byte) {
    if 0xC2 <= n <= 0xDF then (1, 0x80, 0xBF)
    else if n == 0xE0 then (2, 0xA0, 0xBF)
    else if n == 0xED then (2, 0x80, 0x9F)
    else if 0xE1 <= n <= 0xEF then (2, 0x80, 0xBF)
    else if n == 0xF0 then (3, 0x90, 0xBF)
    else if n == 0xF4 then (3, 0x80, 0x8F)
    else if 0xF1 <= n <= 0xF3 then (3, 0x80, 0xBF)
    else (0, 0, 0)
  }

  predicate Follows(b: seq<Byte>, i: nat) {
    i < |b| && 0x80 <= b[i] <= 0xBF
  }

  /** The first character and the bytes it takes. What cannot be completed becomes U+FFFD and takes
      the bytes that could have begun a character. */
  function FirstChar(b: seq<Byte>): (r: (char, nat))
    requires b != []
    ensures 1 <= r.1 <= |b|
  {
    var (more, low, high) := Lead(b[0]);
    if b[0] < 0x80 then (b[0] as char, 1)
    else if more == 0 || |b| < 2 || !(low <= b[1] <= high) then (REPLACEMENT, 1)
    else if more == 1 then (Joined(b[0] - 0xC0, b[1]) as char, 2)
    else if !Follows(b, 2) then (REPLACEMENT, 2)
    else if more == 2 then (Joined(Joined(b[0] - 0xE0, b[1]), b[2]) as char, 3)
    else if !Follows(b, 3) then (REPLACEMENT, 3)
    else (Joined(Joined(Joined(b[0] - 0xF0, b[1]), b[2]), b[3]) as char, 4)
  }

  /** Six more bits from a continuation byte. */
  function Joined(bits: int, b: Byte): int {
    bits * 0x40 + (b - 0x80)
  }

  /** bytes.decode("utf-8", errors="replace") */
  function Text(b: seq<Byte>): string {
    if b == [] then ""
    else
      var (c, n) := FirstChar(b);
      [c] + Text(b[n..])
  }

  /** new TextDecoder("utf-8").decode(b): drops a byte order mark. */
  function DecodedText(b: seq<Byte>): string {
    var s := Text(b);
    if s != "" && s[0] == BOM then s[1..] else s
  }

  // --- round trip ------------------------------------------------------------------------------

  lemma SixBits(n: nat)
    ensures n / 0x1000 == n / 0x40 / 0x40 && n / 0x40000 == n / 0x40 / 0x40 / 0x40
    ensures Joined(n / 0x40, 0x80 + n % 0x40) == n
  {}

  lemma CharRoundTrip(c: char, rest: seq<Byte>)
    ensures FirstChar(Utf8Char(c) + rest) == (c, |Utf8Char(c)|)
  {
    var n := c as int;
    SixBits(n);
    SixBits(n / 0x40);
    SixBits(n / 0x40 / 0x40);
    var b := Utf8Char(c) + rest;
    assert forall i :: 0 <= i < |Utf8Char(c)| ==> b[i] == Utf8Char(c)[i];
    if n >= 0x80 {
      LeadOf(c);
      hide Joined, Lead;
    }
  }

  /** The first two bytes of a character of two bytes or more fit together. */
  lemma LeadOf(c: char)
    requires c as int >= 0x80
    ensures var b := Utf8Char(c);
            |b| >= 2 && b[0] >= 0x80 && Lead(b[0]).0 == |b| - 1 && Lead(b[0]).1 <= b[1] <= Lead(b[0]).2
  {}

  /** Decoding undoes encoding, for every text. */
  lemma {:induction false} TextRoundTrip(s: string)
    ensures Text(Utf8(s)) == s
  {
    if s != "" {
      var b := Utf8Char(s[0]);
      CharRoundTrip(s[0], Utf8(s[1..]));
      assert (b + Utf8(s[1..]))[|b|..] == Utf8(s[1..]);
      TextRoundTrip(s[1..]);
    }
  }

  lemma Utf8Injective(s: string, t: string)
    requires Utf8(s) == Utf8(t)
    ensures s == t
  {
    TextRoundTrip(s);
    TextRoundTrip(t);
  }

  /** Only NUL itself encodes to a zero byte. */
  lemma {:induction false} TrailingNul(s: string)
    requires s != ""
    ensures Utf8(s) != [] && (Utf8(s)[|Utf8(s)| - 1] == 0 <==> s[|s| - 1] == '\0')
  {
    if |s| > 1 {
      TrailingNul(s[1..]);
    } else {
      assert Utf8(s) == Utf8Char(s[0]);
    }
  }

  lemma {:induction false} AsciiUtf8(s: string)
    requires forall i :: 0 <= i < |s| ==> s[i] as int < 128
    ensures |Utf8(s)| == |s| && forall i :: 0 <= i < |s| ==> Utf8(s)[i] == s[i] as int
  {
    if s != "" { AsciiUtf8(s[1..]); }
  }

  // --- bytes32 names ------------------------------------------------------------------------------

  /** A name that bytes32 can hold and give back. */
  predicate ProperName(s: string) {
    |Utf8(s)| <= 32 && (s == "" || s[|s| - 1] != '\0')
  }

  /** bytes32_hex_to_string in Python: bad hex reads as empty. */
  function NameOf(h: string): string {
    match PyDecode(h)
    case None => ""
    case Some(b) => Text(TrimNuls(b))
  }

  /** encoding.ts stringToBytes32Hex: None is the throw on more than 32 bytes. */
  method StringToBytes32Hex(s: string) returns (r: Option<string>)
    ensures r == if |Utf8(s)| <= 32 then Some(Bytes32Hex(Utf8(s))) else None
  {
    var encoded := Utf8(s);
    if |encoded| > 32 { return None; }
    var padded := new Byte[32](_ => 0);
    forall i | 0 <= i < |encoded| { padded[i] := encoded[i]; }
    assert padded[..] == Pad32(encoded);
    var h := BytesToHex(padded[..]);
    return Some(h);
  }

  /** encoding.ts bytes32HexToString: bad hex reads as empty. */
  method Bytes32HexToString(h: string) returns (s: string)
    ensures s == if Decode(h).Some? then DecodedText(TrimNuls(Decode(h).value)) else ""
    ensures forall name :: ProperName(name) && h == Bytes32Hex(Utf8(name)) ==> (s == name <==> name == "" || name[0] != BOM)
  {
    forall name | ProperName(name) && h == Bytes32Hex(Utf8(name))
      ensures Decode(h).Some? && TrimNuls(Decode(h).value) == Utf8(name)
    {
      NameBytes(name);
    }
    var d := HexToBytes(Some(h));
    if d.None? { return ""; }
    var end := |d.value|;
    while end > 0 && d.value[end - 1] == 0
      invariant 0 <= end <= |d.value|
      invariant forall i :: end <= i < |d.value| ==> d.value[i] == 0
    {
      end := end - 1;
    }
    TrimUnique(d.value, d.value[..end], TrimNuls(d.value));
    s := DecodedText(d.value[..end]);
    forall name | ProperName(name) && h == Bytes32Hex(Utf8(name))
      ensures s == name <==> name == "" || name[0] != BOM
    {
      TextRoundTrip(name);
    }
  }

  lemma NameBytes(s: string)
    requires ProperName(s)
    ensures var h := Bytes32Hex(Utf8(s)); Decode(h).Some? && TrimNuls(Decode(h).value) == Utf8(s)
  {
    assert NoTrailingNul(Utf8(s)) by {
      if s != "" { TrailingNul(s); }
    }
    hide Utf8, Bytes32Hex, Decode, TrimNuls;
    Bytes32RoundTrip(Utf8(s));
  }

  /** A proper name survives the way to bytes32 and back in Python, always; in TypeScript exactly
      if it does not begin with a byte order mark. */
  lemma NameRoundTrip(s: string)
    requires ProperName(s)
    ensures NameOf(Bytes32Hex(Utf8(s))) == s
    ensures DecodedText(TrimNuls(Decode(Bytes32Hex(Utf8(s))).value)) == s <==> s == "" || s[0] != BOM
  {
    NameBytes(s);
    TextRoundTrip(s);
    PythonExtendsTypeScript(Bytes32Hex(Utf8(s)));
  }

  /** Proper names are told apart by their bytes32 form. */
  lemma NamesDiffer(s: string, t: string)
    requires ProperName(s) && ProperName(t)
    ensures Bytes32Hex(Utf8(s)) == Bytes32Hex(Utf8(t)) <==> s == t
  {
    NameBytes(s);
    NameBytes(t);
    if Bytes32Hex(Utf8(s)) == Bytes32Hex(Utf8(t)) { Utf8Injective(s, t); }
  }
}
