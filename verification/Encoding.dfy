/** Hex and bytes32 codecs: typescript/src/base/encoding.ts and python/base/encoding.py. */
module Encoding {
  import opened Wrappers

  type Byte = b: nat | b < 256

  predicate IsHexDigit(c: char) {
    '0' <= c <= '9' || 'a' <= c <= 'f' || 'A' <= c <= 'F'
  }

  function DigitValue(c: char): (v: nat)
    requires IsHexDigit(c)
    ensures v < 16
  {
    if c <= '9' then c as int - '0' as int
    else if c <= 'F' then c as int - 'A' as int + 10
    else c as int - 'a' as int + 10
  }

  /** The digit both hex writers use for `v`. */
  function Digit(v: nat): (c: char)
    requires v < 16
    ensures IsHexDigit(c) && DigitValue(c) == v
  {
    if v < 10 then ('0' as int + v) as char else ('a' as int + v - 10) as char
  }

  function LowerChar(c: char): char {
    if 'A' <= c <= 'Z' then (c as int + 32) as char else c
  }

  /** ASCII lower-casing; hex identifiers hold nothing else that case changes. */
  function Lower(s: string): (r: string)
    ensures |r| == |s| && forall i :: 0 <= i < |s| ==> r[i] == LowerChar(s[i])
  {
    seq(|s|, i requires 0 <= i < |s| => LowerChar(s[i]))
  }

  predicate AllHex(s: string) {
    forall i :: 0 <= i < |s| ==> IsHexDigit(s[i])
  }

  /** The bytes that a run of digit pairs denotes. */
  function PairBytes(s: string): (b: seq<Byte>)
    requires |s| % 2 == 0 && AllHex(s)
    ensures |b| == |s| / 2
    ensures forall i :: 0 <= i < |b| ==> b[i] == DigitValue(s[2 * i]) * 16 + DigitValue(s[2 * i + 1])
  {
    seq(|s| / 2, i requires 0 <= i < |s| / 2 => DigitValue(s[2 * i]) * 16 + DigitValue(s[2 * i + 1]))
  }

  /** The digit pairs that denote a run of bytes. */
  function BytePairs(b: seq<Byte>): (s: string)
    ensures |s| == 2 * |b| && AllHex(s)
    ensures forall i :: 0 <= i < |s| ==> s[i] == (if i % 2 == 0 then Digit(b[i / 2] / 16) else Digit(b[i / 2] % 16))
  {
    seq(2 * |b|, i requires 0 <= i < 2 * |b| => if i % 2 == 0 then Digit(b[i / 2] / 16) else Digit(b[i / 2] % 16))
  }

  predicate HasPrefix(s: string) {
    |s| >= 2 && s[0] == '0' && (s[1] == 'x' || s[1] == 'X')
  }

  function StripPrefix(s: string): string {
    if HasPrefix(s) then s[2..] else s
  }

  /** What hexToBytes denotes: None is the thrown error. */
  function Decode(s: string): Option<seq<Byte>> {
    var d := StripPrefix(s);
    if |d| % 2 == 0 && AllHex(d) then Some(PairBytes(d)) else None
  }

  function Encode(b: seq<Byte>): string {
    "0x" + BytePairs(b)
  }

  lemma PairsRoundTrip(b: seq<Byte>)
    ensures PairBytes(BytePairs(b)) == b
  {
    forall i | 0 <= i < |b| ensures PairBytes(BytePairs(b))[i] == b[i] {
      PairRoundTrips(b, i);
    }
  }

  lemma PairRoundTrips(b: seq<Byte>, i: nat)
    requires i < |b|
    ensures PairBytes(BytePairs(b))[i] == b[i]
  {
    var s := BytePairs(b);
    hide AllHex;
    assert (2 * i) % 2 == 0 && (2 * i) / 2 == i && (2 * i + 1) % 2 == 1 && (2 * i + 1) / 2 == i;
    assert s[2 * i] == Digit(b[i] / 16) && s[2 * i + 1] == Digit(b[i] % 16);
  }

  lemma DigitOfValue(c: char)
    requires IsHexDigit(c)
    ensures Digit(DigitValue(c)) == LowerChar(c)
  {}

  /** decode(encode(b)) == b, for every byte string. */
  lemma DecodeEncode(b: seq<Byte>)
    ensures Decode(Encode(b)) == Some(b)
  {
    assert StripPrefix(Encode(b)) == BytePairs(b);
    PairsRoundTrip(b);
  }

  /** encode(decode(s)) is the lower-case 0x form of s. */
  lemma EncodeDecode(s: string)
    requires Decode(s).Some?
    ensures Encode(Decode(s).value) == "0x" + Lower(StripPrefix(s))
  {
    var d := StripPrefix(s);
    var b := PairBytes(d);
    forall i | 0 <= i < |d| ensures BytePairs(b)[i] == LowerChar(d[i]) {
      var k := i / 2;
      assert b[k] / 16 == DigitValue(d[2 * k]) && b[k] % 16 == DigitValue(d[2 * k + 1]);
      assert i == 2 * k || i == 2 * k + 1;
      DigitOfValue(d[i]);
    }
    assert BytePairs(b) == Lower(d);
  }

  lemma EncodeInjective(a: seq<Byte>, b: seq<Byte>)
    requires Encode(a) == Encode(b)
    ensures a == b
  {
    DecodeEncode(a);
    DecodeEncode(b);
  }

  // --- bytes32 ---------------------------------------------------------------

  function Zeros(n: nat): (z: seq<Byte>)
    ensures |z| == n && forall i :: 0 <= i < n ==> z[i] == 0
  {
    seq(n, _ => 0)
  }

  predicate NoTrailingNul(b: seq<Byte>) {
    b == [] || b[|b| - 1] != 0
  }

  predicate IsTrim(b: seq<Byte>, t: seq<Byte>) {
    && |t| <= |b| && t == b[..|t|] && NoTrailingNul(t)
    && forall i :: |t| <= i < |b| ==> b[i] == 0
  }

  /** `b` without its trailing zero bytes. */
  function TrimNuls(b: seq<Byte>): (t: seq<Byte>)
    ensures IsTrim(b, t)
  {
    if NoTrailingNul(b) then b else TrimNuls(b[..|b| - 1])
  }

  lemma TrimUnique(b: seq<Byte>, t: seq<Byte>, u: seq<Byte>)
    requires IsTrim(b, t) && IsTrim(b, u)
    ensures t == u
  {}

  function Pad32(b: seq<Byte>): (p: seq<Byte>)
    requires |b| <= 32
    ensures |p| == 32
  {
    b + Zeros(32 - |b|)
  }

  /** string_to_bytes32_hex on the UTF-8 bytes of a name that fits. */
  function Bytes32Hex(b: seq<Byte>): (h: string)
    requires |b| <= 32
    ensures |h| == 66 && HasPrefix(h)
  {
    Encode(Pad32(b))
  }

  /** Encoding then trimming is the identity on names without a trailing NUL. */
  lemma Bytes32RoundTrip(b: seq<Byte>)
    requires |b| <= 32 && NoTrailingNul(b)
    ensures Decode(Bytes32Hex(b)).Some? && TrimNuls(Decode(Bytes32Hex(b)).value) == b
  {
    var p := Pad32(b);
    DecodeEncode(p);
    TrimUnique(p, b, TrimNuls(p));
  }

  lemma PaddedTrim(a: seq<Byte>)
    requires |a| <= 32
    ensures TrimNuls(Pad32(a)) == TrimNuls(a)
  {
    var p, t := Pad32(a), TrimNuls(a);
    assert p[..|t|] == a[..|t|];
    assert IsTrim(p, t);
    TrimUnique(p, t, TrimNuls(p));
  }

  /** Two names collide as bytes32 exactly when they differ in trailing NULs only. */
  lemma Bytes32Collision(a: seq<Byte>, b: seq<Byte>)
    requires |a| <= 32 && |b| <= 32
    ensures Bytes32Hex(a) == Bytes32Hex(b) <==> TrimNuls(a) == TrimNuls(b)
  {
    var p, q := Pad32(a), Pad32(b);
    PaddedTrim(a);
    PaddedTrim(b);
    if Encode(p) == Encode(q) {
      EncodeInjective(p, q);
    }
    if TrimNuls(p) == TrimNuls(q) {
      forall i | 0 <= i < 32 ensures p[i] == q[i] {
        var t := TrimNuls(p);
        if i < |t| { assert t[i] == p[i] && t[i] == q[i]; }
      }
      assert p == q;
    }
  }

  /** Lower-casing changes nothing in what either encoder writes. */
  lemma EncodeIsLower(b: seq<Byte>)
    ensures Lower(Encode(b)) == Encode(b)
  {
    DecodeEncode(b);
    EncodeDecode(Encode(b));
    assert Encode(b) == "0x" + Lower(BytePairs(b)) by { assert StripPrefix(Encode(b)) == BytePairs(b); }
    assert Lower(BytePairs(b)) == BytePairs(b) by { assert Encode(b)[2..] == BytePairs(b); }
  }

  // --- the TypeScript routines, as loops --------------------------------------

  /** encoding.ts hexToBytes: fills `out` pair by pair; None stands for the throw. */
  method HexToBytes(h: Option<string>) returns (r: Option<seq<Byte>>)
    ensures h.None? ==> r == Some([])
    ensures h.Some? ==> r == Decode(h.value)
    ensures r.None? <==> h.Some? && (|StripPrefix(h.value)| % 2 != 0 || !AllHex(StripPrefix(h.value)))
  {
    if h.None? { return Some([]); }
    var s := h.value;
    if HasPrefix(s) { s := s[2..]; }
    if |s| == 0 { return Some([]); }
    if |s| % 2 != 0 { return None; }
    if !(forall i :: 0 <= i < |s| ==> IsHexDigit(s[i])) { return None; }
    var out := new Byte[|s| / 2];
    for i := 0 to out.Length
      invariant forall k :: 0 <= k < i ==> out[k] == PairBytes(s)[k]
    {
      out[i] := DigitValue(s[i * 2]) * 16 + DigitValue(s[i * 2 + 1]);
    }
    assert out[..] == PairBytes(s);
    return Some(out[..]);
  }

  /** encoding.ts bytesToHex: appends two digits per byte. */
  method BytesToHex(b: seq<Byte>) returns (s: string)
    ensures s == Encode(b)
  {
    s := "0x";
    for i := 0 to |b|
      invariant s == Encode(b[..i])
    {
      ghost var before := s;
      s := s + [Digit(b[i] / 16), Digit(b[i] % 16)];
      assert s == Encode(b[..i + 1]) by {
        var t := BytePairs(b[..i + 1]);
        assert t[2 * i] == Digit(b[i] / 16);
        assert t[2 * i + 1] == Digit(b[i] % 16) by { assert (2 * i + 1) % 2 == 1 && (2 * i + 1) / 2 == i; }
        assert t == BytePairs(b[..i]) + [Digit(b[i] / 16), Digit(b[i] % 16)];
      }
    }
    assert b[..|b|] == b;
  }

  // --- the Python decoder ------------------------------------------------------

  predicate IsSpace(c: char) {
    c == ' ' || 9 as char <= c <= 13 as char
  }

  /** bytes.fromhex: ASCII whitespace may stand between digit pairs. */
  function FromHex(s: string): Option<seq<Byte>> {
    if s == [] then Some([])
    else if IsSpace(s[0]) then FromHex(s[1..])
    else if |s| >= 2 && IsHexDigit(s[0]) && IsHexDigit(s[1]) then
      var rest := FromHex(s[2..]);
      if rest.None? then None else Some([DigitValue(s[0]) * 16 + DigitValue(s[1])] + rest.value)
    else None
  }

  /** encoding.py hex_to_bytes: removes "0x" and then also a "0X". */
  function PyDecode(s: string): Option<seq<Byte>> {
    var t := if "0x" <= s then s[2..] else s;
    FromHex(if "0X" <= t then t[2..] else t)
  }

  predicate Spaceless(s: string) {
    forall i :: 0 <= i < |s| ==> !IsSpace(s[i])
  }

  lemma {:induction false} FromHexSpaceless(s: string)
    requires Spaceless(s)
    ensures FromHex(s) == if |s| % 2 == 0 && AllHex(s) then Some(PairBytes(s)) else None
  {
    if |s| >= 2 && IsHexDigit(s[0]) && IsHexDigit(s[1]) {
      var rest := s[2..];
      FromHexSpaceless(rest);
      assert AllHex(s) <==> AllHex(rest) by {
        assert s == [s[0], s[1]] + rest;
      }
      if |s| % 2 == 0 && AllHex(s) {
        PairBytesCons(s);
      }
    }
  }

  /** Text that decodes, followed by any text, decodes to the two one after the other. */
  lemma {:induction false} FromHexJoined(s: string, t: string)
    requires FromHex(s).Some?
    ensures FromHex(s + t) == if FromHex(t).Some? then Some(FromHex(s).value + FromHex(t).value) else None
    decreases |s|
  {
    if s == "" {
      assert s + t == t && FromHex(s) == Some([]);
      assert FromHex(t).Some? ==> [] + FromHex(t).value == FromHex(t).value;
      hide FromHex;
    } else if IsSpace(s[0]) {
      SpaceStep(s[0], s[1..]);
      SpaceStep(s[0], s[1..] + t);
      assert s == [s[0]] + s[1..] && s + t == [s[0]] + (s[1..] + t);
      hide FromHex;
      FromHexJoined(s[1..], t);
    } else {
      assert |s| >= 2 && IsHexDigit(s[0]) && IsHexDigit(s[1]);
      PairStep(s[0], s[1], s[2..]);
      PairStep(s[0], s[1], s[2..] + t);
      assert s == [s[0], s[1]] + s[2..] && s + t == [s[0], s[1]] + (s[2..] + t);
      hide FromHex;
      FromHexJoined(s[2..], t);
      if FromHex(t).Some? {
        var head, x, y := [DigitValue(s[0]) * 16 + DigitValue(s[1])], FromHex(s[2..]).value, FromHex(t).value;
        assert head + (x + y) == head + x + y;
      }
    }
  }

  lemma SpaceStep(c: char, s: string)
    requires IsSpace(c)
    ensures FromHex([c] + s) == FromHex(s)
  {
    assert ([c] + s)[1..] == s;
  }

  lemma PairStep(c: char, d: char, s: string)
    requires IsHexDigit(c) && IsHexDigit(d)
    ensures FromHex([c, d] + s) ==
            if FromHex(s).Some? then Some([DigitValue(c) * 16 + DigitValue(d)] + FromHex(s).value) else None
  {
    assert ([c, d] + s)[2..] == s && ([c, d] + s)[0] == c && ([c, d] + s)[1] == d;
  }

  /** Whitespace between pairs, before and behind them is skipped; a pair it splits is an error. */
  lemma WhitespaceBetweenPairs(s: string, c: char, t: string)
    requires FromHex(s).Some? && (c == ' ' || c == '\t' || c == '\n' || c == 11 as char || c == 12 as char || c == '\r')
    ensures FromHex(s + ([c] + t)) == FromHex(s + t)
    ensures t != "" && IsHexDigit(t[0]) ==> FromHex(s + ([t[0]] + ([c] + t[1..]))) == None
  {
    FromHexJoined(s, t);
    FromHexJoined(s, [c] + t);
    assert ([c] + t)[1..] == t;
    if t != "" && IsHexDigit(t[0]) {
      var split := [t[0]] + ([c] + t[1..]);
      assert split[0] == t[0] && split[1] == c;
      FromHexJoined(s, split);
    }
  }

  lemma PairBytesCons(s: string)
    requires |s| >= 2 && |s| % 2 == 0 && AllHex(s) && AllHex(s[2..])
    ensures PairBytes(s) == [DigitValue(s[0]) * 16 + DigitValue(s[1])] + PairBytes(s[2..])
  {
    var head := [DigitValue(s[0]) * 16 + DigitValue(s[1])];
    forall i | 0 <= i < |s| / 2 ensures PairBytes(s)[i] == (head + PairBytes(s[2..]))[i] {
      if i > 0 { PairShift(s, i); }
    }
  }

  lemma PairShift(s: string, i: nat)
    requires 1 <= i < |s| / 2 && |s| % 2 == 0 && AllHex(s) && AllHex(s[2..])
    ensures PairBytes(s)[i] == PairBytes(s[2..])[i - 1]
  {
    hide AllHex;
    assert s[2..][2 * (i - 1)] == s[2 * i] && s[2..][2 * (i - 1) + 1] == s[2 * i + 1];
  }

  /** Python accepts whatever TypeScript accepts, with the same bytes. */
  lemma PythonExtendsTypeScript(s: string)
    requires Decode(s).Some?
    ensures PyDecode(s) == Decode(s)
  {
    var d := StripPrefix(s);
    forall i | 0 <= i < |d| ensures !IsSpace(d[i]) { assert IsHexDigit(d[i]); }
    if |d| >= 2 { assert IsHexDigit(d[1]); }
    FromHexSpaceless(d);
  }

  /** Without whitespace and without a doubled prefix the two decoders are one. */
  lemma DecodersAgree(s: string)
    requires Spaceless(s) && !("0x0X" <= s)
    ensures PyDecode(s) == Decode(s)
  {
    var d := StripPrefix(s);
    assert |s| >= 4 && s[0] == '0' && s[1] == 'x' && s[2] == '0' && s[3] == 'X' ==> "0x0X" <= s;
    FromHexSpaceless(d);
  }
}
