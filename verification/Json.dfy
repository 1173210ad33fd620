/** How the three JSON writers put text into `ActionResult.data`: Go's encoding/json, Python's
    json.dumps with its default ensure_ascii, and JSON.stringify. The data hash is signed, so these
    bytes are contractual. */
module Json {
  import opened Wrappers
  import opened Encoding

  datatype Lang = Go | Python | TypeScript

  function Hex4(n: nat): (s: string)
    requires n < 0x10000
    ensures |s| == 6 && s[0] == '\\'
  {
    "\\u" + [Digit(n / 4096), Digit(n / 256 % 16), Digit(n / 16 % 16), Digit(n % 16)]
  }

  /** The escapes every writer shares: quote, backslash and the control characters. */
  predicate SharedEscape(c: char) {
    c == '"' || c == '\\' || c as int < 0x20
  }

  function EscapeShared(c: char): (s: string)
    requires SharedEscape(c)
    ensures s != []
  {
    if c == '"' then "\\\""
    else if c == '\\' then "\\\\"
    else if c == '\n' then "\\n"
    else if c == '\r' then "\\r"
    else if c == '\t' then "\\t"
    else if c as int == 8 then "\\b"
    else if c as int == 12 then "\\f"
    else Hex4(c as int)
  }

  predicate GoEscape(c: char) {
    c == '<' || c == '>' || c == '&' || c as int == 0x2028 || c as int == 0x2029
  }

  function Escape(lang: Lang, c: char): (s: string)
    ensures s != []
  {
    if SharedEscape(c) then EscapeShared(c)
    else match lang
      case Go => if GoEscape(c) then Hex4(c as int) else [c]
      case TypeScript => [c]
      case Python =>
        if c as int < 0x7f then [c]
        else if c as int < 0x10000 then Hex4(c as int)
        else
          var v := c as int - 0x10000;
          assert v / 0x400 < 0x400;
          Hex4(0xd800 + v / 0x400) + Hex4(0xdc00 + v % 0x400)
  }

  function EscapeAll(lang: Lang, text: string): string {
    if text == [] then [] else Escape(lang, text[0]) + EscapeAll(lang, text[1..])
  }

  function Decimal(n: nat): string {
    if n < 10 then [Digit(n)] else Decimal(n / 10) + [Digit(n % 10)]
  }

  /** {"<textKey>":"<text>","<numberKey>":<number>}, compact and in declaration order. */
  function Payload(lang: Lang, textKey: string, text: string, numberKey: string, number: nat): string {
    "{\"" + textKey + "\":\"" + EscapeAll(lang, text) + ("\",\"" + numberKey + "\":" + Decimal(number) + "}")
  }

  /** The characters that writers `a` and `b` put down alike. */
  predicate WrittenAlike(a: Lang, b: Lang, c: char) {
    || a == b
    || SharedEscape(c)
    || match (a, b)
       case (Go, TypeScript) => !GoEscape(c)
       case (TypeScript, Go) => !GoEscape(c)
       case (Python, TypeScript) => c as int < 0x7f
       case (TypeScript, Python) => c as int < 0x7f
       case (Go, Python) => if c as int < 0x7f then !GoEscape(c) else GoEscape(c)
       case (Python, Go) => if c as int < 0x7f then !GoEscape(c) else GoEscape(c)
       case _ => true
  }

  predicate AllAlike(a: Lang, b: Lang, text: string) {
    forall i :: 0 <= i < |text| ==> WrittenAlike(a, b, text[i])
  }

  /** One character: same escape, or escapes that part at the first character. */
  lemma EscapeAlike(a: Lang, b: Lang, c: char)
    ensures WrittenAlike(a, b, c) ==> Escape(a, c) == Escape(b, c)
    ensures !WrittenAlike(a, b, c) ==> Escape(a, c)[0] != Escape(b, c)[0]
  {}

  lemma {:induction false} EscapeAllAlike(a: Lang, b: Lang, text: string)
    ensures EscapeAll(a, text) == EscapeAll(b, text) <==> AllAlike(a, b, text)
  {
    if text != [] {
      EscapeAlike(a, b, text[0]);
      EscapeAllAlike(a, b, text[1..]);
      var x, y := Escape(a, text[0]), Escape(b, text[0]);
      var xs, ys := EscapeAll(a, text[1..]), EscapeAll(b, text[1..]);
      assert AllAlike(a, b, text) <==> WrittenAlike(a, b, text[0]) && AllAlike(a, b, text[1..]) by {
        assert text == [text[0]] + text[1..];
      }
      if WrittenAlike(a, b, text[0]) {
        if x + xs == y + ys {
          assert xs == (x + xs)[|x|..] == (y + ys)[|y|..] == ys;
        }
      } else {
        assert (x + xs)[0] != (y + ys)[0];
      }
    }
  }

  /** Two implementations sign the same payload bytes exactly when their writers treat every
      character of the text alike. */
  lemma PayloadAlike(a: Lang, b: Lang, textKey: string, text: string, numberKey: string, number: nat)
    ensures Payload(a, textKey, text, numberKey, number) == Payload(b, textKey, text, numberKey, number)
            <==> AllAlike(a, b, text)
  {
    var head := "{\"" + textKey + "\":\"";
    var tail := "\",\"" + numberKey + "\":" + Decimal(number) + "}";
    var x, y := EscapeAll(a, text), EscapeAll(b, text);
    if head + x + tail == head + y + tail {
      assert |x| == |y|;
      assert x == (head + x + tail)[|head|..|head| + |x|] == (head + y + tail)[|head|..|head| + |y|] == y;
    }
    EscapeAllAlike(a, b, text);
  }

  /** Printable or control ASCII without the three characters Go escapes for HTML. */
  predicate Portable(c: char) {
    c as int < 0x7f && c != '<' && c != '>' && c != '&'
  }

  predicate AllPortable(text: string) {
    forall i :: 0 <= i < |text| ==> Portable(text[i])
  }

  /** All three agree exactly on portable text. */
  lemma AllThreeAlike(text: string)
    ensures AllPortable(text) <==> AllAlike(Go, Python, text) && AllAlike(Go, TypeScript, text)
  {
    forall i | 0 <= i < |text|
      ensures Portable(text[i]) <==> WrittenAlike(Go, Python, text[i]) && WrittenAlike(Go, TypeScript, text[i])
    {}
  }

  // --- what a JSON reader makes of it --------------------------------------------------------------

  /** The code unit that four hex digits name. */
  function Unit(s: string): Option<nat> {
    if |s| >= 6 && s[0] == '\\' && s[1] == 'u' && IsHexDigit(s[2]) && IsHexDigit(s[3]) && IsHexDigit(s[4]) && IsHexDigit(s[5])
    then Some(DigitValue(s[2]) * 0x1000 + DigitValue(s[3]) * 0x100 + DigitValue(s[4]) * 0x10 + DigitValue(s[5])) else None
  }

  /** The first character of a string body and the text it takes (section 7 of RFC 8259); a character
      beyond the basic plane may be written as a surrogate pair. */
  function ReadChar(s: string): Option<(char, nat)>
    requires s != ""
  {
    if s[0] != '\\' then (if s[0] == '"' || s[0] as int < 0x20 then None else Some((s[0], 1)))
    else if |s| < 2 then None
    else if s[1] == '"' || s[1] == '\\' || s[1] == '/' then Some((s[1], 2))
    else if s[1] == 'b' then Some((8 as char, 2))
    else if s[1] == 'f' then Some((12 as char, 2))
    else if s[1] == 'n' then Some(('\n', 2))
    else if s[1] == 'r' then Some(('\r', 2))
    else if s[1] == 't' then Some(('\t', 2))
    else match Unit(s)
      case None => None
      case Some(n) =>
        if n < 0xd800 || 0xe000 <= n < 0x10000 then Some((n as char, 6))
        else if n < 0xdc00 then
          (match Unit(s[6..])
           case Some(m) => if 0xdc00 <= m < 0xe000 then Some(((0x10000 + (n - 0xd800) * 0x400 + (m - 0xdc00)) as char, 12)) else None
           case None => None)
        else None
  }

  function ReadAll(s: string): Option<string>
    decreases |s|
  {
    if s == "" then Some("")
    else match ReadChar(s)
      case None => None
      case Some((c, n)) =>
        if 1 <= n <= |s| then
          (match ReadAll(s[n..])
           case Some(rest) => Some([c] + rest)
           case None => None)
        else None
  }

  lemma UnitReads(n: nat, rest: string)
    requires n < 0x10000
    ensures Unit(Hex4(n) + rest) == Some(n)
  {
    var s := Hex4(n) + rest;
    assert s[0] == '\\' && s[1] == 'u' && s[2] == Digit(n / 4096) && s[3] == Digit(n / 256 % 16);
    assert s[4] == Digit(n / 16 % 16) && s[5] == Digit(n % 16);
    Nibbles(n);
  }

  lemma Nibbles(n: nat)
    requires n < 0x10000
    ensures n / 4096 * 0x1000 + n / 256 % 16 * 0x100 + n / 16 % 16 * 0x10 + n % 16 == n
  {
    var a := n / 16;
    var b := a / 16;
    assert n == a * 16 + n % 16 && a == b * 16 + a % 16 && b == b / 16 * 16 + b % 16;
    assert n / 256 == b && n / 4096 == b / 16;
    assert b / 16 < 16;
  }

  lemma BareReads(c: char, rest: string)
    requires c != '"' && c != '\\' && c as int >= 0x20
    ensures ReadChar([c] + rest) == Some((c, 1))
  {}

  lemma HexReads(c: char, rest: string)
    requires c as int < 0x10000
    ensures ReadChar(Hex4(c as int) + rest) == Some((c, 6))
  {
    UnitReads(c as int, rest);
    assert (Hex4(c as int) + rest)[0] == '\\' && (Hex4(c as int) + rest)[1] == 'u';
    hide Unit;
  }

  /** Beyond the basic plane: two units. */
  lemma PairReads(c: char, rest: string)
    requires c as int >= 0x10000
    ensures var v := c as int - 0x10000;
            v / 0x400 < 0x400 && ReadChar(Hex4(0xd800 + v / 0x400) + Hex4(0xdc00 + v % 0x400) + rest) == Some((c, 12))
  {
    var v := c as int - 0x10000;
    assert v / 0x400 < 0x400;
    var high, low := Hex4(0xd800 + v / 0x400), Hex4(0xdc00 + v % 0x400);
    UnitReads(0xd800 + v / 0x400, low + rest);
    UnitReads(0xdc00 + v % 0x400, rest);
    var s := high + (low + rest);
    assert high + low + rest == s && s[6..] == low + rest;
    assert s[0] == high[0] == '\\' && s[1] == high[1] == 'u' by { UnitStart(0xd800 + v / 0x400); }
    hide Unit, Hex4;
  }

  lemma UnitStart(n: nat)
    requires n < 0x10000
    ensures Hex4(n)[0] == '\\' && Hex4(n)[1] == 'u'
  {}

  lemma ShortReads(c: char, rest: string)
    requires SharedEscape(c)
    ensures ReadChar(EscapeShared(c) + rest) == Some((c, |EscapeShared(c)|))
  {
    if EscapeShared(c) == Hex4(c as int) {
      HexReads(c, rest);
    } else {
      assert |EscapeShared(c)| == 2;
      assert (EscapeShared(c) + rest)[0] == EscapeShared(c)[0] && (EscapeShared(c) + rest)[1] == EscapeShared(c)[1];
    }
  }

  lemma EscapeReads(lang: Lang, c: char, rest: string)
    ensures var e := Escape(lang, c); ReadChar(e + rest) == Some((c, |e|))
  {
    hide ReadChar, EscapeShared, Hex4;
    if SharedEscape(c) {
      ShortReads(c, rest);
    } else {
      BareReads(c, rest);
      if c as int < 0x10000 { HexReads(c, rest); } else { PairReads(c, rest); }
    }
  }

  /** Whatever the text, and whichever language wrote it, a reader gets it back. */
  lemma {:induction false} WrittenTextReads(lang: Lang, text: string)
    ensures ReadAll(EscapeAll(lang, text)) == Some(text)
  {
    if text != [] {
      var e, rest := Escape(lang, text[0]), EscapeAll(lang, text[1..]);
      EscapeReads(lang, text[0], rest);
      assert (e + rest)[|e|..] == rest;
      WrittenTextReads(lang, text[1..]);
      hide ReadChar, Escape;
      assert EscapeAll(lang, text) == e + rest && text == [text[0]] + text[1..];
    }
  }

  /** Decimal digits read as a number. */
  function Number(s: string): nat
    requires forall i :: 0 <= i < |s| ==> '0' <= s[i] <= '9'
  {
    if s == "" then 0 else Number(s[..|s| - 1]) * 10 + (s[|s| - 1] as int - '0' as int)
  }

  /** Numbers are written in decimal, without leading zeros. */
  lemma {:induction false} WrittenNumberReads(n: nat)
    ensures Decimal(n) != "" && forall i :: 0 <= i < |Decimal(n)| ==> '0' <= Decimal(n)[i] <= '9'
    ensures Number(Decimal(n)) == n && (n > 0 ==> Decimal(n)[0] != '0')
  {
    if n >= 10 {
      WrittenNumberReads(n / 10);
      assert Decimal(n)[..|Decimal(n)| - 1] == Decimal(n / 10);
    } else {
      assert Decimal(n)[..0] == "";
    }
  }

  /** Which characters a language leaves bare. */
  lemma BareExactlyWhen(lang: Lang, c: char)
    ensures Escape(lang, c) == [c] <==>
            && c != '"' && c != '\\' && c as int >= 0x20
            && match lang
               case Go => c != '<' && c != '>' && c != '&' && c != '\U{2028}' && c != '\U{2029}'
               case Python => c <= '~'
               case TypeScript => true
  {
    hide Digit;
  }

  /** The short escapes, the same in every language; every other escape is \u and four digits. */
  lemma ShortEscapes(lang: Lang)
    ensures Escape(lang, '"') == "\\\"" && Escape(lang, '\\') == "\\\\"
    ensures Escape(lang, '\n') == "\\n" && Escape(lang, '\r') == "\\r" && Escape(lang, '\t') == "\\t"
    ensures Escape(lang, 8 as char) == "\\b" && Escape(lang, 12 as char) == "\\f"
  {}
}
