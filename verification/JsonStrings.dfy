/** String literals of the JSON codec: escaping, unescaping and the transcoding of
    `\u` escapes from UTF-16 to UTF-8 (cJSON.c, parse_string and print_string_ptr).
    A C string is a Dafny string without NUL; each char stands for one byte. */
module JsonStrings {
  import opened Options

  /** The character the C code reads at index i: the terminating NUL at the end. */
  function At(s: string, i: nat): char {
    if i < |s| then s[i] else '\0'
  }

  predicate NulFree(s: string) {
    '\0' !in s
  }

  // ----- escaping -----

  function HexDigit(n: nat): char
    requires n < 16
  {
    "0123456789abcdef"[n]
  }

  /** What print_string_ptr writes for one character. */
  function EscapeChar(c: char): string {
    if c == '\"' then "\\\""
    else if c == '\\' then "\\\\"
    else if c == '\U{08}' then "\\b"
    else if c == '\U{0c}' then "\\f"
    else if c == '\n' then "\\n"
    else if c == '\r' then "\\r"
    else if c == '\t' then "\\t"
    else if c < ' ' then ['\\', 'u', '0', '0', HexDigit(c as int / 16), HexDigit(c as int % 16)]
    else [c]
  }

  function Escape(s: string): string {
    if s == [] then [] else EscapeChar(s[0]) + Escape(s[1..])
  }

  function Quote(s: string): string {
    "\"" + Escape(s) + "\""
  }

  // ----- hexadecimal and UTF-8 -----

  predicate IsHex(c: char) {
    '0' <= c <= '9' || 'A' <= c <= 'F' || 'a' <= c <= 'f'
  }

  function HexValue(c: char): (n: nat)
    requires IsHex(c)
    ensures n < 16
  {
    if '0' <= c <= '9' then c as int - '0' as int
    else if 'A' <= c <= 'F' then 10 + c as int - 'A' as int
    else 10 + c as int - 'a' as int
  }

  /** parse_hex4: the value of the four digits at i, or 0 when one of them is not a digit. */
  function Hex4(s: string, i: nat): (n: nat)
    ensures n <= 0xFFFF
  {
    if i + 4 <= |s| && IsHex(s[i]) && IsHex(s[i + 1]) && IsHex(s[i + 2]) && IsHex(s[i + 3]) then
      ((HexValue(s[i]) * 16 + HexValue(s[i + 1])) * 16 + HexValue(s[i + 2])) * 16 + HexValue(s[i + 3])
    else 0
  }

  predicate IsHighSurrogate(u: nat) { 0xD800 <= u <= 0xDBFF }

  predicate IsLowSurrogate(u: nat) { 0xDC00 <= u <= 0xDFFF }

  /** The code point of a surrogate pair, section 2.2 of RFC 2781. */
  function FromSurrogates(high: nat, low: nat): (u: nat)
    requires IsHighSurrogate(high) && IsLowSurrogate(low)
    ensures 0x10000 <= u <= 0x10FFFF
  {
    0x10000 + (high - 0xD800) * 0x400 + (low - 0xDC00)
  }

  predicate IsScalar(u: nat) {
    u <= 0x10FFFF && !IsHighSurrogate(u) && !IsLowSurrogate(u)
  }

  /** The table of section 3 of RFC 3629. */
  function Utf8(u: nat): (s: string)
    requires IsScalar(u)
    ensures 1 <= |s| <= 4
    ensures u != 0 ==> NulFree(s)
  {
    if u < 0x80 then [u as char]
    else if u < 0x800 then [(0xC0 + u / 0x40) as char, (0x80 + u % 0x40) as char]
    else if u < 0x10000 then
      [(0xE0 + u / 0x1000) as char, (0x80 + u / 0x40 % 0x40) as char, (0x80 + u % 0x40) as char]
    else
      [(0xF0 + u / 0x40000) as char, (0x80 + u / 0x1000 % 0x40) as char,
       (0x80 + u / 0x40 % 0x40) as char, (0x80 + u % 0x40) as char]
  }

  // ----- unescaping -----

  /** The character a one-letter escape stands for. */
  function SimpleEscape(c: char): Option<char> {
    match c
    case 'b' => Some('\U{08}')
    case 'f' => Some('\U{0c}')
    case 'n' => Some('\n')
    case 'r' => Some('\r')
    case 't' => Some('\t')
    case '\"' => Some('\"')
    case '\\' => Some('\\')
    case '/' => Some('/')
    case _ => None
  }

  /** The code point of the `\u` escape (or surrogate pair) that s starts with, and the length
      of the escape; None when the parser rejects it. */
  function UnicodeEscape(s: string): (r: Option<(nat, nat)>)
    requires |s| >= 2
    ensures r.Some? ==> r.value.0 != 0 && IsScalar(r.value.0) && r.value.1 in {6, 12} && r.value.1 <= |s|
  {
    var u := Hex4(s, 2);
    if |s| < 6 || IsLowSurrogate(u) || u == 0 then None
    else if !IsHighSurrogate(u) then Some((u, 6))
    else if |s| < 11 || s[6] != '\\' || s[7] != 'u' then None
    else
      var v := Hex4(s, 8);
      if !IsLowSurrogate(v) then None else Some((FromSurrogates(u, v), 12))
  }

  function Prefixed(p: string, r: Option<string>): Option<string> {
    if r.None? then None else Some(p + r.value)
  }

  /** The value of the body of a string literal. */
  function Unescape(s: string): Option<string> {
    if s == [] then Some([])
    else if s[0] != '\\' then Prefixed([s[0]], Unescape(s[1..]))
    else if |s| == 1 then None
    else if s[1] == 'u' then
      var e := UnicodeEscape(s);
      if e.None? then None else Prefixed(Utf8(e.value.0), Unescape(s[e.value.1..]))
    else
      var c := SimpleEscape(s[1]);
      if c.None? then None else Prefixed([c.value], Unescape(s[2..]))
  }

  /** How far the body of a literal reaches: to the first quote that is not escaped, or to the
      end of the text. None when the text ends in a lone backslash. */
  function BodyLength(s: string): (r: Option<nat>)
    ensures r.Some? ==> r.value <= |s|
  {
    if At(s, 0) == '\"' || At(s, 0) == '\0' then Some(0)
    else if s[0] != '\\' then Added(1, BodyLength(s[1..]))
    else if At(s, 1) == '\0' then None
    else Added(2, BodyLength(s[2..]))
  }

  function Added(n: nat, r: Option<nat>): Option<nat> {
    if r.None? then None else Some(n + r.value)
  }

  /** parse_string: the value and the text behind the literal. */
  function ParseString(s: string): (r: Option<(string, string)>)
    ensures r.Some? ==> |r.value.1| < |s|
  {
    if At(s, 0) != '\"' then None
    else
      var n := BodyLength(s[1..]);
      if n.None? then None
      else
        var v := Unescape(s[1..][..n.value]);
        if v.None? then None
        else
          var rest := s[1 + n.value..];
          Some((v.value, if At(rest, 0) == '\"' then rest[1..] else rest))
  }

  // ----- the round trip -----

  lemma HexRoundTrip(n: nat)
    requires n < 16
    ensures IsHex(HexDigit(n)) && HexValue(HexDigit(n)) == n
  {
  }

  lemma PlainScans(c: char, rest: string)
    requires c !in "\"\\\0"
    ensures BodyLength([c] + rest) == Added(1, BodyLength(rest))
  {
    assert ([c] + rest)[1..] == rest;
  }

  lemma PairScans(c: char, rest: string)
    requires c != '\0'
    ensures BodyLength(['\\', c] + rest) == Added(2, BodyLength(rest))
  {
    assert (['\\', c] + rest)[2..] == rest;
  }

  /** The three forms of an escaped character. */
  lemma EscapeCharForms(c: char)
    requires c != '\0'
    ensures
      var e := EscapeChar(c);
      || (e == [c] && c !in "\"\\\0")
      || (|e| == 2 && e == ['\\', e[1]] && e[1] !in "u\0" && SimpleEscape(e[1]) == Some(c))
      || (c < ' ' && e == ['\\', 'u'] + ['0', '0', HexDigit(c as int / 16), HexDigit(c as int % 16)])
  {
    if c < ' ' && c !in "\U{08}\U{0c}\n\r\t" {
      assert EscapeChar(c) == ['\\', 'u'] + ['0', '0', HexDigit(c as int / 16), HexDigit(c as int % 16)];
    }
  }

  lemma FourApart(a: char, b: char, c: char, d: char, rest: string)
    ensures [a, b, c, d] + rest == [a] + ([b] + ([c] + ([d] + rest)))
  {
  }

  lemma FourScan(a: char, b: char, c: char, d: char, rest: string)
    requires a !in "\"\\\0" && b !in "\"\\\0" && c !in "\"\\\0" && d !in "\"\\\0"
    ensures BodyLength([a, b, c, d] + rest) == Added(4, BodyLength(rest))
  {
    hide BodyLength;
    PlainScans(d, rest);
    PlainScans(c, [d] + rest);
    PlainScans(b, [c] + ([d] + rest));
    PlainScans(a, [b] + ([c] + ([d] + rest)));
    FourApart(a, b, c, d, rest);
  }

  lemma EscapeCharScans(c: char, rest: string)
    requires c != '\0'
    ensures BodyLength(EscapeChar(c) + rest) == Added(|EscapeChar(c)|, BodyLength(rest))
  {
    hide *;
    EscapeCharForms(c);
    var e := EscapeChar(c);
    if |e| == 1 {
      PlainScans(c, rest);
    } else if |e| == 2 {
      PairScans(e[1], rest);
    } else {
      var d, d' := HexDigit(c as int / 16), HexDigit(c as int % 16);
      HexRoundTrip(c as int / 16);
      HexRoundTrip(c as int % 16);
      HexDigitsArePlain(d);
      HexDigitsArePlain(d');
      FourScan('0', '0', d, d', rest);
      PairScans('u', ['0', '0', d, d'] + rest);
      assert e + rest == ['\\', 'u'] + (['0', '0', d, d'] + rest);
      AddedTwice(2, 4, BodyLength(rest));
    }
  }

  lemma AddedTwice(m: nat, n: nat, r: Option<nat>)
    ensures Added(m, Added(n, r)) == Added(m + n, r)
  {
  }

  lemma HexDigitsArePlain(c: char)
    requires IsHex(c)
    ensures c !in "\"\\\0"
  {
  }

  lemma {:induction false} EscapeScans(s: string, rest: string)
    requires NulFree(s)
    ensures BodyLength(Escape(s) + "\"" + rest) == Some(|Escape(s)|)
  {
    hide EscapeChar;
    if s == [] {
      assert Escape(s) + "\"" + rest == "\"" + rest;
    } else {
      EscapeScans(s[1..], rest);
      var tail := Escape(s[1..]) + "\"" + rest;
      assert Escape(s) + "\"" + rest == EscapeChar(s[0]) + tail;
      EscapeCharScans(s[0], tail);
    }
  }

  lemma PlainUnescapes(c: char, rest: string)
    requires c != '\\'
    ensures Unescape([c] + rest) == Prefixed([c], Unescape(rest))
  {
    hide UnicodeEscape;
    assert ([c] + rest)[1..] == rest;
  }

  lemma PairUnescapes(c: char, v: char, rest: string)
    requires c != 'u' && SimpleEscape(c) == Some(v)
    ensures Unescape(['\\', c] + rest) == Prefixed([v], Unescape(rest))
  {
    hide UnicodeEscape, SimpleEscape;
    assert (['\\', c] + rest)[2..] == rest;
  }

  lemma ControlEscape(c: char, rest: string)
    requires '\0' < c < ' '
    ensures Unescape(['\\', 'u'] + ['0', '0', HexDigit(c as int / 16), HexDigit(c as int % 16)] + rest)
         == Prefixed([c], Unescape(rest))
  {
    var d, d' := HexDigit(c as int / 16), HexDigit(c as int % 16);
    var t := ['\\', 'u'] + ['0', '0', d, d'] + rest;
    HexRoundTrip(c as int / 16);
    HexRoundTrip(c as int % 16);
    assert Hex4(t, 2) == c as int;
    assert UnicodeEscape(t) == Some((c as int, 6));
    assert Utf8(c as int) == [c];
    assert t[6..] == rest;
    UnicodeEscapeStep(t, c as int, 6);
    hide *;
  }

  lemma UnescapeEscapeChar(c: char, rest: string)
    requires c != '\0'
    ensures Unescape(EscapeChar(c) + rest) == Prefixed([c], Unescape(rest))
  {
    hide *;
    EscapeCharForms(c);
    var e := EscapeChar(c);
    if |e| == 1 {
      PlainUnescapes(c, rest);
    } else if |e| == 2 {
      PairUnescapes(e[1], c, rest);
    } else {
      ControlEscape(c, rest);
    }
  }

  lemma {:induction false} UnescapeEscape(s: string)
    requires NulFree(s)
    ensures Unescape(Escape(s)) == Some(s)
  {
    hide EscapeChar, UnicodeEscape;
    if s != [] {
      UnescapeEscape(s[1..]);
      UnescapeEscapeChar(s[0], Escape(s[1..]));
      assert s == [s[0]] + s[1..];
    }
  }

  /** Parsing a printed string gives the string back and stops right behind it. */
  lemma StringRoundTrip(s: string, rest: string)
    requires NulFree(s)
    ensures ParseString(Quote(s) + rest) == Some((s, rest))
  {
    hide Escape, BodyLength, Unescape;
    var t := Quote(s) + rest;
    var n := |Escape(s)|;
    assert t[1..] == Escape(s) + "\"" + rest;
    EscapeScans(s, rest);
    UnescapeEscape(s);
    assert t[1..][..n] == Escape(s);
    assert t[1 + n..] == "\"" + rest;
    assert ("\"" + rest)[1..] == rest;
  }

  /** A parsed string never contains NUL. */
  lemma {:induction false} UnescapeNulFree(s: string)
    requires NulFree(s) && Unescape(s).Some?
    ensures NulFree(Unescape(s).value)
    decreases |s|
  {
    if s == [] {
    } else if s[0] != '\\' {
      UnescapeNulFree(s[1..]);
    } else if s[1] == 'u' {
      UnescapeNulFree(s[UnicodeEscape(s).value.1..]);
    } else {
      UnescapeNulFree(s[2..]);
    }
  }

  // ----- escapes of arbitrary code points -----

  /** A digit of that value, of either case. */
  ghost predicate IsDigitFor(c: char, n: nat) {
    n < 16 && (c == "0123456789abcdef"[n] || c == "0123456789ABCDEF"[n])
  }

  /** Which characters are hexadecimal digits, and what each of them is worth. */
  lemma HexDigits(c: char)
    ensures IsHex(c) <==> exists n: nat :: IsDigitFor(c, n)
    ensures forall n: nat | IsDigitFor(c, n) :: IsHex(c) && HexValue(c) == n
  {
    hide IsDigitFor;
    if IsHex(c) {
      HexDigitFor(c);
    }
    forall n: nat | IsDigitFor(c, n) ensures IsHex(c) && HexValue(c) == n {
      DigitForHex(c, n);
    }
  }

  lemma HexDigitFor(c: char)
    requires IsHex(c)
    ensures IsDigitFor(c, HexValue(c))
  {
  }

  lemma DigitForHex(c: char, n: nat)
    requires IsDigitFor(c, n)
    ensures IsHex(c) && HexValue(c) == n
  {
  }

  /** The four digits of a 16-bit number. */
  function Nibble(u: nat, k: nat): nat {
    if k == 0 then u / 0x1000 else if k == 1 then u / 0x100 % 0x10 else if k == 2 then u / 0x10 % 0x10 else u % 0x10
  }

  /** At index i are four digits that make u, each in either case. */
  ghost predicate DigitsAt(s: string, i: nat, u: nat) {
    u <= 0xFFFF && i + 4 <= |s| && forall k: nat | k < 4 :: IsDigitFor(s[i + k], Nibble(u, k))
  }

  /** Hex4 reads u exactly if the four digits of u are there; everything else is read as 0. */
  lemma Hex4Reads(s: string, i: nat, u: nat)
    ensures DigitsAt(s, i, u) ==> Hex4(s, i) == u
    ensures Hex4(s, i) == u != 0 ==> DigitsAt(s, i, u)
  {
    hide Hex4, DigitsAt;
    if DigitsAt(s, i, u) {
      DigitsRead(s, i, u);
    }
    if Hex4(s, i) == u != 0 {
      ReadDigits(s, i);
    }
  }

  lemma DigitsRead(s: string, i: nat, u: nat)
    requires DigitsAt(s, i, u)
    ensures Hex4(s, i) == u
  {
    hide IsHex, HexValue;
    FourNibbles(u);
    assert IsDigitFor(s[i + 0], Nibble(u, 0)) && IsDigitFor(s[i + 1], Nibble(u, 1));
    assert IsDigitFor(s[i + 2], Nibble(u, 2)) && IsDigitFor(s[i + 3], Nibble(u, 3));
    hide IsDigitFor, Nibble;
    HexDigits(s[i]);
    HexDigits(s[i + 1]);
    HexDigits(s[i + 2]);
    HexDigits(s[i + 3]);
  }

  lemma ReadDigits(s: string, i: nat)
    requires Hex4(s, i) != 0
    ensures DigitsAt(s, i, Hex4(s, i))
  {
    hide IsHex, HexValue, Nibble, IsDigitFor;
    HexDigits(s[i]);
    HexDigits(s[i + 1]);
    HexDigits(s[i + 2]);
    HexDigits(s[i + 3]);
    var a: nat :| IsDigitFor(s[i], a);
    var b: nat :| IsDigitFor(s[i + 1], b);
    var c: nat :| IsDigitFor(s[i + 2], c);
    var d: nat :| IsDigitFor(s[i + 3], d);
    DigitSmall(s[i], a);
    DigitSmall(s[i + 1], b);
    DigitSmall(s[i + 2], c);
    DigitSmall(s[i + 3], d);
    NibblesOf(a, b, c, d);
    forall k: nat | k < 4 ensures IsDigitFor(s[i + k], Nibble(Hex4(s, i), k)) {
      assert k == 0 || k == 1 || k == 2 || k == 3;
    }
  }

  lemma DigitSmall(c: char, n: nat)
    requires IsDigitFor(c, n)
    ensures n < 16
  {
  }

  lemma FourNibbles(u: nat)
    ensures u <= 0xFFFF ==> u == ((Nibble(u, 0) * 16 + Nibble(u, 1)) * 16 + Nibble(u, 2)) * 16 + Nibble(u, 3)
  {
    var u1, u2, u3 := u / 16, u / 16 / 16, u / 16 / 16 / 16;
    assert u == u1 * 16 + u % 16 && u1 == u2 * 16 + u1 % 16 && u2 == u3 * 16 + u2 % 16;
  }

  lemma NibblesOf(a: nat, b: nat, c: nat, d: nat)
    requires a < 16 && b < 16 && c < 16 && d < 16
    ensures
      var u := ((a * 16 + b) * 16 + c) * 16 + d;
      u <= 0xFFFF && Nibble(u, 0) == a && Nibble(u, 1) == b && Nibble(u, 2) == c && Nibble(u, 3) == d
  {
  }

  /** A `\u` escape for u, with digits of either case. */
  ghost predicate SpellsUnit(e: string, u: nat) {
    |e| == 6 && e[0] == '\\' && e[1] == 'u' && DigitsAt(e, 2, u)
  }

  /** A code point written as one escape or as a surrogate pair (section 2.1 of RFC 2781). */
  ghost predicate SpellsScalar(literal: string, u: nat) {
    u != 0 && IsScalar(u)
    && if u < 0x10000 then SpellsUnit(literal, u)
       else |literal| == 12 && SpellsUnit(literal[..6], 0xD800 + (u - 0x10000) / 0x400)
            && SpellsUnit(literal[6..], 0xDC00 + (u - 0x10000) % 0x400)
  }

  lemma UnitValue(e: string, u: nat, before: string, rest: string)
    requires SpellsUnit(e, u)
    ensures Hex4(before + e + rest, |before| + 2) == u
  {
    var t, i := before + e + rest, |before| + 2;
    forall k: nat | k < 4 ensures IsDigitFor(t[i + k], Nibble(u, k)) {
      assert t[i + k] == e[2 + k];
    }
    assert DigitsAt(t, i, u);
    Hex4Reads(t, i, u);
  }

  lemma SingleDecodes(e: string, u: nat, rest: string)
    requires u != 0 && IsScalar(u) && u < 0x10000 && SpellsUnit(e, u)
    ensures UnicodeEscape(e + rest) == Some((u, 6))
  {
    hide Hex4;
    UnitValue(e, u, [], rest);
    assert [] + e + rest == e + rest;
  }

  lemma SplitSurrogates(u: nat)
    requires 0x10000 <= u <= 0x10FFFF
    ensures
      var high, low := 0xD800 + (u - 0x10000) / 0x400, 0xDC00 + (u - 0x10000) % 0x400;
      IsHighSurrogate(high) && IsLowSurrogate(low) && FromSurrogates(high, low) == u
  {
  }

  lemma ScalarAccepted(literal: string, u: nat, rest: string)
    requires SpellsScalar(literal, u)
    ensures UnicodeEscape(literal + rest) == Some((u, |literal|))
    ensures |literal| >= 6 && literal[0] == '\\' && literal[1] == 'u'
  {
    hide UnicodeEscape, DigitsAt;
    if u < 0x10000 {
      SingleDecodes(literal, u, rest);
    } else {
      SplitSurrogates(u);
      PairDecodes(0xD800 + (u - 0x10000) / 0x400, 0xDC00 + (u - 0x10000) % 0x400, literal[..6], literal[6..], rest);
      assert literal[..6] + literal[6..] == literal;
    }
  }

  /** Every scalar value but U+0000, escaped with digits of either case, is decoded to its UTF-8 bytes. */
  lemma UnicodeLiteralDecodes(literal: string, u: nat, rest: string)
    requires SpellsScalar(literal, u)
    ensures Unescape(literal + rest) == Prefixed(Utf8(u), Unescape(rest))
  {
    ScalarAccepted(literal, u, rest);
    UnicodeEscapeStep(literal + rest, u, |literal|);
    assert (literal + rest)[|literal|..] == rest;
    hide *;
  }

  lemma UnicodeEscapeStep(s: string, u: nat, n: nat)
    requires |s| >= 2 && s[0] == '\\' && s[1] == 'u' && UnicodeEscape(s) == Some((u, n))
    ensures Unescape(s) == Prefixed(Utf8(u), Unescape(s[n..]))
  {
    hide UnicodeEscape, Utf8;
  }

  lemma PairDecodes(high: nat, low: nat, e: string, f: string, rest: string)
    requires IsHighSurrogate(high) && IsLowSurrogate(low) && SpellsUnit(e, high) && SpellsUnit(f, low)
    ensures UnicodeEscape(e + f + rest) == Some((0x10000 + (high - 0xD800) * 0x400 + (low - 0xDC00), 12))
  {
    hide Hex4, DigitsAt;
    var t := e + f + rest;
    assert [] + e + (f + rest) == t;
    UnitValue(e, high, [], f + rest);
    UnitValue(f, low, e, rest);
    assert t[6] == f[0] && t[7] == f[1];
  }

  /** Lone surrogates, bad digits and U+0000 are rejected, and nothing else is: an escape is accepted
      exactly when it starts with a spelling of a scalar value other than U+0000. */
  lemma UnicodeEscapeAccepts(s: string)
    requires |s| >= 2 && s[0] == '\\' && s[1] == 'u'
    ensures UnicodeEscape(s).Some? <==> exists u: nat, n: nat :: n <= |s| && SpellsScalar(s[..n], u)
    ensures UnicodeEscape(s).None? ==> Unescape(s).None?
  {
    hide Hex4, DigitsAt;
    if UnicodeEscape(s).Some? {
      var (u, n) := UnicodeEscape(s).value;
      Accepted(s, u, n);
    }
    if u: nat, n: nat :| n <= |s| && SpellsScalar(s[..n], u) {
      ScalarAccepted(s[..n], u, s[n..]);
      assert s[..n] + s[n..] == s;
    }
  }

  lemma Accepted(s: string, u: nat, n: nat)
    requires |s| >= 2 && s[0] == '\\' && s[1] == 'u' && UnicodeEscape(s) == Some((u, n))
    ensures n <= |s| && SpellsScalar(s[..n], u)
  {
    hide Hex4;
    var v := Hex4(s, 2);
    Hex4Reads(s, 2, v);
    if n == 6 {
      DigitsMove(s, 2, v, s[..6], 2);
    } else {
      Hex4Reads(s, 8, Hex4(s, 8));
      Surrogates(v, Hex4(s, 8));
      var t := s[..12];
      assert t[6..][0] == s[6] && t[6..][1] == s[7];
      DigitsMove(s, 2, v, t[..6], 2);
      DigitsMove(s, 8, Hex4(s, 8), t[6..], 2);
    }
  }

  lemma Surrogates(high: nat, low: nat)
    requires IsHighSurrogate(high) && IsLowSurrogate(low)
    ensures var u := FromSurrogates(high, low); high == 0xD800 + (u - 0x10000) / 0x400 && low == 0xDC00 + (u - 0x10000) % 0x400
  {
  }

  lemma DigitsMove(s: string, i: nat, u: nat, t: string, j: nat)
    requires DigitsAt(s, i, u) && j + 4 <= |t| && s[i..i + 4] == t[j..j + 4]
    ensures DigitsAt(t, j, u)
  {
    hide IsDigitFor;
    forall k: nat | k < 4 ensures IsDigitFor(t[j + k], Nibble(u, k)) {
      assert t[j..j + 4][k] == s[i..i + 4][k];
    }
  }

  /** The bytes of a code point, put together again as section 3 of RFC 3629 says. */
  lemma Utf8Decodes(u: nat)
    requires IsScalar(u)
    ensures
      var s := Utf8(u);
      && (forall k | 0 < k < |s| :: 0x80 <= s[k] as int < 0xC0)
      && match |s|
         case 1 => (s[0] as int) < 0x80 && u == s[0] as int
         case 2 => 0xC0 <= s[0] as int < 0xE0 && u == (s[0] as int - 0xC0) * 0x40 + (s[1] as int - 0x80)
         case 3 => 0xE0 <= s[0] as int < 0xF0
                   && u == ((s[0] as int - 0xE0) * 0x40 + (s[1] as int - 0x80)) * 0x40 + (s[2] as int - 0x80)
         case _ => 0xF0 <= s[0] as int < 0xF8
                   && u == (((s[0] as int - 0xF0) * 0x40 + (s[1] as int - 0x80)) * 0x40 + (s[2] as int - 0x80)) * 0x40 + (s[3] as int - 0x80)
    ensures |Utf8(u)| == if u < 0x80 then 1 else if u < 0x800 then 2 else if u < 0x10000 then 3 else 4
  {
    var a, b, c := u / 0x40, u / 0x40 / 0x40, u / 0x40 / 0x40 / 0x40;
    assert u == a * 0x40 + u % 0x40 && a == b * 0x40 + a % 0x40 && b == c * 0x40 + b % 0x40;
    assert u / 0x1000 == b && u / 0x40000 == c;
  }

  // ----- printed strings are C strings -----

  lemma JoinedNulFree(a: string, b: string)
    requires NulFree(a) && NulFree(b)
    ensures NulFree(a + b)
  {
  }

  lemma EscapeCharNulFree(c: char)
    requires c != '\0'
    ensures NulFree(EscapeChar(c))
  {
    EscapeCharForms(c);
    if c < ' ' {
      HexRoundTrip(c as int / 16);
      HexRoundTrip(c as int % 16);
    }
  }

  lemma {:induction false} EscapeNulFree(s: string)
    requires NulFree(s)
    ensures NulFree(Escape(s))
  {
    hide EscapeChar;
    if s != [] {
      EscapeNulFree(s[1..]);
      EscapeCharNulFree(s[0]);
      JoinedNulFree(EscapeChar(s[0]), Escape(s[1..]));
    }
  }

  lemma QuoteNulFree(s: string)
    requires NulFree(s)
    ensures NulFree(Quote(s))
  {
    hide Escape;
    EscapeNulFree(s);
  }
}
