/** parse_hex4, parse_string and print_string_ptr as they run: moving indices over the text and
    an output buffer of the size counted beforehand. Every write is inside that buffer. */
module JsonStringCode {
  import opened Bits
  import opened Options
  import opened JsonStrings

  /** The number is u if its four digits, in either case, are at i, and 0 if no number is spelled there. */
  method ParseHex4(s: string, i: nat) returns (h: nat)
    ensures h == Hex4(s, i)
    ensures forall u: nat :: (DigitsAt(s, i, u) ==> h == u) && (h == u != 0 ==> DigitsAt(s, i, u))
  {
    hide Shl, DigitsAt;
    forall u: nat ensures (DigitsAt(s, i, u) ==> Hex4(s, i) == u) && (Hex4(s, i) == u != 0 ==> DigitsAt(s, i, u)) {
      Hex4Reads(s, i, u);
    }
    if !IsHex(At(s, i)) { return 0; }
    h := HexValue(s[i]);
    Shifts(h);
    h := Shl(h, 4);
    if !IsHex(At(s, i + 1)) { return 0; }
    h := h + HexValue(s[i + 1]);
    Shifts(h);
    h := Shl(h, 4);
    if !IsHex(At(s, i + 2)) { return 0; }
    h := h + HexValue(s[i + 2]);
    Shifts(h);
    h := Shl(h, 4);
    if !IsHex(At(s, i + 3)) { return 0; }
    h := h + HexValue(s[i + 3]);
  }

  // ----- what the counting loop of parse_string counts -----

  /** One unit for a plain character and one for an escape together with the character it escapes. */
  function Units(s: string): nat {
    if s == [] then 0
    else if s[0] != '\\' || |s| == 1 then 1 + Units(s[1..])
    else 1 + Units(s[2..])
  }

  /** No escape is cut off at the end. */
  predicate Paired(s: string) {
    if s == [] then true
    else if s[0] != '\\' then Paired(s[1..])
    else |s| >= 2 && Paired(s[2..])
  }

  lemma {:induction false} BodyPaired(s: string)
    requires BodyLength(s).Some?
    ensures Paired(s[..BodyLength(s).value])
    decreases |s|
  {
    var n := BodyLength(s).value;
    if At(s, 0) == '\"' || At(s, 0) == '\0' {
    } else if s[0] != '\\' {
      BodyPaired(s[1..]);
      assert s[..n][1..] == s[1..][..n - 1];
    } else {
      BodyPaired(s[2..]);
      assert s[..n][2..] == s[2..][..n - 2];
    }
  }

  lemma {:induction false} PlainUnits(s: string, n: nat)
    requires n <= |s| && forall i | 0 <= i < n :: s[i] != '\\'
    ensures Units(s) == n + Units(s[n..]) && Paired(s) == Paired(s[n..])
  {
    if n == 0 {
      assert s[0..] == s;
    } else {
      PlainUnits(s[1..], n - 1);
      assert s[1..][n - 1..] == s[n..];
    }
  }

  lemma EscapeUnits(s: string)
    requires |s| >= 6 && s[0] == '\\' && Hex4(s, 2) != 0
    ensures Units(s) == 5 + Units(s[6..]) && Paired(s) == Paired(s[6..])
  {
    hide HexValue;
    PlainUnits(s[2..], 4);
    assert s[2..][4..] == s[6..];
  }

  /** A Unicode escape is counted as at least as many units as the bytes it becomes. */
  lemma UnicodeUnits(s: string)
    requires |s| >= 2 && s[0] == '\\' && s[1] == 'u' && UnicodeEscape(s).Some?
    ensures
      var (u, n) := UnicodeEscape(s).value;
      Units(s) >= |Utf8(u)| + Units(s[n..]) && Paired(s) == Paired(s[n..])
  {
    hide Units, Paired, Utf8;
    EscapeUnits(s);
    var (u, n) := UnicodeEscape(s).value;
    if n == 12 {
      assert Hex4(s[6..], 2) == Hex4(s, 8);
      EscapeUnits(s[6..]);
      assert s[6..][6..] == s[12..];
    }
  }

  // ----- parse_string -----

  /** The units of the body that s starts with. */
  function BodyUnits(s: string): nat {
    if BodyLength(s).None? then 0 else Units(s[..BodyLength(s).value])
  }

  lemma BodyUnitsStep(s: string, k: nat)
    requires At(s, 0) !in "\"\0" && k == (if s[0] == '\\' then 2 else 1)
    requires k == 2 ==> At(s, 1) != '\0'
    ensures BodyLength(s) == Added(k, BodyLength(s[k..]))
    ensures BodyLength(s).Some? ==> BodyUnits(s) == 1 + BodyUnits(s[k..])
  {
    if BodyLength(s).Some? {
      var n := BodyLength(s).value;
      assert s[..n][k..] == s[k..][..n - k];
    }
  }

  lemma BodyEnds(s: string)
    ensures At(s, 0) in "\"\0" ==> BodyLength(s) == Some(0) && BodyUnits(s) == 0
    ensures At(s, 0) == '\\' && At(s, 1) == '\0' ==> BodyLength(s) == None
  {
  }

  /** The first loop: where the body ends and how many units it has. */
  method CountLiteral(s: string, at: nat) returns (end: Option<nat>, len: nat)
    requires at <= |s|
    ensures end == Added(at, BodyLength(s[at..]))
    ensures end.Some? ==> len == BodyUnits(s[at..])
  {
    hide BodyLength, BodyUnits;
    var i := at;
    len := 0;
    while At(s, i) != '\"' && At(s, i) != '\0'
      invariant at <= i <= |s|
      invariant BodyLength(s[at..]) == Added(i - at, BodyLength(s[i..]))
      invariant BodyLength(s[i..]).Some? ==> BodyUnits(s[at..]) == len + BodyUnits(s[i..])
      decreases |s| - i
    {
      len := len + 1;
      BodyEnds(s[i..]);
      if s[i] == '\\' {
        if At(s, i + 1) == '\0' {
          return None, len;
        }
        BodyUnitsStep(s[i..], 2);
        assert s[i..][2..] == s[i + 2..];
        i := i + 2;
      } else {
        BodyUnitsStep(s[i..], 1);
        assert s[i..][1..] == s[i + 1..];
        i := i + 1;
      }
    }
    BodyEnds(s[i..]);
    end := Some(i);
  }

  /** firstByteMark */
  function Mark(len: nat): nat {
    if len == 2 then 0xC0 else if len == 3 then 0xE0 else if len == 4 then 0xF0 else 0
  }

  /** The bytes of a code point in shifts and masks: the one for the length in front, then six bits each. */
  function Encoded(u: nat, len: nat): seq<nat> {
    var a, b, c := Shr(u, 6), Shr(Shr(u, 6), 6), Shr(Shr(Shr(u, 6), 6), 6);
    if len == 1 then [Or(u, Mark(1))]
    else if len == 2 then [Or(a, Mark(2)), And(Or(u, 0x80), 0xBF)]
    else if len == 3 then [Or(b, Mark(3)), And(Or(a, 0x80), 0xBF), And(Or(u, 0x80), 0xBF)]
    else [Or(c, Mark(4)), And(Or(b, 0x80), 0xBF), And(Or(a, 0x80), 0xBF), And(Or(u, 0x80), 0xBF)]
  }

  function Utf8Length(u: nat): (len: nat)
    ensures 1 <= len <= 4
  {
    if u < 0x80 then 1 else if u < 0x800 then 2 else if u < 0x10000 then 3 else 4
  }

  /** They are the bytes of the table in section 3 of RFC 3629. */
  lemma EncodedIsUtf8(u: nat)
    requires IsScalar(u)
    ensures
      var e := Encoded(u, Utf8Length(u));
      |e| == |Utf8(u)| == Utf8Length(u) && forall k | 0 <= k < |e| :: e[k] < 0x100 && Utf8(u)[k] == e[k] as char
  {
    hide And, Or, Shr;
    var a, b, c := Shr(u, 6), Shr(Shr(u, 6), 6), Shr(Shr(Shr(u, 6), 6), 6);
    ContinuationBits(u);
    ContinuationBits(a);
    ContinuationBits(b);
    LeadingBits(u);
    LeadingBits(a);
    LeadingBits(b);
    LeadingBits(c);
    DivideAgain(u);
  }

  lemma DivideAgain(u: nat)
    ensures u / 0x40 / 0x40 == u / 0x1000 && u / 0x40 / 0x40 / 0x40 == u / 0x40000
  {
  }

  /** Writes the bytes of a code point from the last to the first, as the fall-through switch does. */
  method WriteUtf8(out: array<char>, at: nat, u: nat)
    requires IsScalar(u) && at + |Utf8(u)| <= out.Length
    modifies out
    ensures out[..at] == old(out[..at])
    ensures out[at..at + |Utf8(u)|] == Utf8(u)
  {
    hide And, Or, Shr, Utf8;
    EncodedIsUtf8(u);
    var len := Utf8Length(u);
    ghost var e := Encoded(u, len);
    var p, v := at + len, u;
    if len >= 4 {
      p := p - 1;
      ContinuationBits(v);
      out[p] := And(Or(v, 0x80), 0xBF) as char;
      v := Shr(v, 6);
    }
    if len >= 3 {
      p := p - 1;
      ContinuationBits(v);
      out[p] := And(Or(v, 0x80), 0xBF) as char;
      v := Shr(v, 6);
    }
    if len >= 2 {
      p := p - 1;
      ContinuationBits(v);
      out[p] := And(Or(v, 0x80), 0xBF) as char;
      v := Shr(v, 6);
    }
    p := p - 1;
    assert p == at && Or(v, Mark(len)) == e[0];
    out[p] := Or(v, Mark(len)) as char;
    assert forall k | 0 <= k < len :: out[at + k] == e[k] as char;
  }

  /** The escape after a `\u` at index i: the code point and the number of characters behind the
      backslash, or None for an invalid escape. */
  method ReadUnicode(s: string, i: nat, end: nat) returns (r: Option<(nat, nat)>)
    requires i + 1 < end <= |s| && s[i] == '\\' && s[i + 1] == 'u'
    ensures r == UnicodeEscape(s[i..end])
  {
    hide And, Or, Shl;
    var body := s[i..end];
    var p := i + 1;
    var u := ParseHex4(body, 2);
    p := p + 4;
    if p >= end || IsLowSurrogate(u) || u == 0 {
      return None;
    }
    if IsHighSurrogate(u) {
      if p + 6 > end || s[p + 1] != '\\' || s[p + 2] != 'u' {
        return None;
      }
      var v := ParseHex4(body, 8);
      if !IsLowSurrogate(v) {
        return None;
      }
      SurrogateBits(u, v);
      return Some((0x10000 + Or(Shl(And(u, 0x3FF), 10), And(v, 0x3FF)), 12));
    }
    return Some((u, 6));
  }

  lemma PrefixedTwice(p: string, q: string, r: Option<string>)
    ensures Prefixed("", r) == r
    ensures Prefixed(p, Prefixed(q, r)) == Prefixed(p + q, r)
  {
    if r.Some? {
      assert "" + r.value == r.value && p + (q + r.value) == p + q + r.value;
    }
  }

  lemma PlainStep(s: string)
    requires s != [] && s[0] != '\\' && Paired(s)
    ensures Unescape(s) == Prefixed([s[0]], Unescape(s[1..]))
    ensures Units(s) == 1 + Units(s[1..]) && Paired(s[1..])
  {
    hide UnicodeEscape;
  }

  lemma EmptyBody()
    ensures Unescape("") == Some("") && Units("") == 0 && Paired("")
  {
  }

  /** The second loop: decodes the body between start and stop into the buffer. The result is the
      number of bytes written, or None for an invalid escape. */
  method FillLiteral(s: string, start: nat, stop: nat, out: array<char>) returns (r: Option<nat>)
    requires start <= stop <= |s| && Paired(s[start..stop]) && Units(s[start..stop]) < out.Length
    modifies out
    ensures r.Some? <==> Unescape(s[start..stop]).Some?
    ensures r.Some? ==> r.value < out.Length && Unescape(s[start..stop]) == Some(out[..r.value])
  {
    hide Unescape, Paired, Units;
    var p: nat, w: nat := start, 0;
    ghost var body := Unescape(s[start..stop]);
    PrefixedTwice("", "", body);
    assert out[..0] == "";
    while p < stop
      invariant start <= p <= stop && w < out.Length
      invariant Paired(s[p..stop]) && w + Units(s[p..stop]) < out.Length
      invariant body == Prefixed(out[..w], Unescape(s[p..stop]))
      decreases stop - p
    {
      ghost var tail, done := s[p..stop], out[..w];
      if s[p] != '\\' {
        PlainStep(tail);
        PrefixedTwice(done, [s[p]], Unescape(tail[1..]));
        assert tail[1..] == s[p + 1..stop];
        out[w] := s[p];
        p, w := p + 1, w + 1;
        assert out[..w] == done + [s[p - 1]];
      } else {
        var step := DecodeEscape(s, p, stop, out, w);
        if step.None? {
          return None;
        }
        p, w := p + step.value.0, w + step.value.1;
      }
    }
    EmptyBody();
    assert s[stop..stop] == "" && out[..w] + "" == out[..w];
    return Some(w);
  }

  lemma UnicodeStep(s: string)
    requires |s| >= 2 && s[0] == '\\' && s[1] == 'u'
    ensures UnicodeEscape(s).None? ==> Unescape(s).None?
    ensures UnicodeEscape(s).Some? ==>
      var (u, n) := UnicodeEscape(s).value;
      Unescape(s) == Prefixed(Utf8(u), Unescape(s[n..]))
  {
    hide Utf8, Hex4;
  }

  lemma SimpleStep(s: string)
    requires |s| >= 2 && s[0] == '\\' && s[1] != 'u' && Paired(s)
    ensures SimpleEscape(s[1]).None? ==> Unescape(s).None?
    ensures SimpleEscape(s[1]).Some? ==> Unescape(s) == Prefixed([SimpleEscape(s[1]).value], Unescape(s[2..]))
    ensures Units(s) == 1 + Units(s[2..]) && Paired(s[2..])
  {
    hide UnicodeEscape, SimpleEscape;
  }

  lemma PairedEscape(s: string)
    requires s != [] && s[0] == '\\' && Paired(s)
    ensures |s| >= 2
  {
  }

  /** One escape: how many characters were read and how many bytes were written. */
  method DecodeEscape(s: string, p: nat, stop: nat, out: array<char>, w: nat) returns (r: Option<(nat, nat)>)
    requires p < stop <= |s| && s[p] == '\\' && Paired(s[p..stop])
    requires w + Units(s[p..stop]) < out.Length
    modifies out
    ensures r.None? ==> Unescape(s[p..stop]).None?
    ensures r.Some? ==>
      var (n, k) := r.value;
      && 0 < n && p + n <= stop && w + k + Units(s[p + n..stop]) < out.Length && Paired(s[p + n..stop])
      && Prefixed(old(out[..w]), Unescape(s[p..stop])) == Prefixed(out[..w + k], Unescape(s[p + n..stop]))
  {
    hide Unescape, UnicodeEscape, SimpleEscape, Utf8, Units, Paired;
    ghost var tail, done := s[p..stop], out[..w];
    PairedEscape(tail);
    var c := s[p + 1];
    if c == 'u' {
      UnicodeStep(tail);
      var e := ReadUnicode(s, p, stop);
      if e.None? {
        return None;
      }
      var (u, n) := e.value;
      UnicodeUnits(tail);
      PrefixedTwice(done, Utf8(u), Unescape(tail[n..]));
      assert tail[n..] == s[p + n..stop];
      WriteUtf8(out, w, u);
      assert out[..w + |Utf8(u)|] == done + Utf8(u);
      return Some((n, |Utf8(u)|));
    }
    SimpleStep(tail);
    var simple := SimpleEscape(c);
    if simple.None? {
      return None;
    }
    PrefixedTwice(done, [simple.value], Unescape(tail[2..]));
    assert tail[2..] == s[p + 2..stop];
    out[w] := simple.value;
    assert out[..w + 1] == done + [simple.value];
    return Some((2, 1));
  }

  method ParseStringAt(s: string, at: nat) returns (r: Option<(string, nat)>)
    requires at <= |s|
    ensures r.Some? <==> ParseString(s[at..]).Some?
    ensures r.Some? ==> at < r.value.1 <= |s|
    ensures r.Some? ==> ParseString(s[at..]) == Some((r.value.0, s[r.value.1..]))
  {
    hide Unescape, BodyLength, Paired, Units;
    if At(s, at) != '\"' {
      return None;
    }
    assert s[at..][1..] == s[at + 1..];
    var end, len := CountLiteral(s, at + 1);
    if end.None? {
      return None;
    }
    var stop := end.value;
    assert s[at + 1..stop] == s[at..][1..][..stop - at - 1];
    BodyPaired(s[at + 1..]);
    var out := new char[len + 1];
    var written := FillLiteral(s, at + 1, stop, out);
    if written.None? {
      return None;
    }
    out[written.value] := '\0';
    assert s[at..][stop - at..] == s[stop..];
    var next := if At(s, stop) == '\"' then stop + 1 else stop;
    assert s[stop..] != "" ==> s[stop..][1..] == s[stop + 1..];
    return Some((out[..written.value], next));
  }

  // ----- print_string_ptr -----

  predicate NeedsEscape(c: char) {
    c < ' ' || c == '\"' || c == '\\'
  }

  lemma {:induction false} EscapePlain(s: string)
    requires forall i | 0 <= i < |s| :: !NeedsEscape(s[i])
    ensures Escape(s) == s
  {
    if s != [] {
      EscapePlain(s[1..]);
      assert s == [s[0]] + s[1..];
    }
  }

  lemma {:induction false} EscapeAppends(s: string, c: char)
    ensures Escape(s + [c]) == Escape(s) + EscapeChar(c)
  {
    hide EscapeChar;
    if s == [] {
      assert s + [c] == [c];
      assert Escape([c]) == EscapeChar(c) + Escape([c][1..]);
    } else {
      EscapeAppends(s[1..], c);
      assert (s + [c])[1..] == s[1..] + [c];
    }
  }

  /** The counting loop: one character each, one more for a short escape and five more for `\u00XX`. */
  method CountEscaped(s: string) returns (len: nat)
    ensures len == |Escape(s)|
  {
    hide Escape;
    EscapeEmpty();
    len := 0;
    var i := 0;
    while i < |s|
      invariant 0 <= i <= |s| && len == |Escape(s[..i])|
    {
      len := len + 1;
      if s[i] in "\"\\\U{08}\U{0c}\n\r\t" {
        len := len + 1;
      } else if s[i] < ' ' {
        len := len + 5;
      }
      EscapeAppends(s[..i], s[i]);
      assert s[..i + 1] == s[..i] + [s[i]];
      i := i + 1;
    }
    assert s[..|s|] == s;
  }

  /** Writes text into the buffer, as strcpy, memcpy and sprintf do. */
  method Put(out: array<char>, at: nat, text: string)
    requires at + |text| <= out.Length
    modifies out
    ensures out[..at] == old(out[..at])
    ensures out[..at + |text|] == old(out[..at]) + text
  {
    forall k | 0 <= k < |text| {
      out[at + k] := text[k];
    }
    assert out[..at + |text|] == out[..at] + out[at..at + |text|];
    assert out[at..at + |text|] == text;
  }

  /** Nothing to escape: the string is copied between two quotes. */
  method PrintPlain(s: string) returns (text: string)
    requires forall j | 0 <= j < |s| :: !NeedsEscape(s[j])
    ensures text == Quote(s)
  {
    EscapePlain(s);
    var out := new char[|s| + 3];
    Put(out, 0, "\"");
    Put(out, 1, s);
    Put(out, 1 + |s|, "\"");
    Put(out, 2 + |s|, "\0");
    text := out[..2 + |s|];
  }

  lemma EscapeEmpty()
    ensures Escape("") == ""
  {
  }

  lemma EscapeFirst(s: string)
    requires s != ""
    ensures Escape(s) == EscapeChar(s[0]) + Escape(s[1..])
  {
    hide EscapeChar;
  }

  lemma PlainCharEscape(c: char)
    requires !NeedsEscape(c)
    ensures EscapeChar(c) == [c]
  {
  }

  method PutEscaped(out: array<char>, at: nat, c: char) returns (p: nat)
    requires at + |EscapeChar(c)| <= out.Length
    modifies out
    ensures p == at + |EscapeChar(c)| && out[..p] == old(out[..at]) + EscapeChar(c)
  {
    hide EscapeChar;
    if c >= ' ' && c != '\"' && c != '\\' {
      PlainCharEscape(c);
      Put(out, at, [c]);
      p := at + 1;
    } else {
      Put(out, at, EscapeChar(c));
      p := at + |EscapeChar(c)|;
    }
  }

  method PrintEscaped(s: string) returns (text: string)
    ensures text == Quote(s)
  {
    hide Escape, EscapeChar;
    var len := CountEscaped(s);
    var out := new char[len + 3];
    EscapeEmpty();
    assert s[..0] == "" && s[0..] == s;
    Put(out, 0, "\"");
    var p, i := 1, 0;
    while i < |s|
      invariant 0 <= i <= |s|
      invariant p == 1 + |Escape(s[..i])| && p + |Escape(s[i..])| == len + 1
      invariant out[..p] == "\"" + Escape(s[..i])
    {
      EscapeAppends(s[..i], s[i]);
      EscapeFirst(s[i..]);
      assert s[..i + 1] == s[..i] + [s[i]];
      assert s[i..][1..] == s[i + 1..];
      p := PutEscaped(out, p, s[i]);
      i := i + 1;
    }
    assert s[..|s|] == s && s[|s|..] == "";
    Put(out, p, "\"");
    Put(out, p + 1, "\0");
    text := out[..p + 1];
  }

  method PrintStringPtr(s: string) returns (text: string)
    ensures text == Quote(s)
  {
    var flag, i := false, 0;
    while i < |s|
      invariant 0 <= i <= |s|
      invariant !flag ==> forall j | 0 <= j < i :: !NeedsEscape(s[j])
    {
      flag := flag || NeedsEscape(s[i]);
      i := i + 1;
    }
    if flag {
      text := PrintEscaped(s);
    } else {
      text := PrintPlain(s);
    }
  }
}
