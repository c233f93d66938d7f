/** JSON trees and their text: the printer and the parser of cJSON.c as functions, and the
    proof that parsing a printed tree gives the tree back. */
module JsonText {
  import opened Options
  import opened JsonStrings

  /** A cJSON item: the child lists of arrays and objects are sequences. */
  datatype Json =
    | Null
    | False
    | True
    | Number(n: int)
    | String(text: string)
    | Array(items: seq<Json>)
    | Object(members: seq<Member>)

  datatype Member = Member(name: string, value: Json)

  predicate IsInt32(n: int) {
    -0x8000_0000 <= n < 0x8000_0000
  }

  /** The trees the codec is exact for: 32-bit integers and C strings. */
  predicate Exact(v: Json) {
    match v
    case Number(n) => IsInt32(n)
    case String(s) => NulFree(s)
    case Array(items) => forall i | 0 <= i < |items| :: Exact(items[i])
    case Object(members) => forall i | 0 <= i < |members| :: NulFree(members[i].name) && Exact(members[i].value)
    case _ => true
  }

  // ----- printing -----

  function Digits(n: nat): (s: string)
    ensures |s| >= 1 && forall i | 0 <= i < |s| :: '0' <= s[i] <= '9'
    ensures n != 0 ==> s[0] != '0'
  {
    if n < 10 then [('0' as int + n) as char] else Digits(n / 10) + [('0' as int + n % 10) as char]
  }

  function PrintNumber(n: int): string {
    if n < 0 then "-" + Digits(-n) else Digits(n)
  }

  function Tabs(n: nat): string {
    seq(n, _ => '\t')
  }

  /** The white space of formatted text; unformatted text has none. */
  function Newline(fmt: bool): string { if fmt then "\n" else "" }

  function Indent(fmt: bool, depth: nat): string { if fmt then Tabs(depth) else "" }

  function Gap(fmt: bool, c: char): string { if fmt then [c] else "" }

  /** print_value, formatted or not, at a nesting depth. */
  function Print(v: Json, depth: nat, fmt: bool): (s: string)
    decreases v, 1
  {
    match v
    case Null => "null"
    case False => "false"
    case True => "true"
    case Number(n) => PrintNumber(n)
    case String(s) => Quote(s)
    case Array(items) => if items == [] then "[]" else "[" + (PrintItems(items, depth + 1, fmt) + "]")
    case Object(members) =>
      if members == [] then "{" + ((Newline(fmt) + Indent(fmt, depth)) + "}")
      else "{" + (Newline(fmt) + (PrintMembers(members, depth + 1, fmt) + (Indent(fmt, depth) + "}")))
  }

  function PrintItems(items: seq<Json>, depth: nat, fmt: bool): string
    requires items != []
    decreases items, 0
  {
    if |items| == 1 then Print(items[0], depth, fmt)
    else Print(items[0], depth, fmt) + ("," + (Gap(fmt, ' ') + PrintItems(items[1..], depth, fmt)))
  }

  function PrintMember(m: Member, depth: nat, fmt: bool): string
    decreases m, 2
  {
    Indent(fmt, depth) + (Quote(m.name) + (":" + (Gap(fmt, '\t') + Print(m.value, depth, fmt))))
  }

  function PrintMembers(members: seq<Member>, depth: nat, fmt: bool): string
    requires members != []
    decreases members, 0
  {
    if |members| == 1 then PrintMember(members[0], depth, fmt) + Newline(fmt)
    else PrintMember(members[0], depth, fmt) + ("," + (Newline(fmt) + PrintMembers(members[1..], depth, fmt)))
  }

  // ----- parsing -----

  /** NotAnInteger stands for the number texts outside the model: fractions, exponents and
      integers that do not fit 32 bits. */
  datatype Parsed<+T> = Parsed(value: T, rest: string) | Malformed | NotAnInteger

  function Skip(s: string): (r: string)
    ensures |r| <= |s|
  {
    if s != [] && '\0' < s[0] <= ' ' then Skip(s[1..]) else s
  }

  predicate IsDigit(c: char) { '0' <= c <= '9' }

  /** The digit loop of parse_number: the number read so far and the text behind it. */
  function TakeDigits(n: nat, s: string): (r: (nat, string))
    ensures |r.1| <= |s|
    ensures IsDigit(At(s, 0)) ==> |r.1| < |s|
    decreases |s|
  {
    if IsDigit(At(s, 0)) then TakeDigits(n * 10 + (s[0] as int - '0' as int), s[1..]) else (n, s)
  }

  /** Only one leading zero is read: what follows it must not start with another digit 0. */
  function TakeUnsigned(s: string): (r: (nat, string))
    ensures |r.1| <= |s|
    ensures IsDigit(At(s, 0)) ==> |r.1| < |s|
  {
    var body := if At(s, 0) == '0' then s[1..] else s;
    if '1' <= At(body, 0) <= '9' then TakeDigits(0, body) else (0, body)
  }

  function Signed(negative: bool, n: int): int {
    if negative then -n else n
  }

  function ParseNumber(s: string): (r: Parsed<Json>)
    requires At(s, 0) == '-' || IsDigit(At(s, 0))
    ensures r.Parsed? ==> |r.rest| < |s| && r.value.Number? && IsInt32(r.value.n)
  {
    var (n, rest) := TakeUnsigned(if s[0] == '-' then s[1..] else s);
    var value := Signed(s[0] == '-', n);
    if (At(rest, 0) == '.' && IsDigit(At(rest, 1))) || At(rest, 0) == 'e' || At(rest, 0) == 'E' then NotAnInteger
    else if IsInt32(value) then Parsed(Number(value), rest)
    else NotAnInteger
  }

  /** parse_value */
  function ParseValue(s: string): (r: Parsed<Json>)
    ensures r.Parsed? ==> |r.rest| < |s|
    decreases |s|, 1
  {
    if "null" <= s then Parsed(Null, s[4..])
    else if "false" <= s then Parsed(False, s[5..])
    else if "true" <= s then Parsed(True, s[4..])
    else if At(s, 0) == '\"' then
      var p := ParseString(s);
      if p.None? then Malformed else Parsed(String(p.value.0), p.value.1)
    else if At(s, 0) == '-' || IsDigit(At(s, 0)) then ParseNumber(s)
    else if At(s, 0) == '[' then ParseArray(s)
    else if At(s, 0) == '{' then ParseObject(s)
    else Malformed
  }

  /** parse_array */
  function ParseArray(s: string): (r: Parsed<Json>)
    requires At(s, 0) == '['
    ensures r.Parsed? ==> |r.rest| < |s|
    decreases |s|, 0
  {
    var t := Skip(s[1..]);
    if At(t, 0) == ']' then Parsed(Array([]), t[1..])
    else
      match ParseItems(t)
      case Parsed(items, u) => if At(u, 0) == ']' then Parsed(Array(items), u[1..]) else Malformed
      case Malformed => Malformed
      case NotAnInteger => NotAnInteger
  }

  /** parse_object */
  function ParseObject(s: string): (r: Parsed<Json>)
    requires At(s, 0) == '{'
    ensures r.Parsed? ==> |r.rest| < |s|
    decreases |s|, 0
  {
    var t := Skip(s[1..]);
    if At(t, 0) == '}' then Parsed(Object([]), t[1..])
    else
      match ParseMembers(t)
      case Parsed(members, u) => if At(u, 0) == '}' then Parsed(Object(members), u[1..]) else Malformed
      case Malformed => Malformed
      case NotAnInteger => NotAnInteger
  }

  function Consed<T>(x: T, r: Parsed<seq<T>>): Parsed<seq<T>> {
    if r.Parsed? then r.(value := [x] + r.value) else r
  }

  /** A comma that a closing bracket follows ends the list (the accepted trailing comma). */
  predicate EndsList(s: string) {
    At(s, 0) == '}' || At(s, 0) == ']'
  }

  /** The elements of parse_array: at least one value. */
  function ParseItems(s: string): (r: Parsed<seq<Json>>)
    ensures r.Parsed? ==> |r.rest| < |s|
    decreases |s|, 3
  {
    match ParseValue(Skip(s))
    case Parsed(v, r) => Consed(v, MoreItems(Skip(r)))
    case Malformed => Malformed
    case NotAnInteger => NotAnInteger
  }

  /** The comma loop behind an element; it stops at what is no comma. */
  function MoreItems(t: string): (r: Parsed<seq<Json>>)
    ensures r.Parsed? ==> |r.rest| <= |t|
    decreases |t|, 2
  {
    if At(t, 0) != ',' then Parsed([], t)
    else if EndsList(Skip(t[1..])) then Parsed([], Skip(t[1..]))
    else ParseItems(t[1..])
  }

  function ParseMember(s: string): (r: Parsed<Member>)
    ensures r.Parsed? ==> |r.rest| < |s|
    decreases |s|, 2
  {
    var p := ParseString(Skip(s));
    if p.None? then Malformed
    else
      var t := Skip(p.value.1);
      if At(t, 0) != ':' then Malformed
      else
        match ParseValue(Skip(t[1..]))
        case Parsed(v, r) => Parsed(Member(p.value.0, v), r)
        case Malformed => Malformed
        case NotAnInteger => NotAnInteger
  }

  function ParseMembers(s: string): (r: Parsed<seq<Member>>)
    ensures r.Parsed? ==> |r.rest| < |s|
    decreases |s|, 3
  {
    match ParseMember(s)
    case Parsed(m, r) => Consed(m, MoreMembers(Skip(r)))
    case Malformed => Malformed
    case NotAnInteger => NotAnInteger
  }

  function MoreMembers(t: string): (r: Parsed<seq<Member>>)
    ensures r.Parsed? ==> |r.rest| <= |t|
    decreases |t|, 2
  {
    if At(t, 0) != ',' then Parsed([], t)
    else if EndsList(Skip(t[1..])) then Parsed([], Skip(t[1..]))
    else ParseMembers(t[1..])
  }

  /** mbus_json_parse: leading blanks are skipped and text behind the value is ignored. */
  function Parse(s: string): Option<Json> {
    var r := ParseValue(Skip(s));
    if r.Parsed? then Some(r.value) else None
  }

  // ----- numbers -----

  /** What may stand behind a value: nothing a number would swallow. */
  predicate Stops(s: string) {
    !IsDigit(At(s, 0)) && At(s, 0) !in {'.', 'e', 'E'}
  }

  /** The number the digit loop holds after the digits of n, when it held acc before. */
  function Appended(acc: nat, n: nat): nat {
    if n < 10 then acc * 10 + n else Appended(acc, n / 10) * 10 + n % 10
  }

  lemma {:induction false} AppendedToZero(n: nat)
    ensures Appended(0, n) == n
    decreases n
  {
    if n >= 10 {
      AppendedToZero(n / 10);
    }
  }

  lemma TakeOneDigit(acc: nat, k: nat, tail: string)
    requires k < 10
    ensures TakeDigits(acc, [('0' as int + k) as char] + tail) == TakeDigits(acc * 10 + k, tail)
  {
    assert ([('0' as int + k) as char] + tail)[1..] == tail;
  }

  lemma {:induction false} DigitsBehind(acc: nat, n: nat, tail: string)
    ensures TakeDigits(acc, Digits(n) + tail) == TakeDigits(Appended(acc, n), tail)
    decreases n
  {
    hide TakeDigits;
    var d := [('0' as int + n % 10) as char];
    DigitsStep(acc, n);
    if n < 10 {
      TakeOneDigit(acc, n, tail);
    } else {
      hide Digits, Appended;
      DigitsBehind(acc, n / 10, d + tail);
      Regroup(Digits(n / 10), d, tail);
      TakeOneDigit(Appended(acc, n / 10), n % 10, tail);
    }
  }

  lemma DigitsStep(acc: nat, n: nat)
    ensures n < 10 ==> Digits(n) == [('0' as int + n) as char] && Appended(acc, n) == acc * 10 + n
    ensures n >= 10 ==>
      Digits(n) == Digits(n / 10) + [('0' as int + n % 10) as char] && Appended(acc, n) == Appended(acc, n / 10) * 10 + n % 10
  {
  }

  lemma UnsignedRoundTrip(m: nat, rest: string)
    requires Stops(rest)
    ensures TakeUnsigned(Digits(m) + rest) == (m, rest)
  {
    hide TakeDigits, Appended;
    if m == 0 {
      assert Digits(m) == "0" && (Digits(m) + rest)[1..] == rest;
    } else {
      var d := Digits(m);
      hide Digits;
      DigitsBehind(0, m, rest);
      AppendedToZero(m);
      assert (d + rest)[0] == d[0];
      TakeStopped(m, rest);
    }
  }

  lemma TakeStopped(n: nat, rest: string)
    requires Stops(rest)
    ensures TakeDigits(n, rest) == (n, rest)
  {
  }

  lemma NumberDispatch(s: string, m: nat, rest: string)
    requires At(s, 0) == '-' || IsDigit(At(s, 0))
    requires TakeUnsigned(if s[0] == '-' then s[1..] else s) == (m, rest)
    requires Stops(rest) && IsInt32(Signed(s[0] == '-', m))
    ensures ParseValue(s) == Parsed(Number(Signed(s[0] == '-', m)), rest)
  {
  }

  lemma NumberRoundTrip(n: int, rest: string)
    requires IsInt32(n) && Stops(rest)
    ensures ParseValue(PrintNumber(n) + rest) == Parsed(Number(n), rest)
  {
    hide ParseValue, TakeUnsigned, Digits;
    if n < 0 {
      var d := Digits(-n);
      Regroup("-", d, rest);
      assert ("-" + (d + rest))[1..] == d + rest;
      UnsignedRoundTrip(-n, rest);
      NumberDispatch(PrintNumber(n) + rest, -n, rest);
    } else {
      var d := Digits(n);
      UnsignedRoundTrip(n, rest);
      assert (d + rest)[0] == d[0] && IsDigit(d[0]);
      NumberDispatch(Digits(n) + rest, n, rest);
    }
  }

  // ----- blanks -----

  predicate Blank(s: string) {
    forall i | 0 <= i < |s| :: '\0' < s[i] <= ' '
  }

  lemma {:induction false} SkipBlank(b: string, s: string)
    requires Blank(b)
    ensures Skip(b + s) == Skip(s)
  {
    if b == [] {
      assert b + s == s;
    } else {
      SkipBlank(b[1..], s);
      assert (b + s)[1..] == b[1..] + s;
    }
  }

  lemma {:induction false} SkipTwice(s: string)
    ensures Skip(Skip(s)) == Skip(s)
  {
    if s != [] && '\0' < s[0] <= ' ' {
      SkipTwice(s[1..]);
    }
  }

  /** Both list loops start by skipping blanks. */
  lemma ListsSkip(s: string, t: string)
    requires Skip(s) == Skip(t)
    ensures ParseItems(s) == ParseItems(t) && ParseMembers(s) == ParseMembers(t)
  {
  }

  // ----- one step of the parser -----

  lemma LiteralDispatch(rest: string)
    ensures ParseValue("null" + rest) == Parsed(Null, rest)
    ensures ParseValue("false" + rest) == Parsed(False, rest)
    ensures ParseValue("true" + rest) == Parsed(True, rest)
  {
    assert ("null" + rest)[4..] == rest && ("true" + rest)[4..] == rest && ("false" + rest)[5..] == rest;
    assert ("false" + rest)[0] == 'f' && ("true" + rest)[0] == 't';
  }

  lemma BracketDispatch(s: string)
    ensures At(s, 0) == '\"' && ParseString(s).Some? ==>
            ParseValue(s) == Parsed(String(ParseString(s).value.0), ParseString(s).value.1)
    ensures At(s, 0) == '[' ==> ParseValue(s) == ParseArray(s)
    ensures At(s, 0) == '{' ==> ParseValue(s) == ParseObject(s)
  {
  }

  lemma EmptyListsParse(blank: string, rest: string)
    requires Blank(blank)
    ensures ParseValue("[]" + rest) == Parsed(Array([]), rest)
    ensures ParseValue("{" + (blank + ("}" + rest))) == Parsed(Object([]), rest)
  {
    var s, t := "[]" + rest, "{" + (blank + ("}" + rest));
    BracketDispatch(s);
    assert s[1..] == "]" + rest && ("]" + rest)[1..] == rest;
    BracketDispatch(t);
    assert t[1..] == blank + ("}" + rest) && ("}" + rest)[1..] == rest;
    SkipBlank(blank, "}" + rest);
  }

  lemma ArrayParses(body: string, items: seq<Json>, rest: string)
    requires ParseItems(body) == Parsed(items, "]" + rest) && At(Skip(body), 0) != ']'
    ensures ParseValue("[" + body) == Parsed(Array(items), rest)
  {
    BracketDispatch("[" + body);
    assert ("[" + body)[1..] == body && ("]" + rest)[1..] == rest;
    SkipTwice(body);
    ListsSkip(Skip(body), body);
  }

  lemma ObjectParses(body: string, members: seq<Member>, rest: string)
    requires ParseMembers(body) == Parsed(members, "}" + rest) && At(Skip(body), 0) != '}'
    ensures ParseValue("{" + body) == Parsed(Object(members), rest)
  {
    BracketDispatch("{" + body);
    assert ("{" + body)[1..] == body && ("}" + rest)[1..] == rest;
    SkipTwice(body);
    ListsSkip(Skip(body), body);
  }

  lemma LastItemParses(s: string, v: Json, end: string)
    requires ParseValue(s) == Parsed(v, end) && Skip(s) == s && Skip(end) == end && At(end, 0) != ','
    ensures ParseItems(s) == Parsed([v], end)
  {
    assert [v] + [] == [v];
  }

  lemma ItemParses(s: string, v: Json, blank: string, tail: string)
    requires ParseValue(s) == Parsed(v, "," + (blank + tail)) && Skip(s) == s
    requires Blank(blank) && !EndsList(Skip(tail))
    ensures ParseItems(s) == Consed(v, ParseItems(tail))
  {
    var more := "," + (blank + tail);
    assert more[1..] == blank + tail && Skip(more) == more;
    SkipBlank(blank, tail);
    ListsSkip(blank + tail, tail);
  }

  lemma MemberParses(pad: string, s: string, name: string, blank: string, value: string, v: Json, rest: string)
    requires ParseString(s) == Some((name, ":" + (blank + value))) && Skip(s) == s
    requires Blank(pad) && Blank(blank) && Skip(value) == value && ParseValue(value) == Parsed(v, rest)
    ensures ParseMember(pad + s) == Parsed(Member(name, v), rest)
  {
    var behind := ":" + (blank + value);
    assert behind[1..] == blank + value && Skip(behind) == behind;
    SkipBlank(pad, s);
    SkipBlank(blank, value);
  }

  lemma LastMemberParses(s: string, m: Member, blank: string, end: string)
    requires ParseMember(s) == Parsed(m, blank + end) && Blank(blank) && Skip(end) == end && At(end, 0) != ','
    ensures ParseMembers(s) == Parsed([m], end)
  {
    assert [m] + [] == [m];
    SkipBlank(blank, end);
  }

  lemma NextMemberParses(s: string, m: Member, blank: string, tail: string)
    requires ParseMember(s) == Parsed(m, "," + (blank + tail)) && Blank(blank) && !EndsList(Skip(tail))
    ensures ParseMembers(s) == Consed(m, ParseMembers(tail))
  {
    var more := "," + (blank + tail);
    assert more[1..] == blank + tail && Skip(more) == more;
    SkipBlank(blank, tail);
    ListsSkip(blank + tail, tail);
  }

  // ----- the pieces of a printed text -----

  lemma Regroup(a: string, b: string, c: string)
    ensures (a + b) + c == a + (b + c)
  {
  }

  lemma ArrayShape(items: seq<Json>, depth: nat, fmt: bool, rest: string)
    requires items != []
    ensures Print(Array(items), depth, fmt) + rest == "[" + (PrintItems(items, depth + 1, fmt) + ("]" + rest))
  {
    var p := PrintItems(items, depth + 1, fmt);
    assert Print(Array(items), depth, fmt) == "[" + (p + "]");
    hide *;
    Regroup("[", p + "]", rest);
    Regroup(p, "]", rest);
  }

  lemma ItemsShape(items: seq<Json>, depth: nat, fmt: bool, end: string)
    requires |items| > 1
    ensures PrintItems(items, depth, fmt) + end
         == Print(items[0], depth, fmt) + ("," + (Gap(fmt, ' ') + (PrintItems(items[1..], depth, fmt) + end)))
  {
    var p, g, r := Print(items[0], depth, fmt), Gap(fmt, ' '), PrintItems(items[1..], depth, fmt);
    assert PrintItems(items, depth, fmt) == p + ("," + (g + r));
    hide *;
    Regroup(p, "," + (g + r), end);
    Regroup(",", g + r, end);
    Regroup(g, r, end);
  }

  lemma ObjectShape(members: seq<Member>, depth: nat, fmt: bool, rest: string)
    requires members != []
    ensures Print(Object(members), depth, fmt) + rest
         == "{" + (Newline(fmt) + (PrintMembers(members, depth + 1, fmt) + (Indent(fmt, depth) + ("}" + rest))))
  {
    var n, p, i := Newline(fmt), PrintMembers(members, depth + 1, fmt), Indent(fmt, depth);
    assert Print(Object(members), depth, fmt) == "{" + (n + (p + (i + "}")));
    hide *;
    Regroup("{", n + (p + (i + "}")), rest);
    Regroup(n, p + (i + "}"), rest);
    Regroup(p, i + "}", rest);
    Regroup(i, "}", rest);
  }

  lemma EmptyObjectShape(depth: nat, fmt: bool, rest: string)
    ensures Print(Object([]), depth, fmt) + rest == "{" + ((Newline(fmt) + Indent(fmt, depth)) + ("}" + rest))
  {
    var n := Newline(fmt) + Indent(fmt, depth);
    assert Print(Object([]), depth, fmt) == "{" + (n + "}");
    hide *;
    Regroup("{", n + "}", rest);
    Regroup(n, "}", rest);
  }

  lemma MemberShape(m: Member, depth: nat, fmt: bool, rest: string)
    ensures PrintMember(m, depth, fmt) + rest
         == Indent(fmt, depth) + (Quote(m.name) + (":" + (Gap(fmt, '\t') + (Print(m.value, depth, fmt) + rest))))
  {
    var i, q, g, p := Indent(fmt, depth), Quote(m.name), Gap(fmt, '\t'), Print(m.value, depth, fmt);
    assert PrintMember(m, depth, fmt) == i + (q + (":" + (g + p)));
    hide *;
    Regroup(i, q + (":" + (g + p)), rest);
    Regroup(q, ":" + (g + p), rest);
    Regroup(":", g + p, rest);
    Regroup(g, p, rest);
  }

  lemma LastMemberShape(members: seq<Member>, depth: nat, fmt: bool, pad: string, end: string)
    requires |members| == 1
    ensures PrintMembers(members, depth, fmt) + (pad + end)
         == PrintMember(members[0], depth, fmt) + ((Newline(fmt) + pad) + end)
  {
    var p, n := PrintMember(members[0], depth, fmt), Newline(fmt);
    assert PrintMembers(members, depth, fmt) == p + n;
    hide *;
    Regroup(p, n, pad + end);
    Regroup(n, pad, end);
  }

  lemma MembersShape(members: seq<Member>, depth: nat, fmt: bool, end: string)
    requires |members| > 1
    ensures PrintMembers(members, depth, fmt) + end
         == PrintMember(members[0], depth, fmt) + ("," + (Newline(fmt) + (PrintMembers(members[1..], depth, fmt) + end)))
  {
    var p, n, r := PrintMember(members[0], depth, fmt), Newline(fmt), PrintMembers(members[1..], depth, fmt);
    assert PrintMembers(members, depth, fmt) == p + ("," + (n + r));
    hide *;
    Regroup(p, "," + (n + r), end);
    Regroup(",", n + r, end);
    Regroup(n, r, end);
  }

  // ----- the round trip -----

  /** A printed value starts with a character that is neither blank nor closes a list. */
  lemma PrintStarts(v: Json, depth: nat, fmt: bool)
    ensures Print(v, depth, fmt) != "" && Print(v, depth, fmt)[0] > ' '
    ensures Print(v, depth, fmt)[0] !in "]},"
  {
    if v.Number? {
      var m := if v.n < 0 then -v.n else v.n;
      assert '0' <= Digits(m)[0] <= '9';
    }
  }

  lemma ItemsStart(items: seq<Json>, depth: nat, fmt: bool, end: string)
    requires items != []
    ensures
      var s := PrintItems(items, depth, fmt) + end;
      s != "" && s[0] > ' ' && s[0] !in "]},"
  {
    PrintStarts(items[0], depth, fmt);
  }

  /** Parsing a printed value, formatted or not, at any depth, with anything behind it that
      cannot continue a number, gives the value and leaves what stood behind. */
  lemma {:induction false} ValueRoundTrip(v: Json, depth: nat, fmt: bool, rest: string)
    requires Exact(v) && Stops(rest)
    ensures ParseValue(Print(v, depth, fmt) + rest) == Parsed(v, rest)
    decreases v, 1
  {
    match v
    case Null => LiteralDispatch(rest);
    case False => LiteralDispatch(rest);
    case True => LiteralDispatch(rest);
    case Number(n) => NumberRoundTrip(n, rest);
    case String(text) =>
      StringRoundTrip(text, rest);
      BracketDispatch(Quote(text) + rest);
    case Array(items) => ArrayRoundTrip(items, depth, fmt, rest);
    case Object(members) => ObjectRoundTrip(members, depth, fmt, rest);
  }

  lemma {:induction false} ArrayRoundTrip(items: seq<Json>, depth: nat, fmt: bool, rest: string)
    requires Exact(Array(items)) && Stops(rest)
    ensures ParseValue(Print(Array(items), depth, fmt) + rest) == Parsed(Array(items), rest)
    decreases items, 1
  {
    if items == [] {
      EmptyListsParse("", rest);
    } else {
      ArrayShape(items, depth, fmt, rest);
      ItemsStart(items, depth + 1, fmt, "]" + rest);
      ItemsRoundTrip(items, depth + 1, fmt, "]" + rest);
      ArrayParses(PrintItems(items, depth + 1, fmt) + ("]" + rest), items, rest);
    }
  }

  lemma {:induction false} ItemsRoundTrip(items: seq<Json>, depth: nat, fmt: bool, end: string)
    requires items != [] && Exact(Array(items))
    requires end != "" && end[0] == ']'
    ensures ParseItems(PrintItems(items, depth, fmt) + end) == Parsed(items, end)
    decreases items, 0
  {
    hide ParseItems, ParseValue, Print, MoreItems;
    var s := PrintItems(items, depth, fmt) + end;
    ItemsStart(items, depth, fmt, end);
    if |items| == 1 {
      assert s == Print(items[0], depth, fmt) + end;
      ValueRoundTrip(items[0], depth, fmt, end);
      LastItemParses(s, items[0], end);
      assert items == [items[0]];
    } else {
      var tail := PrintItems(items[1..], depth, fmt) + end;
      ItemsShape(items, depth, fmt, end);
      ValueRoundTrip(items[0], depth, fmt, "," + (Gap(fmt, ' ') + tail));
      ItemsStart(items[1..], depth, fmt, end);
      ItemParses(s, items[0], Gap(fmt, ' '), tail);
      ItemsRoundTrip(items[1..], depth, fmt, end);
      assert items == [items[0]] + items[1..];
    }
  }

  lemma {:induction false} ObjectRoundTrip(members: seq<Member>, depth: nat, fmt: bool, rest: string)
    requires Exact(Object(members)) && Stops(rest)
    ensures ParseValue(Print(Object(members), depth, fmt) + rest) == Parsed(Object(members), rest)
    decreases members, 2
  {
    hide ParseValue, Print, PrintMembers, ParseMembers;
    if members == [] {
      EmptyObjectShape(depth, fmt, rest);
      EmptyListsParse(Newline(fmt) + Indent(fmt, depth), rest);
    } else {
      var pad, end := Indent(fmt, depth), "}" + rest;
      var list := PrintMembers(members, depth + 1, fmt) + (pad + end);
      ObjectShape(members, depth, fmt, rest);
      SkipBlank(Newline(fmt), list);
      ListsSkip(Newline(fmt) + list, list);
      MembersStart(members, depth + 1, fmt, pad + end);
      MembersRoundTrip(members, depth + 1, fmt, pad, end);
      ObjectParses(Newline(fmt) + list, members, rest);
    }
  }

  lemma MembersStart(members: seq<Member>, depth: nat, fmt: bool, end: string)
    requires members != []
    ensures At(Skip(PrintMembers(members, depth, fmt) + end), 0) == '\"'
  {
    if |members| == 1 {
      LastMemberShape(members, depth, fmt, "", end);
      assert "" + end == end;
      MemberStarts(members[0], depth, fmt, (Newline(fmt) + "") + end);
    } else {
      MembersShape(members, depth, fmt, end);
      MemberStarts(members[0], depth, fmt, "," + (Newline(fmt) + (PrintMembers(members[1..], depth, fmt) + end)));
    }
  }

  lemma MemberStarts(m: Member, depth: nat, fmt: bool, rest: string)
    ensures At(Skip(PrintMember(m, depth, fmt) + rest), 0) == '\"'
  {
    MemberShape(m, depth, fmt, rest);
    SkipBlank(Indent(fmt, depth), Quote(m.name) + (":" + (Gap(fmt, '\t') + (Print(m.value, depth, fmt) + rest))));
  }

  lemma {:induction false} MemberRoundTrip(m: Member, depth: nat, fmt: bool, rest: string)
    requires NulFree(m.name) && Exact(m.value) && Stops(rest)
    ensures ParseMember(PrintMember(m, depth, fmt) + rest) == Parsed(m, rest)
    decreases m, 2
  {
    var value := Print(m.value, depth, fmt) + rest;
    var behind := ":" + (Gap(fmt, '\t') + value);
    MemberShape(m, depth, fmt, rest);
    StringRoundTrip(m.name, behind);
    PrintStarts(m.value, depth, fmt);
    ValueRoundTrip(m.value, depth, fmt, rest);
    MemberParses(Indent(fmt, depth), Quote(m.name) + behind, m.name, Gap(fmt, '\t'), value, m.value, rest);
  }

  lemma PadStops(fmt: bool, pad: string, end: string)
    requires Blank(pad) && (!fmt ==> pad == "") && end != "" && end[0] == '}'
    ensures Stops((Newline(fmt) + pad) + end) && Blank(Newline(fmt) + pad) && Skip(end) == end
  {
  }

  lemma {:induction false} LastMemberRoundTrip(members: seq<Member>, depth: nat, fmt: bool, pad: string, end: string)
    requires |members| == 1 && Exact(Object(members))
    requires Blank(pad) && (!fmt ==> pad == "") && end != "" && end[0] == '}'
    ensures ParseMembers(PrintMembers(members, depth, fmt) + (pad + end)) == Parsed(members, end)
    decreases members, 0
  {
    LastMemberShape(members, depth, fmt, pad, end);
    PadStops(fmt, pad, end);
    MemberRoundTrip(members[0], depth, fmt, (Newline(fmt) + pad) + end);
    LastMemberParses(PrintMembers(members, depth, fmt) + (pad + end), members[0], Newline(fmt) + pad, end);
    assert members == [members[0]];
  }

  lemma {:induction false} MembersRoundTrip(members: seq<Member>, depth: nat, fmt: bool, pad: string, end: string)
    requires members != [] && Exact(Object(members))
    requires Blank(pad) && (!fmt ==> pad == "") && end != "" && end[0] == '}'
    ensures ParseMembers(PrintMembers(members, depth, fmt) + (pad + end)) == Parsed(members, end)
    decreases members, 1
  {
    hide ParseMembers, PrintMember, PrintMembers, MoreMembers, ParseMember;
    if |members| == 1 {
      LastMemberRoundTrip(members, depth, fmt, pad, end);
    } else {
      var tail := PrintMembers(members[1..], depth, fmt) + (pad + end);
      MembersShape(members, depth, fmt, pad + end);
      MemberRoundTrip(members[0], depth, fmt, "," + (Newline(fmt) + tail));
      MembersStart(members[1..], depth, fmt, pad + end);
      NextMemberParses(PrintMembers(members, depth, fmt) + (pad + end), members[0], Newline(fmt), tail);
      MembersRoundTrip(members[1..], depth, fmt, pad, end);
      assert members == [members[0]] + members[1..];
    }
  }

  /** Printing a tree, formatted or unformatted, and parsing the text gives the same tree. */
  lemma TreeRoundTrip(v: Json, fmt: bool)
    requires Exact(v)
    ensures Parse(Print(v, 0, fmt)) == Some(v)
  {
    var s := Print(v, 0, fmt);
    PrintStarts(v, 0, fmt);
    ValueRoundTrip(v, 0, fmt, "");
    assert s + "" == s;
  }

  // ----- every parsed tree is exact -----

  lemma {:induction false} SkipNulFree(s: string)
    requires NulFree(s)
    ensures NulFree(Skip(s))
  {
    if s != [] && '\0' < s[0] <= ' ' {
      SkipNulFree(s[1..]);
    }
  }

  lemma {:induction false} TakeDigitsNulFree(n: nat, s: string)
    requires NulFree(s)
    ensures NulFree(TakeDigits(n, s).1)
    decreases |s|
  {
    if IsDigit(At(s, 0)) {
      TakeDigitsNulFree(n * 10 + (s[0] as int - '0' as int), s[1..]);
    }
  }

  lemma ParsedStringNulFree(s: string)
    requires NulFree(s) && ParseString(s).Some?
    ensures NulFree(ParseString(s).value.0) && NulFree(ParseString(s).value.1)
  {
    UnescapeNulFree(s[1..][..BodyLength(s[1..]).value]);
  }

  ghost predicate ExactResult(r: Parsed<Json>) {
    r.Parsed? ==> Exact(r.value) && NulFree(r.rest)
  }

  lemma {:induction false} ParsedExact(s: string)
    requires NulFree(s)
    ensures ExactResult(ParseValue(s))
    decreases |s|, 0
  {
    if "null" <= s || "false" <= s || "true" <= s {
    } else if At(s, 0) == '\"' {
      if ParseString(s).Some? {
        ParsedStringNulFree(s);
      }
    } else if At(s, 0) == '-' || IsDigit(At(s, 0)) {
      var unsigned := if s[0] == '-' then s[1..] else s;
      var body := if At(unsigned, 0) == '0' then unsigned[1..] else unsigned;
      TakeDigitsNulFree(0, body);
    } else if At(s, 0) == '[' {
      SkipNulFree(s[1..]);
      ParsedItemsExact(Skip(s[1..]));
    } else if At(s, 0) == '{' {
      SkipNulFree(s[1..]);
      ParsedMembersExact(Skip(s[1..]));
    }
  }

  lemma {:induction false} ParsedItemsExact(s: string)
    requires NulFree(s)
    ensures var r := ParseItems(s); r.Parsed? ==> Exact(Array(r.value)) && NulFree(r.rest)
    decreases |s|, 1
  {
    SkipNulFree(s);
    ParsedExact(Skip(s));
    var r := ParseValue(Skip(s));
    if r.Parsed? {
      SkipNulFree(r.rest);
      var t := Skip(r.rest);
      if At(t, 0) == ',' {
        SkipNulFree(t[1..]);
        ParsedItemsExact(t[1..]);
      }
    }
  }

  lemma {:induction false} ParsedMembersExact(s: string)
    requires NulFree(s)
    ensures var r := ParseMembers(s); r.Parsed? ==> Exact(Object(r.value)) && NulFree(r.rest)
    decreases |s|, 2
  {
    hide ParseString, ParseValue;
    SkipNulFree(s);
    var p := ParseString(Skip(s));
    if p.Some? {
      ParsedStringNulFree(Skip(s));
      SkipNulFree(p.value.1);
      var t := Skip(p.value.1);
      if At(t, 0) == ':' {
        SkipNulFree(t[1..]);
        ParsedExact(Skip(t[1..]));
        var r := ParseMember(s);
        if r.Parsed? {
          SkipNulFree(r.rest);
          var u := Skip(r.rest);
          if At(u, 0) == ',' {
            SkipNulFree(u[1..]);
            ParsedMembersExact(u[1..]);
          }
        }
      }
    }
  }

  /** Whatever text was accepted, printing its tree and parsing again changes nothing. */
  lemma ParsePrintParse(s: string, fmt: bool)
    requires NulFree(s) && Parse(s).Some?
    ensures Parse(Print(Parse(s).value, 0, fmt)) == Parse(s)
  {
    SkipNulFree(s);
    ParsedExact(Skip(s));
    TreeRoundTrip(Parse(s).value, fmt);
  }

  // ----- printed texts are C strings -----

  lemma PiecesNulFree(depth: nat, fmt: bool)
    ensures NulFree(Newline(fmt)) && NulFree(Indent(fmt, depth)) && NulFree(Gap(fmt, ' ')) && NulFree(Gap(fmt, '\t'))
    ensures NulFree("{") && NulFree("}") && NulFree("[") && NulFree("]") && NulFree(",") && NulFree(":") && NulFree("-")
    ensures NulFree("[]") && NulFree("null") && NulFree("true") && NulFree("false")
  {
  }

  lemma DigitsNulFree(n: nat)
    ensures NulFree(Digits(n))
  {
    hide Digits;
    var d := Digits(n);
  }

  /** The text of a tree has no NUL in it, so it is sent whole. */
  lemma {:induction false} PrintNulFree(v: Json, depth: nat, fmt: bool)
    requires Exact(v)
    ensures NulFree(Print(v, depth, fmt))
    decreases v, 1
  {
    hide NulFree, Digits, Newline, Indent, Gap, Quote;
    PiecesNulFree(depth, fmt);
    match v
    case Number(n) =>
      DigitsNulFree(if n < 0 then -n else n);
      JoinedNulFree("-", Digits(if n < 0 then -n else n));
    case String(s) => QuoteNulFree(s);
    case Array(items) =>
      if items != [] {
        ItemsNulFree(items, depth + 1, fmt);
        JoinedNulFree(PrintItems(items, depth + 1, fmt), "]");
        JoinedNulFree("[", PrintItems(items, depth + 1, fmt) + "]");
      }
    case Object(members) =>
      if members != [] {
        MembersNulFree(members, depth + 1, fmt);
        JoinedNulFree(Indent(fmt, depth), "}");
        JoinedNulFree(PrintMembers(members, depth + 1, fmt), Indent(fmt, depth) + "}");
        JoinedNulFree(Newline(fmt), PrintMembers(members, depth + 1, fmt) + (Indent(fmt, depth) + "}"));
        JoinedNulFree("{", Newline(fmt) + (PrintMembers(members, depth + 1, fmt) + (Indent(fmt, depth) + "}")));
      } else {
        JoinedNulFree(Newline(fmt), Indent(fmt, depth));
        JoinedNulFree(Newline(fmt) + Indent(fmt, depth), "}");
        JoinedNulFree("{", (Newline(fmt) + Indent(fmt, depth)) + "}");
      }
    case _ =>
  }

  lemma {:induction false} ItemsNulFree(items: seq<Json>, depth: nat, fmt: bool)
    requires items != [] && Exact(Array(items))
    ensures NulFree(PrintItems(items, depth, fmt))
    decreases items, 0
  {
    hide NulFree, Print, Gap;
    PiecesNulFree(depth, fmt);
    PrintNulFree(items[0], depth, fmt);
    if |items| > 1 {
      var rest := items[1..];
      assert forall i | 0 <= i < |rest| :: rest[i] == items[i + 1];
      ItemsNulFree(rest, depth, fmt);
      JoinedNulFree(Gap(fmt, ' '), PrintItems(rest, depth, fmt));
      JoinedNulFree(",", Gap(fmt, ' ') + PrintItems(rest, depth, fmt));
      JoinedNulFree(Print(items[0], depth, fmt), "," + (Gap(fmt, ' ') + PrintItems(rest, depth, fmt)));
    }
  }

  lemma {:induction false} MemberNulFree(m: Member, depth: nat, fmt: bool)
    requires NulFree(m.name) && Exact(m.value)
    ensures NulFree(PrintMember(m, depth, fmt))
    decreases m, 2
  {
    hide NulFree, Print, Gap, Indent, Quote;
    PiecesNulFree(depth, fmt);
    QuoteNulFree(m.name);
    PrintNulFree(m.value, depth, fmt);
    JoinedNulFree(Gap(fmt, '\t'), Print(m.value, depth, fmt));
    JoinedNulFree(":", Gap(fmt, '\t') + Print(m.value, depth, fmt));
    JoinedNulFree(Quote(m.name), ":" + (Gap(fmt, '\t') + Print(m.value, depth, fmt)));
    JoinedNulFree(Indent(fmt, depth), Quote(m.name) + (":" + (Gap(fmt, '\t') + Print(m.value, depth, fmt))));
  }

  lemma {:induction false} MembersNulFree(members: seq<Member>, depth: nat, fmt: bool)
    requires members != [] && Exact(Object(members))
    ensures NulFree(PrintMembers(members, depth, fmt))
    decreases members, 0
  {
    hide NulFree, PrintMember, Newline;
    PiecesNulFree(depth, fmt);
    MemberNulFree(members[0], depth, fmt);
    JoinedNulFree(PrintMember(members[0], depth, fmt), Newline(fmt));
    if |members| > 1 {
      var rest := members[1..];
      assert forall i | 0 <= i < |rest| :: rest[i] == members[i + 1];
      MembersNulFree(rest, depth, fmt);
      JoinedNulFree(Newline(fmt), PrintMembers(rest, depth, fmt));
      JoinedNulFree(",", Newline(fmt) + PrintMembers(rest, depth, fmt));
      JoinedNulFree(PrintMember(members[0], depth, fmt), "," + (Newline(fmt) + PrintMembers(rest, depth, fmt)));
    }
  }
}
