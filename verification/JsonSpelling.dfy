/** Every way to spell a JSON text that the parser accepts for a tree of exact values, not only the one
    the printer chooses. */
module JsonSpelling {
  import opened Options
  import opened JsonStrings
  import opened JsonText

  // ----- every spelling of a literal -----

  /** A piece of a literal: a character that stands for itself, one of the eight short escapes, or a
      code point escaped with digits. */
  datatype Spelling = Itself(c: char) | Short(k: nat) | Coded(u: nat, literal: string)

  ghost predicate Spells(x: Spelling) {
    match x
    case Itself(c) => c !in "\"\\\0"
    case Short(k) => k < 8
    case Coded(u, literal) => SpellsScalar(literal, u)
  }

  ghost function Spelled(x: Spelling): string
    requires Spells(x)
  {
    match x
    case Itself(c) => [c]
    case Short(k) => ['\\', "bfnrt\"\\/"[k]]
    case Coded(_, literal) => literal
  }

  ghost function Meant(x: Spelling): string
    requires Spells(x)
  {
    match x
    case Itself(c) => [c]
    case Short(k) => ["\U{08}\U{0c}\n\r\t\"\\/"[k]]
    case Coded(u, _) => Utf8(u)
  }

  ghost predicate AllSpell(xs: seq<Spelling>) {
    forall i | 0 <= i < |xs| :: Spells(xs[i])
  }

  ghost function Written(xs: seq<Spelling>): string
    requires AllSpell(xs)
  {
    if xs == [] then "" else Spelled(xs[0]) + Written(xs[1..])
  }

  ghost function Meaning(xs: seq<Spelling>): string
    requires AllSpell(xs)
  {
    if xs == [] then "" else Meant(xs[0]) + Meaning(xs[1..])
  }

  lemma UnitIsPlain(e: string, u: nat, k: nat)
    requires SpellsUnit(e, u) && k < 4
    ensures e[2 + k] !in "\"\\\0"
  {
    hide IsHex, HexValue, Nibble;
    assert IsDigitFor(e[2 + k], Nibble(u, k));
    hide IsDigitFor, DigitsAt;
    HexDigits(e[2 + k]);
    HexDigitsArePlain(e[2 + k]);
  }

  lemma UnitScans(e: string, u: nat, rest: string)
    requires SpellsUnit(e, u)
    ensures BodyLength(e + rest) == Added(6, BodyLength(rest))
  {
    hide BodyLength, DigitsAt, Added;
    UnitIsPlain(e, u, 0);
    UnitIsPlain(e, u, 1);
    UnitIsPlain(e, u, 2);
    UnitIsPlain(e, u, 3);
    FourScan(e[2], e[3], e[4], e[5], rest);
    PairScans('u', [e[2], e[3], e[4], e[5]] + rest);
    assert e + rest == ['\\', 'u'] + ([e[2], e[3], e[4], e[5]] + rest);
    AddedTwice(2, 4, BodyLength(rest));
  }

  lemma PieceScans(x: Spelling, rest: string)
    requires Spells(x)
    ensures BodyLength(Spelled(x) + rest) == Added(|Spelled(x)|, BodyLength(rest))
  {
    hide BodyLength, SpellsUnit, Added;
    match x {
      case Itself(c) => PlainScans(c, rest);
      case Short(k) => PairScans("bfnrt\"\\/"[k], rest);
      case Coded(u, literal) =>
        if u < 0x10000 {
          UnitScans(literal, u, rest);
          assert |literal| == 6 by { UnitLength(literal, u); }
        } else {
          var high, low := 0xD800 + (u - 0x10000) / 0x400, 0xDC00 + (u - 0x10000) % 0x400;
          UnitScans(literal[6..], low, rest);
          UnitScans(literal[..6], high, literal[6..] + rest);
          assert literal + rest == literal[..6] + (literal[6..] + rest);
          AddedTwice(6, 6, BodyLength(rest));
        }
    }
  }

  lemma UnitLength(e: string, u: nat)
    requires SpellsUnit(e, u)
    ensures |e| == 6
  {
  }

  lemma PieceMeans(x: Spelling, rest: string)
    requires Spells(x)
    ensures Unescape(Spelled(x) + rest) == Prefixed(Meant(x), Unescape(rest))
  {
    hide Unescape, SpellsScalar, Utf8;
    match x {
      case Itself(c) => PlainUnescapes(c, rest);
      case Short(k) =>
        ShortMeans(k);
        PairUnescapes("bfnrt\"\\/"[k], "\U{08}\U{0c}\n\r\t\"\\/"[k], rest);
      case Coded(u, literal) => UnicodeLiteralDecodes(literal, u, rest);
    }
  }

  /** The short escapes, and no other letter is one. */
  lemma ShortMeans(k: nat)
    requires k < 8
    ensures SimpleEscape("bfnrt\"\\/"[k]) == Some("\U{08}\U{0c}\n\r\t\"\\/"[k]) && "bfnrt\"\\/"[k] != 'u'
  {
  }

  lemma OtherEscapesRejected(c: char, rest: string)
    requires c !in {'b', 'f', 'n', 'r', 't', '\"', '\\', '/', 'u'}
    ensures Unescape(['\\', c] + rest).None?
  {
  }

  lemma {:induction false} PiecesScan(xs: seq<Spelling>, rest: string)
    requires AllSpell(xs)
    ensures BodyLength(Written(xs) + "\"" + rest) == Some(|Written(xs)|)
  {
    hide Spells, Spelled;
    if xs == [] {
      assert Written(xs) + "\"" + rest == "\"" + rest;
    } else {
      PiecesScan(xs[1..], rest);
      var tail := Written(xs[1..]) + "\"" + rest;
      assert Written(xs) + "\"" + rest == Spelled(xs[0]) + tail;
      hide BodyLength;
      PieceScans(xs[0], tail);
    }
  }

  lemma {:induction false} PiecesMean(xs: seq<Spelling>)
    requires AllSpell(xs)
    ensures Unescape(Written(xs)) == Some(Meaning(xs))
  {
    hide Spells, Spelled, Meant;
    if xs != [] {
      PiecesMean(xs[1..]);
      hide Unescape;
      PieceMeans(xs[0], Written(xs[1..]));
    }
  }

  /** However a string is spelled, piece by piece, its literal parses to what the pieces mean. */
  lemma LiteralDecodes(xs: seq<Spelling>, rest: string)
    requires AllSpell(xs)
    ensures ParseString("\"" + Written(xs) + "\"" + rest) == Some((Meaning(xs), rest))
  {
    hide BodyLength, Unescape, Written, Meaning;
    var t, n := "\"" + Written(xs) + "\"" + rest, |Written(xs)|;
    assert t[1..] == Written(xs) + "\"" + rest;
    PiecesScan(xs, rest);
    PiecesMean(xs);
    assert t[1..][..n] == Written(xs);
    assert t[1 + n..] == "\"" + rest;
    assert ("\"" + rest)[1..] == rest;
  }

  // ----- every spelling of a tree -----

  /** A tree as it may be written: numbers with a sign or a leading zero, strings piece by piece, blanks
      between all tokens, and a comma behind the last entry of a list. */
  datatype Spelt =
    | Word(k: nat)
    | Numeral(negative: bool, zero: bool, n: nat)
    | Quoted(pieces: seq<Spelling>)
    | Listed(elements: seq<Element>, comma: bool, gap: string)
    | Structured(entries: seq<Entry>, comma: bool, gap: string)

  datatype Element = Element(before: string, value: Spelt, after: string)

  datatype Entry = Entry(before: string, name: seq<Spelling>, colon: string, gap: string, value: Spelt, after: string)

  ghost predicate Fine(t: Spelt) {
    match t
    case Word(k) => k < 3
    case Numeral(negative, zero, n) => IsInt32(Signed(negative, n)) && (zero ==> n > 0)
    case Quoted(pieces) => AllSpell(pieces)
    case Listed(elements, _, gap) =>
      Blank(gap) && forall i | 0 <= i < |elements| :: Blank(elements[i].before) && Blank(elements[i].after) && Fine(elements[i].value)
    case Structured(entries, _, gap) =>
      Blank(gap) && forall i | 0 <= i < |entries| ::
        Blank(entries[i].before) && AllSpell(entries[i].name) && Blank(entries[i].colon) && Blank(entries[i].gap)
        && Blank(entries[i].after) && Fine(entries[i].value)
  }

  /** The tree that is meant. */
  ghost function Value(t: Spelt): Json
    requires Fine(t)
  {
    match t
    case Word(k) => [Null, False, True][k]
    case Numeral(negative, _, n) => Number(Signed(negative, n))
    case Quoted(pieces) => String(Meaning(pieces))
    case Listed(elements, _, _) => Array(seq(|elements|, i requires 0 <= i < |elements| => Value(elements[i].value)))
    case Structured(entries, _, _) =>
      Object(seq(|entries|, i requires 0 <= i < |entries| => Member(Meaning(entries[i].name), Value(entries[i].value))))
  }

  /** What closes a list, perhaps with a comma in front, and the text behind. */
  function Closing(comma: bool, gap: string, bracket: char, rest: string): string {
    if comma then "," + (gap + ([bracket] + rest)) else [bracket] + rest
  }

  /** The text of the tree, in front of a rest. */
  ghost function Put(t: Spelt, rest: string): string
    requires Fine(t)
    decreases t, 1
  {
    match t
    case Word(k) => ["null", "false", "true"][k] + rest
    case Numeral(negative, zero, n) => (if negative then "-" else "") + ((if zero then "0" else "") + (Digits(n) + rest))
    case Quoted(pieces) => "\"" + Written(pieces) + "\"" + rest
    case Listed(elements, comma, gap) =>
      if elements == [] then "[" + (gap + ("]" + rest)) else "[" + PutElements(elements, Closing(comma, gap, ']', rest))
    case Structured(entries, comma, gap) =>
      if entries == [] then "{" + (gap + ("}" + rest)) else "{" + PutEntries(entries, Closing(comma, gap, '}', rest))
  }

  ghost predicate FineElements(es: seq<Element>) {
    forall i | 0 <= i < |es| :: Blank(es[i].before) && Blank(es[i].after) && Fine(es[i].value)
  }

  ghost predicate FineEntries(es: seq<Entry>) {
    forall i | 0 <= i < |es| ::
      Blank(es[i].before) && AllSpell(es[i].name) && Blank(es[i].colon) && Blank(es[i].gap) && Blank(es[i].after) && Fine(es[i].value)
  }

  ghost function PutElements(es: seq<Element>, end: string): string
    requires es != [] && FineElements(es)
    decreases es, 0
  {
    var behind := if |es| == 1 then end else "," + PutElements(es[1..], end);
    es[0].before + Put(es[0].value, es[0].after + behind)
  }

  ghost function PutEntries(es: seq<Entry>, end: string): string
    requires es != [] && FineEntries(es)
    decreases es, 0
  {
    var behind := if |es| == 1 then end else "," + PutEntries(es[1..], end);
    es[0].before + ("\"" + Written(es[0].name) + "\"" + (es[0].colon + (":" + (es[0].gap + Put(es[0].value, es[0].after + behind)))))
  }

  ghost function Values(es: seq<Element>): seq<Json>
    requires FineElements(es)
  {
    seq(|es|, i requires 0 <= i < |es| => Value(es[i].value))
  }

  ghost function MembersOf(es: seq<Entry>): seq<Member>
    requires FineEntries(es)
  {
    seq(|es|, i requires 0 <= i < |es| => Member(Meaning(es[i].name), Value(es[i].value)))
  }

  // ----- what stands behind -----

  lemma SkipNothing(s: string)
    requires s != "" && s[0] > ' '
    ensures Skip(s) == s
  {
  }

  lemma BehindStops(after: string, end: string)
    requires Blank(after) && end != "" && end[0] in {',', ']', '}'}
    ensures Stops(after + end) && Skip(after + end) == end
  {
    SkipBlank(after, end);
    SkipNothing(end);
  }

  lemma ClosingSkips(comma: bool, gap: string, bracket: char, rest: string)
    requires Blank(gap) && bracket in {']', '}'}
    ensures
      var c := Closing(comma, gap, bracket, rest);
      && c != "" && c[0] in {',', bracket} && (c[0] == ',' <==> comma)
      && (comma ==> Skip(c[1..]) == [bracket] + rest) && (!comma ==> c == [bracket] + rest)
  {
    SkipBlank(gap, [bracket] + rest);
    SkipNothing([bracket] + rest);
    if comma {
      assert Closing(comma, gap, bracket, rest)[1..] == gap + ([bracket] + rest);
    }
  }

  /** The comma loops stop in front of the bracket. */
  lemma ClosingEnds(comma: bool, gap: string, bracket: char, rest: string)
    requires Blank(gap) && bracket in {']', '}'}
    ensures MoreItems(Closing(comma, gap, bracket, rest)) == Parsed([], [bracket] + rest)
    ensures MoreMembers(Closing(comma, gap, bracket, rest)) == Parsed([], [bracket] + rest)
  {
    hide ParseItems, ParseMembers;
    ClosingSkips(comma, gap, bracket, rest);
  }

  /** Behind a comma, the comma loops go on with an entry. */
  lemma CommaGoesOn(tail: string)
    requires !EndsList(Skip(tail))
    ensures MoreItems("," + tail) == ParseItems(tail) && MoreMembers("," + tail) == ParseMembers(tail)
  {
    hide ParseItems, ParseMembers;
    assert ("," + tail)[1..] == tail;
  }

  lemma OneItem(before: string, s: string, v: Json, after: string, behind: string)
    requires Blank(before) && Blank(after) && s != "" && s[0] > ' ' && ParseValue(s) == Parsed(v, after + behind)
    requires behind != "" && behind[0] in {',', ']', '}'}
    ensures ParseItems(before + s) == Consed(v, MoreItems(behind))
  {
    hide ParseValue, MoreItems;
    SkipBlank(before, s);
    SkipNothing(s);
    BehindStops(after, behind);
  }

  lemma OneEntry(before: string, s: string, name: string, colon: string, gap: string, value: string, v: Json, after: string, behind: string)
    requires Blank(before) && Blank(colon) && Blank(gap) && Blank(after)
    requires s != "" && s[0] > ' ' && ParseString(s) == Some((name, colon + (":" + (gap + value))))
    requires value != "" && value[0] > ' ' && ParseValue(value) == Parsed(v, after + behind)
    requires behind != "" && behind[0] in {',', ']', '}'}
    ensures ParseMembers(before + s) == Consed(Member(name, v), MoreMembers(behind))
  {
    hide ParseValue, MoreMembers, ParseString;
    SkipBlank(before, s);
    SkipNothing(s);
    SkipBlank(colon, ":" + (gap + value));
    SkipNothing(":" + (gap + value));
    assert (":" + (gap + value))[1..] == gap + value;
    SkipBlank(gap, value);
    SkipNothing(value);
    BehindStops(after, behind);
    assert ParseMember(before + s) == Parsed(Member(name, v), after + behind);
  }

  // ----- the parser reads every spelling -----

  lemma PutStarts(t: Spelt, rest: string)
    requires Fine(t)
    ensures Put(t, rest) != "" && Put(t, rest)[0] > ' ' && Put(t, rest)[0] !in {']', '}', ','}
  {
    match t
    case Numeral(negative, zero, n) => assert '0' <= Digits(n)[0] <= '9';
    case _ =>
  }

  lemma NumeralParses(negative: bool, zero: bool, n: nat, rest: string)
    requires IsInt32(Signed(negative, n)) && (zero ==> n > 0) && Stops(rest)
    ensures ParseValue((if negative then "-" else "") + ((if zero then "0" else "") + (Digits(n) + rest)))
         == Parsed(Number(Signed(negative, n)), rest)
  {
    hide ParseValue, TakeUnsigned;
    var d := Digits(n);
    assert IsDigit(d[0]);
    hide Digits;
    var u := (if zero then "0" else "") + (d + rest);
    UnsignedRoundTrip(n, rest);
    if zero {
      LeadingZero(n, rest);
    } else {
      assert u == d + rest;
    }
    assert u != "" && IsDigit(u[0]);
    if negative {
      assert ("-" + u)[1..] == u;
      NumberDispatch("-" + u, n, rest);
    } else {
      assert "" + u == u;
      NumberDispatch(u, n, rest);
    }
  }

  lemma LeadingZero(n: nat, rest: string)
    requires n > 0 && Stops(rest)
    ensures TakeUnsigned("0" + (Digits(n) + rest)) == (n, rest)
  {
    hide TakeDigits;
    var d := Digits(n);
    UnsignedRoundTrip(n, rest);
    assert ("0" + (d + rest))[1..] == d + rest && (d + rest)[0] == d[0];
  }

  lemma {:induction false} PutParses(t: Spelt, rest: string)
    requires Fine(t) && Stops(rest)
    ensures ParseValue(Put(t, rest)) == Parsed(Value(t), rest)
    decreases t, 3
  {
    match t
    case Word(k) => LiteralDispatch(rest);
    case Numeral(negative, zero, n) => NumeralParses(negative, zero, n, rest);
    case Quoted(pieces) =>
      LiteralDecodes(pieces, rest);
      BracketDispatch(Put(t, rest));
    case Listed(elements, comma, gap) => ListParses(elements, comma, gap, rest);
    case Structured(entries, comma, gap) => StructureParses(entries, comma, gap, rest);
  }

  lemma {:induction false} ListParses(es: seq<Element>, comma: bool, gap: string, rest: string)
    requires Fine(Listed(es, comma, gap)) && FineElements(es)
    ensures ParseValue(Put(Listed(es, comma, gap), rest)) == Parsed(Value(Listed(es, comma, gap)), rest)
    decreases es, 2
  {
    hide ParseItems, Put, Value;
    ValueIs(es, [], comma, gap);
    if es == [] {
      assert Values(es) == [];
      var s := "[" + (gap + ("]" + rest));
      assert Put(Listed(es, comma, gap), rest) == s by { PutEmpty(es, [], comma, gap, rest); }
      BracketDispatch(s);
      assert s[1..] == gap + ("]" + rest) && ("]" + rest)[1..] == rest;
      SkipBlank(gap, "]" + rest);
      SkipNothing("]" + rest);
    } else {
      var body := PutElements(es, Closing(comma, gap, ']', rest));
      assert Put(Listed(es, comma, gap), rest) == "[" + body by { PutFull(es, [], comma, gap, rest); }
      ElementsParse(es, comma, gap, rest);
      ArrayParses(body, Values(es), rest);
    }
  }

  lemma PutEmpty(es: seq<Element>, fs: seq<Entry>, comma: bool, gap: string, rest: string)
    requires Blank(gap)
    ensures es == [] ==> Put(Listed(es, comma, gap), rest) == "[" + (gap + ("]" + rest))
    ensures fs == [] ==> Put(Structured(fs, comma, gap), rest) == "{" + (gap + ("}" + rest))
  {
  }

  lemma PutFull(es: seq<Element>, fs: seq<Entry>, comma: bool, gap: string, rest: string)
    requires Blank(gap) && FineElements(es) && FineEntries(fs)
    ensures es != [] ==> Put(Listed(es, comma, gap), rest) == "[" + PutElements(es, Closing(comma, gap, ']', rest))
    ensures fs != [] ==> Put(Structured(fs, comma, gap), rest) == "{" + PutEntries(fs, Closing(comma, gap, '}', rest))
  {
    hide PutElements, PutEntries, Closing;
  }

  lemma ValueIs(es: seq<Element>, fs: seq<Entry>, comma: bool, gap: string)
    requires Blank(gap) && FineElements(es) && FineEntries(fs)
    ensures Value(Listed(es, comma, gap)) == Array(Values(es)) && Value(Structured(fs, comma, gap)) == Object(MembersOf(fs))
  {
    hide Blank, Meaning, AllSpell;
  }

  lemma {:induction false} ElementParses(x: Element, behind: string)
    requires Blank(x.before) && Blank(x.after) && Fine(x.value) && behind != "" && behind[0] in {',', ']'}
    ensures ParseItems(x.before + Put(x.value, x.after + behind)) == Consed(Value(x.value), MoreItems(behind))
    ensures At(Skip(x.before + Put(x.value, x.after + behind)), 0) !in {']', '}'}
    decreases x, 0
  {
    hide ParseItems, ParseValue, Put, MoreItems, Value, Fine;
    BehindStops(x.after, behind);
    PutParses(x.value, x.after + behind);
    PutStarts(x.value, x.after + behind);
    OneItem(x.before, Put(x.value, x.after + behind), Value(x.value), x.after, behind);
    SkipBlank(x.before, Put(x.value, x.after + behind));
    SkipNothing(Put(x.value, x.after + behind));
  }

  lemma {:induction false} ElementsParse(es: seq<Element>, comma: bool, gap: string, rest: string)
    requires es != [] && FineElements(es) && Blank(gap)
    ensures ParseItems(PutElements(es, Closing(comma, gap, ']', rest))) == Parsed(Values(es), "]" + rest)
    ensures At(Skip(PutElements(es, Closing(comma, gap, ']', rest))), 0) !in {']', '}'}
    decreases es, 1
  {
    hide ParseItems, ParseValue, Put, Closing, MoreItems, Value, Fine, Blank, Skip;
    var end := Closing(comma, gap, ']', rest);
    ClosingSkips(comma, gap, ']', rest);
    if |es| == 1 {
      ElementParses(es[0], end);
      ClosingEnds(comma, gap, ']', rest);
      assert Values(es) == [Value(es[0].value)] + [];
    } else {
      ElementParses(es[0], "," + PutElements(es[1..], end));
      ElementsParse(es[1..], comma, gap, rest);
      CommaGoesOn(PutElements(es[1..], end));
      assert Values(es) == [Value(es[0].value)] + Values(es[1..]);
    }
  }

  lemma {:induction false} StructureParses(es: seq<Entry>, comma: bool, gap: string, rest: string)
    requires Fine(Structured(es, comma, gap)) && FineEntries(es)
    ensures ParseValue(Put(Structured(es, comma, gap), rest)) == Parsed(Value(Structured(es, comma, gap)), rest)
    decreases es, 2
  {
    hide ParseMembers, Put, Value;
    ValueIs([], es, comma, gap);
    if es == [] {
      assert MembersOf(es) == [];
      assert Put(Structured(es, comma, gap), rest) == "{" + (gap + ("}" + rest)) by { PutEmpty([], es, comma, gap, rest); }
      EmptyListsParse(gap, rest);
    } else {
      var body := PutEntries(es, Closing(comma, gap, '}', rest));
      assert Put(Structured(es, comma, gap), rest) == "{" + body by { PutFull([], es, comma, gap, rest); }
      EntriesParse(es, comma, gap, rest);
      ObjectParses(body, MembersOf(es), rest);
    }
  }

  /** One entry, with what stands behind it. */
  ghost function PutEntry(x: Entry, behind: string): string
    requires AllSpell(x.name) && Fine(x.value)
  {
    x.before + ("\"" + Written(x.name) + "\"" + (x.colon + (":" + (x.gap + Put(x.value, x.after + behind)))))
  }

  lemma {:induction false} EntryParses(x: Entry, behind: string)
    requires Blank(x.before) && AllSpell(x.name) && Blank(x.colon) && Blank(x.gap) && Blank(x.after) && Fine(x.value)
    requires behind != "" && behind[0] in {',', '}'}
    ensures ParseMembers(PutEntry(x, behind)) == Consed(Member(Meaning(x.name), Value(x.value)), MoreMembers(behind))
    ensures At(Skip(PutEntry(x, behind)), 0) !in {']', '}'}
    decreases x, 0
  {
    hide ParseMembers, ParseValue, Put, MoreMembers, Value, ParseString, Written, Meaning, Fine, AllSpell;
    BehindStops(x.after, behind);
    var value := Put(x.value, x.after + behind);
    PutParses(x.value, x.after + behind);
    PutStarts(x.value, x.after + behind);
    var more := x.colon + (":" + (x.gap + value));
    var s := "\"" + Written(x.name) + "\"" + more;
    LiteralDecodes(x.name, more);
    OneEntry(x.before, s, Meaning(x.name), x.colon, x.gap, value, Value(x.value), x.after, behind);
    SkipBlank(x.before, s);
    SkipNothing(s);
  }

  lemma {:induction false} EntriesParse(es: seq<Entry>, comma: bool, gap: string, rest: string)
    requires es != [] && FineEntries(es) && Blank(gap)
    ensures ParseMembers(PutEntries(es, Closing(comma, gap, '}', rest))) == Parsed(MembersOf(es), "}" + rest)
    ensures At(Skip(PutEntries(es, Closing(comma, gap, '}', rest))), 0) !in {']', '}'}
    decreases es, 1
  {
    hide ParseMembers, ParseValue, Put, Closing, MoreMembers, Value, Fine, Blank, Skip, AllSpell, Written, Meaning;
    var end := Closing(comma, gap, '}', rest);
    ClosingSkips(comma, gap, '}', rest);
    if |es| == 1 {
      EntryParses(es[0], end);
      assert PutEntries(es, end) == PutEntry(es[0], end);
      ClosingEnds(comma, gap, '}', rest);
      assert MembersOf(es) == [Member(Meaning(es[0].name), Value(es[0].value))] + [];
    } else {
      var behind := "," + PutEntries(es[1..], end);
      EntryParses(es[0], behind);
      assert PutEntries(es, end) == PutEntry(es[0], behind);
      EntriesParse(es[1..], comma, gap, rest);
      CommaGoesOn(PutEntries(es[1..], end));
      assert MembersOf(es) == [Member(Meaning(es[0].name), Value(es[0].value))] + MembersOf(es[1..]);
    }
  }

  /** However a tree is written, with blanks in front and anything behind that no number would swallow, the
      text parses to the tree. */
  lemma SpellingParses(t: Spelt, blank: string, rest: string)
    requires Fine(t) && Blank(blank) && Stops(rest)
    ensures Parse(blank + Put(t, rest)) == Some(Value(t))
  {
    hide ParseValue, Put, Value;
    PutParses(t, rest);
    PutStarts(t, rest);
    SkipBlank(blank, Put(t, rest));
    SkipNothing(Put(t, rest));
  }
}
