/** The printer and the parser of cJSON.c as they run: the printer collects the printed entries,
    allocates the length it added up and fills that buffer; the parser moves an index over the
    text and appends to the list of children. */
module JsonTextCode {
  import opened Options
  import opened JsonStrings
  import opened JsonStringCode
  import opened JsonText

  // ----- printing -----

  /** What the loop of print_array adds to len for the items. */
  function ItemsRoom(items: seq<Json>, depth: nat, fmt: bool): nat {
    if items == [] then 0
    else |Print(items[0], depth, fmt)| + 2 + |Gap(fmt, ' ')| + ItemsRoom(items[1..], depth, fmt)
  }

  /** What the loop of print_object adds to len for the members; depth counts the members' level. */
  function MembersRoom(members: seq<Member>, depth: nat, fmt: bool): nat {
    if members == [] then 0
    else |Print(members[0].value, depth, fmt)| + |Quote(members[0].name)| + 2 + (if fmt then 2 + depth else 0)
         + MembersRoom(members[1..], depth, fmt)
  }

  method PrintValue(v: Json, depth: nat, fmt: bool) returns (text: string)
    ensures text == Print(v, depth, fmt)
    decreases v, 1
  {
    match v
    case Null => text := "null";
    case False => text := "false";
    case True => text := "true";
    case Number(n) => text := PrintNumber(n);
    case String(s) => text := PrintStringPtr(s);
    case Array(items) => text := PrintArray(items, depth, fmt);
    case Object(members) => text := PrintObject(members, depth, fmt);
  }

  method PrintArray(items: seq<Json>, depth: nat, fmt: bool) returns (text: string)
    ensures text == Print(Array(items), depth, fmt)
    decreases items, 0
  {
    if items == [] {
      return "[]";
    }
    var entries: seq<string>, len, i := [], 5, 0;
    assert items[0..] == items && items[|items|..] == [];
    EmptyRoom(depth + 1, fmt);
    while i < |items|
      invariant 0 <= i <= |items| && |entries| == i
      invariant forall j | 0 <= j < i :: entries[j] == Print(items[j], depth + 1, fmt)
      invariant len + ItemsRoom(items[i..], depth + 1, fmt) == 5 + ItemsRoom(items, depth + 1, fmt)
    {
      var entry := PrintValue(items[i], depth + 1, fmt);
      entries := entries + [entry];
      len := len + |entry| + 2 + (if fmt then 1 else 0);
      assert items[i..][1..] == items[i + 1..];
      i := i + 1;
    }
    text := ComposeArray(items, entries, len, depth, fmt);
  }

  /** The text of the items from i on. */
  function ItemsFrom(items: seq<Json>, i: nat, depth: nat, fmt: bool): string
    requires i <= |items|
  {
    if i == |items| then "" else PrintItems(items[i..], depth, fmt)
  }

  function Comma(last: bool, fmt: bool): string {
    if last then "" else "," + Gap(fmt, ' ')
  }

  lemma ItemsAt(items: seq<Json>, i: nat, depth: nat, fmt: bool)
    requires i < |items|
    ensures ItemsRoom(items[i..], depth, fmt)
         == |Print(items[i], depth, fmt)| + 2 + |Gap(fmt, ' ')| + ItemsRoom(items[i + 1..], depth, fmt)
    ensures ItemsFrom(items, i, depth, fmt)
         == Print(items[i], depth, fmt) + Comma(i == |items| - 1, fmt) + ItemsFrom(items, i + 1, depth, fmt)
  {
    assert items[i..][1..] == items[i + 1..];
  }

  /** One turn of the loop: an entry and the comma behind it. */
  method PutItem(out: array<char>, at: nat, entry: string, last: bool, fmt: bool) returns (p: nat)
    requires at + |entry| + 2 + |Gap(fmt, ' ')| <= out.Length
    modifies out
    ensures p == at + |entry| + |Comma(last, fmt)|
    ensures out[..p] == old(out[..at]) + (entry + Comma(last, fmt))
  {
    p := at;
    Put(out, p, entry);
    p := p + |entry|;
    if !last {
      Put(out, p, ",");
      p := p + 1;
      Put(out, p, Gap(fmt, ' '));
      p := p + |Gap(fmt, ' ')|;
    }
  }

  lemma ItemsEnds(items: seq<Json>, depth: nat, fmt: bool)
    requires items != []
    ensures ItemsFrom(items, 0, depth, fmt) == PrintItems(items, depth, fmt)
    ensures ItemsFrom(items, |items|, depth, fmt) == "" && ItemsRoom(items[|items|..], depth, fmt) == 0
  {
    assert items[0..] == items;
  }

  /** The loop that copies the entries behind the opening bracket. */
  method FillItems(out: array<char>, items: seq<Json>, entries: seq<string>, depth: nat, fmt: bool) returns (p: nat)
    requires items != [] && |entries| == |items| && 1 + ItemsRoom(items, depth, fmt) <= out.Length
    requires forall j | 0 <= j < |items| :: entries[j] == Print(items[j], depth, fmt)
    modifies out
    ensures 1 <= p <= 1 + ItemsRoom(items, depth, fmt)
    ensures out[..p] == old(out[..1]) + PrintItems(items, depth, fmt)
  {
    hide ItemsRoom, PrintItems, ItemsFrom;
    var i: nat := 0;
    p := 1;
    ghost var whole := old(out[..1]) + PrintItems(items, depth, fmt);
    assert items[0..] == items;
    ItemsEnds(items, depth, fmt);
    while i < |items|
      invariant i <= |items| && 1 <= p
      invariant p + ItemsRoom(items[i..], depth, fmt) <= 1 + ItemsRoom(items, depth, fmt)
      invariant whole == out[..p] + ItemsFrom(items, i, depth, fmt)
    {
      ItemsAt(items, i, depth, fmt);
      Regroup(out[..p], entries[i] + Comma(i == |items| - 1, fmt), ItemsFrom(items, i + 1, depth, fmt));
      p := PutItem(out, p, entries[i], i == |items| - 1, fmt);
      i := i + 1;
    }
  }

  method ComposeArray(items: seq<Json>, entries: seq<string>, len: nat, depth: nat, fmt: bool) returns (text: string)
    requires items != [] && |entries| == |items| && len == 5 + ItemsRoom(items, depth + 1, fmt)
    requires forall j | 0 <= j < |items| :: entries[j] == Print(items[j], depth + 1, fmt)
    ensures text == "[" + (PrintItems(items, depth + 1, fmt) + "]")
  {
    hide Print, PrintItems, ItemsRoom;
    var out := new char[len];
    Put(out, 0, "[");
    var p := FillItems(out, items, entries, depth + 1, fmt);
    Put(out, p, "]");
    Put(out, p + 1, "\0");
    text := out[..p + 1];
    Regroup("[", PrintItems(items, depth + 1, fmt), "]");
  }

  method PrintObject(members: seq<Member>, depth: nat, fmt: bool) returns (text: string)
    ensures text == Print(Object(members), depth, fmt)
    decreases members, 1
  {
    if members == [] {
      text := ComposeEmptyObject(depth, fmt);
    } else {
      hide Print;
      var names, entries, len := CollectMembers(members, depth + 1, fmt);
      text := ComposeObject(members, names, entries, len, depth, fmt);
      NonEmptyObject(members, depth, fmt);
    }
  }

  /** The loop that prints names and values and adds up their lengths. */
  method CollectMembers(members: seq<Member>, depth: nat, fmt: bool)
    returns (names: seq<string>, entries: seq<string>, len: nat)
    ensures |names| == |members| && |entries| == |members|
    ensures forall j | 0 <= j < |members| ::
      names[j] == Quote(members[j].name) && entries[j] == Print(members[j].value, depth, fmt)
    ensures len == 7 + |Indent(fmt, depth)| + MembersRoom(members, depth, fmt)
    decreases members, 0
  {
    hide Print, MembersRoom, Quote;
    names, entries, len := [], [], 7 + (if fmt then depth else 0);
    var i := 0;
    assert members[0..] == members && members[|members|..] == [];
    EmptyRoom(depth, fmt);
    while i < |members|
      invariant 0 <= i <= |members| && |names| == i && |entries| == i
      invariant forall j | 0 <= j < i ::
        names[j] == Quote(members[j].name) && entries[j] == Print(members[j].value, depth, fmt)
      invariant len + MembersRoom(members[i..], depth, fmt) == 7 + |Indent(fmt, depth)| + MembersRoom(members, depth, fmt)
    {
      MembersRoomAt(members, i, depth, fmt);
      var name := PrintStringPtr(members[i].name);
      var entry := PrintValue(members[i].value, depth, fmt);
      names, entries := names + [name], entries + [entry];
      len := len + |entry| + |name| + 2 + (if fmt then 2 + depth else 0);
      i := i + 1;
    }
  }

  lemma EmptyRoom(depth: nat, fmt: bool)
    ensures MembersRoom([], depth, fmt) == 0 && ItemsRoom([], depth, fmt) == 0
  {
  }

  lemma NonEmptyObject(members: seq<Member>, depth: nat, fmt: bool)
    requires members != []
    ensures Print(Object(members), depth, fmt)
         == "{" + (Newline(fmt) + (PrintMembers(members, depth + 1, fmt) + (Indent(fmt, depth) + "}")))
  {
  }

  lemma MembersRoomAt(members: seq<Member>, i: nat, depth: nat, fmt: bool)
    requires i < |members|
    ensures MembersRoom(members[i..], depth, fmt)
         == |Print(members[i].value, depth, fmt)| + |Quote(members[i].name)| + 2 + (if fmt then 2 + depth else 0)
            + MembersRoom(members[i + 1..], depth, fmt)
  {
    assert members[i..][1..] == members[i + 1..];
  }

  method ComposeEmptyObject(depth: nat, fmt: bool) returns (text: string)
    ensures text == Print(Object([]), depth, fmt)
  {
    var out := new char[if fmt then depth + 4 else 3];
    Put(out, 0, "{");
    var p := 1;
    if fmt {
      Put(out, p, "\n");
      Put(out, p + 1, Tabs(depth));
      p := p + 1 + depth;
    }
    Put(out, p, "}");
    Put(out, p + 1, "\0");
    text := out[..p + 1];
  }

  /** The text of the members from i on. */
  function MembersFrom(members: seq<Member>, i: nat, depth: nat, fmt: bool): string
    requires i <= |members|
  {
    if i == |members| then "" else PrintMembers(members[i..], depth, fmt)
  }

  lemma MembersAt(members: seq<Member>, i: nat, depth: nat, fmt: bool)
    requires i < |members|
    ensures MembersRoom(members[i..], depth, fmt)
         == |Print(members[i].value, depth, fmt)| + |Quote(members[i].name)| + 2 + (if fmt then 2 + depth else 0)
            + MembersRoom(members[i + 1..], depth, fmt)
    ensures MembersFrom(members, i, depth, fmt)
         == (PrintMember(members[i], depth, fmt) + (if i == |members| - 1 then "" else ",") + Newline(fmt))
            + MembersFrom(members, i + 1, depth, fmt)
  {
    assert members[i..][1..] == members[i + 1..];
  }

  lemma MembersEnds(members: seq<Member>, depth: nat, fmt: bool)
    requires members != []
    ensures MembersFrom(members, 0, depth, fmt) == PrintMembers(members, depth, fmt)
    ensures MembersFrom(members, |members|, depth, fmt) == "" && MembersRoom(members[|members|..], depth, fmt) == 0
  {
    assert members[0..] == members;
  }

  /** The loop that copies names and entries behind the opening bracket. */
  method FillMembers(out: array<char>, start: nat, members: seq<Member>, names: seq<string>, entries: seq<string>,
                     depth: nat, fmt: bool)
    returns (p: nat)
    requires members != [] && |names| == |members| && |entries| == |members|
    requires start + MembersRoom(members, depth, fmt) + |Indent(fmt, depth)| <= out.Length
    requires forall j | 0 <= j < |members| ::
      names[j] == Quote(members[j].name) && entries[j] == Print(members[j].value, depth, fmt)
    modifies out
    ensures start <= p <= start + MembersRoom(members, depth, fmt)
    ensures out[..p] == old(out[..start]) + PrintMembers(members, depth, fmt)
  {
    hide MembersRoom, PrintMembers, MembersFrom;
    var i: nat := 0;
    p := start;
    ghost var whole := old(out[..start]) + PrintMembers(members, depth, fmt);
    assert members[0..] == members;
    MembersEnds(members, depth, fmt);
    while i < |members|
      invariant i <= |members| && start <= p
      invariant p + MembersRoom(members[i..], depth, fmt) <= start + MembersRoom(members, depth, fmt)
      invariant whole == out[..p] + MembersFrom(members, i, depth, fmt)
    {
      MembersAt(members, i, depth, fmt);
      Regroup(out[..p], PrintMember(members[i], depth, fmt) + (if i == |members| - 1 then "" else ",") + Newline(fmt),
              MembersFrom(members, i + 1, depth, fmt));
      p := PutMember(out, p, names[i], entries[i], i == |members| - 1, depth, fmt);
      i := i + 1;
    }
  }

  method ComposeObject(members: seq<Member>, names: seq<string>, entries: seq<string>, len: nat, depth: nat, fmt: bool)
    returns (text: string)
    requires members != [] && |names| == |members| && |entries| == |members|
    requires len == 7 + |Indent(fmt, depth + 1)| + MembersRoom(members, depth + 1, fmt)
    requires forall j | 0 <= j < |members| ::
      names[j] == Quote(members[j].name) && entries[j] == Print(members[j].value, depth + 1, fmt)
    ensures text == "{" + (Newline(fmt) + (PrintMembers(members, depth + 1, fmt) + (Indent(fmt, depth) + "}")))
  {
    var out := new char[len];
    Put(out, 0, "{");
    Put(out, 1, Newline(fmt));
    assert out[..1 + |Newline(fmt)|] == "{" + Newline(fmt);
    var p := FillMembers(out, 1 + |Newline(fmt)|, members, names, entries, depth + 1, fmt);
    text := CloseObject(out, p, depth, fmt);
    Regroup("{", Newline(fmt), PrintMembers(members, depth + 1, fmt));
    Regroup("{", Newline(fmt) + PrintMembers(members, depth + 1, fmt), Indent(fmt, depth) + "}");
    Regroup(Newline(fmt), PrintMembers(members, depth + 1, fmt), Indent(fmt, depth) + "}");
  }

  method CloseObject(out: array<char>, at: nat, depth: nat, fmt: bool) returns (text: string)
    requires at + |Indent(fmt, depth)| + 2 <= out.Length
    modifies out
    ensures text == old(out[..at]) + (Indent(fmt, depth) + "}")
  {
    hide Indent;
    var p := at;
    Put(out, p, Indent(fmt, depth));
    p := p + |Indent(fmt, depth)|;
    Put(out, p, "}");
    Put(out, p + 1, "\0");
    text := out[..p + 1];
  }

  /** One turn of the loop: tabs, name, colon, value, comma, newline. */
  method PutMember(out: array<char>, at: nat, name: string, entry: string, last: bool, depth: nat, fmt: bool)
    returns (p: nat)
    requires at + |Indent(fmt, depth)| + |name| + |entry| + 2 + 2 * |Newline(fmt)| <= out.Length
    modifies out
    ensures at <= p <= at + |Indent(fmt, depth)| + |name| + |entry| + 2 + 2 * |Newline(fmt)|
    ensures out[..p] == old(out[..at]) + ((Indent(fmt, depth) + (name + (":" + (Gap(fmt, '\t') + entry))))
                                         + (if last then "" else ",") + Newline(fmt))
  {
    hide Indent;
    ghost var before := out[..at];
    p := PutKey(out, at, name, depth, fmt);
    Put(out, p, entry);
    p := p + |entry|;
    ghost var text := Indent(fmt, depth) + (name + (":" + (Gap(fmt, '\t') + entry)));
    assert out[..p] == before + text;
    p := PutEnd(out, p, last, fmt);
    Regroup(before, text, (if last then "" else ",") + Newline(fmt));
    Regroup(text, if last then "" else ",", Newline(fmt));
  }

  method PutEnd(out: array<char>, at: nat, last: bool, fmt: bool) returns (p: nat)
    requires at + 1 + |Newline(fmt)| <= out.Length
    modifies out
    ensures at <= p <= at + 1 + |Newline(fmt)|
    ensures out[..p] == old(out[..at]) + ((if last then "" else ",") + Newline(fmt))
  {
    p := at;
    if !last {
      Put(out, p, ",");
      p := p + 1;
    }
    Put(out, p, Newline(fmt));
    p := p + |Newline(fmt)|;
  }

  method PutKey(out: array<char>, at: nat, name: string, depth: nat, fmt: bool) returns (p: nat)
    requires at + |Indent(fmt, depth)| + |name| + 1 + |Gap(fmt, '\t')| <= out.Length
    modifies out
    ensures p == at + |Indent(fmt, depth)| + |name| + 1 + |Gap(fmt, '\t')|
    ensures out[..p] == old(out[..at]) + Indent(fmt, depth) + name + ":" + Gap(fmt, '\t')
  {
    hide Indent, Gap;
    p := at;
    Put(out, p, Indent(fmt, depth));
    p := p + |Indent(fmt, depth)|;
    Put(out, p, name);
    p := p + |name|;
    Put(out, p, ":");
    p := p + 1;
    Put(out, p, Gap(fmt, '\t'));
    p := p + |Gap(fmt, '\t')|;
  }

  // ----- parsing -----

  /** A value and the index behind it. */
  datatype Scanned<+T> = Scanned(value: T, next: nat) | Invalid | Unsupported

  /** An index result says the same as a result on the remaining text. */
  ghost predicate Matches<T>(s: string, at: nat, r: Scanned<T>, p: Parsed<T>) {
    match r
    case Scanned(v, next) => at < next <= |s| && p == Parsed(v, s[next..])
    case Invalid => p.Malformed?
    case Unsupported => p.NotAnInteger?
  }

  method SkipAt(s: string, at: nat) returns (next: nat)
    requires at <= |s|
    ensures at <= next <= |s| && s[next..] == Skip(s[at..])
    ensures next < |s| ==> !('\0' < s[next] <= ' ')
  {
    next := at;
    while At(s, next) != '\0' && At(s, next) <= ' '
      invariant at <= next <= |s| && Skip(s[next..]) == Skip(s[at..])
      decreases |s| - next
    {
      assert s[next..][1..] == s[next + 1..];
      next := next + 1;
    }
  }

  /** The digit loop. */
  method TakeDigitsAt(s: string, at: nat) returns (n: nat, num: nat)
    requires at <= |s|
    ensures at <= num <= |s| && (n, s[num..]) == TakeDigits(0, s[at..])
  {
    n, num := 0, at;
    while IsDigit(At(s, num))
      invariant at <= num <= |s|
      invariant TakeDigits(n, s[num..]) == TakeDigits(0, s[at..])
      decreases |s| - num
    {
      assert s[num..][1..] == s[num + 1..];
      n := n * 10 + (s[num] as int - '0' as int);
      num := num + 1;
    }
  }

  method TakeUnsignedAt(s: string, at: nat) returns (n: nat, num: nat)
    requires at <= |s|
    ensures at <= num <= |s| && (n, s[num..]) == TakeUnsigned(s[at..])
  {
    hide TakeDigits;
    n, num := 0, at;
    if At(s, num) == '0' {
      assert s[at..][1..] == s[num + 1..];
      num := num + 1;
    }
    if '1' <= At(s, num) <= '9' {
      n, num := TakeDigitsAt(s, num);
    }
  }

  method ParseNumberAt(s: string, at: nat) returns (r: Scanned<Json>)
    requires at < |s| && (s[at] == '-' || IsDigit(s[at]))
    ensures Matches(s, at, r, ParseNumber(s[at..]))
  {
    hide TakeUnsigned;
    var negative := s[at] == '-';
    assert s[at..][1..] == s[at + 1..];
    var n, num := TakeUnsignedAt(s, if negative then at + 1 else at);
    if (At(s, num) == '.' && IsDigit(At(s, num + 1))) || At(s, num) == 'e' || At(s, num) == 'E' {
      return Unsupported;
    }
    var value := Signed(negative, n);
    r := if IsInt32(value) then Scanned(Number(value), num) else Unsupported;
  }

  method ParseValueAt(s: string, at: nat) returns (r: Scanned<Json>)
    requires at <= |s|
    ensures Matches(s, at, r, ParseValue(s[at..]))
    decreases |s| - at, 1
  {
    var t := s[at..];
    if "null" <= t {
      assert t[4..] == s[at + 4..];
      r := Scanned(Null, at + 4);
    } else if "false" <= t {
      assert t[5..] == s[at + 5..];
      r := Scanned(False, at + 5);
    } else if "true" <= t {
      assert t[4..] == s[at + 4..];
      r := Scanned(True, at + 4);
    } else if At(s, at) == '\"' {
      var p := ParseStringAt(s, at);
      r := if p.None? then Invalid else Scanned(String(p.value.0), p.value.1);
    } else if At(s, at) == '-' || IsDigit(At(s, at)) {
      r := ParseNumberAt(s, at);
    } else if At(s, at) == '[' {
      r := ParseArrayAt(s, at);
    } else if At(s, at) == '{' {
      r := ParseObjectAt(s, at);
    } else {
      r := Invalid;
    }
  }

  function Joined<T>(xs: seq<T>, r: Parsed<seq<T>>): Parsed<seq<T>> {
    if r.Parsed? then r.(value := xs + r.value) else r
  }

  lemma JoinedStep<T>(xs: seq<T>, x: T, r: Parsed<seq<T>>)
    ensures Joined(xs, Consed(x, r)) == Joined(xs + [x], r)
    ensures Joined([], r) == r
  {
    if r.Parsed? {
      assert xs + ([x] + r.value) == xs + [x] + r.value && [] + r.value == r.value;
    }
  }

  /** Behind an element: at a comma the next element follows, unless a bracket does. */
  method AfterElement(s: string, at: nat) returns (value: nat, more: bool)
    requires at <= |s|
    ensures at <= value <= |s| && (more ==> at < value)
    ensures MoreItems(Skip(s[at..])) == if more then ParseItems(s[value..]) else Parsed([], s[value..])
    ensures MoreMembers(Skip(s[at..])) == if more then ParseMembers(s[value..]) else Parsed([], s[value..])
  {
    value := SkipAt(s, at);
    more := false;
    if At(s, value) == ',' {
      assert s[value..][1..] == s[value + 1..];
      var str := SkipAt(s, value + 1);
      if EndsList(s[str..]) {
        value := str;
      } else {
        value := value + 1;
        more := true;
      }
    }
  }

  method ParseArrayAt(s: string, at: nat) returns (r: Scanned<Json>)
    requires at < |s| && s[at] == '['
    ensures Matches(s, at, r, ParseArray(s[at..]))
    decreases |s| - at, 0
  {
    assert s[at..][1..] == s[at + 1..];
    var start := SkipAt(s, at + 1);
    if At(s, start) == ']' {
      assert s[start..][1..] == s[start + 1..];
      return Scanned(Array([]), start + 1);
    }
    var items := ParseItemsAt(s, start);
    match items
    case Invalid => return Invalid;
    case Unsupported => return Unsupported;
    case Scanned(children, value) =>
      if At(s, value) == ']' {
        assert s[value..][1..] == s[value + 1..];
        return Scanned(Array(children), value + 1);
      }
      return Invalid;
  }

  method ParseItemsAt(s: string, start: nat) returns (r: Scanned<seq<Json>>)
    requires start <= |s|
    ensures Matches(s, start, r, ParseItems(s[start..]))
    decreases |s| - start, 2
  {
    var items, value, more := [], start, true;
    ghost var all := ParseItems(s[start..]);
    JoinedStep([], Null, all);
    while more
      invariant start <= value <= |s|
      invariant more ==> all == Joined(items, ParseItems(s[value..]))
      invariant !more ==> all == Parsed(items, s[value..]) && start < value
      decreases more, |s| - value
    {
      var first := SkipAt(s, value);
      var v := ParseValueAt(s, first);
      match v
      case Invalid => return Invalid;
      case Unsupported => return Unsupported;
      case Scanned(child, next) =>
        JoinedStep(items, child, MoreItems(Skip(s[next..])));
        items := items + [child];
        value, more := AfterElement(s, next);
        assert items + [] == items;
    }
    return Scanned(items, value);
  }

  lemma MemberCases(s: string)
    ensures
      var p := ParseString(Skip(s));
      && (p.None? ==> ParseMember(s).Malformed?)
      && (p.Some? ==>
            var t := Skip(p.value.1);
            && (At(t, 0) != ':' ==> ParseMember(s).Malformed?)
            && (At(t, 0) == ':' ==>
                  var v := ParseValue(Skip(t[1..]));
                  && (v.Malformed? ==> ParseMember(s).Malformed?) && (v.NotAnInteger? ==> ParseMember(s).NotAnInteger?)
                  && (v.Parsed? ==> ParseMember(s) == Parsed(Member(p.value.0, v.value), v.rest))))
  {
    hide ParseString, ParseValue, Skip;
  }

  method ParseMemberAt(s: string, at: nat) returns (r: Scanned<Member>)
    requires at <= |s|
    ensures Matches(s, at, r, ParseMember(s[at..]))
    decreases |s| - at, 2
  {
    hide ParseMember, ParseString, ParseValue, Skip;
    MemberCases(s[at..]);
    var first := SkipAt(s, at);
    var name := ParseStringAt(s, first);
    if name.None? {
      return Invalid;
    }
    var colon := SkipAt(s, name.value.1);
    if At(s, colon) != ':' {
      return Invalid;
    }
    assert s[colon..][1..] == s[colon + 1..];
    var value := SkipAt(s, colon + 1);
    var v := ParseValueAt(s, value);
    match v
    case Invalid => return Invalid;
    case Unsupported => return Unsupported;
    case Scanned(child, next) => return Scanned(Member(name.value.0, child), next);
  }

  method ParseObjectAt(s: string, at: nat) returns (r: Scanned<Json>)
    requires at < |s| && s[at] == '{'
    ensures Matches(s, at, r, ParseObject(s[at..]))
    decreases |s| - at, 0
  {
    assert s[at..][1..] == s[at + 1..];
    var start := SkipAt(s, at + 1);
    if At(s, start) == '}' {
      assert s[start..][1..] == s[start + 1..];
      return Scanned(Object([]), start + 1);
    }
    var members := ParseMembersAt(s, start);
    match members
    case Invalid => return Invalid;
    case Unsupported => return Unsupported;
    case Scanned(children, value) =>
      if At(s, value) == '}' {
        assert s[value..][1..] == s[value + 1..];
        return Scanned(Object(children), value + 1);
      }
      return Invalid;
  }

  method ParseMembersAt(s: string, start: nat) returns (r: Scanned<seq<Member>>)
    requires start <= |s|
    ensures Matches(s, start, r, ParseMembers(s[start..]))
    decreases |s| - start, 3
  {
    var members, value, more := [], start, true;
    ghost var all := ParseMembers(s[start..]);
    JoinedStep([], Member("", Null), all);
    while more
      invariant start <= value <= |s|
      invariant more ==> all == Joined(members, ParseMembers(s[value..]))
      invariant !more ==> all == Parsed(members, s[value..]) && start < value
      decreases more, |s| - value
    {
      var m := ParseMemberAt(s, value);
      match m
      case Invalid => return Invalid;
      case Unsupported => return Unsupported;
      case Scanned(child, next) =>
        JoinedStep(members, child, MoreMembers(Skip(s[next..])));
        members := members + [child];
        value, more := AfterElement(s, next);
        assert members + [] == members;
    }
    return Scanned(members, value);
  }

  /** mbus_json_parse */
  method ParseText(s: string) returns (r: Option<Json>)
    ensures r == Parse(s)
  {
    assert s[0..] == s;
    var first := SkipAt(s, 0);
    var v := ParseValueAt(s, first);
    r := if v.Scanned? then Some(v.value) else None;
  }

  /** mbus_json_print and mbus_json_print_unformatted, then mbus_json_parse. */
  method PrintThenParse(v: Json, fmt: bool) returns (text: string, r: Option<Json>)
    requires Exact(v)
    ensures text == Print(v, 0, fmt) && r == Some(v)
  {
    text := PrintValue(v, 0, fmt);
    r := ParseText(text);
    TreeRoundTrip(v, fmt);
  }
}
