/** Path lookup in a JSON tree (json.c, mbus_json_get_object) and the typed getters on top of it. */
module JsonPath {
  import opened Options
  import opened JsonStrings
  import opened JsonText

  /** mbus_cJSON_GetObjectItem: the first child of that name. Only the children of objects have names. */
  function FindMember(members: seq<Member>, name: string): Option<Json> {
    if members == [] then None
    else if members[0].name == name then Some(members[0].value)
    else FindMember(members[1..], name)
  }

  function GetItem(v: Json, name: string): Option<Json> {
    if v.Object? then FindMember(v.members, name) else None
  }

  /** The length of the component p starts with. */
  function SlashIndex(p: string): (n: nat)
    ensures n <= |p| && '/' !in p[..n] && (n < |p| ==> p[n] == '/')
  {
    if p == "" || p[0] == '/' then 0 else 1 + SlashIndex(p[1..])
  }

  /** The non-empty components of a path. */
  function Components(p: string): (c: seq<string>)
    ensures forall i | 0 <= i < |c| :: c[i] != "" && '/' !in c[i]
    decreases |p|
  {
    if p == "" then []
    else if p[0] == '/' then Components(p[1..])
    else [p[..SlashIndex(p)]] + Components(p[SlashIndex(p)..])
  }

  function Walk(root: Option<Json>, names: seq<string>): Option<Json>
    decreases |names|
  {
    if root.None? || names == [] then root else Walk(GetItem(root.value, names[0]), names[1..])
  }

  function LookUp(root: Option<Json>, path: string): Option<Json> {
    Walk(root, Components(path))
  }

  /** mbus_json_get_string_value with a NULL default. */
  function StringAt(v: Option<Json>, path: string): Option<string> {
    var r := LookUp(v, path);
    if r.Some? && r.value.String? then Some(r.value.text) else None
  }

  /** mbus_json_get_int_value */
  function IntAt(v: Option<Json>, path: string, default: int): int {
    var r := LookUp(v, path);
    if r.Some? && r.value.Number? then r.value.n else default
  }

  // ----- composition -----

  lemma {:induction false} WalkFurther(root: Option<Json>, p: seq<string>, q: seq<string>)
    ensures Walk(root, p + q) == Walk(Walk(root, p), q)
    decreases |p|
  {
    if p == [] {
      assert p + q == q;
    } else if root.Some? {
      WalkFurther(GetItem(root.value, p[0]), p[1..], q);
      assert (p + q)[1..] == p[1..] + q;
    }
  }

  lemma {:induction false} SlashIndexJoined(p: string, q: string)
    requires q != "" && q[0] == '/'
    ensures SlashIndex(p + q) == SlashIndex(p)
  {
    if p == "" {
      assert p + q == q;
    } else if p[0] != '/' {
      SlashIndexJoined(p[1..], q);
      assert (p + q)[1..] == p[1..] + q;
    }
  }

  lemma {:induction false} ComponentsJoined(p: string, q: string)
    ensures Components(p + "/" + q) == Components(p) + Components(q)
    decreases |p|
  {
    var s := p + "/" + q;
    if p == "" {
      assert s[1..] == q;
    } else if p[0] == '/' {
      ComponentsJoined(p[1..], q);
      assert s[1..] == p[1..] + "/" + q;
    } else {
      var n := SlashIndex(p);
      SlashIndexJoined(p, "/" + q);
      assert s == p + ("/" + q);
      assert s[..n] == p[..n] && s[n..] == p[n..] + "/" + q;
      ComponentsJoined(p[n..], q);
    }
  }

  /** Looking up p/q is looking up q in what p leads to; an absent step stays absent. */
  lemma LookUpComposes(root: Option<Json>, p: string, q: string)
    ensures LookUp(root, p + "/" + q) == LookUp(LookUp(root, p), q)
  {
    ComponentsJoined(p, q);
    WalkFurther(root, Components(p), Components(q));
  }

  /** Repeated, leading and trailing slashes do not matter. */
  lemma SlashesIgnored(root: Option<Json>, p: string)
    ensures LookUp(root, "/" + p) == LookUp(root, p) == LookUp(root, p + "/")
  {
    ComponentsJoined("", p);
    assert "" + "/" + p == "/" + p;
    ComponentsJoined(p, "");
    assert p + "/" + "" == p + "/";
    assert Components(p) + [] == Components(p) == [] + Components(p);
  }

  // ----- the splitting loop -----

  /** The C string at index i of a buffer. */
  function CString(buffer: seq<char>, i: nat): (s: string)
    requires i <= |buffer|
    ensures NulFree(s) && |s| <= |buffer| - i
    decreases |buffer| - i
  {
    if i == |buffer| || buffer[i] == '\0' then "" else [buffer[i]] + CString(buffer, i + 1)
  }

  lemma {:induction false} CStringIs(buffer: seq<char>, i: nat, s: string)
    requires i + |s| < |buffer| && NulFree(s)
    requires buffer[i..i + |s|] == s && buffer[i + |s|] == '\0'
    ensures CString(buffer, i) == s
    decreases |s|
  {
    if s != "" {
      assert buffer[i + 1..i + |s|] == buffer[i..i + |s|][1..] == s[1..];
      CStringIs(buffer, i + 1, s[1..]);
      assert buffer[i] == s[0];
    }
  }

  /** strchr(ptr, '/') in a buffer whose string ends at stop. */
  method FindSlash(str: array<char>, ptr: nat, stop: nat) returns (tmp: Option<nat>)
    requires ptr <= stop < str.Length && str[stop] == '\0'
    requires forall k | ptr <= k < stop :: str[k] != '\0'
    ensures tmp.Some? ==> ptr <= tmp.value < stop && str[tmp.value] == '/' && '/' !in str[ptr..tmp.value]
    ensures tmp.None? ==> '/' !in str[ptr..stop]
  {
    var i := ptr;
    while str[i] != '/' && str[i] != '\0'
      invariant ptr <= i <= stop && '/' !in str[ptr..i]
      decreases stop - i
    {
      i := i + 1;
    }
    if str[i] == '/' {
      return Some(i);
    }
    return None;
  }

  lemma FirstComponent(p: string, n: nat)
    requires n < |p| && p[n] == '/' && '/' !in p[..n]
    ensures Components(p) == (if n == 0 then [] else [p[..n]]) + Components(p[n + 1..])
  {
    assert p == p[..n] + "/" + p[n + 1..];
    ComponentsJoined(p[..n], p[n + 1..]);
    if n > 0 {
      OnlyComponent(p[..n]);
    }
  }

  lemma {:induction false} NoSlash(p: string)
    requires '/' !in p
    ensures SlashIndex(p) == |p|
  {
    if p != "" {
      NoSlash(p[1..]);
    }
  }

  lemma OnlyComponent(p: string)
    requires p != "" && '/' !in p
    ensures Components(p) == [p]
  {
    NoSlash(p);
    assert p[|p|..] == "" && p[..|p|] == p;
  }

  lemma LastStep(v: Json, rest: string)
    requires rest != "" && '/' !in rest
    ensures LookUp(Some(v), rest) == GetItem(v, rest)
  {
    OnlyComponent(rest);
    assert Components(rest)[1..] == [];
    assert Walk(GetItem(v, rest), []) == GetItem(v, rest);
  }

  lemma NextStep(v: Json, rest: string, n: nat)
    requires n < |rest| && rest[n] == '/' && '/' !in rest[..n]
    ensures LookUp(Some(v), rest) == LookUp(if n == 0 then Some(v) else GetItem(v, rest[..n]), rest[n + 1..])
  {
    FirstComponent(rest, n);
    assert n > 0 ==> Components(rest)[1..] == Components(rest[n + 1..]);
    assert [] + Components(rest[n + 1..]) == Components(rest[n + 1..]);
  }

  /** mbus_json_get_object: the copied path is cut at each slash and walked piece by piece. */
  method GetObject(root: Option<Json>, path: string) returns (r: Option<Json>)
    requires NulFree(path)
    ensures r == LookUp(root, path)
  {
    hide Components, Walk, SlashIndex, CString;
    if root.None? {
      EmptyWalk(root, Components(path));
      return None;
    }
    var str := new char[|path| + 1](i => if 0 <= i < |path| then path[i] else '\0');
    var ptr: nat := 0;
    assert str[..] == path + "\0" && path[0..] == path;
    while str[ptr] != '\0' && str[ptr] == '/'
      invariant ptr <= |path| && Components(path[ptr..]) == Components(path)
      invariant str[..] == path + "\0"
      decreases |path| - ptr
    {
      SlashSkipped(path[ptr..]);
      assert path[ptr..][1..] == path[ptr + 1..];
      ptr := ptr + 1;
    }
    assert str[ptr..] == path[ptr..] + "\0";
    var node: Json, child: Option<Json> := root.value, None;
    while str[ptr] != '\0'
      invariant ptr <= |path| && str[ptr..] == path[ptr..] + "\0"
      invariant child == Some(node) || (child == None && str[ptr] != '/')
      invariant LookUp(root, path) == LookUp(Some(node), path[ptr..])
      decreases |path| - ptr
    {
      ghost var rest := path[ptr..];
      Aligned(str[..], path, ptr);
      var name, tmp := Segment(str, path, ptr);
      if tmp.None? {
        LastStep(node, rest);
      } else {
        NextStep(node, rest, tmp.value - ptr);
        assert rest[tmp.value - ptr + 1..] == path[tmp.value + 1..];
      }
      if name != "" {
        child := GetItem(node, name);
        if child.None? {
          EmptyWalk(child, if tmp.Some? then Components(path[tmp.value + 1..]) else []);
          return None;
        }
      }
      node := child.value;
      if tmp.None? {
        return Some(node);
      }
      ptr := tmp.value + 1;
    }
    Aligned(str[..], path, ptr);
    EmptyPath(Some(node));
    return Some(node);
  }

  lemma EmptyWalk(root: Option<Json>, names: seq<string>)
    ensures root.None? ==> Walk(root, names) == None
  {
  }

  lemma EmptyPath(root: Option<Json>)
    ensures LookUp(root, "") == root
  {
  }

  lemma SlashSkipped(p: string)
    requires p != "" && p[0] == '/'
    ensures Components(p) == Components(p[1..])
  {
  }

  /** The part of the buffer that is still to be read is the rest of the path and its NUL. */
  lemma Aligned(buffer: seq<char>, path: string, ptr: nat)
    requires ptr <= |path| && |buffer| == |path| + 1 && NulFree(path) && buffer[ptr..] == path[ptr..] + "\0"
    ensures forall k | ptr <= k < |path| :: buffer[k] == path[k]
    ensures buffer[|path|] == '\0' && (buffer[ptr] == '\0' <==> path[ptr..] == "")
  {
    forall k | ptr <= k < |path|
      ensures buffer[k] == path[k]
    {
      assert buffer[k] == buffer[ptr..][k - ptr];
    }
    assert buffer[|path|] == buffer[ptr..][|path| - ptr];
  }

  /** One component: the slash behind it, where the buffer is cut, and the string in front of it. */
  method Segment(str: array<char>, path: string, ptr: nat) returns (name: string, tmp: Option<nat>)
    requires ptr < |path| && str.Length == |path| + 1 && NulFree(path)
    requires forall k | ptr <= k < |path| :: str[k] == path[k]
    requires str[|path|] == '\0'
    modifies str
    ensures tmp.None? ==> name == path[ptr..] && '/' !in name
    ensures tmp.Some? ==> ptr <= tmp.value < |path| && path[tmp.value] == '/' && name == path[ptr..tmp.value]
    ensures tmp.Some? ==> '/' !in name && path[ptr..][..tmp.value - ptr] == name
    ensures tmp.Some? ==> str[tmp.value + 1..] == path[tmp.value + 1..] + "\0"
  {
    tmp := FindSlash(str, ptr, |path|);
    var end := if tmp.None? then |path| else tmp.value;
    if tmp.Some? {
      str[tmp.value] := '\0';
      assert path[ptr..][..end - ptr] == path[ptr..end];
    }
    assert str[ptr..end] == path[ptr..end];
    CStringIs(str[..], ptr, path[ptr..end]);
    name := CString(str[..], ptr);
  }
}
