/** Values produced by `json.loads` / `req.get_json()` and the handful of
    Python operations the application applies to them: truth value, `in`,
    indexing, `dict.get`, `str.strip` and `str()`. Each operation either gives
    Python's result or the text of the exception Python raises (CPython 3.11
    wording). */
module PyJson {
  import opened Wrappers
  import Text

  /** A decoded JSON value. An object keeps its members as the document
      lists them, repeated keys included; the dict `json.loads` builds from
      them is read through `Member` and `DictPositions`. A float is carried
      by the text `repr()` gives it. */
  datatype Json =
    | JNull
    | JBool(b: bool)
    | JInt(i: int)
    | JFloat(repr: string)
    | JStr(s: string)
    | JList(items: seq<Json>)
    | JObject(members: seq<(string, Json)>)

  /** `type(v).__name__` */
  function TypeName(v: Json): string {
    match v
    case JNull => "NoneType"
    case JBool(_) => "bool"
    case JInt(_) => "int"
    case JFloat(_) => "float"
    case JStr(_) => "str"
    case JList(_) => "list"
    case JObject(_) => "dict"
  }

  /** `bool(v)`: `None`, `False`, zero and empty containers are false. */
  predicate Truthy(v: Json) {
    match v
    case JNull => false
    case JBool(b) => b
    case JInt(i) => i != 0
    case JFloat(r) => r != "0.0" && r != "-0.0"
    case JStr(s) => s != []
    case JList(xs) => xs != []
    case JObject(ms) => ms != []
  }

  predicate HasMember(ms: seq<(string, Json)>, key: string) {
    exists k :: 0 <= k < |ms| && ms[k].0 == key
  }

  /** The value a dict decoded from `ms` holds for `key`: a later duplicate
      key overrides an earlier one, as `json.loads` does. */
  function Member(ms: seq<(string, Json)>, key: string): (r: Option<Json>)
    ensures r.Some? <==> HasMember(ms, key)
    ensures r.Some? ==> (key, r.value) in ms
  {
    if ms == [] then None
    else if ms[|ms| - 1].0 == key then Some(ms[|ms| - 1].1)
    else
      var r := Member(ms[..|ms| - 1], key);
      assert HasMember(ms, key) ==> HasMember(ms[..|ms| - 1], key);
      r
  }

  /** The value found is the one stored at the key's last occurrence: a
      later duplicate key overrides every earlier one. */
  lemma {:induction false} MemberIsLast(ms: seq<(string, Json)>, key: string)
    requires HasMember(ms, key)
    ensures exists k :: 0 <= k < |ms| && ms[k] == (key, Member(ms, key).value) && LastWith(ms, key, k)
  {
    if ms[|ms| - 1].0 == key {
      assert ms[|ms| - 1] == (key, Member(ms, key).value) && LastWith(ms, key, |ms| - 1);
    } else {
      var init := ms[..|ms| - 1];
      assert HasMember(init, key);
      MemberIsLast(init, key);
      var k :| 0 <= k < |init| && init[k] == (key, Member(init, key).value) && LastWith(init, key, k);
      assert ms[k] == (key, Member(ms, key).value) && LastWith(ms, key, k);
    }
  }

  /** No entry after position `k` has `key`. */
  predicate LastWith(ms: seq<(string, Json)>, key: string, k: nat) {
    forall j :: k < j < |ms| ==> ms[j].0 != key
  }

  /** The position of the key's last occurrence, whose value the dict keeps. */
  function LastIndex(ms: seq<(string, Json)>, key: string): (k: nat)
    requires HasMember(ms, key)
    ensures k < |ms| && ms[k].0 == key && LastWith(ms, key, k)
  {
    if ms[|ms| - 1].0 == key then |ms| - 1
    else
      assert HasMember(ms[..|ms| - 1], key);
      LastIndex(ms[..|ms| - 1], key)
  }

  /** The value at the last occurrence is the one a lookup finds. */
  lemma {:induction false} MemberAtLastIndex(ms: seq<(string, Json)>, key: string)
    requires HasMember(ms, key)
    ensures Member(ms, key) == Some(ms[LastIndex(ms, key)].1)
  {
    if ms[|ms| - 1].0 != key {
      assert HasMember(ms[..|ms| - 1], key);
      MemberAtLastIndex(ms[..|ms| - 1], key);
    }
  }

  /** The positions of each key's first occurrence, in ascending order:
      where a Python dict built from `ms` places its entries. */
  function DictPositions(ms: seq<(string, Json)>): (ks: seq<nat>)
    ensures forall j :: 0 <= j < |ks| ==> ks[j] < |ms|
  {
    if ms == [] then []
    else
      var init := ms[..|ms| - 1];
      DictPositions(init) + (if HasMember(init, ms[|ms| - 1].0) then [] else [|ms| - 1])
  }

  /** The dict's entries sit at ascending positions, each the first
      occurrence of its key, so no key is listed twice. */
  lemma {:induction false} DictPositionsFirst(ms: seq<(string, Json)>)
    ensures forall i, j :: 0 <= i < j < |DictPositions(ms)| ==> DictPositions(ms)[i] < DictPositions(ms)[j]
    ensures forall j :: 0 <= j < |DictPositions(ms)| ==>
      !HasMember(ms[..DictPositions(ms)[j]], ms[DictPositions(ms)[j]].0)
    ensures forall i, j :: 0 <= i < j < |DictPositions(ms)| ==>
      ms[DictPositions(ms)[i]].0 != ms[DictPositions(ms)[j]].0
  {
    var ks := DictPositions(ms);
    if ms != [] {
      var init := ms[..|ms| - 1];
      DictPositionsFirst(init);
      var ks0 := DictPositions(init);
      var added := if HasMember(init, ms[|ms| - 1].0) then [] else [|ms| - 1];
      assert ks == ks0 + added;
      forall j | 0 <= j < |ks|
        ensures !HasMember(ms[..ks[j]], ms[ks[j]].0)
      {
        if j < |ks0| {
          assert ms[..ks[j]] == init[..ks0[j]] && ms[ks[j]] == init[ks0[j]];
        } else {
          assert ms[..ks[j]] == init;
        }
      }
    }
    forall i, j | 0 <= i < j < |ks|
      ensures ms[ks[i]].0 != ms[ks[j]].0
    {
      assert ks[i] < ks[j] && ms[..ks[j]][ks[i]] == ms[ks[i]];
    }
  }

  /** Every key of `ms` has an entry in the dict. */
  lemma {:induction false} DictPositionsCover(ms: seq<(string, Json)>, key: string)
    ensures HasMember(ms, key) <==> exists j :: 0 <= j < |DictPositions(ms)| && ms[DictPositions(ms)[j]].0 == key
  {
    var ks := DictPositions(ms);
    if ms != [] {
      var init := ms[..|ms| - 1];
      DictPositionsCover(init, key);
      var ks0 := DictPositions(init);
      assert forall j :: 0 <= j < |ks0| ==> ks[j] == ks0[j] && ms[ks[j]] == init[ks0[j]];
      if HasMember(ms, key) {
        if HasMember(init, key) {
          var j :| 0 <= j < |ks0| && init[ks0[j]].0 == key;
          assert ms[ks[j]].0 == key;
        } else {
          assert ks[|ks| - 1] == |ms| - 1;
        }
      }
    }
  }


  function NotIterable(v: Json): string {
    "argument of type '" + TypeName(v) + "' is not iterable"
  }

  function NoAttribute(v: Json, name: string): string {
    "'" + TypeName(v) + "' object has no attribute '" + name + "'"
  }

  /** `key in container` for a string `key`: membership of a dict's keys, of a
      list's elements, a substring test on a str; other types raise TypeError. */
  function Contains(container: Json, key: string): Result<bool> {
    match container
    case JObject(ms) => Ok(HasMember(ms, key))
    case JList(xs) => Ok(JStr(key) in xs)
    case JStr(s) => Ok(Text.IsSubstring(key, s))
    case _ => Err(NotIterable(container))
  }

  /** `container[key]` for a string `key`: a dict lookup (KeyError when the
      key is absent, whose text is the key's repr); other types raise TypeError. */
  function GetItem(container: Json, key: string): Result<Json> {
    match container
    case JObject(ms) =>
      (match Member(ms, key)
       case Some(v) => Ok(v)
       case None => Err(StrRepr(key)))
    case JList(_) => Err("list indices must be integers or slices, not str")
    case JStr(_) => Err("string indices must be integers, not 'str'")
    case _ => Err("'" + TypeName(container) + "' object is not subscriptable")
  }

  /** `container.get(key, default)`: only a dict has `get`. */
  function Get(container: Json, key: string, default: Json): Result<Json> {
    match container
    case JObject(ms) =>
      Ok(match Member(ms, key) case Some(v) => v case None => default)
    case _ => Err(NoAttribute(container, "get"))
  }

  /** `v.strip()`: only a str has `strip`. */
  function StripText(v: Json): Result<string> {
    match v
    case JStr(s) => Ok(Text.Strip(s))
    case _ => Err(NoAttribute(v, "strip"))
  }

  /** `str(v)`, which is also what an f-string prints for `v`. */
  function Str(v: Json): string {
    match v
    case JStr(s) => s
    case _ => Repr(v)
  }

  /** `repr(v)`, as Python prints a value and the values nested in containers. */
  function Repr(v: Json): string
    decreases v
  {
    match v
    case JNull => "None"
    case JBool(b) => if b then "True" else "False"
    case JInt(i) => Text.IntText(i)
    case JFloat(r) => r
    case JStr(s) => StrRepr(s)
    case JList(xs) =>
      "[" + Join(seq(|xs|, k requires 0 <= k < |xs| => Repr(xs[k]))) + "]"
    case JObject(ms) =>
      var ks := DictPositions(ms);
      "{" + Join(seq(|ks|, j requires 0 <= j < |ks| =>
                       var key := ms[ks[j]].0;
                       StrRepr(key) + ": " + Repr(ms[LastIndex(ms, key)].1))) + "}"
  }

  /** A key given twice is printed once, with its last value:
      `str(json.loads('{"a": 1, "a": 2}'))` is `{'a': 2}`. */
  lemma ReprDuplicateKey()
    ensures Repr(JObject([("a", JInt(1)), ("a", JInt(2))])) == "{'a': 2}"
  {
    var ms := [("a", JInt(1)), ("a", JInt(2))];
    assert DictPositions(ms) == [0] by {
      assert ms[..1] == [("a", JInt(1))] && ms[..1][..0] == [];
      assert ms[..1][0].0 == "a";
    }
    assert LastIndex(ms, "a") == 1;
    assert StrRepr("a") == "'a'" by {
      assert "a"[1..] == [] && Escape("a", '\'') == "a";
    }
    assert Repr(JInt(2)) == "2";
    var ks := DictPositions(ms);
    var parts := seq(|ks|, j requires 0 <= j < |ks| =>
                       var key := ms[ks[j]].0;
                       StrRepr(key) + ": " + Repr(ms[LastIndex(ms, key)].1));
    assert Join(parts) == "'a': 2" by {
      assert parts[0] == "'a': 2";
      assert parts == ["'a': 2"];
    }
    assert Repr(JObject(ms)) == "{" + Join(parts) + "}";
  }

  /** The parts separated by `", "`, as a container's repr lists its elements. */
  function Join(parts: seq<string>): string {
    if parts == [] then ""
    else if |parts| == 1 then parts[0]
    else parts[0] + ", " + Join(parts[1..])
  }

  /** `repr(s)`: single quotes, unless `s` holds a single quote and no double
      quote; backslash, the chosen quote and ASCII control characters escaped. */
  function StrRepr(s: string): string {
    var quote := if '\'' in s && '"' !in s then '"' else '\'';
    [quote] + Escape(s, quote) + [quote]
  }

  function Escape(s: string, quote: char): string {
    if s == [] then ""
    else EscapeChar(s[0], quote) + Escape(s[1..], quote)
  }

  function EscapeChar(c: char, quote: char): string {
    if c == '\\' then "\\\\"
    else if c == quote then ['\\', quote]
    else if c == '\n' then "\\n"
    else if c == '\r' then "\\r"
    else if c == '\t' then "\\t"
    else if c < ' ' || c == '\U{7f}' then "\\x" + Hex2(c as int)
    else [c]
  }

  function Hex2(n: nat): string
    requires n < 256
  {
    [HexDigit(n / 16), HexDigit(n % 16)]
  }

  function HexDigit(d: nat): char
    requires d < 16
  {
    if d < 10 then Text.Digit(d) else ('a' as int + (d - 10)) as char
  }
}
