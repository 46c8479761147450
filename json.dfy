/** Optional values, used for lookups that may miss. */
module Wrappers {
  datatype Option<+T> = None | Some(value: T)
}

/**
  JSON documents as Python's `json` module hands them to the scripts, and the
  handful of Python built-ins the scripts apply to them: `dict.get` with a
  default, the `in` test on a dict, truthiness (`if x:`), `str(x)` and
  `str.lower()`.
 */
module Json {
  import opened Wrappers

  /** A decoded JSON value: None, bool, int, str, list or dict (the dict keeps
      its key/value pairs in document order). */
  datatype Value =
    | JNull
    | JBool(b: bool)
    | JInt(i: int)
    | JStr(s: string)
    | JArr(items: seq<Value>)
    | JObj(fields: seq<(string, Value)>)

  /** The value a dict holds under `key`. `json.loads` keeps the last value of a
      key that the document repeats, so the search starts from the end. */
  function Lookup(fields: seq<(string, Value)>, key: string): Option<Value> {
    if fields == [] then None
    else if fields[|fields| - 1].0 == key then Some(fields[|fields| - 1].1)
    else Lookup(fields[..|fields| - 1], key)
  }

  /** A lookup finds a value exactly when the key occurs, and what it finds is
      stored under that key. */
  lemma {:induction false} LookupFinds(fields: seq<(string, Value)>, key: string)
    ensures Lookup(fields, key).Some? <==> exists k :: 0 <= k < |fields| && fields[k].0 == key
    ensures Lookup(fields, key).Some? ==>
      exists k :: 0 <= k < |fields| && fields[k] == (key, Lookup(fields, key).value)
  {
    if fields != [] {
      var init := fields[..|fields| - 1];
      LookupFinds(init, key);
      if fields[|fields| - 1].0 != key {
        if exists k :: 0 <= k < |fields| && fields[k].0 == key {
          var k :| 0 <= k < |fields| && fields[k].0 == key;
          assert init[k].0 == key;
        }
        if Lookup(init, key).Some? {
          var k :| 0 <= k < |init| && init[k] == (key, Lookup(init, key).value);
          assert fields[k] == init[k];
        }
      }
    }
  }

  /** In a dict literal, a key is found at the last place it is written. */
  lemma {:induction false} LookupAt(fields: seq<(string, Value)>, key: string, i: nat)
    requires i < |fields| && fields[i].0 == key
    requires forall j :: i < j < |fields| ==> fields[j].0 != key
    ensures Lookup(fields, key) == Some(fields[i].1)
  {
    if i < |fields| - 1 {
      LookupAt(fields[..|fields| - 1], key, i);
    }
  }

  /** Python's `key in d` for a dict `d`. */
  predicate Has(obj: Value, key: string) {
    obj.JObj? && Lookup(obj.fields, key).Some?
  }

  /** Python's `d.get(key, default)` for a dict `d`. */
  function Get(obj: Value, key: string, default: Value): Value {
    if obj.JObj? then
      match Lookup(obj.fields, key)
      case Some(v) => v
      case None => default
    else default
  }

  /** `t` occurs in `s` as a contiguous run: Python's `t in s` on strings. */
  predicate Substring(t: string, s: string)
    decreases |s|
  {
    |t| <= |s| && (s[..|t|] == t || Substring(t, s[1..]))
  }

  /** A substring is found exactly when some position of `s` starts a copy of `t`. */
  lemma {:induction false} SubstringFinds(t: string, s: string)
    ensures Substring(t, s) <==> exists i :: 0 <= i <= |s| && |t| <= |s[i..]| && s[i..][..|t|] == t
    decreases |s|
  {
    if |t| <= |s| && s[..|t|] != t {
      SubstringFinds(t, s[1..]);
      if Substring(t, s[1..]) {
        var i :| 0 <= i <= |s[1..]| && |t| <= |s[1..][i..]| && s[1..][i..][..|t|] == t;
        assert s[i + 1..] == s[1..][i..];
      }
      if exists i :: 0 <= i <= |s| && |t| <= |s[i..]| && s[i..][..|t|] == t {
        var i :| 0 <= i <= |s| && |t| <= |s[i..]| && s[i..][..|t|] == t;
        assert i != 0 by { assert s[0..] == s; }
        assert s[1..][i - 1..] == s[i..];
      }
    } else if |t| <= |s| {
      assert s[0..] == s;
    }
  }

  /** The values Python's `key in v` accepts without raising. */
  predicate Container(v: Value) {
    v.JObj? || v.JArr? || v.JStr?
  }

  /** Python's `key in v`: a key of a dict, an element of a list, a substring of
      a string. */
  predicate In(key: string, v: Value)
    requires Container(v)
  {
    if v.JObj? then Has(v, key)
    else if v.JArr? then JStr(key) in v.items
    else Substring(key, v.s)
  }

  /** `key in v` is false and does not raise. */
  predicate Lacks(v: Value, key: string) {
    Container(v) && !In(key, v)
  }

  /** The elements a JSON list iterates over. */
  function Items(v: Value): seq<Value> {
    if v.JArr? then v.items else []
  }

  /** A list whose every element is a dict: what a `for x in ...: x.get(...)` loop
      can walk without raising. */
  predicate ObjectList(v: Value) {
    v.JArr? && forall x :: x in v.items ==> x.JObj?
  }

  /** Python's truth test: None, False, 0, "", [] and {} are false. */
  predicate Truthy(v: Value) {
    match v
    case JNull => false
    case JBool(b) => b
    case JInt(i) => i != 0
    case JStr(s) => s != ""
    case JArr(items) => items != []
    case JObj(fields) => fields != []
  }

  function Digit(d: nat): char
    requires d < 10
  {
    "0123456789"[d]
  }

  /** Decimal digits of a natural number, without leading zeros. */
  function NatToDecimal(n: nat): (r: string)
    ensures |r| > 0
    ensures forall k :: 0 <= k < |r| ==> '0' <= r[k] <= '9'
    ensures r[0] == '0' ==> n == 0
  {
    if n < 10 then [Digit(n)] else NatToDecimal(n / 10) + [Digit(n % 10)]
  }

  /** Python's `str(i)` for an int. */
  function IntToDecimal(i: int): string {
    if i < 0 then "-" + NatToDecimal(-i) else NatToDecimal(i)
  }

  /** Joins strings with a separator, as Python's `sep.join(parts)`. */
  function Join(parts: seq<string>, sep: string): string {
    if parts == [] then ""
    else if |parts| == 1 then parts[0]
    else parts[0] + sep + Join(parts[1..], sep)
  }

  function Quote(s: string): string {
    "'" + s + "'"
  }

  /** Python's `str(v)`, also what an f-string placeholder `{v}` produces. */
  function Str(v: Value): string
    decreases v, 0
  {
    match v
    case JNull => "None"
    case JBool(b) => if b then "True" else "False"
    case JInt(i) => IntToDecimal(i)
    case JStr(s) => s
    case JArr(items) =>
      "[" + Join(seq(|items|, k requires 0 <= k < |items| => Repr(items[k])), ", ") + "]"
    case JObj(fields) =>
      "{" + Join(seq(|fields|, k requires 0 <= k < |fields| =>
                       Quote(fields[k].0) + ": " + Repr(fields[k].1)), ", ") + "}"
  }

  /** Python's `repr(v)`, which `str` uses for the elements of lists and dicts. */
  function Repr(v: Value): string
    decreases v, 1
  {
    if v.JStr? then Quote(v.s) else Str(v)
  }

  function LowerChar(c: char): char {
    if 'A' <= c <= 'Z' then (c as int + 32) as char else c
  }

  /** Python's `s.lower()` on ASCII letters. */
  function Lower(s: string): (r: string)
    ensures |r| == |s|
    ensures forall k :: 0 <= k < |s| ==> r[k] == LowerChar(s[k])
  {
    seq(|s|, k requires 0 <= k < |s| => LowerChar(s[k]))
  }

  /** The dict literal `{out: obj[in] for each (out, in) in fields}`, keys in
      that order. */
  function Project(obj: Value, fields: seq<(string, string)>): Value {
    JObj(seq(|fields|, k requires 0 <= k < |fields| => (fields[k].0, Get(obj, fields[k].1, JNull))))
  }

  /** No output key is written twice. */
  predicate KeysDistinct(fields: seq<(string, string)>) {
    forall a, b :: 0 <= a < b < |fields| ==> fields[a].0 != fields[b].0
  }

  /** Each output key of a projection holds the input field it is read from,
      and the projection has no other key. */
  lemma ProjectGets(obj: Value, fields: seq<(string, string)>, i: nat, d: Value)
    requires KeysDistinct(fields) && i < |fields|
    ensures Get(Project(obj, fields), fields[i].0, d) == Get(obj, fields[i].1, JNull)
    ensures forall key :: Has(Project(obj, fields), key) ==> exists j :: 0 <= j < |fields| && fields[j].0 == key
  {
    var p := Project(obj, fields);
    LookupAt(p.fields, fields[i].0, i);
    forall key | Has(p, key)
      ensures exists j :: 0 <= j < |fields| && fields[j].0 == key
    {
      LookupFinds(p.fields, key);
      var j :| 0 <= j < |p.fields| && p.fields[j].0 == key;
      assert fields[j].0 == key;
    }
  }

  /** `d.get(key, default)` gives the default exactly when the key is absent. */
  lemma GetAbsent(obj: Value, key: string, default: Value)
    requires obj.JObj? && !Has(obj, key)
    ensures Get(obj, key, default) == default
  {
  }

  /** For a key the dict holds, the default does not matter: `d[key]` and
      `d.get(key, ...)` agree. */
  lemma GetPresent(obj: Value, key: string, d1: Value, d2: Value)
    requires Has(obj, key)
    ensures Get(obj, key, d1) == Get(obj, key, d2)
  {
  }

  /** A dict that has some key is not empty, hence truthy. */
  lemma HasIsTruthy(obj: Value, key: string)
    requires Has(obj, key)
    ensures Truthy(obj)
  {
  }

  /** `str(b).lower()` renders a boolean as the XML Schema literals. */
  lemma LowerBool(b: bool)
    ensures Lower(Str(JBool(b))) == if b then "true" else "false"
  {
    if b {
      assert Lower("True") == "true";
    } else {
      assert Lower("False") == "false";
    }
  }

  /** An int prints as a sign or a digit first. */
  lemma IntStr(i: int)
    ensures |IntToDecimal(i)| > 0
    ensures IntToDecimal(i)[0] == '-' || '0' <= IntToDecimal(i)[0] <= '9'
  {
    if i >= 0 {
      var d := NatToDecimal(i);
      assert '0' <= d[0] <= '9';
    }
  }

  /** Only the empty string prints as nothing. */
  lemma StrIsEmpty(v: Value)
    ensures Str(v) == "" <==> v == JStr("")
  {
    match v
    case JInt(i) =>
      IntStr(i);
    case JArr(_) =>
      assert Str(v)[0] == '[';
    case JObj(_) =>
      assert Str(v)[0] == '{';
    case _ =>
  }

  /** Only the None value and the string "None" print as "None". */
  lemma StrIsNone(v: Value)
    ensures Str(v) == "None" <==> v == JNull || v == JStr("None")
  {
    match v
    case JInt(i) =>
      IntStr(i);
      assert Str(v)[0] != 'N';
    case JArr(_) =>
      assert Str(v)[0] == '[';
    case JObj(_) =>
      assert Str(v)[0] == '{';
    case _ =>
  }
}
