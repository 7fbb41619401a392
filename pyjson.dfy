/**
 * The decoded JSON of a query result as the Python jobs see it, and the few
 * Python operations they apply to it. Each operation that Python can raise
 * on returns Err with the text CPython gives the exception.
 */
module PyJson {
  import opened Results
  import opened Text

  /** An object keeps its members in response order. */
  datatype Json =
    | JNull
    | JBool(b: bool)
    | JInt(i: int)
    | JStr(s: string)
    | JList(items: seq<Json>)
    | JObj(fields: seq<(string, Json)>)

  /** What client.execute gives a job: the decoded `data` object, or the text of the exception it raised. */
  datatype Response = Failed(message: string) | Answered(data: seq<(string, Json)>)

  /** type(v).__name__ */
  function TypeName(v: Json): string {
    match v
    case JNull => "NoneType"
    case JBool(_) => "bool"
    case JInt(_) => "int"
    case JStr(_) => "str"
    case JList(_) => "list"
    case JObj(_) => "dict"
  }

  /** key in d */
  predicate HasKey(fields: seq<(string, Json)>, key: string) {
    exists i :: 0 <= i < |fields| && fields[i].0 == key
  }

  /** The value of the key in a decoded object; json.loads keeps the last of repeated keys. */
  function Lookup(fields: seq<(string, Json)>, key: string): (r: Option<Json>)
    ensures r.Some? <==> HasKey(fields, key)
    ensures r.Some? ==> exists i :: (0 <= i < |fields| && fields[i] == (key, r.value) &&
                                     forall j :: i < j < |fields| ==> fields[j].0 != key)
  {
    if fields == [] then None
    else if fields[|fields| - 1].0 == key then Some(fields[|fields| - 1].1)
    else
      var r := Lookup(fields[..|fields| - 1], key);
      assert forall i :: 0 <= i < |fields| - 1 ==> fields[..|fields| - 1][i] == fields[i];
      r
  }

  /** The index of the first member with the key, or |fields| when there is none. */
  function FirstIndex(fields: seq<(string, Json)>, key: string): (p: nat)
    ensures p <= |fields|
    ensures p < |fields| ==> fields[p].0 == key
    ensures forall q :: 0 <= q < p ==> fields[q].0 != key
  {
    if fields == [] then 0
    else if fields[0].0 == key then 0
    else
      var p := FirstIndex(fields[1..], key);
      assert forall q :: 1 <= q < |fields| ==> fields[1..][q - 1] == fields[q];
      1 + p
  }

  /** A key already in the members before the last one first occurs where it did there. */
  lemma FirstIndexInFront(fields: seq<(string, Json)>, key: string)
    requires |fields| > 0 && HasKey(fields[..|fields| - 1], key)
    ensures FirstIndex(fields, key) == FirstIndex(fields[..|fields| - 1], key) < |fields| - 1
  {
    var front := fields[..|fields| - 1];
    var p := FirstIndex(front, key);
    var i :| 0 <= i < |front| && front[i].0 == key;
    assert p <= i;
    assert fields[p] == front[p];
  }

  /**
   * The keys of a decoded object as the dict holds them: each key once, at
   * the place of its first occurrence (json.loads overwrites the value of a
   * repeated key but keeps the key's place).
   */
  function Keys(fields: seq<(string, Json)>): (r: seq<string>)
    ensures forall k :: k in r <==> HasKey(fields, k)
    ensures forall i, j :: 0 <= i < j < |r| ==> r[i] != r[j]
    ensures |r| <= |fields|
    ensures InFirstOccurrenceOrder(fields, r)
  {
    if fields == [] then []
    else
      var n := |fields|;
      var front := Keys(fields[..n - 1]);
      assert forall i :: 0 <= i < n - 1 ==> fields[..n - 1][i] == fields[i];
      assert forall k :: HasKey(fields, k) <==> HasKey(fields[..n - 1], k) || fields[n - 1].0 == k;
      KeysOrderExtends(fields, front);
      if fields[n - 1].0 in front then front else front + [fields[n - 1].0]
  }

  /** Each key of ks occurs in fields before every later key of ks. */
  ghost predicate InFirstOccurrenceOrder(fields: seq<(string, Json)>, ks: seq<string>) {
    forall i, j :: 0 <= i < j < |ks| ==> FirstIndex(fields, ks[i]) < FirstIndex(fields, ks[j])
  }

  /** A last member whose key no earlier member has is that key's first occurrence. */
  lemma FirstIndexOfNewLast(fields: seq<(string, Json)>)
    requires |fields| > 0 && !HasKey(fields[..|fields| - 1], fields[|fields| - 1].0)
    ensures FirstIndex(fields, fields[|fields| - 1].0) == |fields| - 1
  {
    var n := |fields|;
    assert forall q :: 0 <= q < n - 1 ==> fields[..n - 1][q] == fields[q];
  }

  /** Keys ordered by first occurrence before the last member stay so with it, and a new last key comes after them. */
  lemma KeysOrderExtends(fields: seq<(string, Json)>, front: seq<string>)
    requires |fields| > 0
    requires forall k :: k in front <==> HasKey(fields[..|fields| - 1], k)
    requires InFirstOccurrenceOrder(fields[..|fields| - 1], front)
    ensures InFirstOccurrenceOrder(fields, front)
    ensures fields[|fields| - 1].0 !in front ==> InFirstOccurrenceOrder(fields, front + [fields[|fields| - 1].0])
  {
    var n := |fields|;
    var x := fields[n - 1].0;
    forall k | k in front
      ensures FirstIndex(fields, k) == FirstIndex(fields[..n - 1], k) < n - 1
    {
      FirstIndexInFront(fields, k);
    }
    if x !in front {
      var ks := front + [x];
      FirstIndexOfNewLast(fields);
      forall i, j | 0 <= i < j < |ks|
        ensures FirstIndex(fields, ks[i]) < FirstIndex(fields, ks[j])
      {
        assert ks[i] in front;
      }
    }
  }

  function NoAttribute(v: Json, name: string): string {
    "'" + TypeName(v) + "' object has no attribute '" + name + "'"
  }

  /** v.get(key, default) */
  function DictGet(v: Json, key: string, default: Json): (r: Result<Json, string>)
    ensures r.Err? <==> !v.JObj?
    ensures v.JObj? && HasKey(v.fields, key) ==> r == Ok(Lookup(v.fields, key).value)
    ensures v.JObj? && !HasKey(v.fields, key) ==> r == Ok(default)
  {
    match v
    case JObj(fields) =>
      (match Lookup(fields, key) case Some(x) => Ok(x) case None => Ok(default))
    case _ => Err(NoAttribute(v, "get"))
  }

  /** The elements `for x in v` visits: list items, dict keys, the characters of a str. */
  function Iterate(v: Json): (r: Result<seq<Json>, string>)
    ensures v.JList? ==> r == Ok(v.items)
    ensures v.JObj? ==> r.Ok? && |r.value| == |Keys(v.fields)|
    ensures v.JObj? ==> forall i :: 0 <= i < |Keys(v.fields)| ==> r.value[i] == JStr(Keys(v.fields)[i])
    ensures r.Ok? ==> v.JList? || v.JObj? || v.JStr?
  {
    match v
    case JList(items) => Ok(items)
    case JObj(fields) =>
      var keys := Keys(fields);
      Ok(seq(|keys|, i requires 0 <= i < |keys| => JStr(keys[i])))
    case JStr(s) => Ok(seq(|s|, i requires 0 <= i < |s| => JStr([s[i]])))
    case _ => Err("'" + TypeName(v) + "' object is not iterable")
  }

  /** len(v) */
  function Len(v: Json): (r: Result<nat, string>)
    ensures v.JList? ==> r == Ok(|v.items|)
    ensures v.JObj? ==> r == Ok(|Keys(v.fields)|)
    ensures r.Ok? ==> v.JList? || v.JObj? || v.JStr?
  {
    match v
    case JList(items) => Ok(|items|)
    case JObj(fields) => Ok(|Keys(fields)|)
    case JStr(s) => Ok(|s|)
    case _ => Err("object of type '" + TypeName(v) + "' has no len()")
  }

  /** bool(v): None, False, 0 and empty containers are false. */
  predicate Truthy(v: Json) {
    match v
    case JNull => false
    case JBool(b) => b
    case JInt(i) => i != 0
    case JStr(s) => s != ""
    case JList(items) => items != []
    case JObj(fields) => fields != []
  }

  /** str(v), as an f-string renders v. */
  function Str(v: Json): string {
    match v
    case JStr(s) => s
    case _ => Repr(v)
  }

  /** repr(v); str values are quoted with ' and not escaped. */
  function Repr(v: Json): string
    decreases v
  {
    match v
    case JNull => "None"
    case JBool(b) => if b then "True" else "False"
    case JInt(i) => IntToString(i)
    case JStr(s) => "'" + s + "'"
    case JList(items) =>
      "[" + Join(seq(|items|, k requires 0 <= k < |items| => Repr(items[k]))) + "]"
    case JObj(fields) =>
      var keys := Keys(fields);
      "{" + Join(seq(|keys|, k requires 0 <= k < |keys| => "'" + keys[k] + "': " + Repr(Entry(fields, keys[k])))) + "}"
  }

  /** The value the dict holds under a key it has, and a value smaller than the object for termination. */
  function Entry(fields: seq<(string, Json)>, key: string): (r: Json)
    requires HasKey(fields, key)
    ensures Some(r) == Lookup(fields, key)
    ensures r < JObj(fields)
  {
    assert Lookup(fields, key).value < JObj(fields) by {
      var i :| 0 <= i < |fields| && fields[i] == (key, Lookup(fields, key).value);
      assert fields[i] in fields;
    }
    Lookup(fields, key).value
  }

  /** ", ".join(parts) */
  function Join(parts: seq<string>): string {
    if parts == [] then ""
    else if |parts| == 1 then parts[0]
    else parts[0] + ", " + Join(parts[1..])
  }

  /** a < b for Python str: code point by code point, a proper prefix being smaller. */
  predicate StrLess(a: string, b: string) {
    if a == [] then b != []
    else if b == [] then false
    else if a[0] != b[0] then a[0] < b[0]
    else StrLess(a[1..], b[1..])
  }

  /** v >= cutoff for a str cutoff; any other type of v raises TypeError. */
  function GreaterEq(v: Json, cutoff: string): (r: Result<bool, string>)
    ensures r.Ok? <==> v.JStr?
    ensures v.JStr? ==> r == Ok(!StrLess(v.s, cutoff))
  {
    if v.JStr? then Ok(!StrLess(v.s, cutoff))
    else Err("'>=' not supported between instances of '" + TypeName(v) + "' and 'str'")
  }

  /** A string that starts with b is never less than b: the day of the cutoff is retained whatever its time suffix. */
  lemma {:induction false} ExtensionNotLess(b: string, suffix: string)
    ensures !StrLess(b + suffix, b)
  {
    if b != [] {
      assert (b + suffix)[1..] == b[1..] + suffix;
      ExtensionNotLess(b[1..], suffix);
    }
  }

  /** A repeated key is one dict entry: it is counted and visited once, and holds its last value. */
  lemma RepeatedKeyCountedOnce(key: string, first: Json, last: Json)
    ensures Len(JObj([(key, first), (key, last)])) == Ok(1)
    ensures Iterate(JObj([(key, first), (key, last)])) == Ok([JStr(key)])
    ensures Lookup([(key, first), (key, last)], key) == Some(last)
  {
    var fields := [(key, first), (key, last)];
    assert fields[..1] == [(key, first)];
    assert Keys(fields[..1]) == [key];
    assert Keys(fields) == [key];
    var it := Iterate(JObj(fields)).value;
    assert |it| == 1 && it[0] == JStr(key);
    assert it == [JStr(key)];
  }

  /** StrLess is a strict order: irreflexive ... */
  lemma {:induction false} StrLessIrreflexive(a: string)
    ensures !StrLess(a, a)
  {
    if a != [] { StrLessIrreflexive(a[1..]); }
  }

  /** ... transitive ... */
  lemma {:induction false} StrLessTransitive(a: string, b: string, c: string)
    requires StrLess(a, b) && StrLess(b, c)
    ensures StrLess(a, c)
  {
    if a != [] && b != [] && c != [] && a[0] == b[0] && b[0] == c[0] {
      StrLessTransitive(a[1..], b[1..], c[1..]);
    }
  }

  /** ... and total, so `>=` is exactly `not <`. */
  lemma {:induction false} StrLessTotal(a: string, b: string)
    ensures a == b || StrLess(a, b) || StrLess(b, a)
  {
    if a != [] && b != [] && a[0] == b[0] {
      StrLessTotal(a[1..], b[1..]);
      if a[1..] == b[1..] { assert a == [a[0]] + a[1..] && b == [b[0]] + b[1..]; }
    }
  }
}
