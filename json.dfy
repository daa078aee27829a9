/**
  JSON values as JavaScript sees them after `JSON.parse`, with the two
  JavaScript operations the system applies to them: truthiness (for `||`
  and `if (x)`) and member access with optional chaining (`x?.key`).
*/
module Json {
  import opened Wrappers

  datatype Json =
    | JNull
    | JBool(b: bool)
    | JNum(n: real)
    | JStr(s: string)
    | JArr(items: seq<Json>)
    | JObj(fields: seq<(string, Json)>)

  /** JavaScript truthiness: null, false, 0 and "" are falsy; arrays and objects are truthy. */
  predicate Truthy(j: Json) {
    match j
    case JNull => false
    case JBool(b) => b
    case JNum(n) => n != 0.0
    case JStr(s) => s != ""
    case JArr(_) => true
    case JObj(_) => true
  }

  /** Keys of an object (empty for every other value). */
  function Keys(j: Json): set<string> {
    if j.JObj? then set i | 0 <= i < |j.fields| :: j.fields[i].0 else {}
  }

  /** The last binding of `key` among `fields` (JSON.parse keeps the last duplicate). */
  function Lookup(fields: seq<(string, Json)>, key: string): (r: Option<Json>)
    ensures r.Some? <==> exists i :: 0 <= i < |fields| && fields[i].0 == key
    ensures r.Some? ==> exists i :: 0 <= i < |fields| && fields[i] == (key, r.value) && LastOf(fields, key, i)
  {
    if |fields| == 0 then None
    else if fields[|fields| - 1].0 == key then Some(fields[|fields| - 1].1)
    else
      var init := fields[..|fields| - 1];
      var r := Lookup(init, key);
      assert forall i :: 0 <= i < |init| ==> init[i] == fields[i];
      assert forall i :: 0 <= i < |init| && LastOf(init, key, i) ==> LastOf(fields, key, i);
      r
  }

  /** No binding after position `i` has the key `key`. */
  predicate LastOf(fields: seq<(string, Json)>, key: string, i: int) {
    forall m :: 0 <= m < |fields| && i < m ==> fields[m].0 != key
  }

  /** `j?.key`: a member of an object; `undefined` (None) for every other value or a missing key. */
  function Member(j: Json, key: string): (r: Option<Json>)
    ensures r.Some? <==> key in Keys(j)
    ensures r.Some? ==> exists i :: 0 <= i < |j.fields| && j.fields[i] == (key, r.value) && LastOf(j.fields, key, i)
  {
    if j.JObj? then
      var r := Lookup(j.fields, key);
      assert r.Some? ==> key in Keys(j);
      assert key in Keys(j) ==> exists i :: 0 <= i < |j.fields| && j.fields[i].0 == key;
      r
    else None
  }

  /** `j?.[0]`: the first element of an array, or member "0" of an object. */
  function First(j: Json): Option<Json> {
    match j
    case JArr(items) => if |items| > 0 then Some(items[0]) else None
    case JObj(_) => Member(j, "0")
    case _ => None
  }

  /** Optional chaining: `o?.key` where `o` may already be undefined. */
  function Chain(o: Option<Json>, key: string): Option<Json> {
    match o
    case None => None
    case Some(j) => Member(j, key)
  }

  /** The binding appended last wins. */
  lemma LookupLast(fields: seq<(string, Json)>, key: string, v: Json)
    ensures Lookup(fields + [(key, v)], key) == Some(v)
  {
  }

  /** A binding for another key does not affect the lookup. */
  lemma LookupOther(fields: seq<(string, Json)>, other: (string, Json), key: string)
    requires other.0 != key
    ensures Lookup(fields + [other], key) == Lookup(fields, key)
  {
    assert (fields + [other])[..|fields|] == fields;
  }

  /** Each of three bindings with distinct keys is found. */
  lemma LookupThree(a: (string, Json), b: (string, Json), c: (string, Json))
    requires a.0 != b.0 && a.0 != c.0 && b.0 != c.0
    ensures Lookup([a, b, c], a.0) == Some(a.1)
    ensures Lookup([a, b, c], b.0) == Some(b.1)
    ensures Lookup([a, b, c], c.0) == Some(c.1)
  {
    assert [a, b, c] == [a, b] + [c] && [a, b] == [a] + [b] && [a] == [] + [a];
    LookupLast([a, b], c.0, c.1);
    LookupOther([a, b], c, b.0);
    LookupLast([a], b.0, b.1);
    LookupOther([a, b], c, a.0);
    LookupOther([a], b, a.0);
    LookupLast([], a.0, a.1);
  }

  /** Each of two bindings with distinct keys is found. */
  lemma LookupTwo(a: (string, Json), b: (string, Json))
    requires a.0 != b.0
    ensures Lookup([a, b], a.0) == Some(a.1)
    ensures Lookup([a, b], b.0) == Some(b.1)
  {
    assert [a, b] == [a] + [b] && [a] == [] + [a];
    LookupLast([a], b.0, b.1);
    LookupOther([a], b, a.0);
    LookupLast([], a.0, a.1);
  }
}
