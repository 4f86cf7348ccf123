/**
  Decoded JSON values, as `json.load` hands them to the webhook handler,
  and the few Python operations the handler applies to them: truthiness,
  `dict.get` and iteration.
 */
module JsonValues {
  import opened Wrappers

  /** A decoded JSON value. Numbers are modelled as integers; an object keeps its
      members in document order. */
  datatype Json =
    | JNull
    | JBool(b: bool)
    | JNumber(n: int)
    | JString(s: string)
    | JArray(items: seq<Json>)
    | JObject(fields: seq<(string, Json)>)

  /** Python truthiness of a decoded value: `None`, `False`, `0`, `""`, `[]` and `{}` are false. */
  predicate Truthy(j: Json) {
    match j
    case JNull => false
    case JBool(b) => b
    case JNumber(n) => n != 0
    case JString(s) => s != ""
    case JArray(items) => items != []
    case JObject(fields) => fields != []
  }

  /** Some member of the object is named `key`. */
  predicate HasKey(fields: seq<(string, Json)>, key: string) {
    exists i :: 0 <= i < |fields| && fields[i].0 == key
  }

  lemma HasKeySnoc(fields: seq<(string, Json)>, k: string)
    requires fields != []
    ensures HasKey(fields, k) <==> HasKey(fields[..|fields| - 1], k) || fields[|fields| - 1].0 == k
  {
    var front := fields[..|fields| - 1];
    if HasKey(front, k) {
      var i :| 0 <= i < |front| && front[i].0 == k;
      assert fields[i].0 == k;
    }
    if HasKey(fields, k) && fields[|fields| - 1].0 != k {
      var i :| 0 <= i < |fields| && fields[i].0 == k;
      assert front[i].0 == k;
    }
  }

  /** `obj[key]`: the value of the last member named `key`, which is the one
      `json.load` keeps when a key is repeated. */
  function Lookup(fields: seq<(string, Json)>, key: string): (r: Option<Json>)
    ensures r.None? <==> !HasKey(fields, key)
    ensures r.Some? ==> IsLastMember(fields, key, r.value)
    decreases |fields|
  {
    if fields == [] then None
    else if fields[|fields| - 1].0 == key then Some(fields[|fields| - 1].1)
    else
      var pre := fields[..|fields| - 1];
      HasKeySnoc(fields, key);
      var r := Lookup(pre, key);
      if r.Some? then
        LastMemberSnoc(fields, key, r.value);
        r
      else
        r
  }

  /** `(key, v)` is a member with no later member named `key`. */
  predicate IsLastMember(fields: seq<(string, Json)>, key: string, v: Json) {
    exists i :: 0 <= i < |fields| && fields[i] == (key, v) &&
      forall j :: i < j < |fields| ==> fields[j].0 != key
  }

  /** Appending a member with another name keeps the last member named `key`. */
  lemma LastMemberSnoc(fields: seq<(string, Json)>, key: string, v: Json)
    requires fields != [] && fields[|fields| - 1].0 != key
    requires IsLastMember(fields[..|fields| - 1], key, v)
    ensures IsLastMember(fields, key, v)
  {
    var pre := fields[..|fields| - 1];
    var i :| 0 <= i < |pre| && pre[i] == (key, v) && forall j :: i < j < |pre| ==> pre[j].0 != key;
    assert fields[i] == pre[i];
    assert forall j :: i < j < |pre| ==> fields[j] == pre[j];
  }

  /** `obj.get(key, default)`. */
  function GetOr(fields: seq<(string, Json)>, key: string, default: Json): (r: Json)
    ensures !HasKey(fields, key) ==> r == default
    ensures HasKey(fields, key) ==> Some(r) == Lookup(fields, key)
  {
    match Lookup(fields, key)
    case Some(v) => v
    case None => default
  }

  /** The position of the first member named `key`, or the number of members when
      there is none. */
  function FirstAt(fields: seq<(string, Json)>, key: string): (r: nat)
    ensures r <= |fields|
    ensures r < |fields| <==> HasKey(fields, key)
    ensures r < |fields| ==> fields[r].0 == key
    ensures forall p :: 0 <= p < r ==> fields[p].0 != key
  {
    if fields == [] then 0
    else if fields[0].0 == key then 0
    else
      var r := 1 + FirstAt(fields[1..], key);
      assert forall p :: 1 <= p < r ==> fields[p].0 == fields[1..][p - 1].0;
      assert HasKey(fields[1..], key) ==> HasKey(fields, key) by {
        if HasKey(fields[1..], key) {
          var i :| 0 <= i < |fields[1..]| && fields[1..][i].0 == key;
          assert fields[i + 1].0 == key;
        }
      }
      r
  }

  /** Appending a member leaves the first position of every key already present unchanged. */
  lemma FirstAtSnoc(fields: seq<(string, Json)>, key: string)
    requires fields != [] && HasKey(fields[..|fields| - 1], key)
    ensures FirstAt(fields, key) == FirstAt(fields[..|fields| - 1], key)
  {
    var front := fields[..|fields| - 1];
    var a, b := FirstAt(front, key), FirstAt(fields, key);
    assert front[a].0 == key && fields[a] == front[a];
  }

  /** The keys of a decoded object in the order a dict yields them: each key once,
      ordered by its first occurrence (`DictKeysOrder`). */
  function DictKeys(fields: seq<(string, Json)>): (ks: seq<string>)
    ensures forall k :: k in ks <==> HasKey(fields, k)
    ensures forall i, j :: 0 <= i < j < |ks| ==> ks[i] != ks[j]
    decreases |fields|
  {
    if fields == [] then []
    else
      var pre := fields[..|fields| - 1];
      var front := DictKeys(pre);
      var k := fields[|fields| - 1].0;
      assert forall key :: HasKey(fields, key) <==> HasKey(pre, key) || key == k by {
        forall key ensures HasKey(fields, key) <==> HasKey(pre, key) || key == k {
          HasKeySnoc(fields, key);
        }
      }
      if k in front then front else front + [k]
  }

  /** A dict lists its keys in the order of their first occurrence in the document. */
  lemma {:induction false} DictKeysOrder(fields: seq<(string, Json)>)
    ensures forall i, j :: 0 <= i < j < |DictKeys(fields)| ==>
              FirstAt(fields, DictKeys(fields)[i]) < FirstAt(fields, DictKeys(fields)[j])
    decreases |fields|
  {
    if fields != [] {
      var pre := fields[..|fields| - 1];
      var front := DictKeys(pre);
      var k := fields[|fields| - 1].0;
      DictKeysOrder(pre);
      assert DictKeys(fields) == if k in front then front else front + [k];
      forall i | 0 <= i < |front|
        ensures FirstAt(fields, front[i]) == FirstAt(pre, front[i]) < |pre|
      {
        FirstAtSnoc(fields, front[i]);
      }
      if k !in front {
        assert FirstAt(fields, k) == |fields| - 1 by {
          assert !HasKey(pre, k);
          assert forall p :: 0 <= p < |pre| ==> fields[p] == pre[p];
        }
      }
      var ks := DictKeys(fields);
      forall i, j | 0 <= i < j < |ks|
        ensures FirstAt(fields, ks[i]) < FirstAt(fields, ks[j])
      {
        assert ks[i] == front[i];
        assert FirstAt(fields, front[i]) == FirstAt(pre, front[i]) < |pre|;
        if j == |front| {
          assert ks[j] == k;
        } else {
          assert ks[j] == front[j];
          assert FirstAt(fields, front[j]) == FirstAt(pre, front[j]);
          assert FirstAt(pre, front[i]) < FirstAt(pre, front[j]);
        }
      }
    }
  }

  /** The names of an object's members, in document order. */
  function Names(fields: seq<(string, Json)>): (ns: seq<string>)
    ensures |ns| == |fields| && forall i :: 0 <= i < |fields| ==> ns[i] == fields[i].0
  {
    seq(|fields|, i requires 0 <= i < |fields| => fields[i].0)
  }

  /** `obj.items()`: one member per key, in dict order, holding the value `obj[key]`. */
  function DictItems(fields: seq<(string, Json)>): (items: seq<(string, Json)>)
    ensures Names(items) == DictKeys(fields)
    ensures forall i :: 0 <= i < |items| ==> Some(items[i].1) == Lookup(fields, items[i].0)
  {
    var ks := DictKeys(fields);
    seq(|ks|, i requires 0 <= i < |ks| => (ks[i], Lookup(fields, ks[i]).value))
  }

  /** Iterating `obj.items()` visits the same keys, in the same order, and finds
      the same value under each key as the decoded object itself. */
  lemma DictItemsAgree(fields: seq<(string, Json)>)
    ensures DictKeys(DictItems(fields)) == DictKeys(fields)
    ensures forall k :: HasKey(DictItems(fields), k) <==> HasKey(fields, k)
    ensures forall k :: Lookup(DictItems(fields), k) == Lookup(fields, k)
  {
    var items, ks := DictItems(fields), DictKeys(fields);
    assert forall i :: 0 <= i < |items| ==> items[i].0 == ks[i] by {
      forall i | 0 <= i < |items| ensures items[i].0 == ks[i] {
        assert items[i].0 == Names(items)[i];
      }
    }
    DictKeysDistinct(items);
    forall k ensures Lookup(items, k) == Lookup(fields, k) {
      LookupDistinct(items, fields, k);
    }
  }

  lemma LookupDistinct(items: seq<(string, Json)>, fields: seq<(string, Json)>, k: string)
    requires items == DictItems(fields)
    requires forall i :: 0 <= i < |items| ==> items[i].0 == DictKeys(fields)[i]
    ensures Lookup(items, k) == Lookup(fields, k)
  {
    var ks := DictKeys(fields);
    if HasKey(items, k) {
      var i :| 0 <= i < |items| && items[i].0 == k;
      var r := Lookup(items, k);
      var j :| 0 <= j < |items| && items[j] == (k, r.value) &&
        forall q :: j < q < |items| ==> items[q].0 != k;
      assert ks[i] == ks[j];
    } else {
      assert forall i :: 0 <= i < |ks| ==> ks[i] != k;
    }
  }

  /** An object whose members all have distinct names yields exactly those names. */
  lemma {:induction false} DictKeysDistinct(fields: seq<(string, Json)>)
    requires forall i, j :: 0 <= i < j < |fields| ==> fields[i].0 != fields[j].0
    ensures DictKeys(fields) == Names(fields)
    decreases |fields|
  {
    if fields != [] {
      var pre := fields[..|fields| - 1];
      var k := fields[|fields| - 1].0;
      DictKeysDistinct(pre);
      assert !HasKey(pre, k);
      assert DictKeys(fields) == DictKeys(pre) + [k];
      assert Names(fields) == Names(pre) + [k];
    }
  }

  /** What `for a in value` yields for a decoded value: the items of an array, the
      one-character strings of a string, the keys of an object; `None` when the
      value is not iterable (null, a boolean or a number), where Python raises. */
  function Iterate(j: Json): (r: Option<seq<Json>>)
    ensures r.None? <==> j.JNull? || j.JBool? || j.JNumber?
    ensures j.JArray? ==> r == Some(j.items)
    ensures j.JString? ==>
              r.Some? && |r.value| == |j.s| &&
              forall i :: 0 <= i < |j.s| ==> r.value[i] == JString([j.s[i]])
    ensures j.JObject? ==>
              r.Some? && |r.value| == |DictKeys(j.fields)| &&
              forall i :: 0 <= i < |r.value| ==> r.value[i] == JString(DictKeys(j.fields)[i])
  {
    match j
    case JArray(items) => Some(items)
    case JString(s) => Some(seq(|s|, i requires 0 <= i < |s| => JString([s[i]])))
    case JObject(fields) =>
      var ks := DictKeys(fields);
      Some(seq(|ks|, i requires 0 <= i < |ks| => JString(ks[i])))
    case _ => None
  }
}
