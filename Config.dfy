/**
  The configuration table of webhook_handler.py: an insertion-ordered dict from
  handler names to lists of option records, and `load_config_file`, which merges
  a decoded configuration file into such a table in place.
 */
module Config {
  import opened Wrappers
  import opened JsonValues
  import opened Handlers

  /** The contents of a configuration dict: its keys in insertion order and the
      list stored under each. */
  datatype Entries = Entries(keys: seq<string>, vals: map<string, seq<Json>>)

  /** Every key occurs once in the order and the order lists exactly the stored keys. */
  ghost predicate WellFormed(e: Entries) {
    && (forall i, j :: 0 <= i < j < |e.keys| ==> e.keys[i] != e.keys[j])
    && (forall k :: k in e.vals <==> k in e.keys)
  }

  const Empty: Entries := Entries([], map[])

  /** `config[k] = v` on an insertion-ordered dict: an existing key keeps its
      place, a new key goes last. */
  function Put(e: Entries, k: string, v: seq<Json>): (r: Entries)
    requires WellFormed(e)
    ensures WellFormed(r)
    ensures r.vals == e.vals[k := v]
    ensures k in e.vals ==> r.keys == e.keys
    ensures k !in e.vals ==> r.keys == e.keys + [k]
  {
    if k in e.vals then Entries(e.keys, e.vals[k := v]) else Entries(e.keys + [k], e.vals[k := v])
  }

  /** The list stored for a file value: a list as it is, anything else wrapped. */
  function Normalize(v: Json): seq<Json> {
    if v.JArray? then v.items else [v]
  }

  /** One iteration of the loop in `load_config_file`. */
  function Accept(e: Entries, field: (string, Json), handlers: map<string, Handler>): (r: Entries)
    requires WellFormed(e)
    ensures WellFormed(r)
  {
    if field.0 in handlers then Put(e, field.0, Normalize(field.1)) else e
  }

  /** The table after the loop of `load_config_file` has run over `fields`. */
  function Merge(e: Entries, fields: seq<(string, Json)>, handlers: map<string, Handler>): (r: Entries)
    requires WellFormed(e)
    ensures WellFormed(r)
    decreases |fields|
  {
    if fields == [] then e
    else Accept(Merge(e, fields[..|fields| - 1], handlers), fields[|fields| - 1], handlers)
  }

  /** What the merge stores under one key: the normalised file value when the key
      names a handler and occurs in the file, and otherwise exactly what the table
      held before (including holding nothing). */
  lemma {:induction false} MergeValue(e: Entries, fields: seq<(string, Json)>, handlers: map<string, Handler>, k: string)
    requires WellFormed(e)
    ensures var m := Merge(e, fields, handlers);
            if k in handlers && HasKey(fields, k) then
              k in m.vals && m.vals[k] == Normalize(Lookup(fields, k).value)
            else
              (k in m.vals <==> k in e.vals) && (k in e.vals ==> m.vals[k] == e.vals[k])
    decreases |fields|
  {
    if fields != [] {
      var front := fields[..|fields| - 1];
      MergeValue(e, front, handlers, k);
      HasKeySnoc(fields, k);
    }
  }

  /** The keys of `ks`, in order, that name a handler and are not yet stored. */
  function NewKeys(ks: seq<string>, handlers: map<string, Handler>, stored: map<string, seq<Json>>): (r: seq<string>)
    ensures forall k :: k in r <==> k in ks && k in handlers && k !in stored
    decreases |ks|
  {
    if ks == [] then []
    else
      var k := ks[|ks| - 1];
      NewKeys(ks[..|ks| - 1], handlers, stored) + (if k in handlers && k !in stored then [k] else [])
  }

  /** Entries already in the table keep their places; after them come the keys of
      the file that name a handler and were not stored yet, each once, in the order
      in which they first occur in the file. */
  lemma {:induction false} MergeOrder(e: Entries, fields: seq<(string, Json)>, handlers: map<string, Handler>)
    requires WellFormed(e)
    ensures var m := Merge(e, fields, handlers);
            m.keys == e.keys + NewKeys(DictKeys(fields), handlers, e.vals)
    decreases |fields|
  {
    if fields != [] {
      var front := fields[..|fields| - 1];
      var k := fields[|fields| - 1].0;
      MergeOrder(e, front, handlers);
      var m0 := Merge(e, front, handlers);
      var ks0 := DictKeys(front);
      var ks := DictKeys(fields);
      assert ks == if k in ks0 then ks0 else ks0 + [k];
      MergeValue(e, front, handlers, k);
      if k !in ks0 {
        assert (ks0 + [k])[..|ks0|] == ks0;
        if k in handlers && k !in e.vals {
          assert k !in m0.vals;
        }
      }
    }
  }

  /** Merging the members of the file one by one, as they were decoded, builds the
      same table as iterating the dict `json.load` returns, which holds each key
      once, at its first place, with its last value. */
  lemma MergeAsDict(e: Entries, fields: seq<(string, Json)>, handlers: map<string, Handler>)
    requires WellFormed(e)
    ensures Merge(e, fields, handlers) == Merge(e, DictItems(fields), handlers)
  {
    var m1, m2 := Merge(e, fields, handlers), Merge(e, DictItems(fields), handlers);
    assert m1.keys == m2.keys by {
      DictItemsAgree(fields);
      MergeOrder(e, fields, handlers);
      MergeOrder(e, DictItems(fields), handlers);
    }
    forall k ensures (k in m1.vals <==> k in m2.vals) && (k in m1.vals ==> m1.vals[k] == m2.vals[k]) {
      MergeAsDictAt(e, fields, handlers, k);
    }
    assert m1.vals == m2.vals;
  }

  lemma MergeAsDictAt(e: Entries, fields: seq<(string, Json)>, handlers: map<string, Handler>, k: string)
    requires WellFormed(e)
    ensures var m1, m2 := Merge(e, fields, handlers), Merge(e, DictItems(fields), handlers);
            (k in m1.vals <==> k in m2.vals) && (k in m1.vals ==> m1.vals[k] == m2.vals[k])
  {
    DictItemsAgree(fields);
    MergeValue(e, fields, handlers, k);
    MergeValue(e, DictItems(fields), handlers, k);
  }

  /** A Python dict holding the configuration, updated in place. */
  class ConfigTable {
    var keys: seq<string>
    var vals: map<string, seq<Json>>

    function Contents(): Entries
      reads this
    {
      Entries(keys, vals)
    }

    ghost predicate Valid()
      reads this
    {
      WellFormed(Contents())
    }

    /** `{}` */
    constructor ()
      ensures Valid() && Contents() == Empty
    {
      keys := [];
      vals := map[];
    }

    /** `self[k] = v` */
    method Set(k: string, v: seq<Json>)
      requires Valid()
      modifies this
      ensures Valid() && Contents() == Put(old(Contents()), k, v)
    {
      if k !in vals {
        keys := keys + [k];
      }
      vals := vals[k := v];
    }

    /** `not self`: a dict is false exactly when it is empty. */
    function IsEmpty(): (b: bool)
      reads this
      requires Valid()
      ensures b <==> vals == map[]
    {
      if keys == [] then true
      else
        assert keys[0] in vals;
        false
    }
  }

  /** Why `load_config_file` raised. */
  datatype LoadError =
    | Unreadable      // the file could not be opened or is not valid JSON
    | NotADict        // the decoded file has no `.items()`

  /** `load_config_file(filename, config, handlers)`, starting from what `json.load`
      made of the file (`None` when opening or decoding raised). The table written
      is `config` itself, or a fresh one when `config` is None. */
  method LoadConfigFile(contents: Option<Json>, config: ConfigTable?, handlers: map<string, Handler>)
    returns (r: Result<ConfigTable, LoadError>)
    requires config != null ==> config.Valid()
    modifies config
    ensures r.Ok? <==> contents.Some? && contents.value.JObject?
    ensures contents.None? ==> r == Err(Unreadable)
    ensures r.Ok? && config != null ==> r.value == config
    ensures r.Ok? && config == null ==> fresh(r.value)
    ensures r.Ok? ==>
              r.value.Valid() &&
              r.value.Contents() == Merge(if config == null then Empty else old(config.Contents()), contents.value.fields, handlers)
    ensures r.Err? && config != null ==> config.Contents() == old(config.Contents())
  {
    var table: ConfigTable;
    if config == null {
      table := new ConfigTable();
    } else {
      table := config;
    }
    if contents.None? {
      return Err(Unreadable);
    }
    if !contents.value.JObject? {
      return Err(NotADict);
    }
    var fields := contents.value.fields;
    ghost var start := table.Contents();
    var i := 0;
    while i < |fields|
      invariant 0 <= i <= |fields|
      invariant table.Valid()
      invariant table.Contents() == Merge(start, fields[..i], handlers)
    {
      var (k, v) := fields[i];
      assert fields[..i + 1][..i] == fields[..i];
      if k in handlers {
        table.Set(k, Normalize(v));
      }
      i := i + 1;
    }
    assert fields[..|fields|] == fields;
    return Ok(table);
  }
}
