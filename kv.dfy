/** The `LINKS` KV namespace the worker is bound to: a table from key to
    value, with the order in which `list()` enumerates the keys. */
module Kv {
  import opened Wrappers

  /** No key is listed twice. */
  ghost predicate Distinct(names: seq<string>)
  {
    forall i, j :: 0 <= i < j < |names| ==> names[i] != names[j]
  }

  /** `names` without `key`, the others in their order. */
  function Without(names: seq<string>, key: string): (rest: seq<string>)
    ensures forall name :: name in rest <==> name in names && name != key
    ensures Distinct(names) ==> Distinct(rest)
  {
    if names == [] then []
    else if names[0] == key then Without(names[1..], key)
    else
      var tail := Without(names[1..], key);
      assert Distinct(names) ==> names[0] !in names[1..];
      [names[0]] + tail
  }

  class Namespace {
    var entries: map<string, string>
    var names: seq<string>

    /** `names` lists every key of `entries` exactly once. */
    ghost predicate Valid()
      reads this
    {
      && Distinct(names)
      && forall key :: key in entries <==> key in names
    }

    constructor ()
      ensures Valid() && entries == map[] && names == []
    {
      entries := map[];
      names := [];
    }

    /** `LINKS.get(key)`: the stored value, or `null`. */
    method Get(key: string) returns (value: Option<string>)
      ensures value.Some? <==> key in entries
      ensures value.Some? ==> value.value == entries[key]
    {
      value := if key in entries then Some(entries[key]) else None;
    }

    /** `LINKS.put(key, value)`: overwrite or add; a new key is listed last. */
    method Put(key: string, value: string)
      requires Valid()
      modifies this
      ensures Valid()
      ensures entries == old(entries)[key := value]
      ensures names == if key in old(entries) then old(names) else old(names) + [key]
    {
      if key !in entries {
        names := names + [key];
      }
      entries := entries[key := value];
    }

    /** `LINKS.delete(key)`: drop the key, keep the others in their order. */
    method Delete(key: string)
      requires Valid()
      modifies this
      ensures Valid()
      ensures entries == old(entries) - {key}
      ensures names == Without(old(names), key)
    {
      entries := entries - {key};
      names := Without(names, key);
    }

    /** `LINKS.list()`: every key once, in the namespace's order. */
    method List() returns (keys: seq<string>)
      requires Valid()
      ensures Distinct(keys)
      ensures forall key :: key in keys <==> key in entries
      ensures keys == names
    {
      keys := names;
    }
  }
}
