/** The `exclude_keys` template filter that tests the `constraint_type`
    field of each item (lib/renderer/src/filter.rs); this is the one the
    renderer registers. */
module ConstraintTypeFilter {
  import opened Wrappers
  import opened Json
  import Sequences

  /** The message of the error raised for a non-array input: the display of
      the JSON string "Error", quotes included. */
  const NotAnArray: string := "\"Error\""

  const PrimaryKey: string := "PRIMARY KEY"

  /** `item["constraint_type"] != "PRIMARY KEY"`: an item is kept unless its
      `constraint_type` field is exactly that string; a missing field indexes
      to null and, like any non-string, is kept. */
  predicate Kept(item: Value)
    ensures Kept(item) <==> !(item.Object? && "constraint_type" in item.fields && item.fields["constraint_type"] == String(PrimaryKey))
  {
    !EqStr(Index(item, "constraint_type"), PrimaryKey)
  }

  /** Drops the primary-key constraint rows from an array; `args` is unused. */
  function ExcludeKeys(value: Value, args: map<string, Value>): (r: Result<Value, string>)
    ensures r.Err? <==> !value.Array?
    ensures r.Err? ==> r.error == NotAnArray
    ensures r.Ok? ==> r.value.Array? && |r.value.items| <= |value.items|
    ensures r.Ok? ==> Sequences.IsSubsequence(r.value.items, value.items)
    ensures r.Ok? ==> forall item :: multiset(r.value.items)[item] == if Kept(item) then multiset(value.items)[item] else 0
  {
    if value.Array? then Ok(Array(Sequences.Filter(value.items, Kept))) else Err(NotAnArray)
  }

  /** Applying the filter to its own output changes nothing. */
  lemma ExcludeKeysIdempotent(value: Value, args: map<string, Value>, args': map<string, Value>)
    requires ExcludeKeys(value, args).Ok?
    ensures ExcludeKeys(ExcludeKeys(value, args).value, args') == ExcludeKeys(value, args)
  {
    Sequences.FilterIdempotent(value.items, Kept);
  }

  /** The result depends on the filtered value alone. */
  lemma ExcludeKeysIgnoresArgs(value: Value, args: map<string, Value>, args': map<string, Value>)
    ensures ExcludeKeys(value, args) == ExcludeKeys(value, args')
  {
  }

  /** Items that carry no `constraint_type` field (such as the serialised
      columns of the schema snapshot, which have none) all pass unchanged. */
  lemma ExcludeKeysKeepsUnconstrained(items: seq<Value>)
    requires forall i :: 0 <= i < |items| ==> Index(items[i], "constraint_type") == Null
    ensures ExcludeKeys(Array(items), map[]) == Ok(Array(items))
  {
    Sequences.FilterKeepsAll(items, Kept);
  }

  /** A primary-key row and a foreign-key row: only the foreign-key row is left. */
  lemma ExcludeKeysDropsPrimaryKeyRow()
    ensures
      var id := Object(map["name" := String("id"), "constraint_type" := String(PrimaryKey)]);
      var owner := Object(map["name" := String("owner"), "constraint_type" := String("FOREIGN KEY")]);
      ExcludeKeys(Array([id, owner]), map[]) == Ok(Array([owner]))
  {
    var id := Object(map["name" := String("id"), "constraint_type" := String(PrimaryKey)]);
    var owner := Object(map["name" := String("owner"), "constraint_type" := String("FOREIGN KEY")]);
    assert !Kept(id) && Kept(owner);
    assert [id, owner][1..] == [owner] && [owner][1..] == [];
    assert Sequences.Filter([owner], Kept) == [owner];
    assert Sequences.Filter([id, owner], Kept) == [owner];
  }
}
