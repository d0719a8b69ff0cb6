/** The `exclude_keys` template filter that tests the boolean
    `is_primary_key` field of each item (libs/renderer/src/filter.rs). */
module PrimaryKeyFlagFilter {
  import opened Wrappers
  import opened Json
  import Sequences

  /** The message of the error raised for a non-array input: the display of
      the JSON string "Error", quotes included. */
  const NotAnArray: string := "\"Error\""

  /** `!item["is_primary_key"].as_bool().unwrap_or(false)`: an item is kept
      unless its `is_primary_key` field is the boolean `true`; a missing,
      null or non-boolean field counts as false. */
  predicate Kept(item: Value)
    ensures Kept(item) <==> !(item.Object? && "is_primary_key" in item.fields && item.fields["is_primary_key"] == Bool(true))
  {
    !AsBool(Index(item, "is_primary_key")).GetOr(false)
  }

  /** Drops the items flagged as primary keys from an array; `args` is unused. */
  function ExcludeKeys(value: Value, args: map<string, Value>): (r: Result<Value, string>)
    ensures r.Err? <==> !value.Array?
    ensures r.Err? ==> r.error == NotAnArray
    ensures r.Ok? ==> r.value.Array? && |r.value.items| <= |value.items|
    ensures r.Ok? ==> Sequences.IsSubsequence(r.value.items, value.items)
    ensures r.Ok? ==> forall item :: multiset(r.value.items)[item] == if Kept(item) then multiset(value.items)[item] else 0
  {
    if value.Array? then Ok(Array(Sequences.Filter(value.items, Kept))) else Err(NotAnArray)
  }

  /** Applying the filter to its own output changes nothing. */
  lemma ExcludeKeysIdempotent(value: Value, args: map<string, Value>, args': map<string, Value>)
    requires ExcludeKeys(value, args).Ok?
    ensures ExcludeKeys(ExcludeKeys(value, args).value, args') == ExcludeKeys(value, args)
  {
    Sequences.FilterIdempotent(value.items, Kept);
  }

  /** The result depends on the filtered value alone. */
  lemma ExcludeKeysIgnoresArgs(value: Value, args: map<string, Value>, args': map<string, Value>)
    ensures ExcludeKeys(value, args) == ExcludeKeys(value, args')
  {
  }

  /** A primary-key column and an ordinary column: only the ordinary one is left. */
  lemma ExcludeKeysDropsPrimaryKeyColumn()
    ensures
      var id := Object(map["name" := String("id"), "is_primary_key" := Bool(true)]);
      var email := Object(map["name" := String("email"), "is_primary_key" := Bool(false)]);
      ExcludeKeys(Array([id, email]), map[]) == Ok(Array([email]))
  {
    var id := Object(map["name" := String("id"), "is_primary_key" := Bool(true)]);
    var email := Object(map["name" := String("email"), "is_primary_key" := Bool(false)]);
    assert !Kept(id) && Kept(email);
    assert [id, email][1..] == [email] && [email][1..] == [];
    assert Sequences.Filter([email], Kept) == [email];
    assert Sequences.Filter([id, email], Kept) == [email];
  }
}
