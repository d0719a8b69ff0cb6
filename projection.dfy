/** The per-template copy of the schema in which every column's type is
    rewritten into the target language (app/src/commands.rs, `generate`). */
module Projection {
  import opened Schema

  /** The canonical name for a raw column type: the key of the first entry,
      in visiting order, whose match list holds the raw type exactly; the
      raw type itself when no entry matches. */
  function ResolveType(types: seq<(string, seq<string>)>, raw: string): (r: string)
    ensures (forall i :: 0 <= i < |types| ==> raw !in types[i].1) ==> r == raw
    ensures (exists i :: 0 <= i < |types| && raw in types[i].1) ==>
      exists i :: 0 <= i < |types| && raw in types[i].1 && r == types[i].0
        && forall j :: 0 <= j < i ==> raw !in types[j].1
  {
    if types == [] then raw
    else if raw in types[0].1 then types[0].0
    else ResolveType(types[1..], raw)
  }

  function ProjectColumn(types: seq<(string, seq<string>)>, column: ColumnInformation): ColumnInformation
  {
    column.(kind := ResolveType(types, column.kind))
  }

  function ProjectTable(types: seq<(string, seq<string>)>, table: TableInformation): TableInformation
  {
    TableInformation(table.name, seq(|table.columns|, i requires 0 <= i < |table.columns| => ProjectColumn(types, table.columns[i])))
  }

  /** The schema as a template targeting `language` sees it: only column
      types change; names, flags, the order of tables and columns and the
      database name and engine are kept. */
  function Project(database: DatabaseInformation, language: Language): (r: DatabaseInformation)
    ensures r.name == database.name && r.kind == database.kind
    ensures |r.tables| == |database.tables|
    ensures forall k :: 0 <= k < |r.tables| ==>
      r.tables[k].name == database.tables[k].name && |r.tables[k].columns| == |database.tables[k].columns|
    ensures forall k, i :: 0 <= k < |r.tables| && 0 <= i < |r.tables[k].columns| ==>
      var c := database.tables[k].columns[i];
      var p := r.tables[k].columns[i];
      p.name == c.name && p.optional == c.optional && p.isPrimaryKey == c.isPrimaryKey
        && p.isForeignKey == c.isForeignKey && p.kind == ResolveType(language.types, c.kind)
  {
    database.(tables := seq(|database.tables|, k requires 0 <= k < |database.tables| => ProjectTable(language.types, database.tables[k])))
  }

  /** A raw type that no entry lists. */
  ghost predicate Unmapped(types: seq<(string, seq<string>)>, raw: string)
  {
    forall i :: 0 <= i < |types| ==> raw !in types[i].1
  }

  /** A schema whose raw types are all unknown to the language is left as it is. */
  lemma ProjectUnmappedIsIdentity(database: DatabaseInformation, language: Language)
    requires forall k, i :: 0 <= k < |database.tables| && 0 <= i < |database.tables[k].columns| ==>
      Unmapped(language.types, database.tables[k].columns[i].kind)
    ensures Project(database, language) == database
  {
    var r := Project(database, language);
    forall k | 0 <= k < |database.tables|
      ensures r.tables[k] == database.tables[k]
    {
      assert r.tables[k].columns == database.tables[k].columns;
    }
    assert r.tables == database.tables;
  }

  /** Entries visited after a matching one never change the answer. */
  lemma {:induction false} ResolveTypeAppend(types: seq<(string, seq<string>)>, later: seq<(string, seq<string>)>, raw: string)
    requires exists i :: 0 <= i < |types| && raw in types[i].1
    ensures ResolveType(types + later, raw) == ResolveType(types, raw)
  {
    assert types != [];
    assert (types + later)[0] == types[0];
    if raw !in types[0].1 {
      assert (types + later)[1..] == types[1..] + later;
      var i :| 0 <= i < |types| && raw in types[i].1;
      assert raw in types[1..][i - 1].1;
      ResolveTypeAppend(types[1..], later, raw);
    }
  }

  /** A map sending varchar and text to string and int4 to int: text and int4
      resolve, uuid passes through. */
  lemma ResolveTypeExample()
    ensures var types := [("string", ["varchar", "text"]), ("int", ["int4"])];
      ResolveType(types, "text") == "string" && ResolveType(types, "int4") == "int"
        && ResolveType(types, "uuid") == "uuid"
  {
    var types := [("string", ["varchar", "text"]), ("int", ["int4"])];
    assert "text" in types[0].1;
    assert "int4" !in types[0].1 && "int4" in types[1].1;
    assert "uuid" !in types[0].1 && "uuid" !in types[1].1;
  }
}
