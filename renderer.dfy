/** The template renderer (lib/renderer/src/lib.rs): a render context built
    by successive inserts, and an engine object that filters are registered
    on. The engine's own template loading and evaluation are uninterpreted:
    they are the `load` and `evaluate` functions passed in. */
module Renderer {
  import opened Wrappers
  import opened Schema
  import Json
  import ConstraintTypeFilter

  /** A value bound to a name in a render context. */
  datatype Bound = DatabaseBound(database: DatabaseInformation) | TableBound(table: TableInformation)

  /** The engine's evaluation of a named template in a context: the rendered
      text, or the engine's error message. */
  type Evaluator = (string, map<string, Bound>) -> Result<string, string>

  /** A template filter: input value and named arguments to a value or an error. */
  type Filter = (Json.Value, map<string, Json.Value>) -> Result<Json.Value, string>

  const TemplateExtension: string := ".shika.tera"
  const TemplateGlob: string := ".shika/templates/**/*.tera"
  const ExcludeKeysName: string := "exclude_keys"

  /** A render context: names bound to values. */
  class Context {
    var data: map<string, Bound>

    constructor ()
      ensures data == map[]
    {
      data := map[];
    }

    method Insert(key: string, value: Bound)
      modifies this
      ensures data == old(data)[key := value]
    {
      data := data[key := value];
    }
  }

  /** A loaded template engine. */
  class Tera {
    const evaluate: Evaluator
    /** The filters the program registered. Tera's built-in filters, present
        in every engine from the start, are not part of this map. */
    var filters: map<string, Filter>

    constructor (evaluate: Evaluator)
      ensures this.evaluate == evaluate && filters == map[]
    {
      this.evaluate := evaluate;
      filters := map[];
    }

    method RegisterFilter(name: string, filter: Filter)
      modifies this
      ensures filters == old(filters)[name := filter]
    {
      filters := filters[name := filter];
    }

    /** Renders the named template: the engine's answer, error or text, unchanged. */
    method Render(name: string, context: Context) returns (r: Result<string, string>)
      ensures r == evaluate(name, context.data)
    {
      r := evaluate(name, context.data);
    }
  }

  /** The name of the template stored for the input `path`. */
  function TemplateName(path: string): string
  {
    path + TemplateExtension
  }

  /** The variables a template sees: `database` always, `table` exactly
      when a table is given, nothing else. */
  function ContextFor(database: DatabaseInformation, table: Option<TableInformation>): (m: map<string, Bound>)
    ensures "database" in m && m["database"] == DatabaseBound(database)
    ensures "table" in m <==> table.Some?
    ensures table.Some? ==> m["table"] == TableBound(table.value)
    ensures forall key :: key in m ==> key == "database" || key == "table"
  {
    var m := map["database" := DatabaseBound(database)];
    if table.Some? then m["table" := TableBound(table.value)] else m
  }

  /** `render`: binds the database, and the table if one is given, then asks
      the engine for the template `path + ".shika.tera"`; an engine error is
      returned as the error and no text is produced. */
  method Render(path: string, tera: Tera, database: DatabaseInformation, table: Option<TableInformation>)
    returns (r: Result<string, string>)
    ensures r == tera.evaluate(TemplateName(path), ContextFor(database, table))
  {
    var context := new Context();
    context.Insert("database", DatabaseBound(database));
    if table.Some? {
      context.Insert("table", TableBound(table.value));
    }
    r := tera.Render(TemplateName(path), context);
  }

  /** `create`: loads the templates matched by the glob and registers the
      constraint-type `exclude_keys` filter; a loading error is returned.
      On success `exclude_keys` is the only filter the program registered. */
  method Create(load: string -> Result<Evaluator, string>) returns (r: Result<Tera, string>)
    ensures r.Err? <==> load(TemplateGlob).Err?
    ensures r.Err? ==> r.error == load(TemplateGlob).error
    ensures r.Ok? ==> fresh(r.value) && r.value.evaluate == load(TemplateGlob).value
    ensures r.Ok? ==> r.value.filters == map[ExcludeKeysName := ConstraintTypeFilter.ExcludeKeys]
  {
    var loaded := load(TemplateGlob);
    if loaded.Err? {
      return Err(loaded.error);
    }
    var tera := new Tera(loaded.value);
    tera.RegisterFilter(ExcludeKeysName, ConstraintTypeFilter.ExcludeKeys);
    return Ok(tera);
  }
}
