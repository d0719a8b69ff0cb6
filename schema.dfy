/** The values the generator works on: the schema snapshot shapes of
    lib/db/src/lib.rs, the language type map of app/src/language.rs and the
    template configuration of app/src/config.rs. */
module Schema {

  /** The database engine recorded in the snapshot. */
  datatype DatabaseKind = Postgres | MySql | Maria | SqLite

  /** One column; `kind` is the raw database type name (serialised as "type"). */
  datatype ColumnInformation = ColumnInformation(
    name: string,
    kind: string,
    optional: bool,
    isPrimaryKey: bool,
    isForeignKey: bool)

  datatype TableInformation = TableInformation(name: string, columns: seq<ColumnInformation>)

  datatype DatabaseInformation = DatabaseInformation(
    name: string,
    kind: DatabaseKind,
    tables: seq<TableInformation>)

  /** A target language. The source keeps `types` in a hash map whose
      iteration order is unspecified; here it is the order in which the
      entries are visited: (canonical type name, raw type names it matches). */
  datatype Language = Language(name: string, types: seq<(string, seq<string>)>)

  /** One configured template. `single` defaults to false when absent. */
  datatype TemplateConfig = TemplateConfig(
    name: string,
    input: string,
    outputDir: string,
    output: string,
    single: bool,
    language: string)
}
