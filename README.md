# shika: schema-driven code generation, modelled in Dafny

shika reads a database schema snapshot (tables, their columns, each
column's raw type, nullability and key flags) and renders templates over it.
The `generate` command goes through the configured templates in order. For
each template it makes the output directory and loads the target language's
type map. It then builds a copy of the snapshot in which every column type is
rewritten to that language's canonical name. A `single` template writes one
file. Any other template writes one file per table, with `{table}` in the
output name replaced by the table's name. The template engine is Tera. The
renderer binds `database`, and `table` when there is one, and registers an
`exclude_keys` filter that templates use to drop primary-key entries from a
list.

This project models that core.

- `Schema` holds the data shapes of lib/db/src/lib.rs and the language and
  template configuration of app/src/language.rs and app/src/config.rs.
- `Projection` holds the type resolution and the projected schema copy.
- `OutputPath` holds `str::replace` of `{table}` and the `dir/output` join.
- `Renderer` models lib/renderer/src/lib.rs. It has a `Context` class filled
  by inserts and a `Tera` class on which filters are registered, plus
  `Render` and `Create`.
- `PrimaryKeyFlagFilter` models libs/renderer/src/filter.rs.
- `ConstraintTypeFilter` models lib/renderer/src/filter.rs.
- `Sequences` holds the order-preserving filter that both filters use.
- `Json` holds the JSON value the filters see.
- `Commands` models `generate`.

In `Commands`, the imperative method `Generate` and its helpers
`GenerateTemplate`, `WriteTemplate` and `RenderAndWrite` follow the source's
two `while let` loops and its mutable `count`. They are proved against the
function `Run`. `Run` gives the exact sequence of disk effects and the
failure that ends a run. Lemmas then relate `Run` to `Plan`, the files a run
writes when no disk operation or render fails: a run always writes a prefix
of `Plan`, and a run in which every such operation succeeds does not fail
and writes all of it. Only such a run does not fail, and a failed run stops
at the first operation that fails. They also relate
`Plan` to `PlannedPaths` and `FileCount`, which are read off the
configuration and the snapshot alone.

Outside effects are parameters:
- the engine's template loading and evaluation (`load`, `Tera.evaluate`);
- the language loader (`languages`);
- whether `create_dir_all`, `File::create` and `write_all` succeed. These are
  functions of the path held by the `FileSystem` object.

`FileSystem` keeps its directories and file contents. It also keeps a ghost
log of every completed write, recorded as the path and what the file was
rendered from.

Facts about the source that shape the model:
- There are two `exclude_keys` filters. The one in libs/renderer/src/filter.rs
  drops items whose `is_primary_key` flag is `true`. The one in
  lib/renderer/src/filter.rs drops items whose `constraint_type` is the string
  `PRIMARY KEY`. lib/renderer/src/lib.rs declares the second as its `filter`
  module (line 1) and registers it (line 27). Both are modelled, and
  `Renderer.Create` registers the constraint-type one. The snapshot's columns
  (lib/db/src/lib.rs:33-41) have no `constraint_type` field, so the registered
  filter keeps every one of them
  (`ConstraintTypeFilter.ExcludeKeysKeepsUnconstrained`).
- `generate` renders every table of the snapshot and filters none. The
  catalog query in lib/db/src/postgres.rs has a table-exclusion clause, but
  that query belongs to `pull`, which is not part of this model.
- Columns carry only the `is_foreign_key` flag (lib/db/src/lib.rs:33-41). They
  have no link to the column they reference, and the model has none either.
- `render` in lib/renderer/src/lib.rs is typed over `db::Database` and
  `db::Table`, which lib/db/src/lib.rs does not define. `generate` passes it
  the projected `DatabaseInformation` and one of its `TableInformation`s, so
  the model uses those types.
- The language type map is a hash map in the source, so which entry wins
  when a raw type is listed under two canonical names is unspecified there.
  The model visits the entries in a fixed order: the sequence `Language.types`.

## Model

| member | source | states |
|---|---|---|
| `Projection.ResolveType` | app/src/commands.rs:162-168 | The result is the key of the first entry, in visiting order, whose match list contains the raw type. No earlier entry contains it. When no entry contains it, the raw type is returned unchanged. |
| `Projection.ResolveTypeAppend` | app/src/commands.rs:162-168 | Once an entry matches, entries visited later never change the resolved type. |
| `Projection.ResolveTypeExample` | app/src/commands.rs:162-168 | With `string: [varchar, text]` then `int: [int4]`, `text` resolves to `string` and `int4` to `int`, and `uuid` passes through. |
| `Projection.Project` | app/src/commands.rs:152-173 | The projected copy keeps the database name and engine, the table count, order and names, and the column count and order. Each column keeps its name, `optional`, `is_primary_key` and `is_foreign_key`, and its type becomes the resolved type of the original. |
| `Projection.ProjectUnmappedIsIdentity` | app/src/commands.rs:152-173 | If no column type is listed by the language, the projection equals the snapshot. |
| `OutputPath.ReplaceAbsent` | app/src/commands.rs:202 | An output name without the pattern comes back unchanged. |
| `OutputPath.Replace` | app/src/commands.rs:202 | `str::replace`: scanning from the left, each occurrence of the pattern that does not overlap one already replaced becomes the replacement text. Its behaviour is stated by `ReplaceIsSplitJoin`, `ReplaceAbsent` and `ReplaceInjective`. |
| `OutputPath.FirstOccurrence` | app/src/commands.rs:202 | The leftmost occurrence of the pattern: none exactly when the pattern does not occur, and otherwise an index where it occurs with no occurrence before it. |
| `OutputPath.SplitJoinRoundTrip` | app/src/commands.rs:202 | Splitting at the non-overlapping occurrences found from the left and joining the pieces with the pattern gives back the string. |
| `OutputPath.SplitPiecesFree` | app/src/commands.rs:202 | No piece of the split holds the pattern. |
| `OutputPath.ReplaceIsSplitJoin` | app/src/commands.rs:202 | `Replace` equals the reference definition: split the string at the occurrences of the pattern and join the pieces with the replacement. |
| `OutputPath.ReplaceInjective` | app/src/commands.rs:202 | When the pattern occurs, two different replacement texts give two different results. |
| `OutputPath.Join` | app/src/commands.rs:184 | `format!("{}/{}", output_dir, output)`: the directory, a slash, then the file name. |
| `OutputPath.TablePath` | app/src/commands.rs:199-203 | A per-table path: `Join` of the output directory and the output name with `{table}` replaced by the table's name. |
| `OutputPath.TablePathsDistinct` | app/src/commands.rs:199-203 | With `{table}` in the output name, tables with different names get different paths. |
| `OutputPath.TablePathWithoutPlaceholder` | app/src/commands.rs:199-203 | Without `{table}`, a table's path is `output_dir/output` verbatim. |
| `OutputPath.TablePathExample` | app/src/commands.rs:199-203 | `{table}_model.gen` becomes `users_model.gen` for `users` and `orders_model.gen` for `orders`. |
| `Renderer.Context.Insert` | lib/renderer/src/lib.rs:15-19 | An insert binds the key to the value and leaves the other bindings as they were. |
| `Renderer.Tera.RegisterFilter` | lib/renderer/src/lib.rs:27 | Registering a filter binds its name to the filter and leaves the other filters as they were. |
| `Renderer.Tera.Render` | lib/renderer/src/lib.rs:21 | The result is the engine's answer for that template and context, error or text, unchanged. |
| `Renderer.ContextFor` | lib/renderer/src/lib.rs:14-19 | `database` is always bound to the database passed in. `table` is bound exactly when a table is given, and then to that table. No other name is bound. |
| `Renderer.TemplateName` | lib/renderer/src/lib.rs:21 | `format!("{path}.shika.tera")`: the template an input path names. |
| `Renderer.Render` | lib/renderer/src/lib.rs:8-22 | The result is the engine's evaluation of `path + ".shika.tera"` in the context binding `database`, and `table` when one is given. An engine error comes back as an error, never as text. |
| `Renderer.Create` | lib/renderer/src/lib.rs:24-30 | A template-loading error is returned as the error. Otherwise the fresh engine uses the loaded templates, and `exclude_keys`, bound to the constraint-type `ExcludeKeys`, is the only filter the program registered on it. Tera's built-in filters are not in the model's filter map. |
| `Sequences.Filter` | lib/renderer/src/filter.rs:11-13 | The result is an order-preserving subsequence of the input that is no longer than it. Every element of the result is kept by the test. Each kept value occurs as often as in the input, and each dropped value not at all. |
| `Sequences.FilterIdempotent` | lib/renderer/src/filter.rs:12 | Filtering twice with one test is filtering once. |
| `PrimaryKeyFlagFilter.Kept` | libs/renderer/src/filter.rs:12 | An item is kept unless it is an object whose `is_primary_key` field is the boolean `true`. A missing, null or non-boolean field keeps the item. |
| `PrimaryKeyFlagFilter.ExcludeKeys` | libs/renderer/src/filter.rs:5-13 | A non-array input, and only that, gives the error `"Error"`. An array gives an array that is an order-preserving subsequence of the input, no longer than it, holding exactly the kept items with their multiplicities. |
| `PrimaryKeyFlagFilter.ExcludeKeysIdempotent` | libs/renderer/src/filter.rs:12 | Filtering the filter's output again changes nothing, whatever the arguments. |
| `PrimaryKeyFlagFilter.ExcludeKeysIgnoresArgs` | libs/renderer/src/filter.rs:5 | The result does not depend on the `args` map. |
| `PrimaryKeyFlagFilter.ExcludeKeysDropsPrimaryKeyColumn` | libs/renderer/src/filter.rs:12 | From `[{name: id, is_primary_key: true}, {name: email, is_primary_key: false}]` only the `email` item is left. |
| `ConstraintTypeFilter.Kept` | lib/renderer/src/filter.rs:12 | An item is kept unless it is an object whose `constraint_type` field is the string `PRIMARY KEY`. A missing field (null) or a non-string keeps the item. |
| `ConstraintTypeFilter.ExcludeKeys` | lib/renderer/src/filter.rs:5-13 | A non-array input, and only that, gives the error `"Error"`. An array gives an array that is an order-preserving subsequence of the input, no longer than it, holding exactly the kept items with their multiplicities. |
| `ConstraintTypeFilter.ExcludeKeysIdempotent` | lib/renderer/src/filter.rs:12 | Filtering the filter's output again changes nothing, whatever the arguments. |
| `ConstraintTypeFilter.ExcludeKeysIgnoresArgs` | lib/renderer/src/filter.rs:5 | The result does not depend on the `args` map. |
| `ConstraintTypeFilter.ExcludeKeysKeepsUnconstrained` | lib/renderer/src/filter.rs:12 | An array whose items have no `constraint_type` field comes back whole. |
| `ConstraintTypeFilter.ExcludeKeysDropsPrimaryKeyRow` | lib/renderer/src/filter.rs:12 | Of a `PRIMARY KEY` row and a `FOREIGN KEY` row, only the foreign-key row is left. |
| `Commands.Emit` | app/src/commands.rs:176-185 | The steps and the failure of rendering one file and writing it: a render error or a create error takes no step. A write error leaves the file truncated. Otherwise one write is logged with the template input and context it was rendered from. |
| `Commands.EmitTables` | app/src/commands.rs:188-207 | `Emit` for each remaining table in order, with `table` bound and the path `TablePath`, stopping at the first failure. |
| `Commands.EmitTemplate` | app/src/commands.rs:175-207 | A single template emits one file at `Join(output_dir, output)` with no table bound. Any other template runs `EmitTables` over every table of the projected schema. |
| `Commands.RunTemplate` | app/src/commands.rs:147-208 | One template: a failed `create_dir_all` takes no step. Otherwise the directory is made, and then an unknown language fails. A known one runs `EmitTemplate` on the snapshot projected into it. |
| `Commands.RunTemplates` | app/src/commands.rs:145-209 | `RunTemplate` for each configured template in order, stopping at the first failure. |
| `Commands.Run` | app/src/commands.rs:145-209 | The whole run: a template-loading error fails before any step. Otherwise it is `RunTemplates` with the loaded engine. |
| `Commands.FileSystem.CreateDirAll` | app/src/commands.rs:148 | Reports whether the directory could be made. On success the directory is added; on failure the directories are unchanged. |
| `Commands.FileSystem.Create` | app/src/commands.rs:185 | Reports whether the file could be created. On success the file exists and is empty (an existing file is truncated); on failure the files are unchanged. |
| `Commands.FileSystem.WriteAll` | app/src/commands.rs:185 | Reports whether the write succeeded. On success the file holds the content and the write is logged with its origin. On failure the files and the log are unchanged. |
| `Commands.RenderAndWrite` | app/src/commands.rs:176-185 | Render, create, then write. The disk ends as the function `Emit` says and the failure is `Emit`'s. A render error writes nothing. A create error writes nothing. A write error leaves an empty file. |
| `Commands.WriteTemplate` | app/src/commands.rs:175-207 | A single template writes one file at `output_dir/output`. Any other template writes one file per projected table, in table order, stopping at the first failure. The disk, the failure and the number written are those of `EmitTemplate`. |
| `Commands.GenerateTemplate` | app/src/commands.rs:147-208 | One pass of the loop: make the directory, load the language, project the snapshot passed in, write. The disk, the failure and the number written are those of `RunTemplate`. A directory or language failure writes no file. |
| `Commands.Generate` | app/src/commands.rs:139-209 | The disk ends as the steps of `Run` leave it: directories, file contents and the log of writes. The result is `Ok` exactly when `Run` does not fail, and then it holds the number of files written. Otherwise it is `Run`'s first failure. |
| `Commands.RunFollowsPlan` | app/src/commands.rs:145-209 | Every run writes a prefix of `Plan`, in `Plan`'s order: earlier files stay written and nothing is written after a failure. A run that does not fail writes exactly `Plan`, and every template's language was loaded. |
| `Commands.RunSucceeds` | app/src/commands.rs:146-206 | A run fails only where a `?` can fail. If the templates load, every output directory can be made, every language loads, and every planned file renders, creates and writes, then the run does not fail and writes exactly `Plan`. |
| `Commands.RunSucceedsExactly` | app/src/commands.rs:146-206 | A run does not fail if and only if the templates load, every output directory can be made, every language loads, and every planned file renders, creates and writes. So a failure of any one of these ends the run, and nothing else does. |
| `Commands.RunStops` | app/src/commands.rs:146-206 | Where a failed run stops. Either loading the templates failed, with that error, and nothing was done. Or the run wrote a prefix of `Plan`, of some length `n`, and either the failure is the render, create or write error of planned file `n`, or the run wrote exactly the plan of the templates before some template `i` and the failure is that of making template `i`'s directory or loading its language. |
| `Commands.PlanPaths` | app/src/commands.rs:184-203 | The plan's paths are a prefix of `PlannedPaths`, and are all of them when every language loads. Paths do not depend on the language. |
| `Commands.PlannedPathsCount` | app/src/commands.rs:139-206 | There are `FileCount` planned paths: one per single template plus the table count for each other template. |
| `Commands.GenerateWritesPlannedPaths` | app/src/commands.rs:139-209 | Any run writes a prefix of `PlannedPaths`. A run that does not fail writes exactly `PlannedPaths`, and there are `FileCount` of them, the count it reports. |
| `Commands.PlanContexts` | app/src/commands.rs:143-190 | Each planned file comes from a configured template. Its `database` is the loaded snapshot projected into that template's language, never an earlier template's copy. `table` is bound exactly for per-table templates. |
| `Commands.FanOutExamples` | app/src/commands.rs:184-203 | Per-table `{table}_model.gen` over `users, orders` gives `users_model.gen`, `orders_model.gen`, and nothing over no tables. Single `schema_{table}.gen` gives exactly that name, unsubstituted. |
| `Commands.TemplatePathsDistinct` | app/src/commands.rs:199-203 | With `{table}` in the output name and distinct table names, a per-table template's paths are pairwise distinct. |
| `Commands.TemplatePathsWithoutPlaceholder` | app/src/commands.rs:199-203 | Without `{table}`, every per-table write goes to the same `output_dir/output`. |
| `Commands.FileNoun` | app/src/commands.rs:211-216 | The summary says `file` exactly when the count is 1 and `files` otherwise. |

## Left out

- `init` and `pull` (app/src/commands.rs:16-132): directory and file scaffolding, YAML writing, environment lookup, the async runtime and the spinner. This is input and output only. `Generate` models the run that starts once the snapshot is on disk, so the `should_pull` branch is not modelled.
- Reading the configuration and the snapshot (app/src/commands.rs:141-143, app/src/config.rs) and loading a language file (app/src/language.rs:11-15): file opening and YAML parsing. Their results are inputs. A language that cannot be loaded is the `languages` function returning `None`.
- The catalog extraction of lib/db/src/postgres.rs and lib/db/src/mysql.rs: SQL evaluated by the database server over a network pool, and a `todo!()` stub.
- The serde derives of lib/db/src/lib.rs and the YAML round trip of the snapshot: foreign library code. The model uses the struct shapes only.
- app/src/main.rs: command-line parsing and dispatch.
- Console output (the coloured success lines). The pluralisation of the final summary is modelled (`Commands.FileNoun`). The number in the summary is not rendered as text.
- Renderer.Tera.filters: holds only the filters the program registers. Tera's built-in filters, present from `Tera::new` on, are part of the engine's uninterpreted evaluation.
- Renderer.Tera.Render: the engine's template syntax and evaluation are an uninterpreted function of the template name and the context. That function does not take the registered filters as an argument.
- Commands.FileSystem.WriteAll: a failed write leaves the file as `File::create` left it, empty. A partially written prefix is not modelled.
- Commands.FileSystem.CreateDirAll: success records the named directory only, not its missing parents. A failing `create_dir_all` (app/src/commands.rs:148) may already have made some of the parents, but the model leaves the directories unchanged on failure. Whether each operation succeeds is a fixed function of its path, so a failure that comes and goes between calls is not modelled.
- Schema.Language: `language::get` (app/src/language.rs:11-15) builds a new hash map on every call, each with its own visiting order. So two templates of the same language could resolve a raw type listed under two keys differently. The model's `languages` function gives every template of one language the same order.
- Commands.Generate: `count` is an inferred `i32` in the source (app/src/commands.rs:139, 186, 206) and an unbounded `nat` here, so overflow past 2^31 - 1 files is not modelled.
- Json.Value: numbers are integers. Floating-point JSON numbers are not modelled, and the filters never inspect numbers.
