/** The `generate` command (app/src/commands.rs): for each configured
    template in order, make its output directory, load its language, project
    the schema snapshot into that language, and write one rendered file (a
    `single` template) or one per table; the first failure ends the run. */
module Commands {
  import opened Wrappers
  import opened Schema
  import Projection
  import OutputPath
  import Renderer

  datatype GenerateError =
    | EngineFailed(message: string)    // renderer::create
    | DirectoryFailed(dir: string)     // create_dir_all
    | LanguageFailed(language: string) // language::get
    | RenderFailed(message: string)    // renderer::render
    | CreateFailed(path: string)       // File::create
    | WriteFailed(path: string)        // write_all

  /** What a written file was rendered from: the template input and the context. */
  datatype RenderedFrom = RenderedFrom(input: string, context: map<string, Renderer.Bound>)

  datatype WriteRecord = WriteRecord(path: string, from: RenderedFrom)

  /** One effect of the run on the disk. */
  datatype Step =
    | MadeDir(dir: string)
    | Truncated(path: string)  // created empty, then the write failed
    | Wrote(path: string, content: string, from: RenderedFrom)

  /** Which disk operations succeed, as functions of the directory or path. */
  datatype Io = Io(canMakeDir: string -> bool, canCreate: string -> bool, canWrite: string -> bool)

  /** The files written, in order. */
  function Records(steps: seq<Step>): seq<WriteRecord>
  {
    if steps == [] then []
    else
      var last := steps[|steps| - 1];
      Records(steps[..|steps| - 1]) + if last.Wrote? then [WriteRecord(last.path, last.from)] else []
  }

  /** The file contents after the steps. */
  function ApplyFiles(files: map<string, string>, steps: seq<Step>): map<string, string>
  {
    if steps == [] then files
    else
      var before := ApplyFiles(files, steps[..|steps| - 1]);
      match steps[|steps| - 1]
      case MadeDir(_) => before
      case Truncated(path) => before[path := ""]
      case Wrote(path, content, _) => before[path := content]
  }

  /** The directories made by the steps. */
  function DirsOf(steps: seq<Step>): set<string>
  {
    if steps == [] then {}
    else
      var last := steps[|steps| - 1];
      DirsOf(steps[..|steps| - 1]) + if last.MadeDir? then {last.dir} else {}
  }

  /** The disk, with the operations `generate` uses. */
  class FileSystem {
    var dirs: set<string>
    var files: map<string, string>
    ghost var log: seq<WriteRecord>
    const canMakeDir: string -> bool
    const canCreate: string -> bool
    const canWrite: string -> bool

    constructor (dirs: set<string>, files: map<string, string>,
                 canMakeDir: string -> bool, canCreate: string -> bool, canWrite: string -> bool)
      ensures this.dirs == dirs && this.files == files && log == []
      ensures this.canMakeDir == canMakeDir && this.canCreate == canCreate && this.canWrite == canWrite
    {
      this.dirs, this.files, log := dirs, files, [];
      this.canMakeDir, this.canCreate, this.canWrite := canMakeDir, canCreate, canWrite;
    }

    function Oracles(): Io
    {
      Io(canMakeDir, canCreate, canWrite)
    }

    /** `create_dir_all`: succeeds also when the directory already exists. */
    method CreateDirAll(dir: string) returns (ok: bool)
      modifies this`dirs
      ensures ok == canMakeDir(dir)
      ensures dirs == if ok then old(dirs) + {dir} else old(dirs)
    {
      ok := canMakeDir(dir);
      if ok {
        dirs := dirs + {dir};
      }
    }

    /** `File::create`: creates the file or truncates an existing one. */
    method Create(path: string) returns (ok: bool)
      modifies this`files
      ensures ok == canCreate(path)
      ensures files == if ok then old(files)[path := ""] else old(files)
    {
      ok := canCreate(path);
      if ok {
        files := files[path := ""];
      }
    }

    /** `write_all` on a just-created file; a success is logged with its origin. */
    method WriteAll(path: string, content: string, ghost from: RenderedFrom) returns (ok: bool)
      modifies this`files, this`log
      ensures ok == canWrite(path)
      ensures files == if ok then old(files)[path := content] else old(files)
      ensures log == if ok then old(log) + [WriteRecord(path, from)] else old(log)
    {
      ok := canWrite(path);
      if ok {
        files := files[path := content];
        log := log + [WriteRecord(path, from)];
      }
    }
  }

  /** The steps of a run so far and the failure that ended it, if any. */
  datatype Trace = Trace(steps: seq<Step>, failure: Option<GenerateError>)

  /** `a` followed by `b`, unless `a` failed. */
  function Then(a: Trace, b: Trace): Trace
  {
    if a.failure.Some? then a else Trace(a.steps + b.steps, b.failure)
  }

  lemma ThenAssociative(a: Trace, b: Trace, c: Trace)
    ensures Then(Then(a, b), c) == Then(a, Then(b, c))
  {
    if a.failure.None? && b.failure.None? {
      assert (a.steps + b.steps) + c.steps == a.steps + (b.steps + c.steps);
    }
  }

  /** A run that has done `done` and goes on with `one` and then `rest`. */
  lemma ThenPrefix(done: seq<Step>, one: Trace, rest: Trace)
    ensures Then(Trace(done, None), Then(one, rest))
      == if one.failure.Some? then Trace(done + one.steps, one.failure)
         else Then(Trace(done + one.steps, None), rest)
  {
    if one.failure.None? {
      assert done + (one.steps + rest.steps) == (done + one.steps) + rest.steps;
    }
  }

  /** Render one file and write it to `path`. */
  function Emit(path: string, input: string, context: map<string, Renderer.Bound>,
                evaluate: Renderer.Evaluator, io: Io): Trace
  {
    match evaluate(Renderer.TemplateName(input), context)
    case Err(message) => Trace([], Some(RenderFailed(message)))
    case Ok(content) =>
      if !io.canCreate(path) then Trace([], Some(CreateFailed(path)))
      else if !io.canWrite(path) then Trace([Truncated(path)], Some(WriteFailed(path)))
      else Trace([Wrote(path, content, RenderedFrom(input, context))], None)
  }

  /** The per-table files of `template` for the remaining `tables` of the projected schema. */
  function EmitTables(template: TemplateConfig, projected: DatabaseInformation, tables: seq<TableInformation>,
                      evaluate: Renderer.Evaluator, io: Io): Trace
    decreases |tables|
  {
    if tables == [] then Trace([], None)
    else
      Then(Emit(OutputPath.TablePath(template.outputDir, template.output, tables[0].name), template.input,
                Renderer.ContextFor(projected, Some(tables[0])), evaluate, io),
           EmitTables(template, projected, tables[1..], evaluate, io))
  }

  /** The files of one template, after its directory is made and its language loaded. */
  function EmitTemplate(template: TemplateConfig, projected: DatabaseInformation,
                        evaluate: Renderer.Evaluator, io: Io): Trace
  {
    if template.single then
      Emit(OutputPath.Join(template.outputDir, template.output), template.input,
           Renderer.ContextFor(projected, None), evaluate, io)
    else
      EmitTables(template, projected, projected.tables, evaluate, io)
  }

  /** One template of the run; it projects the snapshot `database` it is given. */
  function RunTemplate(template: TemplateConfig, database: DatabaseInformation, languages: string -> Option<Language>,
                       evaluate: Renderer.Evaluator, io: Io): Trace
  {
    if !io.canMakeDir(template.outputDir) then Trace([], Some(DirectoryFailed(template.outputDir)))
    else
      Then(Trace([MadeDir(template.outputDir)], None),
           match languages(template.language)
           case None => Trace([], Some(LanguageFailed(template.language)))
           case Some(language) => EmitTemplate(template, Projection.Project(database, language), evaluate, io))
  }

  lemma RunTemplateCases(template: TemplateConfig, database: DatabaseInformation, languages: string -> Option<Language>,
                          evaluate: Renderer.Evaluator, io: Io)
    ensures var one := RunTemplate(template, database, languages, evaluate, io);
      && (!io.canMakeDir(template.outputDir) ==> one == Trace([], Some(DirectoryFailed(template.outputDir))))
      && (io.canMakeDir(template.outputDir) && languages(template.language).None? ==>
            one == Trace([MadeDir(template.outputDir)], Some(LanguageFailed(template.language))))
      && (io.canMakeDir(template.outputDir) && languages(template.language).Some? ==>
            var e := EmitTemplate(template, Projection.Project(database, languages(template.language).value), evaluate, io);
            one == Trace([MadeDir(template.outputDir)] + e.steps, e.failure))
  {
  }

  function RunTemplates(templates: seq<TemplateConfig>, database: DatabaseInformation, languages: string -> Option<Language>,
                        evaluate: Renderer.Evaluator, io: Io): Trace
    decreases |templates|
  {
    if templates == [] then Trace([], None)
    else Then(RunTemplate(templates[0], database, languages, evaluate, io),
              RunTemplates(templates[1..], database, languages, evaluate, io))
  }

  /** The whole run: load the templates, then every configured template in order. */
  function Run(templates: seq<TemplateConfig>, database: DatabaseInformation, languages: string -> Option<Language>,
               load: string -> Result<Renderer.Evaluator, string>, io: Io): Trace
  {
    match load(Renderer.TemplateGlob)
    case Err(message) => Trace([], Some(EngineFailed(message)))
    case Ok(evaluate) => RunTemplates(templates, database, languages, evaluate, io)
  }

  lemma {:induction false} RecordsAppend(a: seq<Step>, b: seq<Step>)
    ensures Records(a + b) == Records(a) + Records(b)
    decreases |b|
  {
    if b == [] {
      assert a + b == a;
    } else {
      assert (a + b)[..|a + b| - 1] == a + b[..|b| - 1];
      RecordsAppend(a, b[..|b| - 1]);
    }
  }

  lemma {:induction false} ApplyFilesAppend(files: map<string, string>, a: seq<Step>, b: seq<Step>)
    ensures ApplyFiles(files, a + b) == ApplyFiles(ApplyFiles(files, a), b)
    decreases |b|
  {
    if b == [] {
      assert a + b == a;
    } else {
      assert (a + b)[..|a + b| - 1] == a + b[..|b| - 1];
      ApplyFilesAppend(files, a, b[..|b| - 1]);
    }
  }

  lemma {:induction false} DirsOfAppend(a: seq<Step>, b: seq<Step>)
    ensures DirsOf(a + b) == DirsOf(a) + DirsOf(b)
    decreases |b|
  {
    if b == [] {
      assert a + b == a;
    } else {
      assert (a + b)[..|a + b| - 1] == a + b[..|b| - 1];
      DirsOfAppend(a, b[..|b| - 1]);
    }
  }

  /** The disk is its state before the run with `steps` applied. */
  ghost predicate Reflects(disk: FileSystem, log: seq<WriteRecord>, files: map<string, string>, dirs: set<string>,
                           steps: seq<Step>)
    reads disk
  {
    && disk.log == log + Records(steps)
    && disk.files == ApplyFiles(files, steps)
    && disk.dirs == dirs + DirsOf(steps)
  }

  /** Appending steps to a reflected run. */
  lemma ReflectsAppend(disk: FileSystem, log: seq<WriteRecord>, files: map<string, string>, dirs: set<string>,
                       done: seq<Step>, more: seq<Step>)
    requires disk.log == log + Records(done) + Records(more)
    requires disk.files == ApplyFiles(ApplyFiles(files, done), more)
    requires disk.dirs == dirs + DirsOf(done) + DirsOf(more)
    ensures Reflects(disk, log, files, dirs, done + more)
  {
    var r, r1, r2 := Records(done + more), Records(done), Records(more);
    RecordsAppend(done, more);
    assert log + r1 + r2 == log + (r1 + r2);
    ApplyFilesAppend(files, done, more);
    DirsOfAppend(done, more);
  }

  /** Rendering and writing one file writes it exactly when nothing fails. */
  lemma EmitWritesOne(path: string, input: string, context: map<string, Renderer.Bound>,
                      evaluate: Renderer.Evaluator, io: Io)
    ensures |Records(Emit(path, input, context, evaluate, io).steps)|
      == if Emit(path, input, context, evaluate, io).failure.None? then 1 else 0
  {
    var e := Emit(path, input, context, evaluate, io);
    if e.steps != [] {
      assert e.steps[..0] == [];
    }
  }

  /** Renders `input` with the projected schema (and `table`, if given) bound,
      then creates `path` and writes the text to it. */
  method RenderAndWrite(path: string, input: string, tera: Renderer.Tera, projected: DatabaseInformation,
                        table: Option<TableInformation>, disk: FileSystem) returns (failure: Option<GenerateError>)
    modifies disk`files, disk`log
    ensures var e := Emit(path, input, Renderer.ContextFor(projected, table), tera.evaluate, disk.Oracles());
      && failure == e.failure
      && Reflects(disk, old(disk.log), old(disk.files), old(disk.dirs), e.steps)
  {
    ghost var context := Renderer.ContextFor(projected, table);
    var content := Renderer.Render(input, tera, projected, table);
    if content.Err? {
      return Some(RenderFailed(content.error));
    }
    var created := disk.Create(path);
    if !created {
      return Some(CreateFailed(path));
    }
    var written := disk.WriteAll(path, content.value, RenderedFrom(input, context));
    if !written {
      assert [Truncated(path)][..0] == [];
      return Some(WriteFailed(path));
    }
    assert [Wrote(path, content.value, RenderedFrom(input, context))][..0] == [];
    return None;
  }

  /** The files of one template: one for a `single` template, else one per
      table of the projected schema, in order; stops at the first failure. */
  method WriteTemplate(template: TemplateConfig, projected: DatabaseInformation, tera: Renderer.Tera,
                       disk: FileSystem) returns (failure: Option<GenerateError>, written: nat)
    modifies disk`files, disk`log
    ensures var e := EmitTemplate(template, projected, tera.evaluate, disk.Oracles());
      && failure == e.failure && written == |Records(e.steps)|
      && Reflects(disk, old(disk.log), old(disk.files), old(disk.dirs), e.steps)
  {
    if template.single {
      var path := OutputPath.Join(template.outputDir, template.output);
      failure := RenderAndWrite(path, template.input, tera, projected, None, disk);
      written := if failure.None? then 1 else 0;
      EmitWritesOne(path, template.input, Renderer.ContextFor(projected, None), tera.evaluate, disk.Oracles());
      return;
    }
    ghost var evaluate, io := tera.evaluate, disk.Oracles();
    ghost var whole := EmitTables(template, projected, projected.tables, evaluate, io);
    ghost var done: seq<Step> := [];
    written := 0;
    var j := 0;
    while j < |projected.tables|
      invariant 0 <= j <= |projected.tables|
      invariant whole == Then(Trace(done, None), EmitTables(template, projected, projected.tables[j..], evaluate, io))
      invariant Reflects(disk, old(disk.log), old(disk.files), old(disk.dirs), done)
      invariant written == |Records(done)|
    {
      var table := projected.tables[j];
      assert projected.tables[j..][0] == table && projected.tables[j..][1..] == projected.tables[j + 1..];
      var path := OutputPath.TablePath(template.outputDir, template.output, table.name);
      ghost var e := Emit(path, template.input, Renderer.ContextFor(projected, Some(table)), evaluate, io);
      ghost var rest := EmitTables(template, projected, projected.tables[j + 1..], evaluate, io);
      ThenAssociative(Trace(done, None), e, rest);
      ghost var log0, files0, dirs0 := disk.log, disk.files, disk.dirs;
      failure := RenderAndWrite(path, template.input, tera, projected, Some(table), disk);
      EmitWritesOne(path, template.input, Renderer.ContextFor(projected, Some(table)), evaluate, io);
      ReflectsAppend(disk, old(disk.log), old(disk.files), old(disk.dirs), done, e.steps);
      RecordsAppend(done, e.steps);
      done := done + e.steps;
      if failure.Some? {
        return;
      }
      written := written + 1;
      j := j + 1;
    }
    failure := None;
    assert projected.tables[j..] == [];
    assert done + [] == done;
  }

  /** One pass of the template loop: make the output directory, load the
      language, project the snapshot and write the template's files. */
  method GenerateTemplate(template: TemplateConfig, database: DatabaseInformation,
                          languages: string -> Option<Language>, tera: Renderer.Tera, disk: FileSystem)
    returns (failure: Option<GenerateError>, written: nat)
    modifies disk`dirs, disk`files, disk`log
    ensures var one := RunTemplate(template, database, languages, tera.evaluate, disk.Oracles());
      && failure == one.failure && written == |Records(one.steps)|
      && Reflects(disk, old(disk.log), old(disk.files), old(disk.dirs), one.steps)
  {
    RunTemplateCases(template, database, languages, tera.evaluate, disk.Oracles());
    var made := disk.CreateDirAll(template.outputDir);
    if !made {
      return Some(DirectoryFailed(template.outputDir)), 0;
    }
    ghost var mk := [MadeDir(template.outputDir)];
    assert mk[..0] == [];
    var language := languages(template.language);
    if language.None? {
      return Some(LanguageFailed(template.language)), 0;
    }
    var projected := Projection.Project(database, language.value);
    ghost var e := EmitTemplate(template, projected, tera.evaluate, disk.Oracles());
    failure, written := WriteTemplate(template, projected, tera, disk);
    ReflectsAppend(disk, old(disk.log), old(disk.files), old(disk.dirs), mk, e.steps);
    RecordsAppend(mk, e.steps);
  }

  /** `generate`, after the configuration and the snapshot have been read:
      the disk ends as the run's steps leave it, every written file is logged
      with its origin, and the result is the number of files written or the
      first failure. */
  method Generate(templates: seq<TemplateConfig>, database: DatabaseInformation,
                  languages: string -> Option<Language>, load: string -> Result<Renderer.Evaluator, string>,
                  disk: FileSystem) returns (r: Result<nat, GenerateError>)
    modifies disk
    ensures var trace := Run(templates, database, languages, load, disk.Oracles());
      && Reflects(disk, old(disk.log), old(disk.files), old(disk.dirs), trace.steps)
      && (r.Ok? <==> trace.failure.None?)
      && (r.Ok? ==> r.value == |Records(trace.steps)|)
      && (r.Err? ==> r.error == trace.failure.value)
  {
    var count := 0;
    var created := Renderer.Create(load);
    if created.Err? {
      return Err(EngineFailed(created.error));
    }
    var tera := created.value;
    ghost var evaluate, io := tera.evaluate, disk.Oracles();
    ghost var whole := RunTemplates(templates, database, languages, evaluate, io);
    ghost var done: seq<Step> := [];
    var i := 0;
    while i < |templates|
      invariant 0 <= i <= |templates|
      invariant whole == Then(Trace(done, None), RunTemplates(templates[i..], database, languages, evaluate, io))
      invariant Reflects(disk, old(disk.log), old(disk.files), old(disk.dirs), done)
      invariant count == |Records(done)|
    {
      var template := templates[i];
      assert templates[i..][0] == template && templates[i..][1..] == templates[i + 1..];
      ghost var one := RunTemplate(template, database, languages, evaluate, io);
      ThenPrefix(done, one, RunTemplates(templates[i + 1..], database, languages, evaluate, io));
      var failure, written := GenerateTemplate(template, database, languages, tera, disk);
      ReflectsAppend(disk, old(disk.log), old(disk.files), old(disk.dirs), done, one.steps);
      RecordsAppend(done, one.steps);
      done := done + one.steps;
      if failure.Some? {
        return Err(failure.value);
      }
      count := count + written;
      i := i + 1;
    }
    assert templates[i..] == [];
    assert done + [] == done;
    return Ok(count);
  }

  // ---------------------------------------------------------------------
  // What a run writes, compared with what it would write if every disk
  // operation and every render succeeded.

  /** The records of the files written for one template in order. */
  function TablesPlan(template: TemplateConfig, projected: DatabaseInformation, tables: seq<TableInformation>): seq<WriteRecord>
    decreases |tables|
  {
    if tables == [] then []
    else
      [WriteRecord(OutputPath.TablePath(template.outputDir, template.output, tables[0].name),
                   RenderedFrom(template.input, Renderer.ContextFor(projected, Some(tables[0]))))]
        + TablesPlan(template, projected, tables[1..])
  }

  function TemplatePlan(template: TemplateConfig, projected: DatabaseInformation): seq<WriteRecord>
  {
    if template.single then
      [WriteRecord(OutputPath.Join(template.outputDir, template.output),
                   RenderedFrom(template.input, Renderer.ContextFor(projected, None)))]
    else TablesPlan(template, projected, projected.tables)
  }

  /** The files of a run without disk or render failures: template by
      template, each projecting the snapshot itself, up to the first template
      whose language cannot be loaded. */
  function Plan(templates: seq<TemplateConfig>, database: DatabaseInformation,
                languages: string -> Option<Language>): seq<WriteRecord>
    decreases |templates|
  {
    if templates == [] then []
    else
      match languages(templates[0].language)
      case None => []
      case Some(language) =>
        TemplatePlan(templates[0], Projection.Project(database, language)) + Plan(templates[1..], database, languages)
  }

  /** Every template's language can be loaded. */
  ghost predicate LanguagesKnown(templates: seq<TemplateConfig>, languages: string -> Option<Language>)
  {
    forall i :: 0 <= i < |templates| ==> languages(templates[i].language).Some?
  }

  /** The trace wrote a prefix of `plan`, and all of it if it did not fail. */
  ghost predicate Follows(trace: Trace, plan: seq<WriteRecord>)
  {
    Records(trace.steps) <= plan && (trace.failure.None? ==> Records(trace.steps) == plan)
  }

  lemma ThenFollows(a: Trace, b: Trace, x: seq<WriteRecord>, y: seq<WriteRecord>)
    requires Follows(a, x) && Follows(b, y)
    ensures Follows(Then(a, b), x + y)
  {
    if a.failure.None? {
      RecordsAppend(a.steps, b.steps);
    }
  }

  lemma EmitFollows(path: string, input: string, context: map<string, Renderer.Bound>,
                    evaluate: Renderer.Evaluator, io: Io)
    ensures Follows(Emit(path, input, context, evaluate, io), [WriteRecord(path, RenderedFrom(input, context))])
  {
    var e := Emit(path, input, context, evaluate, io);
    if e.steps != [] {
      assert e.steps[..0] == [];
    }
  }

  lemma {:induction false} EmitTablesFollows(template: TemplateConfig, projected: DatabaseInformation,
                                             tables: seq<TableInformation>, evaluate: Renderer.Evaluator, io: Io)
    ensures Follows(EmitTables(template, projected, tables, evaluate, io), TablesPlan(template, projected, tables))
    decreases |tables|
  {
    if tables != [] {
      var path := OutputPath.TablePath(template.outputDir, template.output, tables[0].name);
      var context := Renderer.ContextFor(projected, Some(tables[0]));
      EmitFollows(path, template.input, context, evaluate, io);
      EmitTablesFollows(template, projected, tables[1..], evaluate, io);
      ThenFollows(Emit(path, template.input, context, evaluate, io),
                  EmitTables(template, projected, tables[1..], evaluate, io),
                  [WriteRecord(path, RenderedFrom(template.input, context))],
                  TablesPlan(template, projected, tables[1..]));
    }
  }

  lemma RunTemplateFollows(template: TemplateConfig, database: DatabaseInformation, languages: string -> Option<Language>,
                           evaluate: Renderer.Evaluator, io: Io)
    requires languages(template.language).Some?
    ensures Follows(RunTemplate(template, database, languages, evaluate, io),
                    TemplatePlan(template, Projection.Project(database, languages(template.language).value)))
  {
    var projected := Projection.Project(database, languages(template.language).value);
    if io.canMakeDir(template.outputDir) {
      if template.single {
        EmitFollows(OutputPath.Join(template.outputDir, template.output), template.input,
                    Renderer.ContextFor(projected, None), evaluate, io);
      } else {
        EmitTablesFollows(template, projected, projected.tables, evaluate, io);
      }
      var mk := Trace([MadeDir(template.outputDir)], None);
      assert mk.steps[..0] == [];
      assert Follows(mk, []);
      ThenFollows(mk, EmitTemplate(template, projected, evaluate, io), [], TemplatePlan(template, projected));
    }
  }

  lemma {:induction false} RunTemplatesFollows(templates: seq<TemplateConfig>, database: DatabaseInformation,
                                               languages: string -> Option<Language>, evaluate: Renderer.Evaluator, io: Io)
    ensures Follows(RunTemplates(templates, database, languages, evaluate, io), Plan(templates, database, languages))
    ensures RunTemplates(templates, database, languages, evaluate, io).failure.None? ==> LanguagesKnown(templates, languages)
    decreases |templates|
  {
    if templates != [] {
      var t := templates[0];
      RunTemplatesFollows(templates[1..], database, languages, evaluate, io);
      var rest := RunTemplates(templates[1..], database, languages, evaluate, io);
      RunTemplateCases(t, database, languages, evaluate, io);
      if languages(t.language).Some? {
        RunTemplateFollows(t, database, languages, evaluate, io);
        ThenFollows(RunTemplate(t, database, languages, evaluate, io), rest,
                    TemplatePlan(t, Projection.Project(database, languages(t.language).value)),
                    Plan(templates[1..], database, languages));
        if RunTemplates(templates, database, languages, evaluate, io).failure.None? {
          forall i | 0 <= i < |templates|
            ensures languages(templates[i].language).Some?
          {
            if i > 0 {
              assert templates[i] == templates[1..][i - 1];
            }
          }
        }
      } else if io.canMakeDir(t.outputDir) {
        assert [MadeDir(t.outputDir)][..0] == [];
      }
    }
  }

  /** Whatever fails, a run writes a prefix of the plan, in the plan's
      order, and nothing after its failure; a run that does not fail writes
      exactly the plan, and every template's language was loaded. */
  lemma RunFollowsPlan(templates: seq<TemplateConfig>, database: DatabaseInformation,
                       languages: string -> Option<Language>, load: string -> Result<Renderer.Evaluator, string>, io: Io)
    ensures var trace := Run(templates, database, languages, load, io);
      && Records(trace.steps) <= Plan(templates, database, languages)
      && (trace.failure.None? ==>
            Records(trace.steps) == Plan(templates, database, languages) && LanguagesKnown(templates, languages))
  {
    if load(Renderer.TemplateGlob).Ok? {
      RunTemplatesFollows(templates, database, languages, load(Renderer.TemplateGlob).value, io);
    }
  }

  /** Rendering the planned file `record` succeeds, and so do creating and
      writing its path. */
  ghost predicate Succeeds(record: WriteRecord, evaluate: Renderer.Evaluator, io: Io)
  {
    && evaluate(Renderer.TemplateName(record.from.input), record.from.context).Ok?
    && io.canCreate(record.path)
    && io.canWrite(record.path)
  }

  ghost predicate AllSucceed(plan: seq<WriteRecord>, evaluate: Renderer.Evaluator, io: Io)
  {
    forall record :: record in plan ==> Succeeds(record, evaluate, io)
  }

  lemma {:induction false} EmitTablesSucceeds(template: TemplateConfig, projected: DatabaseInformation,
                                              tables: seq<TableInformation>, evaluate: Renderer.Evaluator, io: Io)
    requires AllSucceed(TablesPlan(template, projected, tables), evaluate, io)
    ensures EmitTables(template, projected, tables, evaluate, io).failure.None?
    decreases |tables|
  {
    if tables != [] {
      var plan := TablesPlan(template, projected, tables);
      assert plan[0] in plan;
      assert forall record :: record in TablesPlan(template, projected, tables[1..]) ==> record in plan;
      EmitTablesSucceeds(template, projected, tables[1..], evaluate, io);
    }
  }

  lemma RunTemplateSucceeds(template: TemplateConfig, database: DatabaseInformation, languages: string -> Option<Language>,
                            evaluate: Renderer.Evaluator, io: Io)
    requires io.canMakeDir(template.outputDir) && languages(template.language).Some?
    requires AllSucceed(TemplatePlan(template, Projection.Project(database, languages(template.language).value)), evaluate, io)
    ensures RunTemplate(template, database, languages, evaluate, io).failure.None?
  {
    var projected := Projection.Project(database, languages(template.language).value);
    RunTemplateCases(template, database, languages, evaluate, io);
    if template.single {
      assert TemplatePlan(template, projected)[0] in TemplatePlan(template, projected);
    } else {
      EmitTablesSucceeds(template, projected, projected.tables, evaluate, io);
    }
  }

  lemma {:induction false} RunTemplatesSucceeds(templates: seq<TemplateConfig>, database: DatabaseInformation,
                                                languages: string -> Option<Language>, evaluate: Renderer.Evaluator, io: Io)
    requires LanguagesKnown(templates, languages)
    requires forall i :: 0 <= i < |templates| ==> io.canMakeDir(templates[i].outputDir)
    requires AllSucceed(Plan(templates, database, languages), evaluate, io)
    ensures RunTemplates(templates, database, languages, evaluate, io).failure.None?
    decreases |templates|
  {
    if templates != [] {
      var t := templates[0];
      assert languages(t.language).Some? && io.canMakeDir(t.outputDir);
      var one := TemplatePlan(t, Projection.Project(database, languages(t.language).value));
      var rest := Plan(templates[1..], database, languages);
      assert Plan(templates, database, languages) == one + rest;
      assert forall record :: record in one ==> record in one + rest;
      assert forall record :: record in rest ==> record in one + rest;
      RunTemplateSucceeds(t, database, languages, evaluate, io);
      assert forall i :: 0 <= i < |templates[1..]| ==> templates[1..][i] == templates[i + 1];
      RunTemplatesSucceeds(templates[1..], database, languages, evaluate, io);
    }
  }

  /** A run fails only where the source's `?` can fail: when the templates
      cannot be loaded, an output directory cannot be made, a language
      cannot be loaded, or a planned file cannot be rendered, created or
      written. If none of these happens, the run does not fail, so it writes
      the whole plan. */
  lemma RunSucceeds(templates: seq<TemplateConfig>, database: DatabaseInformation,
                    languages: string -> Option<Language>, load: string -> Result<Renderer.Evaluator, string>, io: Io)
    requires load(Renderer.TemplateGlob).Ok?
    requires LanguagesKnown(templates, languages)
    requires forall i :: 0 <= i < |templates| ==> io.canMakeDir(templates[i].outputDir)
    requires AllSucceed(Plan(templates, database, languages), load(Renderer.TemplateGlob).value, io)
    ensures Run(templates, database, languages, load, io).failure.None?
    ensures Records(Run(templates, database, languages, load, io).steps) == Plan(templates, database, languages)
  {
    RunTemplatesSucceeds(templates, database, languages, load(Renderer.TemplateGlob).value, io);
    RunFollowsPlan(templates, database, languages, load, io);
  }

  lemma {:induction false} EmitTablesSucceedsOnlyIf(template: TemplateConfig, projected: DatabaseInformation,
                                                    tables: seq<TableInformation>, evaluate: Renderer.Evaluator, io: Io)
    requires EmitTables(template, projected, tables, evaluate, io).failure.None?
    ensures AllSucceed(TablesPlan(template, projected, tables), evaluate, io)
    decreases |tables|
  {
    if tables != [] {
      var path := OutputPath.TablePath(template.outputDir, template.output, tables[0].name);
      var context := Renderer.ContextFor(projected, Some(tables[0]));
      assert Emit(path, template.input, context, evaluate, io).failure.None?;
      EmitTablesSucceedsOnlyIf(template, projected, tables[1..], evaluate, io);
      assert TablesPlan(template, projected, tables)
        == [WriteRecord(path, RenderedFrom(template.input, context))] + TablesPlan(template, projected, tables[1..]);
    }
  }

  lemma RunTemplateSucceedsOnlyIf(template: TemplateConfig, database: DatabaseInformation,
                                  languages: string -> Option<Language>, evaluate: Renderer.Evaluator, io: Io)
    requires RunTemplate(template, database, languages, evaluate, io).failure.None?
    ensures io.canMakeDir(template.outputDir) && languages(template.language).Some?
    ensures AllSucceed(TemplatePlan(template, Projection.Project(database, languages(template.language).value)), evaluate, io)
  {
    RunTemplateCases(template, database, languages, evaluate, io);
    var projected := Projection.Project(database, languages(template.language).value);
    if !template.single {
      EmitTablesSucceedsOnlyIf(template, projected, projected.tables, evaluate, io);
    }
  }

  lemma {:induction false} RunTemplatesSucceedsOnlyIf(templates: seq<TemplateConfig>, database: DatabaseInformation,
                                                      languages: string -> Option<Language>, evaluate: Renderer.Evaluator, io: Io)
    requires RunTemplates(templates, database, languages, evaluate, io).failure.None?
    ensures LanguagesKnown(templates, languages)
    ensures forall i :: 0 <= i < |templates| ==> io.canMakeDir(templates[i].outputDir)
    ensures AllSucceed(Plan(templates, database, languages), evaluate, io)
    decreases |templates|
  {
    if templates != [] {
      var t := templates[0];
      assert RunTemplate(t, database, languages, evaluate, io).failure.None?;
      RunTemplateSucceedsOnlyIf(t, database, languages, evaluate, io);
      RunTemplatesSucceedsOnlyIf(templates[1..], database, languages, evaluate, io);
      var one := TemplatePlan(t, Projection.Project(database, languages(t.language).value));
      var rest := Plan(templates[1..], database, languages);
      assert Plan(templates, database, languages) == one + rest;
      forall i | 0 <= i < |templates|
        ensures languages(templates[i].language).Some? && io.canMakeDir(templates[i].outputDir)
      {
        if i > 0 {
          assert templates[i] == templates[1..][i - 1];
        }
      }
    }
  }

  /** A run does not fail exactly when the templates load, every output
      directory can be made, every language loads, and every planned file
      renders, creates and writes: each of these failures ends the run, and
      nothing else does. */
  lemma RunSucceedsExactly(templates: seq<TemplateConfig>, database: DatabaseInformation,
                           languages: string -> Option<Language>, load: string -> Result<Renderer.Evaluator, string>, io: Io)
    ensures Run(templates, database, languages, load, io).failure.None?
      <==> && load(Renderer.TemplateGlob).Ok?
           && LanguagesKnown(templates, languages)
           && (forall i :: 0 <= i < |templates| ==> io.canMakeDir(templates[i].outputDir))
           && AllSucceed(Plan(templates, database, languages), load(Renderer.TemplateGlob).value, io)
  {
    if Run(templates, database, languages, load, io).failure.None? {
      assert load(Renderer.TemplateGlob).Ok?;
      RunTemplatesSucceedsOnlyIf(templates, database, languages, load(Renderer.TemplateGlob).value, io);
    }
    if && load(Renderer.TemplateGlob).Ok?
       && LanguagesKnown(templates, languages)
       && (forall i :: 0 <= i < |templates| ==> io.canMakeDir(templates[i].outputDir))
       && AllSucceed(Plan(templates, database, languages), load(Renderer.TemplateGlob).value, io) {
      RunSucceeds(templates, database, languages, load, io);
    }
  }

  /** `failure` is what rendering, creating or writing the planned file `record` reports. */
  ghost predicate FileFailed(record: WriteRecord, failure: GenerateError, evaluate: Renderer.Evaluator, io: Io)
  {
    var rendered := evaluate(Renderer.TemplateName(record.from.input), record.from.context);
    match failure
    case RenderFailed(message) => rendered == Err(message)
    case CreateFailed(path) => path == record.path && rendered.Ok? && !io.canCreate(path)
    case WriteFailed(path) => path == record.path && rendered.Ok? && io.canCreate(path) && !io.canWrite(path)
    case _ => false
  }

  /** `failure` is what making the output directory of `template`, or loading its language, reports. */
  ghost predicate TemplateFailed(template: TemplateConfig, failure: GenerateError,
                                 languages: string -> Option<Language>, io: Io)
  {
    match failure
    case DirectoryFailed(dir) => dir == template.outputDir && !io.canMakeDir(dir)
    case LanguageFailed(language) =>
      language == template.language && io.canMakeDir(template.outputDir) && languages(language).None?
    case _ => false
  }

  lemma EmitStops(path: string, input: string, context: map<string, Renderer.Bound>,
                  evaluate: Renderer.Evaluator, io: Io)
    requires Emit(path, input, context, evaluate, io).failure.Some?
    ensures Records(Emit(path, input, context, evaluate, io).steps) == []
    ensures FileFailed(WriteRecord(path, RenderedFrom(input, context)),
                       Emit(path, input, context, evaluate, io).failure.value, evaluate, io)
  {
    var e := Emit(path, input, context, evaluate, io);
    if e.steps != [] {
      assert e.steps[..0] == [];
    }
  }

  lemma {:induction false} EmitTablesStops(template: TemplateConfig, projected: DatabaseInformation,
                                           tables: seq<TableInformation>, evaluate: Renderer.Evaluator, io: Io)
    requires EmitTables(template, projected, tables, evaluate, io).failure.Some?
    ensures var whole := EmitTables(template, projected, tables, evaluate, io);
      var n := |Records(whole.steps)|;
      n < |TablesPlan(template, projected, tables)|
      && FileFailed(TablesPlan(template, projected, tables)[n], whole.failure.value, evaluate, io)
    decreases |tables|
  {
    var path := OutputPath.TablePath(template.outputDir, template.output, tables[0].name);
    var context := Renderer.ContextFor(projected, Some(tables[0]));
    var record := WriteRecord(path, RenderedFrom(template.input, context));
    var e := Emit(path, template.input, context, evaluate, io);
    var rest := EmitTables(template, projected, tables[1..], evaluate, io);
    assert TablesPlan(template, projected, tables) == [record] + TablesPlan(template, projected, tables[1..]);
    if e.failure.Some? {
      EmitStops(path, template.input, context, evaluate, io);
    } else {
      EmitFollows(path, template.input, context, evaluate, io);
      EmitTablesStops(template, projected, tables[1..], evaluate, io);
      RecordsAppend(e.steps, rest.steps);
    }
  }

  lemma RunTemplateStops(template: TemplateConfig, database: DatabaseInformation,
                         languages: string -> Option<Language>, evaluate: Renderer.Evaluator, io: Io)
    requires RunTemplate(template, database, languages, evaluate, io).failure.Some?
    ensures var one := RunTemplate(template, database, languages, evaluate, io);
      var n := |Records(one.steps)|;
      || (Records(one.steps) == [] && TemplateFailed(template, one.failure.value, languages, io))
      || (&& languages(template.language).Some?
          && n < |TemplatePlan(template, Projection.Project(database, languages(template.language).value))|
          && FileFailed(TemplatePlan(template, Projection.Project(database, languages(template.language).value))[n],
                        one.failure.value, evaluate, io))
  {
    RunTemplateCases(template, database, languages, evaluate, io);
    if io.canMakeDir(template.outputDir) {
      assert [MadeDir(template.outputDir)][..0] == [];
      assert Records([MadeDir(template.outputDir)]) == [];
      if languages(template.language).Some? {
        var projected := Projection.Project(database, languages(template.language).value);
        var e := EmitTemplate(template, projected, evaluate, io);
        RecordsAppend([MadeDir(template.outputDir)], e.steps);
        if template.single {
          EmitStops(OutputPath.Join(template.outputDir, template.output), template.input,
                    Renderer.ContextFor(projected, None), evaluate, io);
        } else {
          EmitTablesStops(template, projected, projected.tables, evaluate, io);
        }
      }
    }
  }

  lemma {:induction false} RunTemplatesStops(templates: seq<TemplateConfig>, database: DatabaseInformation,
                                             languages: string -> Option<Language>, evaluate: Renderer.Evaluator, io: Io)
    requires RunTemplates(templates, database, languages, evaluate, io).failure.Some?
    ensures var whole := RunTemplates(templates, database, languages, evaluate, io);
      var plan := Plan(templates, database, languages);
      var n := |Records(whole.steps)|;
      || (n < |plan| && FileFailed(plan[n], whole.failure.value, evaluate, io))
      || (exists i :: 0 <= i < |templates| && TemplateFailed(templates[i], whole.failure.value, languages, io)
                      && Records(whole.steps) == Plan(templates[..i], database, languages))
    decreases |templates|
  {
    var t := templates[0];
    var one := RunTemplate(t, database, languages, evaluate, io);
    var rest := RunTemplates(templates[1..], database, languages, evaluate, io);
    assert templates[..0] == [];
    if one.failure.Some? {
      RunTemplateStops(t, database, languages, evaluate, io);
      if languages(t.language).Some? {
        assert Plan(templates, database, languages)
          == TemplatePlan(t, Projection.Project(database, languages(t.language).value)) + Plan(templates[1..], database, languages);
      }
    } else {
      RunTemplateSucceedsOnlyIf(t, database, languages, evaluate, io);
      RunTemplateFollows(t, database, languages, evaluate, io);
      RunTemplatesStops(templates[1..], database, languages, evaluate, io);
      RecordsAppend(one.steps, rest.steps);
      var head := TemplatePlan(t, Projection.Project(database, languages(t.language).value));
      assert Plan(templates, database, languages) == head + Plan(templates[1..], database, languages);
      var m := |Records(rest.steps)|;
      if !(m < |Plan(templates[1..], database, languages)|
           && FileFailed(Plan(templates[1..], database, languages)[m], rest.failure.value, evaluate, io)) {
        var j :| 0 <= j < |templates[1..]| && TemplateFailed(templates[1..][j], rest.failure.value, languages, io)
                 && Records(rest.steps) == Plan(templates[1..][..j], database, languages);
        assert templates[..j + 1][0] == t && templates[..j + 1][1..] == templates[1..][..j];
        assert Plan(templates[..j + 1], database, languages) == head + Plan(templates[1..][..j], database, languages);
        assert TemplateFailed(templates[j + 1], rest.failure.value, languages, io);
      }
    }
  }

  /** Where a failed run stops. Either loading the templates failed and
      nothing was written, or the run wrote the first `n` planned files and
      the failure is that of rendering, creating or writing planned file `n`,
      or it wrote the plan of the templates before template `i` and the
      failure is that of making template `i`'s directory or loading its
      language. */
  lemma RunStops(templates: seq<TemplateConfig>, database: DatabaseInformation,
                 languages: string -> Option<Language>, load: string -> Result<Renderer.Evaluator, string>, io: Io)
    requires Run(templates, database, languages, load, io).failure.Some?
    ensures var trace := Run(templates, database, languages, load, io);
      var plan := Plan(templates, database, languages);
      var n := |Records(trace.steps)|;
      || (load(Renderer.TemplateGlob).Err? && trace.failure.value == EngineFailed(load(Renderer.TemplateGlob).error)
          && trace.steps == [])
      || (&& load(Renderer.TemplateGlob).Ok?
          && Records(trace.steps) <= plan
          && (|| (n < |plan| && FileFailed(plan[n], trace.failure.value, load(Renderer.TemplateGlob).value, io))
              || (exists i :: 0 <= i < |templates|
                    && TemplateFailed(templates[i], trace.failure.value, languages, io)
                    && Records(trace.steps) == Plan(templates[..i], database, languages))))
  {
    if load(Renderer.TemplateGlob).Ok? {
      RunTemplatesStops(templates, database, languages, load(Renderer.TemplateGlob).value, io);
      RunFollowsPlan(templates, database, languages, load, io);
    }
  }

  // ---------------------------------------------------------------------
  // The plan, described without the disk, the engine or the languages.

  /** The number of files a run that does not fail reports: one per single
      template, one per table of the snapshot per other template. */
  function FileCount(templates: seq<TemplateConfig>, database: DatabaseInformation): nat
    decreases |templates|
  {
    if templates == [] then 0
    else (if templates[0].single then 1 else |database.tables|) + FileCount(templates[1..], database)
  }

  /** The output paths of one template: `output_dir/output` verbatim for a
      single template, else one per table of the snapshot, in table order,
      with `{table}` replaced by the table's name. */
  function TemplatePaths(template: TemplateConfig, database: DatabaseInformation): seq<string>
  {
    if template.single then [OutputPath.Join(template.outputDir, template.output)]
    else seq(|database.tables|, k requires 0 <= k < |database.tables| =>
           OutputPath.TablePath(template.outputDir, template.output, database.tables[k].name))
  }

  /** The output paths of a run that does not fail, read off the
      configuration and the snapshot's table names. */
  function PlannedPaths(templates: seq<TemplateConfig>, database: DatabaseInformation): seq<string>
    decreases |templates|
  {
    if templates == [] then []
    else TemplatePaths(templates[0], database) + PlannedPaths(templates[1..], database)
  }

  function Paths(records: seq<WriteRecord>): (paths: seq<string>)
    ensures |paths| == |records| && forall k :: 0 <= k < |records| ==> paths[k] == records[k].path
  {
    seq(|records|, k requires 0 <= k < |records| => records[k].path)
  }

  lemma {:induction false} TablesPlanShape(template: TemplateConfig, projected: DatabaseInformation, tables: seq<TableInformation>)
    ensures var plan := TablesPlan(template, projected, tables);
      && |plan| == |tables|
      && forall k :: 0 <= k < |tables| ==>
           plan[k] == WriteRecord(OutputPath.TablePath(template.outputDir, template.output, tables[k].name),
                                  RenderedFrom(template.input, Renderer.ContextFor(projected, Some(tables[k]))))
    decreases |tables|
  {
    if tables != [] {
      TablesPlanShape(template, projected, tables[1..]);
      var plan := TablesPlan(template, projected, tables);
      forall k | 0 <= k < |tables|
        ensures plan[k] == WriteRecord(OutputPath.TablePath(template.outputDir, template.output, tables[k].name),
                                       RenderedFrom(template.input, Renderer.ContextFor(projected, Some(tables[k]))))
      {
        if k > 0 {
          assert tables[k] == tables[1..][k - 1];
        }
      }
    }
  }

  /** A template's planned files go to its paths, whatever its language. */
  lemma TemplatePlanPaths(template: TemplateConfig, database: DatabaseInformation, language: Language)
    ensures Paths(TemplatePlan(template, Projection.Project(database, language))) == TemplatePaths(template, database)
  {
    var projected := Projection.Project(database, language);
    if !template.single {
      TablesPlanShape(template, projected, projected.tables);
    }
  }

  lemma PathsAppend(a: seq<WriteRecord>, b: seq<WriteRecord>)
    ensures Paths(a + b) == Paths(a) + Paths(b)
  {
  }

  lemma LanguagesKnownTail(templates: seq<TemplateConfig>, languages: string -> Option<Language>)
    requires templates != [] && LanguagesKnown(templates, languages)
    ensures languages(templates[0].language).Some? && LanguagesKnown(templates[1..], languages)
  {
    forall i | 0 <= i < |templates[1..]|
      ensures languages(templates[1..][i].language).Some?
    {
      assert templates[1..][i] == templates[i + 1];
    }
  }

  /** The paths a run writes are a prefix of the planned paths; when every
      language loads they are all of them. */
  lemma {:induction false} PlanPaths(templates: seq<TemplateConfig>, database: DatabaseInformation,
                                     languages: string -> Option<Language>)
    ensures Paths(Plan(templates, database, languages)) <= PlannedPaths(templates, database)
    ensures LanguagesKnown(templates, languages) ==>
      Paths(Plan(templates, database, languages)) == PlannedPaths(templates, database)
    decreases |templates|
  {
    if templates != [] {
      var t := templates[0];
      PlanPaths(templates[1..], database, languages);
      if LanguagesKnown(templates, languages) {
        LanguagesKnownTail(templates, languages);
      }
      match languages(t.language)
      case None =>
      case Some(language) =>
        TemplatePlanPaths(t, database, language);
        PathsAppend(TemplatePlan(t, Projection.Project(database, language)), Plan(templates[1..], database, languages));
    }
  }

  /** A run that does not fail writes one file per single template and one
      per table for every other template. */
  lemma {:induction false} PlannedPathsCount(templates: seq<TemplateConfig>, database: DatabaseInformation)
    ensures |PlannedPaths(templates, database)| == FileCount(templates, database)
    decreases |templates|
  {
    if templates != [] {
      PlannedPathsCount(templates[1..], database);
    }
  }

  /** Each planned file is rendered from a template of the configuration
      with `database` bound to the snapshot projected into that template's
      language (the loaded snapshot itself, never an earlier template's
      copy) and with `table` bound exactly for per-table templates. */
  lemma {:induction false} PlanContexts(templates: seq<TemplateConfig>, database: DatabaseInformation,
                                        languages: string -> Option<Language>)
    ensures forall k :: 0 <= k < |Plan(templates, database, languages)| ==>
      FromSomeTemplate(Plan(templates, database, languages)[k], templates, database, languages)
    decreases |templates|
  {
    var plan := Plan(templates, database, languages);
    if templates != [] {
      var tail := Plan(templates[1..], database, languages);
      PlanContexts(templates[1..], database, languages);
      match languages(templates[0].language)
      case None =>
      case Some(language) =>
        var t := templates[0];
        var projected := Projection.Project(database, language);
        var head := TemplatePlan(t, projected);
        if !t.single {
          TablesPlanShape(t, projected, projected.tables);
        }
        assert plan == head + tail;
        forall k | 0 <= k < |plan|
          ensures FromSomeTemplate(plan[k], templates, database, languages)
        {
          if k < |head| {
            assert PlannedFrom(plan[k], templates[0], database, languages);
          } else {
            var k' := k - |head|;
            assert 0 <= k' < |tail| && plan[k] == tail[k'];
            assert FromSomeTemplate(tail[k'], templates[1..], database, languages);
            var i :| 0 <= i < |templates[1..]| && PlannedFrom(tail[k'], templates[1..][i], database, languages);
            assert PlannedFrom(plan[k], templates[i + 1], database, languages);
          }
        }
    }
  }

  /** `record` is one of the files of some template of `templates`. */
  ghost predicate FromSomeTemplate(record: WriteRecord, templates: seq<TemplateConfig>, database: DatabaseInformation,
                                   languages: string -> Option<Language>)
  {
    exists i :: 0 <= i < |templates| && PlannedFrom(record, templates[i], database, languages)
  }

  /** `record` is one of the files of `template`. */
  ghost predicate PlannedFrom(record: WriteRecord, template: TemplateConfig, database: DatabaseInformation,
                              languages: string -> Option<Language>)
  {
    && languages(template.language).Some?
    && record.from.input == template.input
    && "database" in record.from.context
    && record.from.context["database"] == Renderer.DatabaseBound(Projection.Project(database, languages(template.language).value))
    && ("table" in record.from.context <==> !template.single)
  }

  lemma PathsPrefix(a: seq<WriteRecord>, b: seq<WriteRecord>)
    requires a <= b
    ensures Paths(a) <= Paths(b)
  {
  }

  /** The paths written by any run are a prefix of the planned paths (the
      first failure ends the run; what came before it stays written); a run
      that does not fail writes exactly the planned paths and reports their
      number, one per single template plus the table count per other one. */
  lemma GenerateWritesPlannedPaths(templates: seq<TemplateConfig>, database: DatabaseInformation,
                                   languages: string -> Option<Language>,
                                   load: string -> Result<Renderer.Evaluator, string>, io: Io)
    ensures Paths(Records(Run(templates, database, languages, load, io).steps)) <= PlannedPaths(templates, database)
    ensures Run(templates, database, languages, load, io).failure.None? ==>
      Paths(Records(Run(templates, database, languages, load, io).steps)) == PlannedPaths(templates, database)
      && |Records(Run(templates, database, languages, load, io).steps)| == FileCount(templates, database)
  {
    var trace := Run(templates, database, languages, load, io);
    var plan := Plan(templates, database, languages);
    RunFollowsPlan(templates, database, languages, load, io);
    PlanPaths(templates, database, languages);
    PathsPrefix(Records(trace.steps), plan);
    PlannedPathsCount(templates, database);
  }

  /** The per-table pattern "{table}_model.gen" over the tables users and
      orders gives users_model.gen then orders_model.gen, and nothing over no
      tables; a single template's "schema_{table}.gen" is kept verbatim. */
  lemma FanOutExamples(dir: string, database: DatabaseInformation)
    requires |database.tables| == 2 && database.tables[0].name == "users" && database.tables[1].name == "orders"
    ensures PlannedPaths([TemplateConfig("models", "model", dir, "{table}_model.gen", false, "rust")], database)
      == [OutputPath.Join(dir, "users_model.gen"), OutputPath.Join(dir, "orders_model.gen")]
    ensures PlannedPaths([TemplateConfig("models", "model", dir, "{table}_model.gen", false, "rust")], database.(tables := []))
      == []
    ensures PlannedPaths([TemplateConfig("schema", "schema", dir, "schema_{table}.gen", true, "rust")], database)
      == [OutputPath.Join(dir, "schema_{table}.gen")]
  {
    OutputPath.TablePathExample(dir);
    var perTable := TemplateConfig("models", "model", dir, "{table}_model.gen", false, "rust");
    assert [perTable][1..] == [];
    assert TemplatePaths(perTable, database)
      == [OutputPath.Join(dir, "users_model.gen"), OutputPath.Join(dir, "orders_model.gen")];
    var single := TemplateConfig("schema", "schema", dir, "schema_{table}.gen", true, "rust");
    assert [single][1..] == [];
  }

  /** A per-table template whose output name holds `{table}` writes a
      different file for every table when table names are distinct. */
  lemma TemplatePathsDistinct(template: TemplateConfig, database: DatabaseInformation)
    requires !template.single && OutputPath.Contains(template.output, OutputPath.TablePlaceholder)
    requires forall a, b :: 0 <= a < b < |database.tables| ==> database.tables[a].name != database.tables[b].name
    ensures forall a, b :: 0 <= a < b < |TemplatePaths(template, database)| ==>
      TemplatePaths(template, database)[a] != TemplatePaths(template, database)[b]
  {
    forall a, b | 0 <= a < b < |TemplatePaths(template, database)|
      ensures TemplatePaths(template, database)[a] != TemplatePaths(template, database)[b]
    {
      OutputPath.TablePathsDistinct(template.outputDir, template.output, database.tables[a].name, database.tables[b].name);
    }
  }

  /** Without `{table}` in its output name, a per-table template writes the
      same file once per table, each write replacing the last. */
  lemma TemplatePathsWithoutPlaceholder(template: TemplateConfig, database: DatabaseInformation)
    requires !template.single && !OutputPath.Contains(template.output, OutputPath.TablePlaceholder)
    ensures forall k :: 0 <= k < |TemplatePaths(template, database)| ==>
      TemplatePaths(template, database)[k] == OutputPath.Join(template.outputDir, template.output)
  {
    forall k | 0 <= k < |TemplatePaths(template, database)|
      ensures TemplatePaths(template, database)[k] == OutputPath.Join(template.outputDir, template.output)
    {
      OutputPath.TablePathWithoutPlaceholder(template.outputDir, template.output, database.tables[k].name);
    }
  }

  /** The noun of the closing summary "Generated <count> file(s)". */
  function FileNoun(count: nat): (noun: string)
    ensures noun == "file" <==> count == 1
    ensures noun == "files" <==> count != 1
  {
    if count != 1 then "files" else "file"
  }
}
