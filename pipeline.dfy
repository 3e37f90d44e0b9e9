/**
 * The stage sequencing of `parse_and_render` and `render`: parse the
 * template, read the values, parse them as TOML, build the context, render,
 * reject an empty rendering, write. Every stage that belongs to a library or
 * to the operating system is an input of the model (the fields of `Env`).
 */
module Pipeline {
  import opened Wrappers
  import Toml
  import Liquid
  import opened Conversion
  import opened ContextBuilder

  /** A compiled template; its contents belong to the template engine. */
  datatype Template = Template(id: nat)

  /** The command-line options the pipeline runs with. */
  datatype CmdOptions = CmdOptions(templatePath: string, valuesPath: Option<string>, outputPath: Option<string>)

  /**
   * The outcomes of the external calls, per argument: `liquid::parse_file`,
   * reading a file or standard input to the end, parsing TOML,
   * `Template::render`, and creating a file and writing text to it. Errors
   * are their display text.
   */
  datatype Env = Env(
    prims: Primitives,
    parseFile: string -> Result<Template, string>,
    readFile: string -> Result<string, string>,
    readStdin: Result<string, string>,
    parseToml: string -> Result<Toml.Value, string>,
    render: (Template, Liquid.Context) -> Result<Option<string>, string>,
    createAndWrite: (string, string) -> Result<(), string>)

  /**
   * Where rendered text goes, and one attempt to write it there. A file write
   * is attempted even when creating or writing the file then fails.
   */
  datatype Sink = Stdout | File(path: string)
  datatype WriteAttempt = WriteAttempt(sink: Sink, text: string)

  function SinkOf(outputPath: Option<string>): Sink
  {
    match outputPath
    case Some(path) => File(path)
    case None => Stdout
  }

  // The error messages, one per failing stage.

  function TemplateError(path: string, e: string): string
  {
    "Can't parse the template at " + path + ". " + e
  }

  function ReadError(source: string, e: string): string
  {
    "Can't read values from " + source + ". " + e
  }

  function TomlError(e: string): string
  {
    "Can't parse TOML values. " + e
  }

  function RenderError(e: string): string
  {
    "Can't render the template. " + e
  }

  const NothingToRender := "Nothing to render"

  function WriteError(path: string, e: string): string
  {
    "Can't write to " + path + ". " + e
  }

  /** `parse_template`: the compiled template, or the parse error with the template's path. */
  function ParseTemplate(env: Env, path: string): (r: Result<Template, string>)
    ensures r.Ok? <==> env.parseFile(path).Ok?
    ensures r.Ok? ==> r.value == env.parseFile(path).value
    ensures r.Err? ==> r.error == TemplateError(path, env.parseFile(path).error)
  {
    match env.parseFile(path)
    case Ok(t) => Ok(t)
    case Err(e) => Err(TemplateError(path, e))
  }

  /** The values text: from the named file if there is one, else from standard input. */
  function ReadValues(env: Env, valuesPath: Option<string>): (r: Result<string, string>)
    ensures valuesPath.Some? ==> (r.Ok? <==> env.readFile(valuesPath.value).Ok?)
    ensures valuesPath.None? ==> (r.Ok? <==> env.readStdin.Ok?)
    ensures r.Ok? && valuesPath.Some? ==> r.value == env.readFile(valuesPath.value).value
    ensures r.Ok? && valuesPath.None? ==> r.value == env.readStdin.value
    ensures r.Err? && valuesPath.Some? ==>
      r.error == ReadError(valuesPath.value, env.readFile(valuesPath.value).error)
    ensures r.Err? && valuesPath.None? ==> r.error == ReadError("stdin", env.readStdin.error)
  {
    match valuesPath
    case Some(path) =>
      (match env.readFile(path)
       case Ok(text) => Ok(text)
       case Err(e) => Err(ReadError(path, e)))
    case None =>
      (match env.readStdin
       case Ok(text) => Ok(text)
       case Err(e) => Err(ReadError("stdin", e)))
  }

  /**
   * `parse_values`: read, parse as TOML, build the context. It succeeds
   * exactly when all three stages do.
   */
  function ValuesOf(env: Env, valuesPath: Option<string>): (r: Result<Liquid.Context, string>)
    ensures r.Ok? <==>
      ReadValues(env, valuesPath).Ok? &&
      env.parseToml(ReadValues(env, valuesPath).value).Ok? &&
      env.parseToml(ReadValues(env, valuesPath).value).value.Table?
    ensures ReadValues(env, valuesPath).Err? ==> r == Err(ReadValues(env, valuesPath).error)
    ensures ReadValues(env, valuesPath).Ok? && env.parseToml(ReadValues(env, valuesPath).value).Err? ==>
      r == Err(TomlError(env.parseToml(ReadValues(env, valuesPath).value).error))
    ensures ReadValues(env, valuesPath).Ok? && env.parseToml(ReadValues(env, valuesPath).value).Ok? ==>
      r == ContextOf(env.prims, env.parseToml(ReadValues(env, valuesPath).value).value)
  {
    match ReadValues(env, valuesPath)
    case Err(e) => Err(e)
    case Ok(text) =>
      (match env.parseToml(text)
       case Err(e) => Err(TomlError(e))
       case Ok(top) => ContextOf(env.prims, top))
  }

  /** The text a render produces; a render without output is an error. */
  function RenderText(env: Env, template: Template, context: Liquid.Context): (r: Result<string, string>)
    ensures r.Ok? <==> env.render(template, context).Ok? && env.render(template, context).value.Some?
    ensures r.Ok? ==> r.value == env.render(template, context).value.value
    ensures env.render(template, context).Err? ==> r == Err(RenderError(env.render(template, context).error))
    ensures env.render(template, context) == Ok(None) ==> r == Err(NothingToRender)
  {
    match env.render(template, context)
    case Err(e) => Err(RenderError(e))
    case Ok(None) => Err(NothingToRender)
    case Ok(Some(text)) => Ok(text)
  }

  /** The states of one run, named after what has been obtained so far. */
  datatype State =
    | Start
    | TemplateParsed(template: Template)
    | ValuesRead(template: Template, text: string)
    | TomlParsed(template: Template, top: Toml.Value)
    | ContextBuilt(template: Template, context: Liquid.Context)
    | Rendered(text: string)
    | Done(result: Result<(), string>, writes: seq<WriteAttempt>)

  /** A failed run: the error, and no write attempted. */
  function Fail(message: string): State
  {
    Done(Err(message), [])
  }

  /** The number of steps left before a state is done. */
  function Remaining(s: State): nat
  {
    match s
    case Start => 6
    case TemplateParsed(_) => 5
    case ValuesRead(_, _) => 4
    case TomlParsed(_, _) => 3
    case ContextBuilt(_, _) => 2
    case Rendered(_) => 1
    case Done(_, _) => 0
  }

  /** Writing the rendered text to the output file, or to standard output. */
  function Deliver(env: Env, outputPath: Option<string>, text: string): (s: State)
    ensures s.Done? && s.writes == [WriteAttempt(SinkOf(outputPath), text)]
    ensures s.result.Ok? <==> outputPath.None? || env.createAndWrite(outputPath.value, text).Ok?
    ensures outputPath.Some? && s.result.Err? ==>
      s.result.error == WriteError(outputPath.value, env.createAndWrite(outputPath.value, text).error)
  {
    match outputPath
    case Some(path) =>
      (match env.createAndWrite(path, text)
       case Ok(_) => Done(Ok(()), [WriteAttempt(File(path), text)])
       case Err(e) => Done(Err(WriteError(path, e)), [WriteAttempt(File(path), text)]))
    case None => Done(Ok(()), [WriteAttempt(Stdout, text)])
  }

  /**
   * One stage: it either produces the next state or stops with that stage's
   * error. Only the last stage writes.
   */
  function Step(env: Env, opts: CmdOptions, s: State): (s': State)
    ensures s.Done? ==> s' == s
    ensures !s.Done? ==> Remaining(s') < Remaining(s)
    ensures !s.Done? && !s.Rendered? && s'.Done? ==> s'.result.Err? && s'.writes == []
  {
    match s
    case Start =>
      (match ParseTemplate(env, opts.templatePath)
       case Ok(t) => TemplateParsed(t)
       case Err(e) => Fail(e))
    case TemplateParsed(t) =>
      (match ReadValues(env, opts.valuesPath)
       case Ok(text) => ValuesRead(t, text)
       case Err(e) => Fail(e))
    case ValuesRead(t, text) =>
      (match env.parseToml(text)
       case Ok(top) => TomlParsed(t, top)
       case Err(e) => Fail(TomlError(e)))
    case TomlParsed(t, top) =>
      (match ContextOf(env.prims, top)
       case Ok(context) => ContextBuilt(t, context)
       case Err(e) => Fail(e))
    case ContextBuilt(t, context) =>
      (match RenderText(env, t, context)
       case Ok(text) => Rendered(text)
       case Err(e) => Fail(e))
    case Rendered(text) => Deliver(env, opts.outputPath, text)
    case Done(_, _) => s
  }

  /** Runs the stages from `s` until the run is done. */
  function Finish(env: Env, opts: CmdOptions, s: State): (d: State)
    ensures d.Done?
    decreases Remaining(s)
  {
    if s.Done? then s else Finish(env, opts, Step(env, opts, s))
  }

  /** A whole run of the program on the given options. */
  function Run(env: Env, opts: CmdOptions): State
  {
    Finish(env, opts, Start)
  }

  /** One step of `Finish`. */
  lemma FinishStep(env: Env, opts: CmdOptions, s: State)
    ensures Finish(env, opts, s) == Finish(env, opts, Step(env, opts, s))
  {
  }

  /**
   * The machine runs the stages in order and stops at the first that fails:
   * a run is the template parse, then the values, then the render, then the
   * write, each reached only when everything before it succeeded.
   */
  lemma RunSequence(env: Env, opts: CmdOptions)
    ensures Run(env, opts) ==
      match ParseTemplate(env, opts.templatePath)
      case Err(e) => Fail(e)
      case Ok(t) =>
        match ValuesOf(env, opts.valuesPath)
        case Err(e) => Fail(e)
        case Ok(context) =>
          match RenderText(env, t, context)
          case Err(e) => Fail(e)
          case Ok(text) => Deliver(env, opts.outputPath, text)
  {
    FinishStep(env, opts, Start);
    var s1 := Step(env, opts, Start);
    if s1.TemplateParsed? {
      FinishStep(env, opts, s1);
      var s2 := Step(env, opts, s1);
      if s2.ValuesRead? {
        FinishStep(env, opts, s2);
        var s3 := Step(env, opts, s2);
        if s3.TomlParsed? {
          FinishStep(env, opts, s3);
          var s4 := Step(env, opts, s3);
          if s4.ContextBuilt? {
            FinishStep(env, opts, s4);
            var s5 := Step(env, opts, s4);
            if s5.Rendered? {
              FinishStep(env, opts, s5);
            }
          }
        }
      }
    }
  }

  /** A template-parse error is reported whatever the values, the render and the output would have done. */
  lemma TemplateErrorFirst(env: Env, env': Env, opts: CmdOptions)
    requires env.parseFile(opts.templatePath).Err?
    requires env'.parseFile == env.parseFile
    ensures Run(env, opts) == Fail(TemplateError(opts.templatePath, env.parseFile(opts.templatePath).error))
    ensures Run(env', opts) == Run(env, opts)
  {
    RunSequence(env, opts);
    RunSequence(env', opts);
  }

  /**
   * A values error (reading, TOML parsing, or a top level that is not a
   * table) is reported whatever the render and the output would have done.
   */
  lemma ValuesErrorBeforeRender(env: Env, env': Env, opts: CmdOptions)
    requires env.parseFile(opts.templatePath).Ok?
    requires ValuesOf(env, opts.valuesPath).Err?
    requires env'.prims == env.prims && env'.parseFile == env.parseFile
    requires env'.readFile == env.readFile && env'.readStdin == env.readStdin && env'.parseToml == env.parseToml
    ensures Run(env, opts) == Fail(ValuesOf(env, opts.valuesPath).error)
    ensures Run(env', opts) == Run(env, opts)
  {
    RunSequence(env, opts);
    RunSequence(env', opts);
    assert ValuesOf(env', opts.valuesPath) == ValuesOf(env, opts.valuesPath) by {
      assert ReadValues(env', opts.valuesPath) == ReadValues(env, opts.valuesPath);
    }
  }

  /** A render that yields no text fails with "Nothing to render" and attempts no write. */
  lemma NothingRenderedFails(env: Env, opts: CmdOptions)
    requires env.parseFile(opts.templatePath).Ok?
    requires ValuesOf(env, opts.valuesPath).Ok?
    requires env.render(env.parseFile(opts.templatePath).value, ValuesOf(env, opts.valuesPath).value) == Ok(None)
    ensures Run(env, opts) == Fail(NothingToRender)
  {
    RunSequence(env, opts);
  }

  /**
   * A write is attempted only when every earlier stage succeeded, and then
   * exactly once: the rendered text, verbatim, to the chosen sink. The run
   * succeeds exactly when that write does.
   */
  lemma WriteOnlyAfterEveryStage(env: Env, opts: CmdOptions)
    ensures Run(env, opts).writes != [] <==>
      ParseTemplate(env, opts.templatePath).Ok? &&
      ValuesOf(env, opts.valuesPath).Ok? &&
      RenderText(env, ParseTemplate(env, opts.templatePath).value, ValuesOf(env, opts.valuesPath).value).Ok?
    ensures Run(env, opts).writes != [] ==>
      Run(env, opts).writes == [WriteAttempt(SinkOf(opts.outputPath),
        RenderText(env, ParseTemplate(env, opts.templatePath).value, ValuesOf(env, opts.valuesPath).value).value)]
    ensures Run(env, opts).result.Ok? <==>
      Run(env, opts).writes != [] &&
      (opts.outputPath.None? || env.createAndWrite(opts.outputPath.value, Run(env, opts).writes[0].text).Ok?)
  {
    RunSequence(env, opts);
  }

  // The program's own sequencing, proved against the machine above.

  /** Reads the values text into a buffer, parses it and builds the context (`parse_values`). */
  method ParseValues(env: Env, valuesPath: Option<string>) returns (r: Result<Liquid.Context, string>)
    ensures r == ValuesOf(env, valuesPath)
  {
    var valuesToml: string;
    match valuesPath {
      case Some(path) =>
        var read := env.readFile(path);
        if read.Err? {
          return Err(ReadError(path, read.error));
        }
        valuesToml := read.value;
      case None =>
        var read := env.readStdin;
        if read.Err? {
          return Err(ReadError("stdin", read.error));
        }
        valuesToml := read.value;
    }
    var value := env.parseToml(valuesToml);
    if value.Err? {
      return Err(TomlError(value.error));
    }
    r := BuildContext(env.prims, value.value);
  }

  /**
   * Renders the template against the context and writes the text (`render`).
   * A failed or empty render attempts no write; otherwise one write of the
   * text is attempted, to the output file if one is named and to standard
   * output if not.
   */
  method Render(env: Env, outputPath: Option<string>, template: Template, context: Liquid.Context)
    returns (r: Result<(), string>, writes: seq<WriteAttempt>)
    ensures RenderText(env, template, context).Err? ==>
      r == Err(RenderText(env, template, context).error) && writes == []
    ensures RenderText(env, template, context).Ok? ==>
      Done(r, writes) == Deliver(env, outputPath, RenderText(env, template, context).value)
  {
    var rendered := env.render(template, context);
    if rendered.Err? {
      return Err(RenderError(rendered.error)), [];
    }
    if rendered.value.None? {
      return Err(NothingToRender), [];
    }
    var text := rendered.value.value;
    match outputPath {
      case Some(path) =>
        writes := [WriteAttempt(File(path), text)];
        match env.createAndWrite(path, text) {
          case Ok(_) => r := Ok(());
          case Err(e) => r := Err(WriteError(path, e));
        }
      case None =>
        writes := [WriteAttempt(Stdout, text)];
        r := Ok(());
    }
  }

  /** Parses the template, then the values, then renders (`parse_and_render`); the first error ends the run. */
  method ParseAndRender(env: Env, opts: CmdOptions) returns (r: Result<(), string>, writes: seq<WriteAttempt>)
    ensures Done(r, writes) == Run(env, opts)
  {
    RunSequence(env, opts);
    var template := ParseTemplate(env, opts.templatePath);
    if template.Err? {
      return Err(template.error), [];
    }
    var values := ParseValues(env, opts.valuesPath);
    if values.Err? {
      return Err(values.error), [];
    }
    r, writes := Render(env, opts.outputPath, template.value, values.value);
  }
}
