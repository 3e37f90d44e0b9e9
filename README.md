# render-liquid: the TOML-to-Liquid value bridge

`render-liquid` renders a Liquid template against values read from a TOML
document. This project models the part of it that is its own logic:

- `convert`, which maps a parsed TOML value (`toml::Value`, seven variants)
  onto the Liquid engine's value (`liquid::Value`, five variants);
- the end of `parse_values`, which checks that the document's top level is a
  table and fills a fresh rendering context with one converted binding per
  top-level key;
- the stage sequencing of `parse_and_render` and `render`: parse the
  template, read the values (a named file or standard input), parse them as
  TOML, build the context, render, reject a render that produced no text,
  write the text (a named file or standard output).

Modules:

- `Wrappers`: `Option` and `Result`.
- `Tables`: entry sequences and the maps built by inserting them in order
  (`Collect`, where a later entry for a key replaces an earlier one, as
  `collect()` into a hash map and repeated `set_val` do), and path selectors.
- `Toml`: the TOML value. A table is its entry sequence in the map's
  iteration order. Integers are 64-bit; floats are binary64 bit patterns.
- `Liquid`: the Liquid value. A number is a binary32 bit pattern; an object
  and the rendering context are maps.
- `Conversion`: `Convert`, and the lemmas that it preserves structure.
- `ContextBuilder`: `ContextOf` (what the context is) and `BuildContext`
  (the loop that builds it).
- `Pipeline`: every external call's outcome is a field of `Env`. A run is a
  state machine (`Step`, `Finish`, `Run`): each state names what has been
  obtained so far, and each step either moves to the next stage or stops with
  that stage's error. The imperative methods `ParseValues`, `Render` and
  `ParseAndRender` follow the program's early returns and are proved to
  compute exactly what the machine computes.

The external behaviours are parameters, not modelled:

- `Primitives` holds the `as f32` casts and `Datetime::to_string`.
- `Env` holds `liquid::parse_file`, reading a file, reading standard input,
  TOML parsing, `Template::render`, and creating and writing the output file.
  Each is given as its result for each argument. Errors are their display
  text.

The error texts are modelled exactly:

- "Can't parse the template at P. E"
- "Can't read values from P. E", with P = `stdin` when no values file is named
- "Can't parse TOML values. E"
- "Can't parse the top level item in the TOML file as table."
- "Can't render the template. E"
- "Nothing to render"
- "Can't write to P. E"

Two facts about the code shape the model:

- `File::create` runs only after rendering succeeded. But it and `write!` can
  fail after the file was created or truncated. The model therefore records
  the write attempt (`WriteAttempt`) and its failure as separate facts.
- The TOML-parse and not-a-table errors both come out of `parse_values` as
  one `String`. So both are reported before any render error.

## Model

| member | source | states |
|---|---|---|
| `Tables.Collect` | render-liquid/src/main.rs:113-118 | collecting entries into a map binds exactly the entries' keys |
| `Tables.CollectLastWins` | render-liquid/src/main.rs:92-94 | a key is bound to the value of the last entry that inserts it (insertion replaces) |
| `Tables.CollectDistinct` | render-liquid/src/main.rs:113-118 | with distinct keys, every entry's key is bound to that entry's value |
| `Tables.CollectMapValues` | render-liquid/src/main.rs:114-117 | converting the values and then collecting equals collecting and then converting every bound value |
| `Conversion.Convert` | render-liquid/src/main.rs:103-120 | total, with no error path. Integer and Float give Num, from the integer or float cast. Boolean gives Bool with the same flag. String gives Str with the same text. Datetime gives Str with the date-time's text. Array gives Array of the same length. Table gives Object with the table's key set. Each Liquid variant comes from exactly these TOML variants (both directions). |
| `Conversion.ConvertArray` | render-liquid/src/main.rs:110-112 | element i of the converted array is the conversion of element i, so order and length are kept |
| `Conversion.ConvertTable` | render-liquid/src/main.rs:113-118 | the object binds exactly the table's keys, each to the conversion of the table's value for it |
| `Conversion.ConvertTableEntry` | render-liquid/src/main.rs:113-118 | in a table with distinct keys, entry (k, x) becomes the binding of k to the conversion of x |
| `Conversion.ConvertAt` | render-liquid/src/main.rs:103-120 | following any path of array indices and keys, the converted value holds the conversion of what the TOML value holds there, and holds nothing where the TOML value has nothing |
| `ContextBuilder.ContextOf` | render-liquid/src/main.rs:89-100 | fails, with the not-a-table message, exactly when the top level is not a table; on success the context binds exactly the table's keys |
| `ContextBuilder.BuildContext` | render-liquid/src/main.rs:89-100 | the loop from an empty context, one insertion of a converted value per entry, yields exactly the context of the top-level value (loop invariant: the context is what the entries seen so far, converted, collect into) |
| `ContextBuilder.EmptyTableEmptyContext` | render-liquid/src/main.rs:91-95 | an empty top-level table gives an empty context and no error |
| `ContextBuilder.ContextBindings` | render-liquid/src/main.rs:91-95 | for a top-level table, building succeeds and every key is bound to the conversion of its own value |
| `ContextBuilder.FixtureContext` | render-liquid/src/main.rs:194-210 | the values table that the expected output of `gen_xml_with_values` implies gives a context with the five keys; the two addresses stay in order and the numbers go through the f32 cast |
| `Pipeline.ParseTemplate` | render-liquid/src/main.rs:67-71 | succeeds exactly when the template parses; the error carries the template path and the parser's message |
| `Pipeline.ReadValues` | render-liquid/src/main.rs:74-83 | reads the named values file, or standard input when none is named; the text is passed on unchanged; the error names the file or `stdin` |
| `Pipeline.ValuesOf` | render-liquid/src/main.rs:73-101 | succeeds exactly when reading succeeds, the text parses as TOML, and the top level is a table. A read error is passed through. A TOML error gives "Can't parse TOML values. E". A parsed document gives its context. |
| `Pipeline.RenderText` | render-liquid/src/main.rs:127-131 | succeeds exactly when the render succeeds with some text. A render error gives the render message. A render with no text gives "Nothing to render". |
| `Pipeline.Deliver` | render-liquid/src/main.rs:133-142 | attempts one write of the text, verbatim, to the named file or to standard output. It succeeds exactly for standard output or a successful file write. A failed file write gives "Can't write to P. E". |
| `Pipeline.Step` | render-liquid/src/main.rs:46-50 | each step before the end moves strictly forward. A finished state stays put. Any stage before writing that stops the run stops it with an error and no write attempted. |
| `Pipeline.Finish` | render-liquid/src/main.rs:46-50 | running the stages from any state always ends in a finished run |
| `Pipeline.RunSequence` | render-liquid/src/main.rs:46-50 | a run is template parse, then values, then render, then write; each stage is reached only when all before it succeeded, and the first failure is the run's error |
| `Pipeline.TemplateErrorFirst` | render-liquid/src/main.rs:46-48 | a template error is the run's error and no write is attempted, whatever the values, render and write outcomes would have been |
| `Pipeline.ValuesErrorBeforeRender` | render-liquid/src/main.rs:48-49 | after a good template, a values error (read, TOML parse or not a table) is the run's error. No write is attempted, whatever the render and write outcomes would have been. |
| `Pipeline.NothingRenderedFails` | render-liquid/src/main.rs:131 | a render that yields no text ends the run with "Nothing to render" and no write attempted |
| `Pipeline.WriteOnlyAfterEveryStage` | render-liquid/src/main.rs:127-142 | a write is attempted exactly when template, values and render all succeeded. Then it is one attempt, with the rendered text, to the chosen sink. The run succeeds exactly when that write does. |
| `Pipeline.ParseValues` | render-liquid/src/main.rs:73-101 | the read, parse and build sequence with early returns computes exactly `ValuesOf` |
| `Pipeline.Render` | render-liquid/src/main.rs:122-143 | a failed or empty render returns its error and attempts no write; otherwise it does exactly what `Deliver` does |
| `Pipeline.ParseAndRender` | render-liquid/src/main.rs:46-50 | returns exactly the outcome and writes of the state machine's run |

## Left out

- `main` and `parse_options` (render-liquid/src/main.rs:17-65): argument
  parsing, the `Error: ...` line on standard error and exit code 8 are
  command-line plumbing.
- File and standard-input reading, file creation and writing, and printing to
  standard output are I/O. Each is modelled only by its outcome, a field of
  `Env`. A failure of `print!` (which panics in Rust) is not modelled:
  writing to standard output always succeeds in the model.
- TOML parsing, `liquid::parse_file` and `Template::render` are library
  calls. Their results are inputs. The model does not say what text a
  template renders, so the fixtures' exact XML output is not stated.
- `Template::render` takes the context mutably. The engine may change it
  while rendering. The context is dropped afterwards, so the model passes it
  by value.
- `Conversion.Convert`: the `as f32` casts (rounding, precision loss for large
  integers) and the text of `Datetime::to_string` are foreign. They are the
  `Primitives` parameters, so only "the result is the cast of the payload" is
  stated, not its numeric value.
- The compiled template is opaque (`Pipeline.Template`); it is never
  inspected.
- Duplicate TOML keys cannot occur in the toml crate's map. The model's entry
  sequences can hold them: the Liquid side then follows last-write-wins, and
  the per-entry lemmas require distinct keys.
