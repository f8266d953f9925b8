/** The execution engine (codecast/core/engine.py, repeated in main.py): a
    registry of language adapters keyed by language name and two ordered
    pipelines, preprocessors over source text and postprocessors over the
    trace. */
module Engine {
  import opened PyRuntime
  import opened TraceModel

  /** `adapter.execute_and_trace(code, filename)`; it may raise (the Python
      adapter raises ValueError on a syntax error). */
  type Adapter = (string, string) -> Result<ExecutionTrace>

  /** A preprocessor maps source text to source text, and may raise. */
  type Preprocessor = string -> Result<string>

  /** A postprocessor maps a trace to a trace, and may raise. */
  type Postprocessor = ExecutionTrace -> Result<ExecutionTrace>

  /** The error for a language with no adapter. */
  function UnsupportedLanguage(language: string): PyError {
    ValueError("Unsupported language: " + language)
  }

  /** The file's state as `Path(filepath)` sees it: missing, or present with
      its text and its normalised name `str(path)`. */
  datatype FileLookup = Missing | Present(pathName: string, text: string)

  /** Runs `ps` left to right over `code`; the first exception stops the run. */
  function Preprocess(ps: seq<Preprocessor>, code: string): Result<string>
    decreases |ps|
  {
    if ps == [] then Success(code)
    else match ps[0](code)
      case Failure(e) => Failure(e)
      case Success(next) => Preprocess(ps[1..], next)
  }

  /** Runs `ps` left to right over `trace`; the first exception stops the run. */
  function Postprocess(ps: seq<Postprocessor>, trace: ExecutionTrace): Result<ExecutionTrace>
    decreases |ps|
  {
    if ps == [] then Success(trace)
    else match ps[0](trace)
      case Failure(e) => Failure(e)
      case Success(next) => Postprocess(ps[1..], next)
  }

  /** What `execute_code` does once the language check has passed. */
  function Pipeline(adapter: Adapter, pre: seq<Preprocessor>, post: seq<Postprocessor>,
                    code: string, filename: string): Result<ExecutionTrace>
  {
    match Preprocess(pre, code)
    case Failure(e) => Failure(e)
    case Success(c) =>
      match adapter(c, filename)
      case Failure(e) => Failure(e)
      case Success(t) => Postprocess(post, t)
  }

  /** What `execute_code` returns, as a function of the engine's state: an
      unknown language fails before any work, otherwise the pipeline runs. */
  function ExecutionOf(adapters: map<string, Adapter>, pre: seq<Preprocessor>, post: seq<Postprocessor>,
                       code: string, filename: string, language: string): Result<ExecutionTrace>
  {
    if language !in adapters then Failure(UnsupportedLanguage(language))
    else Pipeline(adapters[language], pre, post, code, filename)
  }

  /** A preprocessor registered last runs after all earlier ones, on their
      output, and only if none of them raised. */
  lemma {:induction false} PreprocessAppend(ps: seq<Preprocessor>, p: Preprocessor, code: string)
    ensures Preprocess(ps + [p], code) ==
      match Preprocess(ps, code)
      case Failure(e) => Failure(e)
      case Success(c) => p(c)
    decreases |ps|
  {
    if ps == [] {
      assert [p][1..] == [];
    } else {
      assert (ps + [p])[1..] == ps[1..] + [p];
      match ps[0](code)
      case Failure(e) =>
      case Success(next) => PreprocessAppend(ps[1..], p, next);
    }
  }

  /** A postprocessor registered last runs after all earlier ones, on their
      output, and only if none of them raised. */
  lemma {:induction false} PostprocessAppend(ps: seq<Postprocessor>, p: Postprocessor, trace: ExecutionTrace)
    ensures Postprocess(ps + [p], trace) ==
      match Postprocess(ps, trace)
      case Failure(e) => Failure(e)
      case Success(t) => p(t)
    decreases |ps|
  {
    if ps == [] {
      assert [p][1..] == [];
    } else {
      assert (ps + [p])[1..] == ps[1..] + [p];
      match ps[0](trace)
      case Failure(e) =>
      case Success(next) => PostprocessAppend(ps[1..], p, next);
    }
  }

  class ExecutionEngine {
    var adapters: map<string, Adapter>
    var preprocessors: seq<Preprocessor>
    var postprocessors: seq<Postprocessor>

    /** A new engine knows exactly one language, "python", and has empty
        pipelines. The tracing Python adapter is not part of this model and
        is passed in. */
    constructor (python: Adapter)
      ensures adapters == map["python" := python]
      ensures adapters.Keys == {"python"}
      ensures preprocessors == [] && postprocessors == []
    {
      var registry: map<string, Adapter> := map["python" := python];
      adapters := registry;
      preprocessors := [];
      postprocessors := [];
    }

    /** Sets or replaces the adapter for `name`. */
    method RegisterLanguage(name: string, adapter: Adapter)
      modifies this
      ensures adapters.Keys == old(adapters).Keys + {name}
      ensures adapters[name] == adapter
      ensures forall k :: k in old(adapters) && k != name ==> adapters[k] == old(adapters)[k]
      ensures preprocessors == old(preprocessors) && postprocessors == old(postprocessors)
    {
      adapters := adapters[name := adapter];
    }

    /** Appends one preprocessor after all earlier ones. */
    method AddPreprocessor(p: Preprocessor)
      modifies this
      ensures preprocessors == old(preprocessors) + [p]
      ensures adapters == old(adapters) && postprocessors == old(postprocessors)
    {
      preprocessors := preprocessors + [p];
    }

    /** Appends one postprocessor after all earlier ones. */
    method AddPostprocessor(p: Postprocessor)
      modifies this
      ensures postprocessors == old(postprocessors) + [p]
      ensures adapters == old(adapters) && preprocessors == old(preprocessors)
    {
      postprocessors := postprocessors + [p];
    }

    /** An unknown language fails before any preprocessor or adapter runs, so
        a raising preprocessor cannot mask it; otherwise the preprocessors
        run in registration order, then the adapter, then the postprocessors
        in registration order. */
    method ExecuteCode(code: string, filename: string := "<string>", language: string := "python")
      returns (r: Result<ExecutionTrace>)
      ensures language !in adapters ==> r == Failure(UnsupportedLanguage(language))
      ensures language in adapters ==>
        r == Pipeline(adapters[language], preprocessors, postprocessors, code, filename)
      ensures r == ExecutionOf(adapters, preprocessors, postprocessors, code, filename, language)
    {
      if language !in adapters {
        return Failure(UnsupportedLanguage(language));
      }
      var source := code;
      var i := 0;
      while i < |preprocessors|
        invariant 0 <= i <= |preprocessors|
        invariant Preprocess(preprocessors[i..], source) == Preprocess(preprocessors, code)
      {
        assert preprocessors[i..][1..] == preprocessors[i + 1..];
        var step := preprocessors[i](source);
        if step.Failure? {
          return Failure(step.error);
        }
        source := step.value;
        i := i + 1;
      }
      var adapter := adapters[language];
      var traced := adapter(source, filename);
      if traced.Failure? {
        return Failure(traced.error);
      }
      var trace := traced.value;
      var j := 0;
      while j < |postprocessors|
        invariant 0 <= j <= |postprocessors|
        invariant Postprocess(postprocessors[j..], trace) == Postprocess(postprocessors, traced.value)
      {
        assert postprocessors[j..][1..] == postprocessors[j + 1..];
        var step := postprocessors[j](trace);
        if step.Failure? {
          return Failure(step.error);
        }
        trace := step.value;
        j := j + 1;
      }
      r := Success(trace);
    }

    /** The language is checked before the file, so an unknown language
        fails with ValueError even for a missing path. */
    method ExecuteFile(filepath: string, language: string := "python", file: FileLookup)
      returns (r: Result<ExecutionTrace>)
      ensures language !in adapters ==> r == Failure(UnsupportedLanguage(language))
      ensures language in adapters && file.Missing? ==>
        r == Failure(FileNotFoundError("File not found: " + filepath))
      ensures language in adapters && file.Present? ==>
        r == Pipeline(adapters[language], preprocessors, postprocessors, file.text, file.pathName)
    {
      if language !in adapters {
        return Failure(UnsupportedLanguage(language));
      }
      if file.Missing? {
        return Failure(FileNotFoundError("File not found: " + filepath));
      }
      r := ExecuteCode(file.text, file.pathName, language);
    }
  }
}
