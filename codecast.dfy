/** The library's entry points (codecast/__init__.py, repeated in main.py):
    `CodeCast` owns an engine and a table of presentation renderers, and
    each `CodeCastPresentation` it makes shares that same table. */
module CodeCastApi {
  import opened PyRuntime
  import opened TraceModel
  import opened Engine
  import opened Components
  import opened Renderers

  /** A presentation renderer: the built-in web renderer (of one copy of the
      derivers), or any other object whose `render(trace, config)` returns
      text or raises. */
  datatype Renderer =
    | WebRenderer(dialect: Dialect)
    | CustomRenderer(render: (ExecutionTrace, map<string, Value>) -> Result<string>)

  /** What `render` hands back: the web document (its JSON text is not
      modelled) or a custom renderer's text. */
  datatype Rendered = JsonDocument(document: Document) | Text(text: string)

  /** The error for a format with no renderer. */
  function UnsupportedFormat(format: string): PyError {
    ValueError("Unsupported format: " + format)
  }

  /** `config or {}`. */
  function ConfigOrEmpty(config: Option<map<string, Value>>): (c: map<string, Value>)
    ensures config.None? ==> c == map[]
    ensures config.Some? ==> c == config.value
  {
    match config
    case None => map[]
    case Some(m) => m
  }

  /** What renderer `r` produces for `trace` under `config`. */
  function RenderWith(r: Renderer, trace: ExecutionTrace, config: map<string, Value>, py: Builtins): Result<Rendered>
  {
    match r
    case WebRenderer(d) =>
      (match WebDocument(trace, config, d, py)
       case Failure(e) => Failure(e)
       case Success(doc) => Success(JsonDocument(doc)))
    case CustomRenderer(f) =>
      (match f(trace, config)
       case Failure(e) => Failure(e)
       case Success(text) => Success(Text(text)))
  }

  /** The `renderers` dict, one object shared by a `CodeCast` and every
      presentation it creates. */
  class RendererRegistry {
    var renderers: map<string, Renderer>

    constructor (initial: map<string, Renderer>)
      ensures renderers == initial
    {
      renderers := initial;
    }
  }

  class CodeCast {
    const engine: ExecutionEngine
    const registry: RendererRegistry

    /** A new instance has a fresh engine and exactly the renderer "web".
        The tracing Python adapter is not part of this model and is passed
        in; `dialect` selects the copy of the derivers the web renderer uses. */
    constructor (python: Adapter, dialect: Dialect)
      ensures fresh(engine) && fresh(registry)
      ensures engine.adapters == map["python" := python]
      ensures engine.preprocessors == [] && engine.postprocessors == []
      ensures registry.renderers == map["web" := WebRenderer(dialect)]
      ensures registry.renderers.Keys == {"web"}
    {
      engine := new ExecutionEngine(python);
      var initial: map<string, Renderer> := map["web" := WebRenderer(dialect)];
      registry := new RendererRegistry(initial);
    }

    /** Sets or replaces one renderer and leaves the others as they were. */
    method RegisterRenderer(name: string, r: Renderer)
      modifies registry
      ensures registry.renderers.Keys == old(registry.renderers).Keys + {name}
      ensures registry.renderers[name] == r
      ensures forall k :: k in old(registry.renderers) && k != name ==>
                registry.renderers[k] == old(registry.renderers)[k]
    {
      registry.renderers := registry.renderers[name := r];
    }

    /** Delegates to the engine. */
    method RegisterLanguage(name: string, adapter: Adapter)
      modifies engine
      ensures engine.adapters == old(engine.adapters)[name := adapter]
      ensures engine.preprocessors == old(engine.preprocessors)
      ensures engine.postprocessors == old(engine.postprocessors)
    {
      engine.RegisterLanguage(name, adapter);
    }

    /** `from_code`: runs the engine and wraps the trace; the engine's error
        is the call's error. */
    method FromCode(code: string, filename: string := "<string>", language: string := "python")
      returns (r: Result<CodeCastPresentation>)
      ensures var traced := ExecutionOf(engine.adapters, engine.preprocessors, engine.postprocessors,
                                        code, filename, language);
        && (traced.Failure? ==> r == Failure(traced.error))
        && (traced.Success? ==> r.Success? && fresh(r.value) && r.value.trace == traced.value
                                && r.value.registry == registry)
    {
      var traced := engine.ExecuteCode(code, filename, language);
      if traced.Failure? {
        return Failure(traced.error);
      }
      var p := new CodeCastPresentation(traced.value, registry);
      r := Success(p);
    }

    /** `from_file`: the language is checked first, then the file. */
    method FromFile(filepath: string, language: string := "python", file: FileLookup)
      returns (r: Result<CodeCastPresentation>)
      ensures language !in engine.adapters ==> r == Failure(UnsupportedLanguage(language))
      ensures language in engine.adapters && file.Missing? ==>
        r == Failure(FileNotFoundError("File not found: " + filepath))
      ensures language in engine.adapters && file.Present? ==>
        var traced := Pipeline(engine.adapters[language], engine.preprocessors, engine.postprocessors,
                               file.text, file.pathName);
        && (traced.Failure? ==> r == Failure(traced.error))
        && (traced.Success? ==> r.Success? && fresh(r.value) && r.value.trace == traced.value
                                && r.value.registry == registry)
    {
      var traced := engine.ExecuteFile(filepath, language, file);
      if traced.Failure? {
        return Failure(traced.error);
      }
      var p := new CodeCastPresentation(traced.value, registry);
      r := Success(p);
    }
  }

  class CodeCastPresentation {
    var trace: ExecutionTrace
    const registry: RendererRegistry

    constructor (trace: ExecutionTrace, registry: RendererRegistry)
      ensures this.trace == trace && this.registry == registry
    {
      this.trace := trace;
      this.registry := registry;
    }

    /** Sets the note of one line, overwriting any earlier one, and returns
        the same presentation for chaining. */
    method Annotate(lineNumber: int, text: string) returns (self: CodeCastPresentation)
      modifies this
      ensures self == this
      ensures trace.annotations.Keys == old(trace.annotations).Keys + {lineNumber}
      ensures trace.annotations[lineNumber] == text
      ensures forall l :: l in old(trace.annotations) && l != lineNumber ==>
                trace.annotations[l] == old(trace.annotations)[l]
      ensures trace == old(trace).(annotations := trace.annotations)
    {
      trace := trace.(annotations := trace.annotations[lineNumber := text]);
      self := this;
    }

    /** An unknown format fails with ValueError; otherwise the format's
        renderer runs on the trace with the configuration, `{}` for None. */
    method Render(format: string := "web", config: Option<map<string, Value>> := None, py: Builtins)
      returns (r: Result<Rendered>)
      ensures format !in registry.renderers ==> r == Failure(UnsupportedFormat(format))
      ensures format in registry.renderers ==>
        r == RenderWith(registry.renderers[format], trace, ConfigOrEmpty(config), py)
    {
      if format !in registry.renderers {
        return Failure(UnsupportedFormat(format));
      }
      var settings := ConfigOrEmpty(config);
      var renderer := registry.renderers[format];
      match renderer
      case WebRenderer(d) => {
        var doc := WebRender(trace, settings, d, py);
        if doc.Failure? {
          return Failure(doc.error);
        }
        r := Success(JsonDocument(doc.value));
      }
      case CustomRenderer(f) => {
        var text := f(trace, settings);
        if text.Failure? {
          return Failure(text.error);
        }
        r := Success(Text(text.value));
      }
    }
  }
}
