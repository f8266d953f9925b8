# CodeCast and PySlide, modelled in Dafny

CodeCast turns a traced program run into an interactive presentation. Its
`ExecutionEngine` keeps a set of language adapters and two ordered pipelines:
preprocessors rewrite the source text and postprocessors rewrite the resulting
`ExecutionTrace`, a list of `ExecutionEvent`s with a per-line annotation map. Two visualizers derive views
from a trace: `VariableVisualizer` builds a per-variable timeline from LINE
events, and `CallStackVisualizer` replays CALL and RETURN events against a
simulated stack. `WebRenderer` runs the enabled visualizers and assembles and
serialises the presentation document. `CodeCast` and `CodeCastPresentation`
tie these together. `main.py` is a single-file copy of the package. PySlide is
a separate deck of slides with a "current slide" that every operation edits.

The project has these modules:

- `PyRuntime`: `Option`, `Result`, the Python exceptions the core raises, an
  abstract `Value` for captured Python objects, and `Builtins`, which holds the
  Python built-ins the core calls (json serialisability, `type().__name__`,
  `repr`, `str`, truthiness) as functions passed in.
- `TraceModel`: the event kinds, events and traces with their dataclass
  defaults.
- `Engine`: the `ExecutionEngine` class. Adapters, preprocessors and
  postprocessors are function values that may fail, as the Python callables
  may raise.
- `Components`: both visualizers. Each is a method with a loop, proved
  against a functional specification; the lemmas state what the
  specification promises. A
  `Dialect` selects the event-kind comparison. The package compares
  `event_type` with the strings `"line"`, `"call"` and `"return"`. `main.py`
  compares it with the enum members. An event's type is an `EventTag`,
  which is either an enum member (`Kind`) or a plain string (`Raw`). This lets
  both rules be stated.
- `Renderers`: `WebRenderer.render`, `_serialize_event` and
  `_serialize_variables`, up to the JSON text.
- `CodeCastApi`: `CodeCast` and `CodeCastPresentation`. The `renderers`
  dict is one `RendererRegistry` object, which a `CodeCast` shares with every
  presentation it creates, as in Python.
- `SlideModel` and `PySlideDeck`: the `Slide` record and the `PySlide` class.
  The slides are a sequence and the current slide is an index into it.
  `Valid()` states that the current slide is absent exactly when there are no
  slides, and is otherwise the last one.

The engine and renderer copies in `main.py` are the same code as the
package's, so one definition models both, except that `main.py`'s
`execute_code` has no default for `filename`. The visualizer copies differ
only in the comparison, which `Dialect` captures.

## Model

| member | source | states |
|---|---|---|
| TraceModel.EventTypesAreSevenDistinctValues | codecast/codecast/core/models.py:9-17 | there are exactly seven event kinds and their string values are pairwise distinct |
| TraceModel.EventTypeFromValue | codecast/codecast/core/models.py:9-17 | looking a kind up by value returns a kind with that value, and returns none exactly when no kind has it |
| TraceModel.EventTypeValueRoundTrip | codecast/codecast/core/models.py:11-17 | looking a kind up by its own value gives that kind back |
| TraceModel.NewEvent | codecast/codecast/core/models.py:19-31 | an event built from the seven required fields has no output, no exception and empty metadata, and every given field is copied; the single-file copy at main.py:33-45 is the same |
| TraceModel.NewTrace | codecast/codecast/core/models.py:33-42 | a new trace has empty annotations, visualizations and metadata, and every given field is copied; the single-file copy at main.py:47-56 is the same |
| TraceModel.AnnotationIsIndependentOfEvents | codecast/codecast/core/models.py:36-40 | writing one line's annotation changes that line only and leaves the events as they were |
| Engine.ExecutionEngine.constructor | codecast/codecast/core/engine.py:15-21 | a new engine has exactly the adapter key "python", and both pipelines are empty |
| Engine.ExecutionEngine.RegisterLanguage | codecast/codecast/core/engine.py:23-30 | registering adds or replaces exactly that key; the other adapters and both pipelines are unchanged; the single-file copy at main.py:170-172 is the same |
| Engine.ExecutionEngine.AddPreprocessor | codecast/codecast/core/engine.py:32-38 | appends exactly one preprocessor at the end; nothing else changes |
| Engine.ExecutionEngine.AddPostprocessor | codecast/codecast/core/engine.py:40-46 | appends exactly one postprocessor at the end; nothing else changes |
| Engine.PreprocessAppend | codecast/codecast/core/engine.py:89-91 | a preprocessor added last runs on the output of all earlier ones, and only if none of them raised |
| Engine.PostprocessAppend | codecast/codecast/core/engine.py:97-99 | a postprocessor added last runs on the output of all earlier ones, and only if none of them raised |
| Engine.ExecutionEngine.ExecuteCode | codecast/codecast/core/engine.py:72-101 | an unknown language fails with ValueError before any preprocessor or adapter runs; otherwise the result is the preprocessors folded left to right, then the adapter, then the postprocessors folded left to right, with the first exception ending the run; `filename` defaults to "<string>" and `language` to "python"; the single-file copy at main.py:194-211 requires `filename` |
| Engine.ExecutionEngine.ExecuteFile | codecast/codecast/core/engine.py:48-70 | the language is checked before the file, so an unknown language fails with ValueError even for a missing path; a missing file fails with FileNotFoundError; otherwise the file's text runs under its normalised path name; the single-file copy at main.py:182-192 is the same |
| Components.KeyIffHasEntries | codecast/codecast/visualization/components.py:33-37 | a name is a timeline key exactly when it has at least one entry, and the keys are the local names of the matching LINE events |
| Components.OccurrencesAppend | codecast/codecast/visualization/components.py:33-44 | a variable's entries for a concatenation of events are the entries of the first part followed by those of the second, so each list is in event order |
| Components.OccurrencesAreContributions | codecast/codecast/visualization/components.py:33-44 | every entry comes from a matching LINE event whose locals hold the name, so there is no forward-fill; every such event contributes its own entry |
| Components.GlobalsNeverContribute | codecast/codecast/visualization/components.py:35 | two traces that differ only in their globals snapshots have the same timeline |
| Components.TimelineOfSnoc | codecast/codecast/visualization/components.py:33-44 | the timeline of events plus one more event is the old timeline extended by that event's step |
| Components.AddLineEvent | codecast/codecast/visualization/components.py:35-44 | the inner loop over one LINE event's locals performs exactly that event's step |
| Components.RenderVariables | codecast/codecast/visualization/components.py:29-50 | the result is tagged "variable_timeline" and echoes its config; its keys are the local names of the matching LINE events; each name maps to its entries in event order; the single-file copy at main.py:225-249 is the same except that it matches the enum members |
| Components.RecordsMirrorCallsAndReturns | codecast/codecast/visualization/components.py:60-79 | there is exactly one record per CALL or RETURN event, in order, and other kinds are ignored; each record copies its event's time, function name and line, and is a push exactly when its event is a CALL |
| Components.RecordsChain | codecast/codecast/visualization/components.py:61-79 | a push record's stack is the previous stack with its function appended; a pop record's stack drops the last name, or is empty when the previous stack was empty; the last record's stack is the final stack |
| Components.StackHeightBounds | codecast/codecast/visualization/components.py:60-79 | the final stack height is at most the number of CALLs and at least CALLs minus RETURNs |
| Components.WellNestedHeight | main.py:268-277 | when no prefix has more RETURNs than CALLs, the stack height is exactly CALLs minus RETURNs |
| Components.RenderCallStack | codecast/codecast/visualization/components.py:55-85 | the result is tagged "call_stack", echoes its config, and holds the records of replaying the events; the single-file copy at main.py:251-283 is the same except that it matches the enum members |
| Components.NestedCallsScenario | main.py:258-277 | any four events CALL f, CALL g, RETURN g, RETURN f yield push, push, pop, pop with stacks [f], [f, g], [f], [] |
| Components.UnmatchedReturnScenario | codecast/codecast/visualization/components.py:70-79 | a RETURN on an empty stack is not an error; it still emits a pop record with the empty stack and the RETURN's own function name |
| Components.PackageIgnoresEnumTaggedEvents | codecast/codecast/visualization/components.py:34-70 | as written, a trace whose every event type is an enum member yields an empty timeline and no stack records |
| Components.SingleFileRecordsEnumLineEvents | main.py:232-243 | a LINE event, tagged with the enum member, whose locals hold a name puts that name on the timeline with its entry |
| Renderers.SerializedSnapshot | codecast/codecast/visualization/renderers.py:75-88 | the result has the input's key set; a serialisable value is kept unchanged; any other value becomes its type name, its repr and serializable False, per key |
| Renderers.SerializeVariables | codecast/codecast/visualization/renderers.py:75-88 | the loop computes exactly that map; the single-file copy at main.py:344-357 is the same |
| Renderers.SerializeEvent | codecast/codecast/visualization/renderers.py:60-73 | an enum-typed event serialises with every field copied, the kind replaced by its string value, and both snapshots serialised; a plain-string type raises AttributeError |
| Renderers.SerializeEvents | codecast/codecast/visualization/renderers.py:48 | the events serialise exactly when every type is an enum member; the result then corresponds one-to-one and in order with the events; the only failure is the AttributeError |
| Renderers.VisualizerSelection | codecast/codecast/visualization/renderers.py:31-43 | a visualizer is in the document exactly when its enable_ flag is absent or truthy; the only names are variables and callstack; each receives config[name], or {} when that is absent |
| Renderers.DocumentCopiesTrace | codecast/codecast/visualization/renderers.py:46-56 | the document copies source code, filename, execution time, annotations and config unchanged, and holds one serialised event per event, in order |
| Renderers.WebDocumentFailures | codecast/codecast/visualization/renderers.py:46-58 | rendering succeeds exactly when every event type is an enum member and the config and metadata serialise; a plain-string event type fails with AttributeError first |
| Renderers.PackageRenderShowsNothing | codecast/codecast/visualization/renderers.py:41-48 | as written, whenever the package renders a document, its "variables" view is an empty timeline and its "callstack" view has no records |
| Renderers.WebRender | codecast/codecast/visualization/renderers.py:37-58 | the loop over the visualizers, followed by the serialisation, produces exactly the specified document or error; the single-file copy at main.py:306-327 is the same |
| CodeCastApi.ConfigOrEmpty | codecast/codecast/__init__.py:104 | a missing config becomes the empty map, and a given one is used as it is |
| CodeCastApi.CodeCast.constructor | codecast/codecast/__init__.py:16-20 | a new instance has a fresh engine with exactly "python", and exactly the renderer key "web" |
| CodeCastApi.CodeCast.RegisterRenderer | codecast/codecast/__init__.py:58-65 | sets or replaces that one renderer and leaves the others unchanged |
| CodeCastApi.CodeCast.RegisterLanguage | codecast/codecast/__init__.py:49-56 | delegates to the engine, which adds or replaces that adapter |
| CodeCastApi.CodeCast.FromCode | codecast/codecast/__init__.py:35-47 | the engine's error is the call's error; otherwise a new presentation holds the engine's trace and shares the renderer table; `filename` defaults to "<string>" and `language` to "python" |
| CodeCastApi.CodeCast.FromFile | codecast/codecast/__init__.py:22-33 | the same, for a file: an unknown language fails before the file check; `language` defaults to "python" |
| CodeCastApi.CodeCastPresentation.constructor | codecast/codecast/__init__.py:70-73 | a presentation holds the given trace and the given renderer table |
| CodeCastApi.CodeCastPresentation.Annotate | codecast/codecast/__init__.py:75-86 | sets that line's text, overwriting any earlier one; the other lines and the rest of the trace are unchanged; returns the same presentation; the single-file copy at main.py:397-400 is the same |
| CodeCastApi.CodeCastPresentation.Render | codecast/codecast/__init__.py:88-105 | an unregistered format fails with ValueError; otherwise the format's renderer runs on the trace, with {} for a missing config; `format` defaults to "web" and `config` to None; the single-file copy at main.py:402-408 is the same |
| SlideModel.NewSlide | pyslide/core/models.py:8-17 | a new slide copies its code, title and description, and title and description are optional parameters that default to None; annotations and visualizations are empty; execution output and stack trace are None |
| SlideModel.SlideFromCodeAlone | pyslide/core/models.py:11-17 | a slide made from its code alone has no title and no description, empty annotations and visualizations, and no execution output or stack trace |
| PySlideDeck.OutputAfter | pyslide/__init__.py:45-49 | a truthy output is recorded; failing that, a truthy error is recorded; otherwise the old execution output stays |
| PySlideDeck.OutputOfReportedRun | pyslide/__init__.py:45-49 | for results execute_code can return: a run that printed records its output, a silent run keeps the old output, and a raised run records its traceback |
| PySlideDeck.FindFunction | pyslide/__init__.py:59-61 | the lookup succeeds exactly when globals are given and map the name to something other than None; otherwise it fails with ValueError naming the function |
| PySlideDeck.PySlide.constructor | pyslide/__init__.py:16-18 | a new deck has no slides and no current slide |
| PySlideDeck.PySlide.NewSlide | pyslide/__init__.py:20-24 | appends exactly one default slide and makes it current, keeping the invariant; title and description default to None; returns the deck |
| PySlideDeck.PySlide.Annotate | pyslide/__init__.py:26-31 | with no current slide it fails with ValueError and changes nothing; otherwise it writes one annotation key of the current slide, and the other keys and earlier slides are unchanged |
| PySlideDeck.PySlide.AddVisualization | pyslide/__init__.py:33-38 | with no current slide it fails with ValueError and changes nothing; otherwise it writes one visualization key of the current slide, and the other keys and earlier slides are unchanged |
| PySlideDeck.PySlide.ExecuteCurrentSlide | pyslide/__init__.py:40-51 | with no current slide it fails with ValueError; otherwise only the current slide's execution output changes, as OutputAfter selects |
| PySlideDeck.PySlide.AddStackTrace | pyslide/__init__.py:53-73 | the slide check comes first; a missing or None function fails with ValueError; otherwise the current slide's stack trace holds the name, the slide's own code and the tracer's report, and nothing else changes |

## Left out

- The tracer itself (`PythonAdapter.execute_and_trace` and `_trace_calls` in
  `codecast/codecast/languages/python.py` and `main.py:80-153`) depends on
  `sys.settrace`, `exec`, `compile` and frame introspection. An adapter is a
  function value passed to the engine's constructor.
- `pyslide/core/execution.py` redirects stdout and calls `exec`, `inspect`
  and a global trace hook. This model takes the result of `execute_code` and
  the report of `generate_stack_trace` as parameters. The `globals_dict`
  that `execute_current_slide` forwards to `execute_code` therefore does not
  appear in `ExecuteCurrentSlide`.
- Timestamps and `execution_time` are wall-clock floats. Here they are
  `real` values that are copied through, and nothing is proved about them.
- The JSON text is not modelled. `WebRender` returns the document that
  `json.dumps` would encode. Whether encoding fails is reduced to the
  configuration values and the events' metadata values being serialisable.
  The exact message of the resulting TypeError is not modelled.
- WebDocument: every failure of `json.dumps` on the document is modelled as
  one fixed TypeError. The class is fixed too, so the ValueError that
  `json.dumps` raises for a circular reference is not distinguished, and
  neither is the message naming the offending type. Which value fails
  first depends on dict order, which is not modelled.
- Engine.ExecutionEngine.ExecuteCode: declares the package's default
  `filename := "<string>"` (codecast/codecast/core/engine.py:72). The
  single-file copy at main.py:194 has no default for `filename`, so there
  a call without it raises TypeError; every caller in main.py passes it.
- Python dict insertion order is not modelled: timelines, snapshots and
  the visualizations map are Dafny maps.
- `str()`, `repr()` and `type().__name__` are assumed not to raise. They
  are uninterpreted functions of `Builtins`.
- The file read in `execute_file` is not modelled. A `FileLookup`
  parameter gives the file's existence, text and normalised path name.
- Serving and display are not modelled: the `display` and `save` methods,
  `PresentationServer` and the HTML templates in `pyslide/visualization/renderer.py`.
- A trace object shared between several presentations is not modelled. A
  presentation holds its trace as a value, so an annotation written through
  one presentation is not seen by another presentation that holds the same
  Python trace object. The renderer table, in contrast, is shared, as in
  Python.
- PySlide's current slide is the same object as the last element of
  `slides`. Here it is an index, and an update rewrites that element.

## Findings

| source | as written | input that shows it | evidently intended | confidence | as-written member | corrected member |
|---|---|---|---|---|---|---|
| codecast/codecast/visualization/components.py:34 | both visualizers compare `event_type` with the string literals "line", "call" and "return" (also lines 61 and 70), but the package's own adapter stores enum members (codecast/codecast/languages/python.py:69), and an enum member never equals a string | a trace with one LINE event whose locals hold `x`, tagged `ExecutionEventType.LINE`, yields an empty timeline and no stack records | compare with the enum members, as `main.py:233,259,268` does | high, not executed | Components.PackageIgnoresEnumTaggedEvents | Components.SingleFileRecordsEnumLineEvents |
