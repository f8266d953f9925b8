/** The web renderer (codecast/visualization/renderers.py and its copy in
    main.py): it runs the enabled visualizers and assembles the document of
    the trace, with each captured value serialised or replaced by a
    description when it cannot be. */
module Renderers {
  import opened PyRuntime
  import opened TraceModel
  import opened Components

  /** A serialised snapshot value: kept as it is, or the description
      `{'type': ..., 'repr': ..., 'serializable': False}`. */
  datatype Served = Kept(value: Value) | Described(typeName: string, repr: string, serializable: bool)

  /** `_serialize_variables`, value by value. */
  function SerializedSnapshot(variables: map<string, Value>, py: Builtins): (r: map<string, Served>)
    ensures r.Keys == variables.Keys
    ensures forall name :: name in variables && py.jsonSerializable(variables[name]) ==>
              r[name] == Kept(variables[name])
    ensures forall name :: name in variables && !py.jsonSerializable(variables[name]) ==>
              r[name] == Described(py.typeName(variables[name]), py.repr(variables[name]), false)
  {
    map name | name in variables ::
      if py.jsonSerializable(variables[name]) then Kept(variables[name])
      else Described(py.typeName(variables[name]), py.repr(variables[name]), false)
  }

  /** The loop of `_serialize_variables`. */
  method SerializeVariables(variables: map<string, Value>, py: Builtins) returns (serialized: map<string, Served>)
    ensures serialized == SerializedSnapshot(variables, py)
  {
    serialized := map[];
    var pending := variables.Keys;
    while pending != {}
      invariant pending <= variables.Keys
      invariant serialized.Keys == variables.Keys - pending
      invariant forall name :: name in serialized ==> serialized[name] == SerializedSnapshot(variables, py)[name]
      decreases pending
    {
      var name :| name in pending;
      var value := variables[name];
      if py.jsonSerializable(value) {
        serialized := serialized[name := Kept(value)];
      } else {
        serialized := serialized[name := Described(py.typeName(value), py.repr(value), false)];
      }
      pending := pending - {name};
    }
  }

  /** A serialised event: every field copied, the kind replaced by its
      string value and the snapshots serialised. */
  datatype SerializedEvent = SerializedEvent(
    timestamp: real,
    eventType: string,
    lineNumber: int,
    functionName: string,
    filename: string,
    localsSnapshot: map<string, Served>,
    globalsSnapshot: map<string, Served>,
    output: Option<string>,
    exception: Option<string>,
    metadata: map<string, Value>)

  /** `event.event_type.value` on a plain string raises this. */
  const NoValueAttribute: PyError := AttributeError("'str' object has no attribute 'value'")

  /** `_serialize_event`. */
  function SerializeEvent(e: ExecutionEvent, py: Builtins): (r: Result<SerializedEvent>)
    ensures e.eventType.Raw? ==> r == Failure(NoValueAttribute)
    ensures e.eventType.Kind? ==> r.Success?
    ensures r.Success? ==>
      && r.value.eventType == e.eventType.kind.StringValue()
      && r.value.timestamp == e.timestamp && r.value.lineNumber == e.lineNumber
      && r.value.functionName == e.functionName && r.value.filename == e.filename
      && r.value.output == e.output && r.value.exception == e.exception && r.value.metadata == e.metadata
      && r.value.localsSnapshot == SerializedSnapshot(e.localsSnapshot, py)
      && r.value.globalsSnapshot == SerializedSnapshot(e.globalsSnapshot, py)
  {
    match e.eventType
    case Raw(_) => Failure(NoValueAttribute)
    case Kind(k) =>
      Success(SerializedEvent(e.timestamp, k.StringValue(), e.lineNumber, e.functionName, e.filename,
                              SerializedSnapshot(e.localsSnapshot, py),
                              SerializedSnapshot(e.globalsSnapshot, py),
                              e.output, e.exception, e.metadata))
  }

  /** `[self._serialize_event(e) for e in trace.events]`. */
  function SerializeEvents(events: seq<ExecutionEvent>, py: Builtins): (r: Result<seq<SerializedEvent>>)
    ensures r.Success? <==> forall i :: 0 <= i < |events| ==> events[i].eventType.Kind?
    ensures r.Failure? ==> r.error == NoValueAttribute
    ensures r.Success? ==> |r.value| == |events|
    ensures r.Success? ==> forall i :: 0 <= i < |events| ==> SerializeEvent(events[i], py) == Success(r.value[i])
  {
    if events == [] then Success([])
    else
      match SerializeEvent(events[0], py)
      case Failure(e) => Failure(e)
      case Success(first) =>
        match SerializeEvents(events[1..], py)
        case Failure(e) => Failure(e)
        case Success(rest) => Success([first] + rest)
  }

  /** The `'trace'` part of the document. */
  datatype TraceDocument = TraceDocument(
    events: seq<SerializedEvent>,
    sourceCode: string,
    filename: string,
    executionTime: real,
    annotations: map<int, string>)

  /** `presentation_data` before `json.dumps`. */
  datatype Document = Document(
    trace: TraceDocument,
    visualizations: map<string, VisualizationResult>,
    config: map<string, Value>)

  /** The visualizers a web renderer holds, in insertion order. */
  const VisualizerNames: seq<string> := ["variables", "callstack"]

  /** `config.get(f'enable_{name}', True)` is truthy. */
  predicate Enabled(config: map<string, Value>, name: string, py: Builtins) {
    var flag := "enable_" + name;
    flag !in config || py.truthy(config[flag])
  }

  /** `config.get(name, {})`. */
  function VisualizerConfig(config: map<string, Value>, name: string): Value {
    if name in config then config[name] else Dict(map[])
  }

  /** What the visualizer registered under `name` returns. */
  function Visualize(name: string, trace: ExecutionTrace, config: Value, d: Dialect, py: Builtins): VisualizationResult
  {
    if name == "variables" then
      VisualizationResult("variable_timeline", TimelineData(TimelineOf(trace.events, d, py)), config)
    else
      VisualizationResult("call_stack", StackData(StackRecords(trace.events, d)), config)
  }

  /** The visualizations map of the document. */
  function Visualizations(trace: ExecutionTrace, config: map<string, Value>, d: Dialect, py: Builtins)
    : map<string, VisualizationResult>
  {
    map name | name in VisualizerNames && Enabled(config, name, py) ::
      Visualize(name, trace, VisualizerConfig(config, name), d, py)
  }

  /** `json.dumps` of the document succeeds: the values it has not already
      tested (the configuration and the events' metadata) serialise. */
  predicate Encodable(trace: ExecutionTrace, config: map<string, Value>, py: Builtins) {
    && (forall key :: key in config ==> py.jsonSerializable(config[key]))
    && (forall i, key :: 0 <= i < |trace.events| && key in trace.events[i].metadata ==>
          py.jsonSerializable(trace.events[i].metadata[key]))
  }

  /** The TypeError `json.dumps` raises on a value it cannot encode. */
  const NotSerializable: PyError := TypeError("Object is not JSON serializable")

  /** `WebRenderer.render`, up to the JSON text: the visualizations are
      computed first, then the events are serialised, then the whole is
      encoded. */
  function WebDocument(trace: ExecutionTrace, config: map<string, Value>, d: Dialect, py: Builtins): Result<Document>
  {
    match SerializeEvents(trace.events, py)
    case Failure(e) => Failure(e)
    case Success(events) =>
      if !Encodable(trace, config, py) then Failure(NotSerializable)
      else Success(Document(
        TraceDocument(events, trace.sourceCode, trace.filename, trace.executionTime, trace.annotations),
        Visualizations(trace, config, d, py),
        config))
  }

  /** A visualizer is in the document exactly when its `enable_` flag is
      absent or truthy; it gets `config[name]`, or `{}` when absent. The only
      names are "variables" and "callstack". */
  lemma VisualizerSelection(trace: ExecutionTrace, config: map<string, Value>, d: Dialect, py: Builtins)
    requires WebDocument(trace, config, d, py).Success?
    ensures var vs := WebDocument(trace, config, d, py).value.visualizations;
      && vs.Keys <= {"variables", "callstack"}
      && ("variables" in vs <==> Enabled(config, "variables", py))
      && ("callstack" in vs <==> Enabled(config, "callstack", py))
      && ("variables" in vs ==>
            vs["variables"] == VisualizationResult("variable_timeline",
              TimelineData(TimelineOf(trace.events, d, py)), VisualizerConfig(config, "variables")))
      && ("callstack" in vs ==>
            vs["callstack"] == VisualizationResult("call_stack",
              StackData(StackRecords(trace.events, d)), VisualizerConfig(config, "callstack")))
  {
    var vs := Visualizations(trace, config, d, py);
    assert WebDocument(trace, config, d, py).value.visualizations == vs;
    assert VisualizerNames[0] == "variables" && VisualizerNames[1] == "callstack";
    assert forall n :: n in VisualizerNames <==> n == "variables" || n == "callstack";
  }

  /** The document copies the source, filename, execution time, annotations
      and configuration unchanged, and holds one serialised event per event,
      in order. */
  lemma DocumentCopiesTrace(trace: ExecutionTrace, config: map<string, Value>, d: Dialect, py: Builtins)
    requires WebDocument(trace, config, d, py).Success?
    ensures var doc := WebDocument(trace, config, d, py).value;
      && doc.trace.sourceCode == trace.sourceCode && doc.trace.filename == trace.filename
      && doc.trace.executionTime == trace.executionTime && doc.trace.annotations == trace.annotations
      && doc.config == config
      && |doc.trace.events| == |trace.events|
      && forall i :: 0 <= i < |trace.events| ==>
           doc.trace.events[i].eventType == trace.events[i].eventType.kind.StringValue()
           && doc.trace.events[i].localsSnapshot.Keys == trace.events[i].localsSnapshot.Keys
  {
    var doc := WebDocument(trace, config, d, py).value;
    forall i | 0 <= i < |trace.events|
      ensures doc.trace.events[i].eventType == trace.events[i].eventType.kind.StringValue()
      ensures doc.trace.events[i].localsSnapshot.Keys == trace.events[i].localsSnapshot.Keys
    {
      assert SerializeEvent(trace.events[i], py) == Success(doc.trace.events[i]);
    }
  }

  /** The document is produced exactly when every event type is an enum
      member and the configuration and metadata serialise; a plain-string
      event type fails with AttributeError, which takes precedence. */
  lemma WebDocumentFailures(trace: ExecutionTrace, config: map<string, Value>, d: Dialect, py: Builtins)
    ensures WebDocument(trace, config, d, py).Success? <==>
      (forall i :: 0 <= i < |trace.events| ==> trace.events[i].eventType.Kind?) && Encodable(trace, config, py)
    ensures (exists i :: 0 <= i < |trace.events| && trace.events[i].eventType.Raw?) ==>
      WebDocument(trace, config, d, py) == Failure(NoValueAttribute)
  {
  }

  /** As written, a web document the package renders never shows a
      variable or a stack record: it is only produced when every event type
      is an enum member, and the package's derivers match none of those. */
  lemma PackageRenderShowsNothing(trace: ExecutionTrace, config: map<string, Value>, py: Builtins)
    requires WebDocument(trace, config, Package, py).Success?
    ensures var vs := WebDocument(trace, config, Package, py).value.visualizations;
      && ("variables" in vs ==> vs["variables"].data == TimelineData(map[]))
      && ("callstack" in vs ==> vs["callstack"].data == StackData([]))
  {
    WebDocumentFailures(trace, config, Package, py);
    PackageIgnoresEnumTaggedEvents(trace.events, py);
    VisualizerSelection(trace, config, Package, py);
  }

  /** `WebRenderer.render`, up to the JSON text. */
  method WebRender(trace: ExecutionTrace, config: map<string, Value>, d: Dialect, py: Builtins)
    returns (r: Result<Document>)
    ensures r == WebDocument(trace, config, d, py)
  {
    var visualizations: map<string, VisualizationResult> := map[];
    for j := 0 to |VisualizerNames|
      invariant forall name :: name in visualizations <==> name in VisualizerNames[..j] && Enabled(config, name, py)
      invariant forall name :: name in visualizations ==>
                  visualizations[name] == Visualize(name, trace, VisualizerConfig(config, name), d, py)
    {
      var name := VisualizerNames[j];
      if Enabled(config, name, py) {
        var v;
        if name == "variables" {
          v := RenderVariables(trace, VisualizerConfig(config, name), d, py);
        } else {
          v := RenderCallStack(trace, VisualizerConfig(config, name), d);
        }
        visualizations := visualizations[name := v];
      }
    }
    assert VisualizerNames[..|VisualizerNames|] == VisualizerNames;
    assert visualizations == Visualizations(trace, config, d, py);
    var events := SerializeEvents(trace.events, py);
    if events.Failure? {
      return Failure(events.error);
    }
    if !Encodable(trace, config, py) {
      return Failure(NotSerializable);
    }
    r := Success(Document(
      TraceDocument(events.value, trace.sourceCode, trace.filename, trace.executionTime, trace.annotations),
      visualizations, config));
  }
}
