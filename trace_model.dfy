/** The trace data model: the kinds of execution event, one observed event,
    and the trace of one run (codecast/core/models.py, repeated at the top
    of main.py). */
module TraceModel {
  import opened PyRuntime

  /** The seven kinds of execution event. */
  datatype ExecutionEventType = Line | Call | Return | Exception | VariableChange | Output | Annotation {

    /** The member's `.value`. */
    function StringValue(): string {
      match this
      case Line => "line"
      case Call => "call"
      case Return => "return"
      case Exception => "exception"
      case VariableChange => "variable_change"
      case Output => "output"
      case Annotation => "annotation"
    }
  }

  /** Every member of the enum, in declaration order. */
  const AllEventTypes: seq<ExecutionEventType> :=
    [Line, Call, Return, Exception, VariableChange, Output, Annotation]

  /** `ExecutionEventType(s)`: the member whose value is `s`; Python raises
      ValueError when there is none. */
  function EventTypeFromValue(s: string): (r: Option<ExecutionEventType>)
    ensures r.Some? ==> r.value.StringValue() == s
    ensures r.None? ==> forall k: ExecutionEventType :: k.StringValue() != s
  {
    if s == "line" then Some(Line)
    else if s == "call" then Some(Call)
    else if s == "return" then Some(Return)
    else if s == "exception" then Some(Exception)
    else if s == "variable_change" then Some(VariableChange)
    else if s == "output" then Some(Output)
    else if s == "annotation" then Some(Annotation)
    else None
  }

  /** There are exactly seven kinds, and their string values tell them apart. */
  lemma EventTypesAreSevenDistinctValues()
    ensures |AllEventTypes| == 7
    ensures forall k: ExecutionEventType :: k in AllEventTypes
    ensures forall i, j :: 0 <= i < j < |AllEventTypes| ==>
              AllEventTypes[i].StringValue() != AllEventTypes[j].StringValue()
  {
    forall k: ExecutionEventType ensures k in AllEventTypes {
      match k
      case Line => assert AllEventTypes[0] == k;
      case Call => assert AllEventTypes[1] == k;
      case Return => assert AllEventTypes[2] == k;
      case Exception => assert AllEventTypes[3] == k;
      case VariableChange => assert AllEventTypes[4] == k;
      case Output => assert AllEventTypes[5] == k;
      case Annotation => assert AllEventTypes[6] == k;
    }
  }

  /** Looking a member up by its own value gives it back. */
  lemma EventTypeValueRoundTrip(k: ExecutionEventType)
    ensures EventTypeFromValue(k.StringValue()) == Some(k)
  {
  }

  /** What an event's `event_type` field holds: the package's adapter stores
      enum members, but nothing stops a caller from storing a plain string. */
  datatype EventTag = Kind(kind: ExecutionEventType) | Raw(text: string)

  /** One observed moment of the traced run. */
  datatype ExecutionEvent = ExecutionEvent(
    timestamp: real,
    eventType: EventTag,
    lineNumber: int,
    functionName: string,
    filename: string,
    localsSnapshot: map<string, Value>,
    globalsSnapshot: map<string, Value>,
    output: Option<string> := None,
    exception: Option<string> := None,
    metadata: map<string, Value> := map[])

  /** The dataclass constructor called with the seven required fields only;
      the other three take their defaults unless they are given. */
  function NewEvent(timestamp: real, eventType: EventTag, lineNumber: int, functionName: string,
                    filename: string, localsSnapshot: map<string, Value>,
                    globalsSnapshot: map<string, Value>): (e: ExecutionEvent)
    ensures e.output == None && e.exception == None && e.metadata == map[]
    ensures e.timestamp == timestamp && e.eventType == eventType && e.lineNumber == lineNumber
    ensures e.functionName == functionName && e.filename == filename
    ensures e.localsSnapshot == localsSnapshot && e.globalsSnapshot == globalsSnapshot
  {
    ExecutionEvent(timestamp, eventType, lineNumber, functionName, filename,
                   localsSnapshot, globalsSnapshot)
  }

  /** The result of one run. `annotations` is keyed by line number and is
      not derived from `events`. */
  datatype ExecutionTrace = ExecutionTrace(
    events: seq<ExecutionEvent>,
    sourceCode: string,
    filename: string,
    executionTime: real,
    annotations: map<int, string> := map[],
    visualizations: map<string, Value> := map[],
    metadata: map<string, Value> := map[])

  /** The dataclass constructor called with the four required fields only;
      the other three take their defaults unless they are given. */
  function NewTrace(events: seq<ExecutionEvent>, sourceCode: string, filename: string,
                    executionTime: real): (t: ExecutionTrace)
    ensures t.annotations == map[] && t.visualizations == map[] && t.metadata == map[]
    ensures t.events == events && t.sourceCode == sourceCode
    ensures t.filename == filename && t.executionTime == executionTime
  {
    ExecutionTrace(events, sourceCode, filename, executionTime)
  }

  /** Writing an annotation changes that one line's note and nothing else of
      the trace, its events in particular. */
  lemma AnnotationIsIndependentOfEvents(t: ExecutionTrace, line: int, text: string)
    ensures var t' := t.(annotations := t.annotations[line := text]);
      && t'.events == t.events
      && t'.annotations.Keys == t.annotations.Keys + {line}
      && t'.annotations[line] == text
      && (forall l :: l in t.annotations && l != line ==> t'.annotations[l] == t.annotations[l])
  {
  }
}
