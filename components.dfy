/** The visualization derivers (codecast/visualization/components.py and
    their copies in main.py): a per-variable timeline and a call-stack
    timeline, both replayed from a trace's events. */
module Components {
  import opened PyRuntime
  import opened TraceModel

  /** Which copy of the derivers runs. The package compares `event_type`
      with the string literals "line", "call", "return"; the single-file
      copy compares it with the enum members. */
  datatype Dialect = Package | SingleFile

  /** The derivers' test "this event is of kind `k`". */
  predicate IsEventOf(e: ExecutionEvent, k: ExecutionEventType, d: Dialect) {
    match d
    case Package => e.eventType == Raw(k.StringValue())
    case SingleFile => e.eventType == Kind(k)
  }

  /** What a deriver returns: `{'type': ..., 'data': ..., 'config': ...}`. */
  datatype VisualizationResult = VisualizationResult(typeTag: string, data: VisualizationData, config: Value)

  datatype VisualizationData = TimelineData(timeline: Timeline) | StackData(records: seq<StackRecord>)

  // ----- Variable timeline -------------------------------------------------

  /** One entry of a variable's timeline. */
  datatype TimelineEntry = TimelineEntry(timestamp: real, line: int, value: string, typeName: string)

  type Timeline = map<string, seq<TimelineEntry>>

  function EntryFor(e: ExecutionEvent, v: Value, py: Builtins): TimelineEntry {
    TimelineEntry(e.timestamp, e.lineNumber, py.str(v), py.typeName(v))
  }

  /** `e` contributes an entry for `name`: a LINE event whose locals hold it. */
  predicate Contributes(e: ExecutionEvent, name: string, d: Dialect) {
    IsEventOf(e, Line, d) && name in e.localsSnapshot
  }

  /** The entries `name` gets from `events`, in event order. */
  function Occurrences(events: seq<ExecutionEvent>, name: string, d: Dialect, py: Builtins): seq<TimelineEntry>
  {
    if events == [] then []
    else
      var e := events[|events| - 1];
      Occurrences(events[..|events| - 1], name, d, py)
        + (if Contributes(e, name, d) then [EntryFor(e, e.localsSnapshot[name], py)] else [])
  }

  /** The names of the locals of the LINE events among `events`. */
  function LocalNames(events: seq<ExecutionEvent>, d: Dialect): set<string>
  {
    if events == [] then {}
    else
      var e := events[|events| - 1];
      LocalNames(events[..|events| - 1], d) + (if IsEventOf(e, Line, d) then e.localsSnapshot.Keys else {})
  }

  /** The variable timeline of `events`. */
  function TimelineOf(events: seq<ExecutionEvent>, d: Dialect, py: Builtins): Timeline {
    map name | name in LocalNames(events, d) :: Occurrences(events, name, d, py)
  }

  /** A name is a key of the timeline exactly when it has at least one
      entry: no variable has an empty list. */
  lemma {:induction false} KeyIffHasEntries(events: seq<ExecutionEvent>, name: string, d: Dialect, py: Builtins)
    ensures name in LocalNames(events, d) <==> Occurrences(events, name, d, py) != []
  {
    if events != [] {
      KeyIffHasEntries(events[..|events| - 1], name, d, py);
    }
  }

  /** Timelines grow by concatenation: the entries of earlier events come
      first, so each list is in event order. */
  lemma {:induction false} OccurrencesAppend(a: seq<ExecutionEvent>, b: seq<ExecutionEvent>, name: string,
                                             d: Dialect, py: Builtins)
    ensures Occurrences(a + b, name, d, py) == Occurrences(a, name, d, py) + Occurrences(b, name, d, py)
    decreases |b|
  {
    if b == [] {
      assert a + b == a;
    } else {
      var b' := b[..|b| - 1];
      assert (a + b)[..|a + b| - 1] == a + b';
      OccurrencesAppend(a, b', name, d, py);
    }
  }

  /** Every entry comes from an event that contributes `name` (no
      forward-fill), and every such event gives exactly its own entry. */
  lemma {:induction false} OccurrencesAreContributions(events: seq<ExecutionEvent>, name: string,
                                                       d: Dialect, py: Builtins)
    ensures forall x :: x in Occurrences(events, name, d, py) ==>
              exists i :: 0 <= i < |events| && Contributes(events[i], name, d) &&
                          x == EntryFor(events[i], events[i].localsSnapshot[name], py)
    ensures forall i :: 0 <= i < |events| && Contributes(events[i], name, d) ==>
              EntryFor(events[i], events[i].localsSnapshot[name], py) in Occurrences(events, name, d, py)
  {
    if events != [] {
      var n := |events| - 1;
      var prefix := events[..n];
      OccurrencesAreContributions(prefix, name, d, py);
      forall x | x in Occurrences(events, name, d, py)
        ensures exists i :: 0 <= i < |events| && Contributes(events[i], name, d) &&
                            x == EntryFor(events[i], events[i].localsSnapshot[name], py)
      {
        if x in Occurrences(prefix, name, d, py) {
          var i :| 0 <= i < |prefix| && Contributes(prefix[i], name, d) &&
                   x == EntryFor(prefix[i], prefix[i].localsSnapshot[name], py);
          assert events[i] == prefix[i];
        } else {
          assert x == EntryFor(events[n], events[n].localsSnapshot[name], py);
        }
      }
      forall i | 0 <= i < |events| && Contributes(events[i], name, d)
        ensures EntryFor(events[i], events[i].localsSnapshot[name], py) in Occurrences(events, name, d, py)
      {
        if i < n {
          assert events[i] == prefix[i];
        }
      }
    }
  }

  /** Two event lists that differ only in their globals snapshots have the
      same timeline: globals never contribute. */
  lemma {:induction false} GlobalsNeverContribute(a: seq<ExecutionEvent>, b: seq<ExecutionEvent>,
                                                  d: Dialect, py: Builtins)
    requires |a| == |b|
    requires forall i :: 0 <= i < |a| ==> a[i].(globalsSnapshot := b[i].globalsSnapshot) == b[i]
    ensures TimelineOf(a, d, py) == TimelineOf(b, d, py)
  {
    forall name ensures Occurrences(a, name, d, py) == Occurrences(b, name, d, py) {
      SameLocalsSameOccurrences(a, b, name, d, py);
    }
    SameLocalsSameNames(a, b, d);
  }

  lemma {:induction false} SameLocalsSameOccurrences(a: seq<ExecutionEvent>, b: seq<ExecutionEvent>, name: string,
                                                     d: Dialect, py: Builtins)
    requires |a| == |b|
    requires forall i :: 0 <= i < |a| ==> a[i].(globalsSnapshot := b[i].globalsSnapshot) == b[i]
    ensures Occurrences(a, name, d, py) == Occurrences(b, name, d, py)
  {
    if a != [] {
      var n := |a| - 1;
      assert a[n].(globalsSnapshot := b[n].globalsSnapshot) == b[n];
      SameLocalsSameOccurrences(a[..n], b[..n], name, d, py);
    }
  }

  lemma {:induction false} SameLocalsSameNames(a: seq<ExecutionEvent>, b: seq<ExecutionEvent>, d: Dialect)
    requires |a| == |b|
    requires forall i :: 0 <= i < |a| ==> a[i].(globalsSnapshot := b[i].globalsSnapshot) == b[i]
    ensures LocalNames(a, d) == LocalNames(b, d)
  {
    if a != [] {
      var n := |a| - 1;
      assert a[n].(globalsSnapshot := b[n].globalsSnapshot) == b[n];
      SameLocalsSameNames(a[..n], b[..n], d);
    }
  }

  /** The timeline after one more event: a LINE event appends one entry to
      the list of each of its locals, creating missing lists. */
  function WithEvent(timeline: Timeline, e: ExecutionEvent, d: Dialect, py: Builtins): Timeline {
    if IsEventOf(e, Line, d) then Merged(timeline, e, py, e.localsSnapshot.Keys) else timeline
  }

  /** `timeline` with the entries of event `e` appended for the locals in
      `done` only. */
  function Merged(timeline: Timeline, e: ExecutionEvent, py: Builtins, done: set<string>): Timeline
    requires done <= e.localsSnapshot.Keys
  {
    map name | name in timeline.Keys + done ::
      (if name in timeline then timeline[name] else [])
        + (if name in done then [EntryFor(e, e.localsSnapshot[name], py)] else [])
  }

  /** Merging no local leaves the timeline as it was. */
  lemma MergedNothing(timeline: Timeline, e: ExecutionEvent, py: Builtins)
    ensures Merged(timeline, e, py, {}) == timeline
  {
    var m := Merged(timeline, e, py, {});
    assert m.Keys == timeline.Keys;
    forall k | k in m ensures m[k] == timeline[k] {
    }
  }

  /** Merging one more local appends its entry to its list only. */
  lemma MergedStep(timeline: Timeline, e: ExecutionEvent, py: Builtins, done: set<string>, name: string)
    requires done <= e.localsSnapshot.Keys && name in e.localsSnapshot && name !in done
    ensures Merged(timeline, e, py, done + {name}) ==
      Merged(timeline, e, py, done)[name := (if name in timeline then timeline[name] else [])
                                            + [EntryFor(e, e.localsSnapshot[name], py)]]
  {
    var next := Merged(timeline, e, py, done + {name});
    var stepped := Merged(timeline, e, py, done)[name := (if name in timeline then timeline[name] else [])
                                                         + [EntryFor(e, e.localsSnapshot[name], py)]];
    assert next.Keys == stepped.Keys;
    forall k | k in next ensures next[k] == stepped[k] {
    }
  }

  /** Adding the events one at a time builds the timeline of the whole list. */
  lemma {:induction false} TimelineOfSnoc(events: seq<ExecutionEvent>, e: ExecutionEvent, d: Dialect, py: Builtins)
    ensures TimelineOf(events + [e], d, py) == WithEvent(TimelineOf(events, d, py), e, d, py)
  {
    var all := events + [e];
    assert all[..|all| - 1] == events;
    forall name | name in TimelineOf(events + [e], d, py)
      ensures name in WithEvent(TimelineOf(events, d, py), e, d, py)
    {
    }
    forall name | name in WithEvent(TimelineOf(events, d, py), e, d, py)
      ensures name in TimelineOf(all, d, py)
      ensures TimelineOf(all, d, py)[name] == WithEvent(TimelineOf(events, d, py), e, d, py)[name]
    {
      KeyIffHasEntries(events, name, d, py);
    }
  }

  /** The inner loop of `VariableVisualizer.render`: one LINE event's locals. */
  method AddLineEvent(timeline: Timeline, e: ExecutionEvent, d: Dialect, py: Builtins) returns (t: Timeline)
    requires IsEventOf(e, Line, d)
    ensures t == WithEvent(timeline, e, d, py)
  {
    var locals := e.localsSnapshot;
    var pending := locals.Keys;
    t := timeline;
    assert locals.Keys - pending == {};
    MergedNothing(timeline, e, py);
    while pending != {}
      invariant pending <= locals.Keys
      invariant t == Merged(timeline, e, py, locals.Keys - pending)
      decreases pending
    {
      var name :| name in pending;
      MergedStep(timeline, e, py, locals.Keys - pending, name);
      assert (locals.Keys - pending) + {name} == locals.Keys - (pending - {name});
      var entries: seq<TimelineEntry> := if name in t then t[name] else [];
      t := t[name := entries + [EntryFor(e, locals[name], py)]];
      pending := pending - {name};
    }
    assert locals.Keys - pending == locals.Keys;
  }

  /** `VariableVisualizer.render`. */
  method RenderVariables(trace: ExecutionTrace, config: Value, d: Dialect, py: Builtins)
    returns (r: VisualizationResult)
    ensures r.typeTag == "variable_timeline" && r.config == config
    ensures r.data == TimelineData(TimelineOf(trace.events, d, py))
    ensures r.data.timeline.Keys == LocalNames(trace.events, d)
    ensures forall name :: name in r.data.timeline ==>
              r.data.timeline[name] == Occurrences(trace.events, name, d, py)
  {
    var events := trace.events;
    var timeline: Timeline := map[];
    var i := 0;
    while i < |events|
      invariant 0 <= i <= |events|
      invariant timeline == TimelineOf(events[..i], d, py)
    {
      var event := events[i];
      assert events[..i + 1] == events[..i] + [event];
      TimelineOfSnoc(events[..i], event, d, py);
      if IsEventOf(event, Line, d) {
        timeline := AddLineEvent(timeline, event, d, py);
      }
      i := i + 1;
    }
    assert events[..i] == events;
    r := VisualizationResult("variable_timeline", TimelineData(timeline), config);
  }

  // ----- Call-stack timeline -----------------------------------------------

  datatype StackAction = Push | Pop

  /** One record of the call-stack timeline; `stack` is the simulated stack
      just after the event. */
  datatype StackRecord = StackRecord(timestamp: real, action: StackAction, functionName: string, line: int,
                                     stack: seq<string>)

  /** The simulated stack after replaying `events`: a CALL pushes its
      function's name, a RETURN pops, and a RETURN on an empty stack leaves
      it empty. */
  function StackAfter(events: seq<ExecutionEvent>, d: Dialect): seq<string>
  {
    if events == [] then []
    else StepStack(StackAfter(events[..|events| - 1], d), events[|events| - 1], d)
  }

  /** The stack after event `e`, given the stack `s` before it. */
  function StepStack(s: seq<string>, e: ExecutionEvent, d: Dialect): seq<string> {
    if IsEventOf(e, Call, d) then s + [e.functionName]
    else if IsEventOf(e, Return, d) then (if s == [] then [] else s[..|s| - 1])
    else s
  }

  /** The records event `e` emits, given the stack `s` after it: one for a
      CALL or a RETURN, none otherwise. */
  function RecordsFor(e: ExecutionEvent, s: seq<string>, d: Dialect): seq<StackRecord> {
    if IsEventOf(e, Call, d) then [StackRecord(e.timestamp, Push, e.functionName, e.lineNumber, s)]
    else if IsEventOf(e, Return, d) then [StackRecord(e.timestamp, Pop, e.functionName, e.lineNumber, s)]
    else []
  }

  /** The records emitted while replaying `events`. */
  function StackRecords(events: seq<ExecutionEvent>, d: Dialect): seq<StackRecord>
  {
    if events == [] then []
    else StackRecords(events[..|events| - 1], d) + RecordsFor(events[|events| - 1], StackAfter(events, d), d)
  }

  /** The CALL and RETURN events among `events`, in order. */
  function CallsAndReturns(events: seq<ExecutionEvent>, d: Dialect): seq<ExecutionEvent>
  {
    if events == [] then []
    else
      var e := events[|events| - 1];
      CallsAndReturns(events[..|events| - 1], d)
        + (if IsEventOf(e, Call, d) || IsEventOf(e, Return, d) then [e] else [])
  }

  /** The number of events of kind `k` among `events`. */
  function CountOf(events: seq<ExecutionEvent>, k: ExecutionEventType, d: Dialect): nat
  {
    if events == [] then 0
    else CountOf(events[..|events| - 1], k, d) + (if IsEventOf(events[|events| - 1], k, d) then 1 else 0)
  }

  /** Exactly one record per CALL or RETURN event, in order; other kinds are
      ignored. A record copies its event's time, function name and line, and
      is a push exactly when its event is a CALL. */
  lemma {:induction false} RecordsMirrorCallsAndReturns(events: seq<ExecutionEvent>, d: Dialect)
    ensures var recs, evs := StackRecords(events, d), CallsAndReturns(events, d);
      && |recs| == |evs|
      && forall j :: 0 <= j < |recs| ==>
           && recs[j].timestamp == evs[j].timestamp
           && recs[j].functionName == evs[j].functionName
           && recs[j].line == evs[j].lineNumber
           && (recs[j].action == Push <==> IsEventOf(evs[j], Call, d))
  {
    if events != [] {
      RecordsMirrorCallsAndReturns(events[..|events| - 1], d);
    }
  }

  /** The stack of record `r` follows from `prev`, the stack before it. */
  ghost predicate StackStep(prev: seq<string>, r: StackRecord) {
    r.stack == (if r.action == Push then prev + [r.functionName]
                else if prev == [] then [] else prev[..|prev| - 1])
  }

  /** The stack just before record `j`: the previous record's, or the empty
      stack before the first record. */
  function StackBefore(recs: seq<StackRecord>, j: nat): seq<string>
    requires j <= |recs|
  {
    if j == 0 then [] else recs[j - 1].stack
  }

  /** Record `j`'s stack follows from the stack before it. */
  ghost predicate StepsAt(recs: seq<StackRecord>, j: nat)
    requires j < |recs|
  {
    StackStep(StackBefore(recs, j), recs[j])
  }

  /** Every record's stack follows from the stack before it. */
  ghost predicate Chained(recs: seq<StackRecord>) {
    forall j :: 0 <= j < |recs| ==> StepsAt(recs, j)
  }

  /** Each record's stack follows from the previous record's (the empty
      stack before the first): a push appends the record's function, a pop
      drops the last name or leaves an empty stack empty. The last record's
      stack is the final stack. */
  lemma {:induction false} RecordsChain(events: seq<ExecutionEvent>, d: Dialect)
    ensures var recs := StackRecords(events, d);
      && (recs == [] ==> StackAfter(events, d) == [])
      && (recs != [] ==> recs[|recs| - 1].stack == StackAfter(events, d))
      && Chained(recs)
  {
    if events != [] {
      var n := |events| - 1;
      var prefix := events[..n];
      RecordsChain(prefix, d);
      var before := StackRecords(prefix, d);
      var added := RecordsFor(events[n], StackAfter(events, d), d);
      assert StackRecords(events, d) == before + added;
      if added != [] {
        assert added == [added[0]];
        ChainExtends(before, added[0], StackAfter(prefix, d));
      } else {
        assert StackRecords(events, d) == before;
        assert StackAfter(events, d) == StackAfter(prefix, d);
      }
    }
  }

  /** Appending a record whose stack follows from the last one keeps the
      records chained. */
  lemma ChainExtends(before: seq<StackRecord>, r: StackRecord, prev: seq<string>)
    requires Chained(before) && StackStep(prev, r)
    requires before == [] ==> prev == []
    requires before != [] ==> before[|before| - 1].stack == prev
    ensures Chained(before + [r])
  {
    var recs := before + [r];
    forall j | 0 <= j < |recs| ensures StepsAt(recs, j) {
      if j < |before| {
        assert recs[j] == before[j];
        assert StepsAt(before, j);
        assert StackBefore(recs, j) == StackBefore(before, j);
      } else {
        assert StackBefore(recs, j) == prev;
      }
    }
  }

  /** The stack never holds more names than there were CALLs, nor fewer
      than CALLs minus RETURNs. */
  lemma {:induction false} StackHeightBounds(events: seq<ExecutionEvent>, d: Dialect)
    ensures |StackAfter(events, d)| <= CountOf(events, Call, d)
    ensures CountOf(events, Call, d) - CountOf(events, Return, d) <= |StackAfter(events, d)|
  {
    if events != [] {
      StackHeightBounds(events[..|events| - 1], d);
    }
  }

  /** No prefix of `events` has more RETURNs than CALLs. */
  ghost predicate WellNested(events: seq<ExecutionEvent>, d: Dialect) {
    forall i :: 0 <= i <= |events| ==> CountOf(events[..i], Return, d) <= CountOf(events[..i], Call, d)
  }

  /** On a well-nested trace no pop is lost: the stack height is exactly the
      number of CALLs minus the number of RETURNs. */
  lemma {:induction false} WellNestedHeight(events: seq<ExecutionEvent>, d: Dialect)
    requires WellNested(events, d)
    ensures |StackAfter(events, d)| == CountOf(events, Call, d) - CountOf(events, Return, d)
  {
    if events != [] {
      var n := |events| - 1;
      forall i | 0 <= i <= n
        ensures CountOf(events[..n][..i], Return, d) <= CountOf(events[..n][..i], Call, d)
      {
        assert events[..n][..i] == events[..i];
      }
      WellNestedHeight(events[..n], d);
      assert events[..|events|] == events;
    }
  }

  /** `CallStackVisualizer.render`. */
  method RenderCallStack(trace: ExecutionTrace, config: Value, d: Dialect) returns (r: VisualizationResult)
    ensures r.typeTag == "call_stack" && r.config == config
    ensures r.data == StackData(StackRecords(trace.events, d))
  {
    var events := trace.events;
    var stackEvents: seq<StackRecord> := [];
    var currentStack: seq<string> := [];
    var i := 0;
    while i < |events|
      invariant 0 <= i <= |events|
      invariant currentStack == StackAfter(events[..i], d)
      invariant stackEvents == StackRecords(events[..i], d)
    {
      var event := events[i];
      assert events[..i + 1][..i] == events[..i];
      if IsEventOf(event, Call, d) {
        currentStack := currentStack + [event.functionName];
        stackEvents := stackEvents + [StackRecord(event.timestamp, Push, event.functionName, event.lineNumber, currentStack)];
      } else if IsEventOf(event, Return, d) {
        if currentStack != [] {
          currentStack := currentStack[..|currentStack| - 1];
        }
        stackEvents := stackEvents + [StackRecord(event.timestamp, Pop, event.functionName, event.lineNumber, currentStack)];
      }
      i := i + 1;
    }
    assert events[..i] == events;
    r := VisualizationResult("call_stack", StackData(stackEvents), config);
  }

  // ----- Worked scenarios and the two dialects -----------------------------

  function EventNamed(tag: EventTag, name: string, line: int, time: real): ExecutionEvent {
    NewEvent(time, tag, line, name, "<string>", map[], map[])
  }

  /** CALL f, CALL g, RETURN g, RETURN f give push, push, pop, pop with the
      stacks [f], [f, g], [f], []. */
  lemma NestedCallsScenario(events: seq<ExecutionEvent>)
    requires |events| == 4
    requires events[0].eventType == Kind(Call) && events[1].eventType == Kind(Call)
    requires events[2].eventType == Kind(Return) && events[3].eventType == Kind(Return)
    requires events[2].functionName == events[1].functionName
    requires events[3].functionName == events[0].functionName
    ensures var f, g := events[0].functionName, events[1].functionName;
      var recs := StackRecords(events, SingleFile);
      && |recs| == 4
      && recs[0].action == Push && recs[0].functionName == f && recs[0].stack == [f]
      && recs[1].action == Push && recs[1].functionName == g && recs[1].stack == [f, g]
      && recs[2].action == Pop && recs[2].functionName == g && recs[2].stack == [f]
      && recs[3].action == Pop && recs[3].functionName == f && recs[3].stack == []
  {
    var d := SingleFile;
    var f, g := events[0].functionName, events[1].functionName;
    ReplayPrefix(events, 0, d);
    assert [] + [f] == [f];
    var s1 := StackAfter(events[..1], d);
    assert s1 == [f];
    ReplayPrefix(events, 1, d);
    assert [f] + [g] == [f, g];
    var s2 := StackAfter(events[..2], d);
    assert s2 == [f, g];
    ReplayPrefix(events, 2, d);
    assert [f, g][..1] == [f];
    var s3 := StackAfter(events[..3], d);
    assert s3 == [f];
    ReplayPrefix(events, 3, d);
    var s4 := StackAfter(events[..4], d);
    assert s4 == [];
    assert events[..4] == events;
    assert StackRecords(events, d) ==
      [RecordsFor(events[0], s1, d)[0], RecordsFor(events[1], s2, d)[0],
       RecordsFor(events[2], s3, d)[0], RecordsFor(events[3], s4, d)[0]];
  }

  /** Replaying the first `n + 1` events performs event `n`'s step after
      the first `n`. */
  lemma ReplayPrefix(events: seq<ExecutionEvent>, n: nat, d: Dialect)
    requires n < |events|
    ensures StackAfter(events[..n + 1], d) == StepStack(StackAfter(events[..n], d), events[n], d)
    ensures StackRecords(events[..n + 1], d) ==
      StackRecords(events[..n], d) + RecordsFor(events[n], StackAfter(events[..n + 1], d), d)
  {
    assert events[..n + 1][..n] == events[..n];
  }

  /** A RETURN with nothing on the stack is not an error: it still emits a
      pop record, with the empty stack and the RETURN's own function name. */
  lemma UnmatchedReturnScenario(f: string, d: Dialect)
    ensures var tag := if d == Package then Raw("return") else Kind(Return);
      StackRecords([EventNamed(tag, f, 7, 0.0)], d) == [StackRecord(0.0, Pop, f, 7, [])]
  {
    var tag := if d == Package then Raw("return") else Kind(Return);
    var events := [EventNamed(tag, f, 7, 0.0)];
    assert events[..0] == [];
    assert IsEventOf(events[0], Return, d) && !IsEventOf(events[0], Call, d);
    assert StackAfter(events, d) == [];
  }

  /** As written, the package's derivers see nothing of a trace whose event
      types are all enum members (which is what its own Python adapter
      records): the timeline has no variable and no stack record is made. */
  lemma {:induction false} PackageIgnoresEnumTaggedEvents(events: seq<ExecutionEvent>, py: Builtins)
    requires forall i :: 0 <= i < |events| ==> events[i].eventType.Kind?
    ensures TimelineOf(events, Package, py) == map[]
    ensures StackRecords(events, Package) == []
  {
    NoNamesNoRecords(events);
  }

  lemma {:induction false} NoNamesNoRecords(events: seq<ExecutionEvent>)
    requires forall i :: 0 <= i < |events| ==> events[i].eventType.Kind?
    ensures LocalNames(events, Package) == {}
    ensures StackRecords(events, Package) == []
  {
    if events != [] {
      NoNamesNoRecords(events[..|events| - 1]);
    }
  }

  /** The single-file derivers, comparing with enum members, give every
      LINE event's locals an entry: a LINE event that records `x` puts `x`
      on the timeline with that event's entry. */
  lemma SingleFileRecordsEnumLineEvents(events: seq<ExecutionEvent>, i: nat, name: string, py: Builtins)
    requires i < |events| && events[i].eventType == Kind(Line) && name in events[i].localsSnapshot
    ensures var tl := TimelineOf(events, SingleFile, py);
      && name in tl
      && EntryFor(events[i], events[i].localsSnapshot[name], py) in tl[name]
  {
    OccurrencesAreContributions(events, name, SingleFile, py);
    KeyIffHasEntries(events, name, SingleFile, py);
  }
}
