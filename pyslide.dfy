/** The PySlide deck (pyslide/__init__.py): a list of slides and a current
    slide, which is always the one appended last. Running a slide's code and
    tracing a function are not part of this model; their results are
    passed in. */
module PySlideDeck {
  import opened PyRuntime
  import opened SlideModel

  /** The dict `execute_code` returns: `success`, `output` (None when
      nothing was printed) and `error` (the formatted traceback). */
  datatype ExecutionResult = ExecutionResult(success: bool, output: Option<string>, error: Option<string>)

  /** The shapes `execute_code` can return: a run that completes has no
      error and no empty output, a run that raises has no output and an
      error. */
  predicate Reported(result: ExecutionResult) {
    if result.success then result.error == None && result.output != Some("")
    else result.output == None && result.error.Some?
  }

  /** The error every slide operation raises before the first `new_slide`. */
  const NoCurrentSlide: PyError := ValueError("No current slide. Call new_slide() first.")

  /** The error `add_stack_trace` raises for a name it cannot find. */
  function FunctionNotFound(name: string): PyError {
    ValueError("Function " + name + " not found in globals_dict")
  }

  /** Python truthiness of an optional string. */
  predicate Truthy(s: Option<string>) {
    s.Some? && s.value != ""
  }

  /** The slide's `execution_output` after a run with `result`, when it was
      `previous` before: a truthy output wins over a truthy error, and with
      neither the old value stays. */
  function OutputAfter(previous: Option<string>, result: ExecutionResult): (out: Option<string>)
    ensures Truthy(result.output) ==> out == result.output
    ensures !Truthy(result.output) && Truthy(result.error) ==> out == result.error
    ensures !Truthy(result.output) && !Truthy(result.error) ==> out == previous
    ensures out == previous || (Truthy(out) && (out == result.output || out == result.error))
    ensures out != previous ==> Truthy(result.output) || Truthy(result.error)
  {
    if Truthy(result.output) then result.output
    else if Truthy(result.error) then result.error
    else previous
  }

  /** On results `execute_code` can return: a run that printed something
      records what it printed, a silent run leaves the old output in place,
      and a run that raised records its non-empty traceback. */
  lemma OutputOfReportedRun(previous: Option<string>, result: ExecutionResult)
    requires Reported(result)
    ensures result.success && result.output.Some? ==> OutputAfter(previous, result) == result.output
    ensures result.success && result.output.None? ==> OutputAfter(previous, result) == previous
    ensures !result.success && result.error != Some("") ==> OutputAfter(previous, result) == result.error
    ensures !result.success && result.error == Some("") ==> OutputAfter(previous, result) == previous
  {
  }

  /** `(globals_dict or {}).get(function_name)`, which must not be None. */
  function FindFunction(globals: Option<map<string, Value>>, name: string): (r: Result<Value>)
    ensures r.Success? <==> globals.Some? && name in globals.value && globals.value[name] != PyNone
    ensures r.Success? ==> r.value == globals.value[name]
    ensures r.Failure? ==> r.error == FunctionNotFound(name)
  {
    if globals.Some? && name in globals.value && globals.value[name] != PyNone then Success(globals.value[name])
    else Failure(FunctionNotFound(name))
  }

  class PySlide {
    var slides: seq<Slide>
    /** The index of the current slide in `slides`. */
    var current: Option<nat>

    /** The current slide is absent exactly when there are no slides, and
        is otherwise the last one. */
    ghost predicate Valid()
      reads this
    {
      current == if slides == [] then None else Some(|slides| - 1)
    }

    /** A new deck has no slides and no current slide. */
    constructor ()
      ensures Valid()
      ensures slides == [] && current == None
    {
      slides := [];
      current := None;
    }

    /** Appends one new slide and makes it current; returns the deck. */
    method NewSlide(code: string, title: Option<string> := None, description: Option<string> := None)
      returns (self: PySlide)
      requires Valid()
      modifies this
      ensures Valid()
      ensures self == this
      ensures slides == old(slides) + [SlideModel.NewSlide(code, title, description)]
      ensures current == Some(|old(slides)|)
    {
      slides := slides + [SlideModel.NewSlide(code, title, description)];
      current := Some(|slides| - 1);
      self := this;
    }

    /** Sets one annotation of the current slide, overwriting any earlier
        text for that line. */
    method Annotate(lineNumber: int, text: string) returns (r: Result<PySlide>)
      requires Valid()
      modifies this
      ensures Valid() && current == old(current)
      ensures old(current).None? ==> r == Failure(NoCurrentSlide) && slides == old(slides)
      ensures old(current).Some? ==>
        && r == Success(this)
        && |slides| == |old(slides)|
        && slides[..|slides| - 1] == old(slides)[..|slides| - 1]
        && var before, after := old(slides)[|slides| - 1], slides[|slides| - 1];
           && after == before.(annotations := after.annotations)
           && after.annotations.Keys == before.annotations.Keys + {lineNumber}
           && after.annotations[lineNumber] == text
           && (forall l :: l in before.annotations && l != lineNumber ==>
                 after.annotations[l] == before.annotations[l])
    {
      if current.None? {
        return Failure(NoCurrentSlide);
      }
      var i := current.value;
      slides := slides[i := slides[i].(annotations := slides[i].annotations[lineNumber := text])];
      r := Success(this);
    }

    /** Sets one visualization of the current slide, overwriting any earlier
        data under that name. */
    method AddVisualization(name: string, data: Value) returns (r: Result<PySlide>)
      requires Valid()
      modifies this
      ensures Valid() && current == old(current)
      ensures old(current).None? ==> r == Failure(NoCurrentSlide) && slides == old(slides)
      ensures old(current).Some? ==>
        && r == Success(this)
        && |slides| == |old(slides)|
        && slides[..|slides| - 1] == old(slides)[..|slides| - 1]
        && var before, after := old(slides)[|slides| - 1], slides[|slides| - 1];
           && after == before.(visualizations := after.visualizations)
           && after.visualizations.Keys == before.visualizations.Keys + {name}
           && after.visualizations[name] == data
           && (forall k :: k in before.visualizations && k != name ==>
                 after.visualizations[k] == before.visualizations[k])
    {
      if current.None? {
        return Failure(NoCurrentSlide);
      }
      var i := current.value;
      slides := slides[i := slides[i].(visualizations := slides[i].visualizations[name := data])];
      r := Success(this);
    }

    /** Records the outcome of running the current slide's code, as
        `OutputAfter` selects it. */
    method ExecuteCurrentSlide(result: ExecutionResult) returns (r: Result<PySlide>)
      requires Valid()
      modifies this
      ensures Valid() && current == old(current)
      ensures old(current).None? ==> r == Failure(NoCurrentSlide) && slides == old(slides)
      ensures old(current).Some? ==>
        && r == Success(this)
        && |slides| == |old(slides)|
        && slides[..|slides| - 1] == old(slides)[..|slides| - 1]
        && var before, after := old(slides)[|slides| - 1], slides[|slides| - 1];
           after == before.(executionOutput := OutputAfter(before.executionOutput, result))
    {
      if current.None? {
        return Failure(NoCurrentSlide);
      }
      var i := current.value;
      if Truthy(result.output) {
        slides := slides[i := slides[i].(executionOutput := result.output)];
      } else if Truthy(result.error) {
        slides := slides[i := slides[i].(executionOutput := result.error)];
      }
      r := Success(this);
    }

    /** Looks the function up and stores, on the current slide, its name,
        the slide's own code and what `traceOf` (the stack tracer, not part
        of this model) reports for it. The slide check comes first. */
    method AddStackTrace(functionName: string, globals: Option<map<string, Value>>, traceOf: Value -> Value)
      returns (r: Result<PySlide>)
      requires Valid()
      modifies this
      ensures Valid() && current == old(current)
      ensures old(current).None? ==> r == Failure(NoCurrentSlide) && slides == old(slides)
      ensures old(current).Some? && FindFunction(globals, functionName).Failure? ==>
        r == Failure(FunctionNotFound(functionName)) && slides == old(slides)
      ensures old(current).Some? && FindFunction(globals, functionName).Success? ==>
        && r == Success(this)
        && |slides| == |old(slides)|
        && slides[..|slides| - 1] == old(slides)[..|slides| - 1]
        && var before, after := old(slides)[|slides| - 1], slides[|slides| - 1];
           after == before.(stackTrace := Some(StackTraceRecord(functionName, before.code,
                                                 traceOf(FindFunction(globals, functionName).value))))
    {
      if current.None? {
        return Failure(NoCurrentSlide);
      }
      var found := FindFunction(globals, functionName);
      if found.Failure? {
        return Failure(found.error);
      }
      var i := current.value;
      var info := traceOf(found.value);
      slides := slides[i := slides[i].(stackTrace := Some(StackTraceRecord(functionName, slides[i].code, info)))];
      r := Success(this);
    }
  }
}
