/** The slide of a PySlide deck (pyslide/core/models.py). */
module SlideModel {
  import opened PyRuntime

  /** The `stack_trace` dict `add_stack_trace` stores: the function's name,
      the slide's source and what the stack tracer reported. */
  datatype StackTraceRecord = StackTraceRecord(functionName: string, source: string, traceInfo: Value)

  /** One slide. `annotations` is keyed by line number. */
  datatype Slide = Slide(
    code: string,
    annotations: map<int, string>,
    title: Option<string>,
    description: Option<string>,
    visualizations: map<string, Value>,
    executionOutput: Option<string>,
    stackTrace: Option<StackTraceRecord>)

  /** `Slide(code=code, title=title, description=description)`: only `code`
      is required and every other field takes its default. */
  function NewSlide(code: string, title: Option<string> := None, description: Option<string> := None): (s: Slide)
    ensures s.code == code && s.title == title && s.description == description
    ensures s.annotations == map[] && s.visualizations == map[]
    ensures s.executionOutput == None && s.stackTrace == None
  {
    Slide(code, map[], title, description, map[], None, None)
  }

  /** `Slide(code=code)`: a slide made from its code alone has no title, no
      description, no annotations, no visualizations, no output and no
      stack trace. */
  lemma SlideFromCodeAlone(code: string)
    ensures var s := NewSlide(code);
      && s.code == code && s.title == None && s.description == None
      && s.annotations == map[] && s.visualizations == map[]
      && s.executionOutput == None && s.stackTrace == None
  {
  }
}
