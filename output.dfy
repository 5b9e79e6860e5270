/** The library's error values: `ParallelError` (two named constructors),
    `ParallelException` (a message plus the original class and trace) and the
    `SerializableException` wire record with its reconstruction. */
module Output {
  import opened Wrappers
  import opened Php

  // ---------------------------------------------------------------------
  // ParallelError

  const TooLargeHead := "The output returned by this child process is too large. The serialized output may only be "
  const TooLargeTail := " bytes long."

  /** `ParallelError::fromException($x)`: `$x` is passed as the message of
      the new ParallelError. A scalar converts to its text, an object to
      what its `__toString()` returns; an array, or an object that has no
      string conversion, makes the constructor raise TypeError instead. */
  function FromException(x: Value): (r: Result<Throwable, Throwable>)
    ensures x.Arr? || NotStringable(x) ==> r.Failure? && r.error.Class() == "TypeError"
    ensures !(x.Arr? || NotStringable(x)) ==>
      r.Success? && r.value.Class() == ParallelErrorClass && r.value.message == ToPhpString(x)
    ensures x.Str? ==> r == Success(ParallelError(x.s))
    ensures x.Object? && x.text.Some? ==> r == Success(ParallelError(x.text.value))
    ensures x.Null? || x == Bool(false) ==> r == Success(ParallelError(""))
  {
    match MessageArgument(x)
    case Success(m) => Success(ParallelError(m))
    case Failure(e) => Failure(e)
  }

  /** `ParallelError::outputTooLarge($bytes)`. */
  function OutputTooLarge(bytes: int): (e: Throwable)
    ensures e.Class() == ParallelErrorClass
    ensures |e.message| == |TooLargeHead| + |IntToString(bytes)| + |TooLargeTail|
    ensures e.message[..|TooLargeHead|] == TooLargeHead
    ensures e.message[|e.message| - |TooLargeTail|..] == TooLargeTail
    ensures e.message[|TooLargeHead|..|e.message| - |TooLargeTail|] == IntToString(bytes)
  {
    var m := TooLargeHead + IntToString(bytes) + TooLargeTail;
    assert m[..|TooLargeHead|] == TooLargeHead;
    assert m[|m| - |TooLargeTail|..] == TooLargeTail;
    assert m[|TooLargeHead|..|m| - |TooLargeTail|] == IntToString(bytes);
    ParallelError(m)
  }

  /** Different limits give different messages. */
  lemma OutputTooLargeDistinct(m: int, n: int)
    requires m != n
    ensures OutputTooLarge(m).message != OutputTooLarge(n).message
  {
    if OutputTooLarge(m).message == OutputTooLarge(n).message {
      IntToStringInjective(m, n);
    }
  }

  // ---------------------------------------------------------------------
  // ParallelException

  /** `getOriginalClass()`: the class named when the exception was built. */
  function GetOriginalClass(e: Throwable): (cls: string)
    requires e.ParallelException?
    ensures ParallelException(e.message, cls, e.originalTrace) == e
  {
    e.originalClass
  }

  /** `getOriginalTrace()`: the trace text given when it was built. */
  function GetOriginalTrace(e: Throwable): (trace: string)
    requires e.ParallelException?
    ensures ParallelException(e.message, e.originalClass, trace) == e
  {
    e.originalTrace
  }

  /** The constructor keeps its three arguments, and the object is an
      Exception, so a callback typed Exception accepts it. */
  lemma ParallelExceptionKeepsArguments(message: string, originalClass: string, originalTrace: string, t: ClassTable)
    requires HasLibraryClasses(t)
    ensures var e := ParallelException(message, originalClass, originalTrace);
      && e.message == message
      && GetOriginalClass(e) == originalClass
      && GetOriginalTrace(e) == originalTrace
      && IsA(t, e.Class(), ExceptionClass)
  {
    LibraryErrorsAreExceptions(t);
  }

  // ---------------------------------------------------------------------
  // SerializableException

  /** `new SerializableException($e)`: class name, message and trace text. */
  function Capture(e: Throwable, trace: string): (r: SerializableException)
    ensures r.cls == e.Class() && r.message == e.message && r.trace == trace
  {
    SerializableException(e.Class(), e.message, trace)
  }

  /** `new $cls($message)`: `None` when that throws, because the class does
      not exist, cannot take one message argument (ParallelException needs
      three) or is not instantiable. */
  function Construct(classes: Classes, cls: string, message: string): (r: Option<Throwable>)
    ensures r.Some? ==> r.value.Class() == cls && r.value.message == message
    ensures cls == ParallelErrorClass ==> r.Some?
    ensures cls == ParallelExceptionClass ==> r.None?
  {
    if cls == ParallelErrorClass then Some(ParallelError(message))
    else if cls == ParallelExceptionClass then None
    else if cls in classes.constructible then Some(Native(cls, message))
    else None
  }

  /** `asThrowable()`: an instance of the recorded class whose message is the
      message, a blank line and the trace; a ParallelException carrying the
      three strings when that class cannot be built. It never throws. */
  function AsThrowable(r: SerializableException, classes: Classes): (t: Throwable)
    ensures Construct(classes, r.cls, "").Some? ==>
      t.Class() == r.cls && t.message == r.message + "\n\n" + r.trace
    ensures Construct(classes, r.cls, "").None? ==>
      t == ParallelException(r.message, r.cls, r.trace)
  {
    match Construct(classes, r.cls, r.message + "\n\n" + r.trace)
    case Some(t) => t
    case None => ParallelException(r.message, r.cls, r.trace)
  }

  /** A failure that crosses the process boundary comes back with its class
      when the parent can build that class (a ParallelError always can),
      and otherwise as a ParallelException that still names the class. */
  lemma CaptureAsThrowable(e: Throwable, trace: string, classes: Classes)
    ensures var t := AsThrowable(Capture(e, trace), classes);
      && (t.Class() == e.Class() || (t.ParallelException? && t.originalClass == e.Class()))
      && t.message[..|e.message|] == e.message
      && (Construct(classes, e.Class(), "").Some? ==> t.Class() == e.Class())
  {
  }
}
