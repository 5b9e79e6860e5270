/** A task running in a child PHP process. The operating-system process is
    an abstract handle: the command it was started with, the pid it reports
    and what it wrote on its two streams. */
module ParallelProcess {
  import opened Wrappers
  import opened Php
  import Output
  import Wire
  import ProcessCallbacks

  const ClassName := "Spatie\\Async\\Process\\ParallelProcess"

  /** The launched process: its argv, its pid and the text of its standard
      output and standard error once it has exited. */
  datatype Handle = Handle(command: seq<Value>, pid: int, stdout: string, stderr: string)

  /** A memo field as the methods read it: a field never assigned reads as
      null (see the findings for what the typed declaration does instead). */
  function Memo(field: Option<Value>): (v: Value)
    ensures field.None? ==> v == Null
    ensures field.Some? ==> v == field.value
  {
    field.GetOr(Null)
  }

  /** What `getOutput()` returns: the cached output while it is truthy, and
      otherwise a fresh decode of standard output. */
  function OutputView(output: Option<Value>, stdout: string, c: Wire.Serializer): (v: Value)
    ensures Truthy(Memo(output)) ==> v == Memo(output)
    ensures !Truthy(Memo(output)) ==> v == Wire.Decode(c, stdout)
  {
    if Truthy(Memo(output)) then Memo(output) else Wire.Decode(c, stdout)
  }

  /** What `getErrorOutput()` returns: the cached error output while it is
      truthy; otherwise the decoded standard error when that is truthy, and
      the raw standard-error text when it is not. */
  function ErrorOutputView(errorOutput: Option<Value>, stderr: string, c: Wire.Serializer): (v: Value)
    ensures Truthy(Memo(errorOutput)) ==> v == Memo(errorOutput)
    ensures !Truthy(Memo(errorOutput)) && Truthy(Wire.Decode(c, stderr)) ==> v == Wire.Decode(c, stderr)
    ensures !Truthy(Memo(errorOutput)) && !Truthy(Wire.Decode(c, stderr)) ==> v == Str(stderr)
  {
    if Truthy(Memo(errorOutput)) then Memo(errorOutput)
    else
      var decoded := Wire.Decode(c, stderr);
      if Truthy(decoded) then decoded else Str(stderr)
  }

  /** Reading the output a second time gives what the first read gave. */
  lemma OutputViewStable(output: Option<Value>, stdout: string, c: Wire.Serializer)
    ensures OutputView(Some(OutputView(output, stdout, c)), stdout, c) == OutputView(output, stdout, c)
  {
  }

  /** Reading the error output a second time gives what the first read gave,
      even when the first read fell back to the raw text. */
  lemma ErrorOutputViewStable(errorOutput: Option<Value>, stderr: string, c: Wire.Serializer)
    ensures ErrorOutputView(Some(ErrorOutputView(errorOutput, stderr, c)), stderr, c)
         == ErrorOutputView(errorOutput, stderr, c)
  {
  }

  /** The value the child encoded on a stream comes back from it when it is
      truthy; a falsy one comes back too, but `getOutput` then also files the
      raw text as error output. */
  lemma StreamRoundTrip(c: Wire.Serializer, v: Value)
    requires Wire.RoundTrips(c)
    ensures OutputView(None, Wire.Encode(c, v), c) == v
    ensures Truthy(v) ==> ErrorOutputView(None, Wire.Encode(c, v), c) == v
    ensures !Truthy(v) ==> ErrorOutputView(None, Wire.Encode(c, v), c) == Str(Wire.Encode(c, v))
  {
    Wire.DecodeEncode(c, v);
  }

  /** A child that wrote nothing on standard error reports a falsy error
      output: the empty string. */
  lemma SilentStderrIsFalsy(errorOutput: Option<Value>, c: Wire.Serializer)
    requires Wire.RefusesEmpty(c) && !Truthy(Memo(errorOutput))
    ensures ErrorOutputView(errorOutput, "", c) == Str("")
    ensures !Truthy(ErrorOutputView(errorOutput, "", c))
  {
    Wire.DecodeEmpty(c);
  }

  /** `resolveErrorOutput` once the error output is read: a wire record
      becomes its `asThrowable()`, a Throwable passes through, anything else
      is handed to `ParallelError::fromException`, which raises TypeError
      for an array or an object that has no `__toString()`. */
  function Resolve(x: Value, classes: Classes): (r: Result<Throwable, Throwable>)
    ensures x.Record? ==> r == Success(Output.AsThrowable(x.record, classes))
    ensures x.Thrown? ==> r == Success(x.throwable)
    ensures x.Str? ==> r == Success(ParallelError(x.s))
    ensures x.Null? || x.Bool? || x.Int? ==> r.Success? && r.value.ParallelError? && r.value.message == ToPhpString(x)
    ensures x.Object? && x.text.Some? ==> r == Success(ParallelError(x.text.value))
    ensures x.Arr? || (x.Object? && x.text.None?) ==> r.Failure? && r.error.Class() == "TypeError"
  {
    match x
    case Record(r) => Success(Output.AsThrowable(r, classes))
    case Thrown(t) => Success(t)
    case _ => Output.FromException(x)
  }

  /** A failure the child captured reaches the parent with its class, or as a
      ParallelException naming that class, and with its message in front. */
  lemma ChildFailureResolves(c: Wire.Serializer, e: Throwable, trace: string, classes: Classes)
    requires Wire.RoundTrips(c)
    ensures var r := Resolve(ErrorOutputView(None, Wire.Encode(c, Record(Output.Capture(e, trace))), c), classes);
      && r.Success?
      && (r.value.Class() == e.Class() || (r.value.ParallelException? && r.value.originalClass == e.Class()))
      && |e.message| <= |r.value.message| && r.value.message[..|e.message|] == e.message
      && (Output.Construct(classes, e.Class(), "").Some? ==> r.value.Class() == e.Class())
  {
    StreamRoundTrip(c, Record(Output.Capture(e, trace)));
    Output.CaptureAsThrowable(e, trace, classes);
  }

  /** Text that is not a payload (a fatal error printed by PHP, say) becomes
      a ParallelError carrying that text. */
  lemma RawStderrResolves(c: Wire.Serializer, stderr: string, classes: Classes)
    requires Wire.Decode(c, stderr) == Bool(false) && stderr != "" && stderr != "0"
    ensures Resolve(ErrorOutputView(None, stderr, c), classes) == Success(ParallelError(stderr))
  {
  }

  /** A child that printed a serialized array on standard error (a task that
      escaped the runtime and wrote one, say) does not resolve: building the
      ParallelError raises TypeError. */
  lemma ArrayStderrDoesNotResolve(c: Wire.Serializer, items: seq<Value>, classes: Classes)
    requires Wire.RoundTrips(c) && items != []
    ensures Resolve(ErrorOutputView(None, Wire.Encode(c, Arr(items)), c), classes).Failure?
  {
    StreamRoundTrip(c, Arr(items));
  }

  /** A process started on a handle, with its callback lists. */
  class ParallelProcess {
    const handle: Handle
    const id: int
    const callbacks: ProcessCallbacks.CallbackRegistry
    var pid: Option<int>
    var output: Option<Value>
    var errorOutput: Option<Value>
    var startTime: Option<int>
    /** Whether `stop()` sent the kill signal. */
    var killed: bool

    constructor (handle: Handle, id: int)
      ensures this.handle == handle && this.id == id
      ensures pid.None? && output.None? && errorOutput.None? && startTime.None? && !killed
      ensures fresh(callbacks)
      ensures callbacks.successCallbacks == [] && callbacks.errorCallbacks == []
      ensures callbacks.timeoutCallbacks == [] && callbacks.calls == []
    {
      this.handle := handle;
      this.id := id;
      callbacks := new ProcessCallbacks.CallbackRegistry();
      pid, output, errorOutput, startTime, killed := None, None, None, None, false;
    }

    /** `start()` at time `now`: the start time is recorded, then the pid of
        the launched process. */
    method Start(now: int)
      modifies this`startTime, this`pid
      ensures startTime == Some(now) && pid == Some(handle.pid)
    {
      startTime := Some(now);
      pid := Some(handle.pid);
    }

    /** `stop()`: the process is killed. */
    method Stop()
      modifies this`killed
      ensures killed
    {
      killed := true;
    }

    /** `getPid()`: reading it before `start()` raises PHP's Error. */
    function GetPid(): (r: Result<int, Throwable>)
      reads this
      ensures pid.Some? ==> r == Success(pid.value)
      ensures pid.None? ==> r == Failure(UninitializedRead(ClassName, "pid"))
    {
      match pid
      case Some(p) => Success(p)
      case None => Failure(UninitializedRead(ClassName, "pid"))
    }

    /** `getCurrentExecutionTime()` at time `now`: the ticks since `start()`. */
    function CurrentExecutionTime(now: int): (r: Result<int, Throwable>)
      reads this
      ensures startTime.Some? ==> r == Success(now - startTime.value)
      ensures startTime.None? ==> r == Failure(UninitializedRead(ClassName, "startTime"))
    {
      match startTime
      case Some(t) => Success(now - t)
      case None => Failure(UninitializedRead(ClassName, "startTime"))
    }

    /** `getOutput()`: decodes standard output unless a truthy output is
        cached; a falsy decode is cached too, and the raw standard-output
        text then replaces the error output. */
    method GetOutput(c: Wire.Serializer) returns (v: Value)
      modifies this`output, this`errorOutput
      ensures v == OutputView(old(output), handle.stdout, c)
      ensures output == Some(v)
      ensures errorOutput == (if Truthy(Memo(old(output))) || Truthy(v) then old(errorOutput) else Some(Str(handle.stdout)))
    {
      if !Truthy(Memo(output)) {
        var processOutput := handle.stdout;
        output := Some(Wire.Decode(c, processOutput));
        if !Truthy(Memo(output)) {
          errorOutput := Some(Str(processOutput));
        }
      }
      v := Memo(output);
    }

    /** `getErrorOutput()`: decodes standard error unless a truthy error
        output is cached, keeping the raw text when the decode is falsy. */
    method GetErrorOutput(c: Wire.Serializer) returns (v: Value)
      modifies this`errorOutput
      ensures v == ErrorOutputView(old(errorOutput), handle.stderr, c)
      ensures errorOutput == (if Truthy(Memo(old(errorOutput))) then old(errorOutput) else Some(v))
    {
      if !Truthy(Memo(errorOutput)) {
        var processOutput := handle.stderr;
        errorOutput := Some(Wire.Decode(c, processOutput));
        if !Truthy(Memo(errorOutput)) {
          errorOutput := Some(Str(processOutput));
        }
      }
      v := Memo(errorOutput);
    }

    /** `resolveErrorOutput()`: the error output as a Throwable. */
    method ResolveErrorOutput(c: Wire.Serializer, classes: Classes) returns (e: Result<Throwable, Throwable>)
      modifies this`errorOutput
      ensures e == Resolve(ErrorOutputView(old(errorOutput), handle.stderr, c), classes)
      ensures errorOutput == (if Truthy(Memo(old(errorOutput))) then old(errorOutput)
                              else Some(ErrorOutputView(old(errorOutput), handle.stderr, c)))
    {
      var x := GetErrorOutput(c);
      e := Resolve(x, classes);
    }
  }

  // -----------------------------------------------------------------------
  // The memo fields as declared: typed, with no default value.

  /** `getErrorOutput()` as declared: its first read of the never-assigned
      field raises PHP's Error instead of seeing null. */
  function ErrorOutputAsDeclared(errorOutput: Option<Value>, stderr: string, c: Wire.Serializer): (r: Result<Value, Throwable>)
    ensures errorOutput.Some? ==> r == Success(ErrorOutputView(errorOutput, stderr, c))
    ensures errorOutput.None? ==> r.Failure? && r.error.Class() == "Error"
  {
    match errorOutput
    case None => Failure(UninitializedRead(ClassName, "errorOutput"))
    case Some(_) => Success(ErrorOutputView(errorOutput, stderr, c))
  }

  /** `getOutput()` as declared, likewise. */
  function OutputAsDeclared(output: Option<Value>, stdout: string, c: Wire.Serializer): (r: Result<Value, Throwable>)
    ensures output.Some? ==> r == Success(OutputView(output, stdout, c))
    ensures output.None? ==> r.Failure? && r.error.Class() == "Error"
  {
    match output
    case None => Failure(UninitializedRead(ClassName, "output"))
    case Some(_) => Success(OutputView(output, stdout, c))
  }

  /** The first thing `triggerSuccess` does to a freshly started process is
      read its error output, which as declared raises an Error whatever the
      child wrote, while with a null default a successful child reads as no
      error and its result comes back. */
  lemma FirstReadOfFreshProcess(c: Wire.Serializer, v: Value)
    requires Wire.RoundTrips(c) && Wire.RefusesEmpty(c) && Truthy(v)
    ensures ErrorOutputAsDeclared(None, "", c).Failure?
    ensures !Truthy(ErrorOutputView(None, "", c))
    ensures OutputView(None, Wire.Encode(c, v), c) == v
  {
    SilentStderrIsFalsy(None, c);
    StreamRoundTrip(c, v);
  }
}
