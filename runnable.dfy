/** What the pool holds: either kind of process, with the methods the two
    share through the `ProcessCallbacks` trait (`then`, `catch`, `timeout`,
    `triggerSuccess`, `triggerError`, `triggerTimeout`) dispatched on the
    kind. */
module Runnable {
  import opened Wrappers
  import opened Php
  import Wire
  import opened ProcessCallbacks
  import T = Task
  import PP = ParallelProcess
  import SP = SynchronousProcess

  datatype Runnable = Parallel(p: PP.ParallelProcess) | Synchronous(s: SP.SynchronousProcess) {
    /** `getId()`. */
    function Id(): int {
      match this
      case Parallel(p) => p.id
      case Synchronous(s) => s.id
    }

    /** `getPid()` of a started runnable: the pid of the launched process, or
        the id for an inline one. */
    function Key(): int {
      match this
      case Parallel(p) => p.handle.pid
      case Synchronous(s) => s.GetPid()
    }

    function Registry(): CallbackRegistry {
      match this
      case Parallel(p) => p.callbacks
      case Synchronous(s) => s.callbacks
    }

    /** The objects the runnable's methods may change. */
    function Objects(): set<object> {
      match this
      case Parallel(p) => {p, p.callbacks}
      case Synchronous(s) => {s, s.callbacks}
    }

    /** The process object alone, which holds the outputs. */
    function Process(): (o: set<object>)
      ensures o <= Objects()
    {
      match this
      case Parallel(p) => {p}
      case Synchronous(s) => {s}
    }

    /** `getCurrentExecutionTime()` at time `now`. */
    function CurrentExecutionTime(now: int): (r: Result<int, Throwable>)
      reads Process()
      ensures Parallel? ==> r == p.CurrentExecutionTime(now)
      ensures Synchronous? ==> r == s.CurrentExecutionTime()
    {
      match this
      case Parallel(p) => p.CurrentExecutionTime(now)
      case Synchronous(s) => s.CurrentExecutionTime()
    }

    /** What `getErrorOutput()` returns in the current state. */
    function ErrorOutputNow(c: Wire.Serializer): Value
      reads Process()
    {
      match this
      case Parallel(p) => PP.ErrorOutputView(p.errorOutput, p.handle.stderr, c)
      case Synchronous(s) => PP.Memo(s.errorOutput)
    }

    /** What `getOutput()` returns in the current state. */
    function OutputNow(c: Wire.Serializer): Value
      reads Process()
    {
      match this
      case Parallel(p) => PP.OutputView(p.output, p.handle.stdout, c)
      case Synchronous(s) => PP.Memo(s.output)
    }

    /** What `triggerSuccess()` returns when it returns normally: null when
        the error output is truthy, the output otherwise. */
    function SuccessResult(c: Wire.Serializer): (v: Value)
      reads Process()
      ensures Truthy(ErrorOutputNow(c)) ==> v == Null
      ensures !Truthy(ErrorOutputNow(c)) ==> v == OutputNow(c)
    {
      if Truthy(ErrorOutputNow(c)) then Null else OutputNow(c)
    }

    /** The Throwable that escapes `start()`: only a Task's `configure()`
        run inline can throw one. */
    function StartEscape(): (e: Option<Throwable>)
      ensures e.Some? ==> Synchronous? && s.job.TaskObject? && s.job.behaviour.configure == Raised(e.value)
    {
      match this
      case Parallel(_) => None
      case Synchronous(s) =>
        if s.job.TaskObject? && s.job.behaviour.configure.Raised? then Some(s.job.behaviour.configure.error) else None
    }

    /** What `resolveErrorOutput()` returns, or the TypeError it raises. */
    function ResolvedNow(c: Wire.Serializer, classes: Classes): Result<Throwable, Throwable>
      reads Process()
    {
      match this
      case Parallel(p) => PP.Resolve(ErrorOutputNow(c), classes)
      case Synchronous(s) => SP.ResolveStored(ErrorOutputNow(c))
    }
  }

  /** A process as made: never started, nothing stored. */
  predicate Unstarted(r: Runnable)
    reads r.Process()
  {
    match r
    case Parallel(p) => p.pid.None? && p.output.None? && p.errorOutput.None? && p.startTime.None?
    case Synchronous(s) => s.output.None? && s.errorOutput.None? && s.executionTime.None? && s.trace == []
  }

  /** No callback registered and none called yet. */
  predicate NoCallbacks(r: Runnable)
    reads r.Registry()
  {
    && r.Registry().successCallbacks == [] && r.Registry().errorCallbacks == []
    && r.Registry().timeoutCallbacks == [] && r.Registry().calls == []
  }

  /** `then($callback)`: the same runnable, one more success callback. */
  method Then(r: Runnable, cb: Callback) returns (same: Runnable)
    modifies r.Registry()
    ensures same == r
    ensures r.Registry().successCallbacks == old(r.Registry().successCallbacks) + [cb]
    ensures r.Registry().errorCallbacks == old(r.Registry().errorCallbacks)
    ensures r.Registry().timeoutCallbacks == old(r.Registry().timeoutCallbacks)
    ensures r.Registry().calls == old(r.Registry().calls)
  {
    r.Registry().AddSuccess(cb);
    same := r;
  }

  /** `catch($callback)`: the same runnable, one more error callback. */
  method Catch(r: Runnable, cb: Callback) returns (same: Runnable)
    modifies r.Registry()
    ensures same == r
    ensures r.Registry().errorCallbacks == old(r.Registry().errorCallbacks) + [cb]
    ensures r.Registry().successCallbacks == old(r.Registry().successCallbacks)
    ensures r.Registry().timeoutCallbacks == old(r.Registry().timeoutCallbacks)
    ensures r.Registry().calls == old(r.Registry().calls)
  {
    r.Registry().AddError(cb);
    same := r;
  }

  /** `timeout($callback)`: the same runnable, one more timeout callback. */
  method Timeout(r: Runnable, cb: Callback) returns (same: Runnable)
    modifies r.Registry()
    ensures same == r
    ensures r.Registry().timeoutCallbacks == old(r.Registry().timeoutCallbacks) + [cb]
    ensures r.Registry().successCallbacks == old(r.Registry().successCallbacks)
    ensures r.Registry().errorCallbacks == old(r.Registry().errorCallbacks)
    ensures r.Registry().calls == old(r.Registry().calls)
  {
    r.Registry().AddTimeout(cb);
    same := r;
  }

  /** The fields of a process object that starting it may keep. */
  datatype Snapshot =
    | ChildFields(output: Option<Value>, errorOutput: Option<Value>, killed: bool)
    | InlineFields(trace: seq<T.Phase>, output: Option<Value>, errorOutput: Option<Value>, executionTime: Option<int>)

  function Snap(r: Runnable): (b: Snapshot)
    reads r.Process()
    ensures r.Parallel? <==> b.ChildFields?
  {
    match r
    case Parallel(p) => ChildFields(p.output, p.errorOutput, p.killed)
    case Synchronous(s) => InlineFields(s.trace, s.output, s.errorOutput, s.executionTime)
  }

  /** `r` as `start()` at time `now` leaves it, from the fields in
      `before`. */
  predicate StartedFrom(r: Runnable, before: Snapshot, now: int)
    reads r.Process()
  {
    match r
    case Parallel(p) =>
      && before.ChildFields?
      && p.startTime == Some(now) && p.pid == Some(p.handle.pid)
      && p.output == before.output && p.errorOutput == before.errorOutput && p.killed == before.killed
    case Synchronous(s) =>
      var ran := SP.InlineOutcome(s.job);
      && before.InlineFields?
      && s.trace == before.trace + (if s.job.TaskObject? then T.Invoke(s.job.behaviour).calls else [T.Call])
      && (r.StartEscape().Some? ==>
            s.output == before.output && s.errorOutput == before.errorOutput && s.executionTime == before.executionTime)
      && (r.StartEscape().None? ==> s.executionTime == Some(s.job.behaviour.ticks))
      && (r.StartEscape().None? && ran.Returned? ==> s.output == Some(ran.value) && s.errorOutput == before.errorOutput)
      && (r.StartEscape().None? && ran.Raised? ==> s.errorOutput == Some(Thrown(ran.error)) && s.output == before.output)
  }

  /** Two different runnables share no object: the process of one is apart
      from everything the other may change. */
  lemma ProcessApart(a: Runnable, b: Runnable)
    requires a != b
    ensures a.Process() !! b.Objects()
  {
  }

  /** The state `start()` at time `now` leaves a runnable's process in. A
      child process has its start time and the launched pid and keeps its
      outputs and its kill flag. An inline one has made its calls on the job
      (`configure()` then `run()` for a Task, one call otherwise); when
      `configure()` threw, nothing is stored, and otherwise the duration is
      stored with the run's value as output or its Throwable as error
      output. */
  twostate predicate Started(r: Runnable, now: int)
    reads r.Process()
  {
    StartedFrom(r, old(Snap(r)), now)
  }

  /** `start()` at time `now`: only a Throwable from an inline Task's
      `configure()` escapes, and only the process object changes. */
  method Start(r: Runnable, now: int) returns (escaped: Option<Throwable>)
    modifies r.Process()
    ensures unchanged(r.Registry())
    ensures escaped == r.StartEscape()
    ensures Started(r, now)
  {
    match r
    case Parallel(p) =>
      p.Start(now);
      escaped := None;
    case Synchronous(s) =>
      escaped := s.Start();
  }

  /** `stop()`: a child process is killed; an inline one is left alone. */
  method Stop(r: Runnable)
    modifies r.Objects()
    ensures unchanged(r.Registry())
    ensures r.Parallel? ==> r.p.killed && r.p.output == old(r.p.output) && r.p.errorOutput == old(r.p.errorOutput)
    ensures r.Synchronous? ==> unchanged(r.s)
  {
    match r
    case Parallel(p) =>
      p.Stop();
    case Synchronous(s) =>
      var _ := s.Stop();
  }

  /** `triggerTimeout()`: every timeout callback, in order. */
  method TriggerTimeout(r: Runnable)
    modifies r.Registry()
    ensures r.Registry().calls == old(r.Registry().calls) + TimeoutCalls(r.Registry().timeoutCallbacks)
    ensures r.Registry().successCallbacks == old(r.Registry().successCallbacks)
    ensures r.Registry().errorCallbacks == old(r.Registry().errorCallbacks)
    ensures r.Registry().timeoutCallbacks == old(r.Registry().timeoutCallbacks)
  {
    r.Registry().FireTimeout();
  }

  /** `triggerError()`: the resolved exception is thrown when no error
      callback is registered (as is the TypeError resolving may raise);
      otherwise only the first callback that accepts it is called. What the
      outputs read is unchanged. */
  method TriggerError(r: Runnable, c: Wire.Serializer, classes: Classes) returns (thrown: Option<Throwable>)
    modifies r.Objects()
    ensures r.Registry().successCallbacks == old(r.Registry().successCallbacks)
    ensures r.Registry().errorCallbacks == old(r.Registry().errorCallbacks)
    ensures r.Registry().timeoutCallbacks == old(r.Registry().timeoutCallbacks)
    ensures r.ErrorOutputNow(c) == old(r.ErrorOutputNow(c)) && r.OutputNow(c) == old(r.OutputNow(c))
    ensures old(r.ResolvedNow(c, classes)).Failure? ==>
      thrown == Some(old(r.ResolvedNow(c, classes)).error) && r.Registry().calls == old(r.Registry().calls)
    ensures old(r.ResolvedNow(c, classes)).Success? ==>
      var e := old(r.ResolvedNow(c, classes)).value;
      var cbs := r.Registry().errorCallbacks;
      && thrown == (if cbs == [] then Some(e) else None)
      && r.Registry().calls == old(r.Registry().calls) + (if cbs == [] then [] else ErrorCalls(classes.parents, cbs, e))
  {
    match r
    case Parallel(p) =>
      PP.ErrorOutputViewStable(p.errorOutput, p.handle.stderr, c);
      var resolved := p.ResolveErrorOutput(c, classes);
      if resolved.Failure? {
        thrown := Some(resolved.error);
      } else {
        thrown := p.callbacks.FireError(classes.parents, resolved.value);
      }
    case Synchronous(s) =>
      var resolved := SP.ResolveStored(PP.Memo(s.errorOutput));
      if resolved.Failure? {
        thrown := Some(resolved.error);
      } else {
        thrown := s.callbacks.FireError(classes.parents, resolved.value);
      }
  }

  /** `triggerSuccess()`: with a truthy error output, `triggerError()` runs
      instead, no success callback is called and the result is null (or
      what `triggerError()` throws); otherwise every success callback is
      called, in order, with the output, which is returned. */
  method TriggerSuccess(r: Runnable, c: Wire.Serializer, classes: Classes) returns (res: Result<Value, Throwable>)
    modifies r.Objects()
    ensures res.Success? ==> res.value == old(r.SuccessResult(c))
    ensures r.Registry().successCallbacks == old(r.Registry().successCallbacks)
    ensures r.Registry().errorCallbacks == old(r.Registry().errorCallbacks)
    ensures r.Registry().timeoutCallbacks == old(r.Registry().timeoutCallbacks)
    ensures Truthy(old(r.ErrorOutputNow(c))) ==>
      r.ErrorOutputNow(c) == old(r.ErrorOutputNow(c)) && (res.Success? ==> res.value == Null)
    ensures Truthy(old(r.ErrorOutputNow(c))) && old(r.ResolvedNow(c, classes)).Failure? ==>
      res == Failure(old(r.ResolvedNow(c, classes)).error) && r.Registry().calls == old(r.Registry().calls)
    ensures Truthy(old(r.ErrorOutputNow(c))) && old(r.ResolvedNow(c, classes)).Success? ==>
      var e := old(r.ResolvedNow(c, classes)).value;
      var cbs := r.Registry().errorCallbacks;
      && res == (if cbs == [] then Failure(e) else Success(Null))
      && r.Registry().calls == old(r.Registry().calls) + (if cbs == [] then [] else ErrorCalls(classes.parents, cbs, e))
    ensures !Truthy(old(r.ErrorOutputNow(c))) ==>
      && res == Success(old(r.OutputNow(c)))
      && r.OutputNow(c) == old(r.OutputNow(c))
      && r.Registry().calls == old(r.Registry().calls) + SuccessCalls(r.Registry().successCallbacks, old(r.OutputNow(c)))
    ensures r.Parallel? && !Truthy(old(r.ErrorOutputNow(c))) ==>
      r.p.errorOutput == (if Truthy(old(r.OutputNow(c))) then Some(old(r.ErrorOutputNow(c))) else Some(Str(r.p.handle.stdout)))
  {
    var x;
    match r {
      case Parallel(p) =>
        PP.ErrorOutputViewStable(p.errorOutput, p.handle.stderr, c);
        x := p.GetErrorOutput(c);
      case Synchronous(s) =>
        x := PP.Memo(s.errorOutput);
    }
    if Truthy(x) {
      var thrown := TriggerError(r, c, classes);
      res := if thrown.Some? then Failure(thrown.value) else Success(Null);
      return;
    }
    var output;
    match r {
      case Parallel(p) =>
        PP.OutputViewStable(p.output, p.handle.stdout, c);
        output := p.GetOutput(c);
      case Synchronous(s) =>
        output := PP.Memo(s.output);
    }
    r.Registry().FireSuccess(output);
    res := Success(output);
  }
}
