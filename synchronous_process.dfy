/** A task run inline in the parent, used when child processes are not
    available. */
module SynchronousProcess {
  import opened Wrappers
  import opened Php
  import opened Task
  import ProcessCallbacks

  const ClassName := "Spatie\\Async\\Process\\SynchronousProcess"

  /** `resolveErrorOutput()` returns the stored error output, which its
      return type requires to be a Throwable; anything else is a TypeError. */
  function ResolveStored(x: Value): (r: Result<Throwable, Throwable>)
    ensures x.Thrown? <==> r.Success?
    ensures x.Thrown? ==> r.value == x.throwable
    ensures !x.Thrown? ==> r.error.Class() == "TypeError"
  {
    match x
    case Thrown(t) => Success(t)
    case _ => Failure(Native("TypeError", ClassName + "::resolveErrorOutput(): Return value must be of type Throwable, " + TypeName(x) + " returned"))
  }

  /** What calling the job inline gives: `run()`'s outcome for a Task, the
      call's outcome for any other callable. */
  function InlineOutcome(job: Job): (o: Outcome)
    ensures job.TaskObject? && job.behaviour.configure.Returned? ==> o == Invoke(job.behaviour).result
    ensures !job.TaskObject? ==> o == job.behaviour.run
  {
    match job
    case TaskObject(_, b) => b.run
    case Closure(_, b) => b.run
    case Invokable(_, b) => b.run
  }

  class SynchronousProcess {
    const id: int
    const job: Job
    const callbacks: ProcessCallbacks.CallbackRegistry
    var output: Option<Value>
    var errorOutput: Option<Value>
    var executionTime: Option<int>
    /** The calls made on the job, in order. */
    var trace: seq<Phase>

    constructor (job: Job, id: int)
      ensures this.job == job && this.id == id
      ensures output.None? && errorOutput.None? && executionTime.None? && trace == []
      ensures fresh(callbacks)
      ensures callbacks.successCallbacks == [] && callbacks.errorCallbacks == []
      ensures callbacks.timeoutCallbacks == [] && callbacks.calls == []
    {
      this.job := job;
      this.id := id;
      callbacks := new ProcessCallbacks.CallbackRegistry();
      output, errorOutput, executionTime, trace := None, None, None, [];
    }

    /** `getPid()` is the id. */
    function GetPid(): (r: int)
      ensures r == id
    {
      id
    }

    /** `start()`: for a Task, `configure()` then `run()`; for another
        callable, one call. A Throwable from `configure()` escapes before
        anything is stored; one from the run is stored as the error output and
        does not escape; otherwise the run's value is the output. The
        execution time is stored whenever the run was reached. */
    method Start() returns (escaped: Option<Throwable>)
      modifies this`output, this`errorOutput, this`executionTime, this`trace
      ensures job.TaskObject? ==> trace == old(trace) + Invoke(job.behaviour).calls
      ensures !job.TaskObject? ==> trace == old(trace) + [Call]
      ensures escaped == (if job.TaskObject? && job.behaviour.configure.Raised?
                          then Some(job.behaviour.configure.error) else None)
      ensures escaped.Some? ==>
        output == old(output) && errorOutput == old(errorOutput) && executionTime == old(executionTime)
      ensures escaped.None? ==> executionTime == Some(job.behaviour.ticks)
      ensures escaped.None? && InlineOutcome(job).Returned? ==>
        output == Some(InlineOutcome(job).value) && errorOutput == old(errorOutput)
      ensures escaped.None? && InlineOutcome(job).Raised? ==>
        errorOutput == Some(Thrown(InlineOutcome(job).error)) && output == old(output)
    {
      var b := job.behaviour;
      if job.TaskObject? {
        trace := trace + [Configure];
        if b.configure.Raised? {
          return Some(b.configure.error);
        }
      }
      escaped := None;
      var outcome;
      if job.TaskObject? {
        trace := trace + [Run];
        outcome := b.run;
      } else {
        trace := trace + [Call];
        outcome := b.run;
      }
      match outcome {
        case Returned(v) =>
          output := Some(v);
        case Raised(e) =>
          errorOutput := Some(Thrown(e));
      }
      executionTime := Some(b.ticks);
    }

    /** `stop()` succeeds and changes nothing. */
    method Stop() returns (ok: bool)
      ensures ok
    {
      ok := true;
    }

    /** `getCurrentExecutionTime()`: the stored duration of the run. */
    function CurrentExecutionTime(): (r: Result<int, Throwable>)
      reads this
      ensures executionTime.Some? ==> r == Success(executionTime.value)
      ensures executionTime.None? ==> r == Failure(UninitializedRead(ClassName, "executionTime"))
    {
      match executionTime
      case Some(t) => Success(t)
      case None => Failure(UninitializedRead(ClassName, "executionTime"))
    }
  }

  /** Running a Task inline makes the same calls, in the same order, as
      invoking it, and stores what invoking it returns or throws whenever
      `configure()` returned. */
  lemma InlineMatchesInvoke(job: Job)
    requires job.TaskObject? && job.behaviour.configure.Returned?
    ensures Invoke(job.behaviour).calls == [Configure, Run]
    ensures Invoke(job.behaviour).result == InlineOutcome(job)
  {
  }

  // -----------------------------------------------------------------------
  // The stored fields as declared: typed, with no default value.

  /** `getErrorOutput()` as declared: after a run that returned, the field
      was never assigned, and reading it raises PHP's Error. */
  function ErrorOutputAsDeclared(errorOutput: Option<Value>): (r: Result<Value, Throwable>)
    ensures errorOutput.Some? ==> r == Success(errorOutput.value)
    ensures errorOutput.None? ==> r.Failure? && r.error.Class() == "Error"
  {
    match errorOutput
    case None => Failure(UninitializedRead(ClassName, "errorOutput"))
    case Some(x) => Success(x)
  }
}
