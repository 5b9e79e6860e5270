/** Submitted work: a closure, another callable, or an instance of the
    two-phase `Task` class, whose `__invoke` runs `configure` and then `run`.
    What user code does is not visible; it is given as a `Behaviour`. */
module Task {
  import opened Php

  /** A call made on submitted work. */
  datatype Phase = Configure | Run | Call

  /** What calling the work here gives: the outcome of `configure()`, the
      outcome of `run()` (for a plain callable, of calling it) and how many
      clock ticks the inline run takes, `configure()` and `run()` together. */
  datatype Behaviour = Behaviour(configure: Outcome, run: Outcome, ticks: nat)

  /** What `Pool::add` accepts. `code` identifies a closure's source. */
  datatype Job =
    | Closure(code: string, behaviour: Behaviour)
    | Invokable(obj: Value, behaviour: Behaviour)
    | TaskObject(obj: Value, behaviour: Behaviour)

  /** The calls made and what came back. */
  datatype Invocation = Invocation(calls: seq<Phase>, result: Outcome)

  /** `Task::__invoke()`: `configure` first, then `run`, each at most once;
      `run` happens exactly when `configure` returned, and the result is
      `run`'s. An exception from `configure` escapes in place of a result. */
  function Invoke(b: Behaviour): (inv: Invocation)
    ensures |inv.calls| >= 1 && inv.calls[0] == Configure
    ensures Run in inv.calls <==> b.configure.Returned?
    ensures Run in inv.calls ==> inv.calls == [Configure, Run] && inv.result == b.run
    ensures Run !in inv.calls ==> inv.calls == [Configure] && inv.result == b.configure
  {
    match b.configure
    case Raised(_) => Invocation([Configure], b.configure)
    case Returned(_) => Invocation([Configure, Run], b.run)
  }

  /** What `configure` returns has no effect on the invocation. */
  lemma ConfigureResultDiscarded(b: Behaviour, v: Value, w: Value)
    ensures Invoke(b.(configure := Returned(v))) == Invoke(b.(configure := Returned(w)))
  {
  }
}
