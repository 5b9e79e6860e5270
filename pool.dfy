/** The pool: a queue of runnables not yet started, the ones in progress
    keyed by pid, three maps of finished, failed and timed-out ones, the
    results in the order they were handled, the configuration and the
    stopped flag. Time is a number of ticks given by the caller; a child's
    exit, which the source learns of through SIGCHLD, is a call of
    `OnChildExit`. */
module Pool {
  import opened Wrappers
  import opened Php
  import opened Task
  import opened PhpArray
  import opened ProcessCallbacks
  import Wire
  import R = Runnable
  import PR = ParentRuntime
  import PP = ParallelProcess
  import SP = SynchronousProcess
  import PS = PoolStatus

  /** What `notify()` does: the Throwable that escapes it, if any, and the
      new queue and in-progress map. */
  datatype Admission = Admission(raised: Option<Throwable>, queue: seq<R.Runnable>, inProgress: seq<Entry<R.Runnable>>)

  /** `notify()`: below the concurrency cap, the head of the queue leaves
      it and, unless the pool is stopped, is started and filed in progress
      under its pid. At most one runnable moves, and the cap is kept. */
  function Admit(queue: seq<R.Runnable>, inProgress: seq<Entry<R.Runnable>>, concurrency: int, stopped: bool): (a: Admission)
    ensures |inProgress| >= concurrency || queue == [] ==> a == Admission(None, queue, inProgress)
    ensures |inProgress| < concurrency && queue != [] ==> a.queue == queue[1..]
    ensures stopped ==> a.raised.None? && a.inProgress == inProgress
    ensures a.raised.Some? ==> a.inProgress == inProgress && a.raised == queue[0].StartEscape()
    ensures a.inProgress == inProgress || a.inProgress == Put(inProgress, queue[0].Key(), queue[0])
    ensures |inProgress| < concurrency ==> |a.inProgress| <= concurrency
    ensures !stopped && |inProgress| < concurrency && queue != [] ==> a.raised == queue[0].StartEscape()
    ensures !stopped && |inProgress| < concurrency && queue != [] && queue[0].StartEscape().Some? ==>
      a.inProgress == inProgress
    ensures !stopped && |inProgress| < concurrency && queue != [] && queue[0].StartEscape().None? ==>
      Entry(queue[0].Key(), queue[0]) in a.inProgress
  {
    if |inProgress| >= concurrency || queue == [] then Admission(None, queue, inProgress)
    else if stopped then Admission(None, queue[1..], inProgress)
    else
      match queue[0].StartEscape()
      case Some(e) => Admission(Some(e), queue[1..], inProgress)
      case None => Admission(None, queue[1..], Put(inProgress, queue[0].Key(), queue[0]))
  }

  /** The objects of the runnables queued or in progress. */
  ghost function InFlight(queue: seq<R.Runnable>, inProgress: seq<Entry<R.Runnable>>): set<object>
  {
    (set r, o | r in queue && o in r.Objects() :: o) + (set e, o | e in inProgress && o in e.value.Objects() :: o)
  }

  /** The process of the head of the queue, the one `notify()` may start. */
  function HeadProcess(queue: seq<R.Runnable>): set<object>
  {
    if queue == [] then {} else queue[0].Process()
  }

  lemma HeadInFlight(queue: seq<R.Runnable>, inProgress: seq<Entry<R.Runnable>>)
    ensures HeadProcess(queue) <= InFlight(queue, inProgress)
  {
    if queue != [] {
      assert queue[0] in queue;
    }
  }

  /** The head of a queue with one more runnable is the old head, or the
      new runnable when the queue was empty. */
  lemma HeadOfAppend(queue: seq<R.Runnable>, r: R.Runnable)
    ensures HeadProcess(queue + [r]) == if queue == [] then r.Process() else HeadProcess(queue)
  {
  }

  lemma EntryInFlight(queue: seq<R.Runnable>, inProgress: seq<Entry<R.Runnable>>, e: Entry<R.Runnable>)
    requires e in inProgress
    ensures e.value.Objects() <= InFlight(queue, inProgress)
  {
  }

  /** `notify()`, after an entry or none left the runnables in progress,
      brings no runnable into flight that was not there: the one it starts
      comes from the queue. */
  lemma AdmitInFlight(queue: seq<R.Runnable>, kept: seq<Entry<R.Runnable>>, inProgress: seq<Entry<R.Runnable>>,
                      concurrency: int, stopped: bool)
    requires forall e :: e in kept ==> e in inProgress
    ensures var a := Admit(queue, kept, concurrency, stopped);
      InFlight(a.queue, a.inProgress) <= InFlight(queue, inProgress)
  {
    var a := Admit(queue, kept, concurrency, stopped);
    forall o | o in InFlight(a.queue, a.inProgress) ensures o in InFlight(queue, inProgress) {
      if r :| r in a.queue && o in r.Objects() {
        assert r in queue;
      } else {
        var e :| e in a.inProgress && o in e.value.Objects();
        if e !in kept {
          assert e.value == queue[0] && queue[0] in queue;
        }
      }
    }
  }

  /** Once the pool is stopped, every call of `notify()` below the cap
      drops the head of the queue: after as many calls as there are queued
      runnables, the queue is empty and none of them was started. */
  lemma {:induction false} StoppedPoolDrainsQueue(queue: seq<R.Runnable>, inProgress: seq<Entry<R.Runnable>>, concurrency: int)
    requires |inProgress| < concurrency
    ensures DrainStopped(queue, inProgress, concurrency, |queue|) == Admission(None, [], inProgress)
  {
    if queue != [] {
      StoppedPoolDrainsQueue(queue[1..], inProgress, concurrency);
    }
  }

  /** `n` calls of `notify()` on a stopped pool. */
  function DrainStopped(queue: seq<R.Runnable>, inProgress: seq<Entry<R.Runnable>>, concurrency: int, n: nat): (a: Admission)
    ensures a.inProgress == inProgress && a.raised.None?
  {
    if n == 0 then Admission(None, queue, inProgress)
    else
      var a := Admit(queue, inProgress, concurrency, true);
      DrainStopped(a.queue, a.inProgress, concurrency, n - 1)
  }

  /** What the scan in `wait()` does with a runnable in progress. */
  datatype Step = TimeOut | Finish

  /** The scan as written: an overdue runnable is timed out, and an inline
      one is finished, both tests being made. */
  function ScanStepsAsWritten(inline: bool, overdue: bool): (steps: seq<Step>)
    ensures (TimeOut in steps) == overdue && (Finish in steps) == inline
  {
    (if overdue then [TimeOut] else []) + (if inline then [Finish] else [])
  }

  /** The scan as intended: an overdue runnable is timed out and nothing
      else; an inline one that is not overdue is finished. */
  function ScanSteps(inline: bool, overdue: bool): (steps: seq<Step>)
    ensures |steps| <= 1
    ensures (TimeOut in steps) == overdue
    ensures (Finish in steps) == (inline && !overdue)
  {
    if overdue then [TimeOut] else if inline then [Finish] else []
  }

  /** An inline runnable that ran longer than the timeout is both timed out
      and finished by the scan as written, so it is filed under timeouts and
      under finished and adds a result; the intended scan only times it out. */
  lemma OverdueInlineRunnableFiledTwice()
    ensures ScanStepsAsWritten(true, true) == [TimeOut, Finish]
    ensures ScanSteps(true, true) == [TimeOut]
  {
  }

  /** `array_shift` on the queue as the PHP array it is: the first entry
      leaves and the integer keys of the others are renumbered from zero. */
  function Shift<V>(queue: seq<Entry<V>>): (rest: seq<Entry<V>>)
    requires queue != []
    ensures |rest| == |queue| - 1
    ensures forall i :: 0 <= i < |rest| ==> rest[i] == Entry(i, queue[i + 1].value)
  {
    seq(|queue| - 1, i requires 0 <= i < |queue| - 1 => Entry(i, queue[i + 1].value))
  }

  /** The queue once `notify()` has started its head, as written: the queue
      keyed by id is shifted, then `putInProgress` unsets the started
      runnable's id in the renumbered queue. */
  function QueueAfterStartAsWritten<V>(queue: seq<Entry<V>>): (r: seq<Entry<V>>)
    requires queue != []
    ensures forall i :: 0 <= i < |r| ==> r[i].key != queue[0].key && 0 <= r[i].key < |queue| - 1
    ensures 0 <= queue[0].key < |queue| - 1 ==> |r| == |queue| - 2
    ensures !(0 <= queue[0].key < |queue| - 1) ==> |r| == |queue| - 1
  {
    var shifted := Shift(queue);
    assert UniqueKeys(shifted);
    assert 0 <= queue[0].key < |queue| - 1 ==> Find(shifted, queue[0].key).Some? by {
      if 0 <= queue[0].key < |queue| - 1 {
        assert shifted[queue[0].key].key == queue[0].key;
      }
    }
    var r := Remove(shifted, queue[0].key);
    assert forall i :: 0 <= i < |r| ==> 0 <= r[i].key < |queue| - 1 by {
      forall i | 0 <= i < |r| ensures 0 <= r[i].key < |queue| - 1 {
        assert r[i] in r;
        var j :| 0 <= j < |shifted| && shifted[j] == r[i];
      }
    }
    r
  }

  /** Whenever the started runnable's id is a position of the renumbered
      queue, the runnable that moved to that position is dropped with it:
      the queue loses two entries instead of one. */
  lemma UnsetAfterShiftDrops<V>(q: seq<Entry<V>>)
    requires q != [] && 0 <= q[0].key < |q| - 1
    requires forall i, j :: 0 <= i < j < |q| ==> q[i].value != q[j].value
    ensures q[q[0].key + 1].value !in Values(QueueAfterStartAsWritten(q))
    ensures |QueueAfterStartAsWritten(q)| == |q| - 2
  {
    var k := q[0].key;
    var shifted := Shift(q);
    var r := QueueAfterStartAsWritten(q);
    assert UniqueKeys(shifted);
    assert Find(shifted, k).Some? by {
      assert shifted[k].key == k;
    }
    forall i | 0 <= i < |r| ensures Values(r)[i] != q[k + 1].value {
      assert r[i] in r;
      var j :| 0 <= j < |shifted| && shifted[j] == r[i];
    }
  }

  /** With the parent's pid 1 and one runnable at a time, the runnables made
      by the 2nd to the 30th call of `createProcess` wait in the queue under
      their ids 21, 31, ..., 301 (`ParentRuntime.IdsUnderPidOne`). When the
      2nd is started, the renumbered queue holds the 24th under key 21, and
      unsetting id 21 drops it: it is never started and never reported. The
      intended queue (`Admit`, `queue[1..]`) keeps the 3rd to the 30th. */
  lemma RenumberedQueueLosesRunnable()
    ensures var q := seq(29, j requires 0 <= j < 29 => Entry(10 * (j + 2) + 1, j + 2));
      && Values(q)[22] == 24
      && 24 !in Values(QueueAfterStartAsWritten(q))
  {
    var q := seq(29, j requires 0 <= j < 29 => Entry(10 * (j + 2) + 1, j + 2));
    UnsetAfterShiftDrops(q);
  }

  /** One run of the SIGCHLD handler: the status PHP passes with the signal
      that triggered it, and the pids `pcntl_waitpid` returns, one per turn
      of the handler's loop, before it returns 0 or less. The handler judges
      every pid it reaps by the triggering signal's status, not by that
      child's own exit state; with WUNTRACED a stopped child is reaped too. */
  datatype Signal = Signal(status: int, reaped: seq<int>)

  /** One poll of `wait()`: the time of the scan, and the signals that
      arrive during the sleep that follows it. */
  datatype Tick = Tick(now: int, signals: seq<Signal>)

  /** How `wait()` ends: with the results once nothing is in progress, with
      a Throwable that escaped it, or still waiting when the ticks given run
      out. */
  datatype WaitOutcome = Completed(results: seq<Value>) | Raised(error: Throwable) | StillWaiting

  /** What the status callback makes of one failed runnable: a parallel
      process gives its pid and its error output; its typed parameter
      refuses an inline runnable, and the pid of a process that was never
      started cannot be read. */
  function FailedItem(r: R.Runnable, c: Wire.Serializer): (item: Result<PS.FailedProcess, Throwable>)
    reads r.Process()
    ensures r.Synchronous? ==> item.Failure? && item.error.Class() == "TypeError"
    ensures r.Parallel? ==> (item.Success? <==> r.p.pid.Some?)
    ensures item.Success? ==> item.value.pid == r.p.pid.value && item.value.errorOutput == r.ErrorOutputNow(c)
  {
    match r
    case Synchronous(_) =>
      Failure(Native("TypeError", "{closure}(): Argument #2 ($process) must be of type " + PP.ClassName + ", " + SP.ClassName + " given"))
    case Parallel(p) =>
      match p.GetPid()
      case Failure(e) => Failure(e)
      case Success(pid) => Success(PS.FailedProcess(pid, r.ErrorOutputNow(c)))
  }

  /** Whether the status can describe a failed runnable: a child process
      that was started and whose error output is not an object the status
      cannot show. */
  predicate Describable(r: R.Runnable, c: Wire.Serializer)
    reads r.Process()
  {
    r.Parallel? && r.p.pid.Some? && !(r.ErrorOutputNow(c).Object? && r.ErrorOutputNow(c).text.None?)
  }

  /** The status line of a failed runnable is there exactly when the
      runnable can be described. */
  lemma LineOfFailedItem(r: R.Runnable, c: Wire.Serializer, classes: Classes)
    ensures PS.LineOf(FailedItem(r, c), classes).Success? <==> Describable(r, c)
  {
  }

  /** What `add()` accepts: a callable to run, or a runnable made already. */
  datatype Submission = Callable(job: Job) | Prepared(runnable: R.Runnable)

  class Pool {
    var concurrency: int
    var timeout: int
    var sleepTime: int
    var binary: string
    /** `Pool::isSupported()`. */
    var supported: bool
    var queue: seq<R.Runnable>
    var inProgress: seq<Entry<R.Runnable>>
    var finished: seq<Entry<R.Runnable>>
    var failed: seq<Entry<R.Runnable>>
    var timeouts: seq<Entry<R.Runnable>>
    var results: seq<Value>
    var stopped: bool
    /** The runtime's static state, shared by every pool. */
    const runtime: PR.ParentRuntime
    /** PHP's serializer. */
    const codec: Wire.Serializer
    /** The classes PHP knows. */
    const classes: Classes
    /** The objects of every runnable the pool has held. */
    ghost var Repr: set<object>

    /** What `add` promises of the runnable `r` it makes of a callable
        under the pool's `binary` and `supported` settings. The runtime's
        static fields have moved from `before` to `after` as
        `createProcess` moves them, `id` is the id `getId()` gave from
        `before` (`IdNumber` of the new counter and pid), and `r` carries
        that id, the job and the launch command. */
    predicate Made(x: Submission, r: R.Runnable, outputLength: Option<int>, files: set<string>, osPid: Value,
                   os: seq<Value> -> PR.Launch, before: PR.StaticFields, after: PR.StaticFields, id: int,
                   binary: string, supported: bool)
    {
      x.Callable? ==>
        && PR.AdvancedFrom(before, after, runtime.dir, files, osPid)
        && id == PR.NextIdFrom(before, osPid)
        && PR.Makes(r, x.job, id, supported,
                    PR.Command(binary, after.childProcessScript.value, after.autoloader.value, codec, x.job, outputLength), os)
    }

    /** Each entry is filed under the pid of its runnable, whose objects
        are in `Repr`; a key occurs once. */
    ghost predicate Filed(a: seq<Entry<R.Runnable>>)
      reads this`Repr
    {
      && UniqueKeys(a)
      && forall e :: e in a ==> e.key == e.value.Key() && e.value.Objects() <= Repr
    }

    lemma FiledPut(a: seq<Entry<R.Runnable>>, r: R.Runnable)
      requires Filed(a) && r.Objects() <= Repr
      ensures Filed(Put(a, r.Key(), r))
    {
    }

    lemma FiledRemove(a: seq<Entry<R.Runnable>>, k: int)
      requires Filed(a)
      ensures Filed(Remove(a, k))
    {
    }

    ghost predicate Valid()
      reads this, runtime
    {
      runtime.Valid() && Owned()
    }

    /** The pool's own part of `Valid`: every runnable it holds has its
        objects in `Repr`, apart from the pool and the runtime. */
    ghost predicate Owned()
      reads this
    {
      && this !in Repr && runtime !in Repr
      && (forall r :: r in queue ==> r.Objects() <= Repr)
      && Filed(inProgress) && Filed(finished) && Filed(failed) && Filed(timeouts)
    }

    lemma InFlightInRepr()
      requires Valid()
      ensures InFlight(queue, inProgress) <= Repr
    {
    }

    /** `new Pool()` with the defaults: 20 at a time, a timeout of 300, a
        poll every 50000 microseconds, the running PHP binary. */
    constructor (runtime: PR.ParentRuntime, codec: Wire.Serializer, classes: Classes, supported: bool, phpBinary: string)
      requires runtime.Valid()
      ensures Valid() && Repr == {}
      ensures this.runtime == runtime && this.codec == codec && this.classes == classes
      ensures concurrency == 20 && timeout == 300 && sleepTime == 50000 && binary == phpBinary
      ensures this.supported == supported && !stopped
      ensures queue == [] && inProgress == [] && finished == [] && failed == [] && timeouts == [] && results == []
    {
      this.runtime := runtime;
      this.codec := codec;
      this.classes := classes;
      this.supported := supported;
      concurrency, timeout, sleepTime, binary := 20, 300, 50000, phpBinary;
      queue, inProgress, finished, failed, timeouts, results := [], [], [], [], [], [];
      stopped := false;
      Repr := {};
    }

    /** `putInProgress($process)` at time `now`: nothing once the pool is
        stopped; otherwise the runnable is started and, unless that throws,
        filed in progress under its pid. Only the started runnable's
        process changes. */
    method PutInProgress(r: R.Runnable, now: int) returns (raised: Option<Throwable>)
      requires Valid() && r.Objects() <= Repr
      modifies this`inProgress, r.Process()
      ensures Valid()
      ensures stopped ==> raised.None? && inProgress == old(inProgress) && unchanged(r.Process())
      ensures !stopped ==> raised == r.StartEscape() && R.Started(r, now)
      ensures !stopped && raised.None? ==> inProgress == Put(old(inProgress), r.Key(), r)
      ensures raised.Some? ==> inProgress == old(inProgress)
    {
      if stopped {
        return None;
      }
      raised := R.Start(r, now);
      if raised.Some? {
        return;
      }
      FiledPut(inProgress, r);
      inProgress := Put(inProgress, r.Key(), r);
    }

    /** `notify()` at time `now`: below the cap, the head of the queue
        leaves it and, unless the pool is stopped, is started; only its
        process changes. */
    method Notify(now: int) returns (raised: Option<Throwable>)
      requires Valid()
      modifies this`queue, this`inProgress, HeadProcess(queue)
      ensures Valid()
      ensures Admission(raised, queue, inProgress) == Admit(old(queue), old(inProgress), concurrency, stopped)
      ensures !stopped && |old(inProgress)| < concurrency && old(queue) != [] ==> R.Started(old(queue)[0], now)
      ensures stopped || |old(inProgress)| >= concurrency ==> unchanged(HeadProcess(old(queue)))
    {
      if |inProgress| >= concurrency {
        return None;
      }
      if queue == [] {
        return None;
      }
      var r := queue[0];
      queue := queue[1..];
      raised := PutInProgress(r, now);
    }

    /** `putInQueue($process)`: the runnable joins the end of the queue, then
        `notify()`. */
    method PutInQueue(r: R.Runnable, now: int) returns (raised: Option<Throwable>)
      requires Valid() && r.Objects() <= Repr
      modifies this`queue, this`inProgress, HeadProcess(queue + [r])
      ensures Valid()
      ensures Admission(raised, queue, inProgress) == Admit(old(queue) + [r], old(inProgress), concurrency, stopped)
      ensures !stopped && |old(inProgress)| < concurrency ==> R.Started((old(queue) + [r])[0], now)
      ensures stopped || |old(inProgress)| >= concurrency ==> unchanged(HeadProcess(old(queue) + [r]))
    {
      queue := queue + [r];
      raised := Notify(now);
    }

    /** The second half of `add`: `r`'s objects join the pool's, then
        `putInQueue($process)`. */
    method Enqueue(r: R.Runnable, now: int) returns (raised: Option<Throwable>)
      requires Valid() && this !in r.Objects() && runtime !in r.Objects()
      modifies this`queue, this`inProgress, this`Repr, HeadProcess(queue + [r])
      ensures Valid()
      ensures Repr == old(Repr) + r.Objects()
      ensures Admission(raised, queue, inProgress) == Admit(old(queue) + [r], old(inProgress), concurrency, stopped)
      ensures !stopped && |old(inProgress)| < concurrency && old(queue) != [] ==> R.Started(old(queue)[0], now)
      ensures !stopped && |old(inProgress)| < concurrency && old(queue) == [] ==> R.Started(r, now)
      ensures stopped || |old(inProgress)| >= concurrency ==> unchanged(HeadProcess(old(queue) + [r]))
      ensures unchanged(runtime) && unchanged(r.Registry())
      ensures stopped || |old(inProgress)| >= concurrency || (old(queue) != [] && old(queue)[0] != r) ==> unchanged(r.Process())
    {
      Repr := Repr + r.Objects();
      raised := PutInQueue(r, now);
    }

    /** The opening steps `markAsFinished` and `markAsFailed` share: out of
        progress, then `notify()`. */
    method Release(r: R.Runnable, now: int) returns (raised: Option<Throwable>)
      requires Valid() && r.Objects() <= Repr
      modifies this`queue, this`inProgress, HeadProcess(queue)
      ensures Valid()
      ensures Admission(raised, queue, inProgress) == Admit(old(queue), Remove(old(inProgress), r.Key()), concurrency, stopped)
      ensures !stopped && |Remove(old(inProgress), r.Key())| < concurrency && old(queue) != [] ==>
        R.Started(old(queue)[0], now)
      ensures old(queue) == [] || old(queue)[0] != r ==> r.SuccessResult(codec) == old(r.SuccessResult(codec))
      ensures old(queue) == [] || old(queue)[0] != r ==>
        r.OutputNow(codec) == old(r.OutputNow(codec)) && r.ErrorOutputNow(codec) == old(r.ErrorOutputNow(codec))
      ensures unchanged(r.Registry())
    {
      FiledRemove(inProgress, r.Key());
      inProgress := Remove(inProgress, r.Key());
      raised := Notify(now);
    }

    /** `markAsFinished($process)` at time `now`: out of progress, then
        `notify()`, then `triggerSuccess()`; only when that returns is its
        value appended to the results and the runnable filed as finished. */
    method MarkAsFinished(r: R.Runnable, now: int) returns (raised: Option<Throwable>)
      requires Valid() && r.Objects() <= Repr
      modifies this`queue, this`inProgress, this`results, this`finished, r.Objects(), HeadProcess(queue)
      ensures Valid()
      ensures var a := Admit(old(queue), Remove(old(inProgress), r.Key()), concurrency, stopped);
        queue == a.queue && inProgress == a.inProgress && (a.raised.Some? ==> raised == a.raised)
      ensures InFlight(queue, inProgress) <= old(InFlight(queue, inProgress))
      ensures raised.Some? ==> results == old(results) && finished == old(finished)
      ensures raised.None? ==> |results| == |old(results)| + 1 && results[..|old(results)|] == old(results)
      ensures raised.None? ==> finished == Put(old(finished), r.Key(), r)
      ensures raised.None? && (old(queue) == [] || old(queue)[0] != r) ==>
        results[|old(results)|] == old(r.SuccessResult(codec))
      ensures raised.None? && (old(queue) == [] || old(queue)[0] != r) && !Truthy(old(r.ErrorOutputNow(codec))) ==>
        r.Registry().calls == old(r.Registry().calls) + SuccessCalls(r.Registry().successCallbacks, old(r.OutputNow(codec)))
      ensures !stopped && |Remove(old(inProgress), r.Key())| < concurrency && old(queue) != [] && old(queue)[0] != r ==>
        R.Started(old(queue)[0], now)
    {
      raised := Release(r, now);
      AdmitInFlight(old(queue), Remove(old(inProgress), r.Key()), old(inProgress), concurrency, stopped);
      if old(queue) != [] && old(queue)[0] != r {
        R.ProcessApart(old(queue)[0], r);
      }
      if raised.Some? {
        return;
      }
      raised := Conclude(r);
    }

    /** The closing steps of `markAsFinished`: `triggerSuccess()`, then the
        value it returns is appended to the results and the runnable filed
        as finished. */
    method Conclude(r: R.Runnable) returns (raised: Option<Throwable>)
      requires Valid() && r.Objects() <= Repr
      modifies this`results, this`finished, r.Objects()
      ensures Valid()
      ensures raised.Some? ==> results == old(results) && finished == old(finished)
      ensures raised.None? ==> results == old(results) + [old(r.SuccessResult(codec))]
      ensures raised.None? ==> finished == Put(old(finished), r.Key(), r)
      ensures raised.None? && !Truthy(old(r.ErrorOutputNow(codec))) ==>
        r.Registry().calls == old(r.Registry().calls) + SuccessCalls(r.Registry().successCallbacks, old(r.OutputNow(codec)))
    {
      var res := R.TriggerSuccess(r, codec, classes);
      if res.Failure? {
        return Some(res.error);
      }
      results := results + [res.value];
      FiledPut(finished, r);
      finished := Put(finished, r.Key(), r);
      raised := None;
    }

    /** `markAsTimedOut($process)` at time `now`: out of progress, killed,
        its timeout callbacks called, filed under timeouts, then
        `notify()`. The results are not touched. */
    method MarkAsTimedOut(r: R.Runnable, now: int) returns (raised: Option<Throwable>)
      requires Valid() && r.Objects() <= Repr
      modifies this`queue, this`inProgress, this`timeouts, r.Objects(), HeadProcess(queue)
      ensures Valid()
      ensures var a := Admit(old(queue), Remove(old(inProgress), r.Key()), concurrency, stopped);
        queue == a.queue && inProgress == a.inProgress && raised == a.raised
      ensures InFlight(queue, inProgress) <= old(InFlight(queue, inProgress))
      ensures timeouts == Put(old(timeouts), r.Key(), r)
      ensures r.Registry().calls == old(r.Registry().calls) + TimeoutCalls(r.Registry().timeoutCallbacks)
      ensures r.Parallel? ==> r.p.killed
      ensures !stopped && |Remove(old(inProgress), r.Key())| < concurrency && old(queue) != [] && old(queue)[0] != r ==>
        R.Started(old(queue)[0], now)
    {
      Expire(r);
      raised := Refill(r, now);
      AdmitInFlight(old(queue), Remove(old(inProgress), r.Key()), old(inProgress), concurrency, stopped);
    }

    /** `notify()` at the end of `markAsTimedOut($process)`: the admission,
        with the registry and the kill flag of `r` kept. */
    method Refill(r: R.Runnable, now: int) returns (raised: Option<Throwable>)
      requires Valid()
      modifies this`queue, this`inProgress, HeadProcess(queue)
      ensures Valid()
      ensures Admission(raised, queue, inProgress) == Admit(old(queue), old(inProgress), concurrency, stopped)
      ensures unchanged(r.Registry())
      ensures r.Parallel? ==> r.p.killed == old(r.p.killed)
      ensures !stopped && |old(inProgress)| < concurrency && old(queue) != [] ==> R.Started(old(queue)[0], now)
    {
      raised := Notify(now);
    }

    /** The steps of `markAsTimedOut` before `notify()`: out of progress,
        killed, its timeout callbacks called and filed under timeouts. */
    method Expire(r: R.Runnable)
      requires Valid() && r.Objects() <= Repr
      modifies this`inProgress, this`timeouts, r.Objects()
      ensures Valid()
      ensures inProgress == Remove(old(inProgress), r.Key())
      ensures timeouts == Put(old(timeouts), r.Key(), r)
      ensures r.Registry().calls == old(r.Registry().calls) + TimeoutCalls(r.Registry().timeoutCallbacks)
      ensures r.Parallel? ==> r.p.killed
    {
      FiledRemove(inProgress, r.Key());
      inProgress := Remove(inProgress, r.Key());
      R.Stop(r);
      R.TriggerTimeout(r);
      FiledPut(timeouts, r);
      timeouts := Put(timeouts, r.Key(), r);
    }

    /** `markAsFailed($process)` at time `now`: out of progress, then
        `notify()`, then `triggerError()`; only when that returns is the
        runnable filed as failed. The results are not touched. */
    method MarkAsFailed(r: R.Runnable, now: int) returns (raised: Option<Throwable>)
      requires Valid() && r.Objects() <= Repr
      modifies this`queue, this`inProgress, this`failed, r.Objects(), HeadProcess(queue)
      ensures Valid()
      ensures var a := Admit(old(queue), Remove(old(inProgress), r.Key()), concurrency, stopped);
        queue == a.queue && inProgress == a.inProgress && (a.raised.Some? ==> raised == a.raised)
      ensures InFlight(queue, inProgress) <= old(InFlight(queue, inProgress))
      ensures raised.None? ==> failed == Put(old(failed), r.Key(), r)
      ensures raised.Some? ==> failed == old(failed)
      ensures !stopped && |Remove(old(inProgress), r.Key())| < concurrency && old(queue) != [] && old(queue)[0] != r ==>
        R.Started(old(queue)[0], now)
    {
      raised := Release(r, now);
      AdmitInFlight(old(queue), Remove(old(inProgress), r.Key()), old(inProgress), concurrency, stopped);
      if old(queue) != [] && old(queue)[0] != r {
        R.ProcessApart(old(queue)[0], r);
      }
      if raised.Some? {
        return;
      }
      raised := Fail(r);
    }

    /** The closing steps of `markAsFailed`: `triggerError()`, then, when
        it returns, the runnable is filed as failed. */
    method Fail(r: R.Runnable) returns (raised: Option<Throwable>)
      requires Valid() && r.Objects() <= Repr
      modifies this`failed, r.Objects()
      ensures Valid()
      ensures raised.None? ==> failed == Put(old(failed), r.Key(), r)
      ensures raised.Some? ==> failed == old(failed)
    {
      raised := R.TriggerError(r, codec, classes);
      if raised.Some? {
        return;
      }
      FiledPut(failed, r);
      failed := Put(failed, r.Key(), r);
    }

    /** The body of the SIGCHLD handler for one reaped child: a pid not in
        progress is ignored; status 0 finishes the runnable, any other
        status fails it. */
    method OnChildExit(pid: int, status: int, now: int) returns (raised: Option<Throwable>)
      requires Valid()
      modifies this`queue, this`inProgress, this`results, this`finished, this`failed
      modifies if Get(inProgress, pid).Some? then Get(inProgress, pid).value.Objects() else {}
      modifies HeadProcess(queue)
      ensures Valid()
      ensures InFlight(queue, inProgress) <= old(InFlight(queue, inProgress))
      ensures Get(old(inProgress), pid).None? ==>
        && raised.None? && queue == old(queue) && inProgress == old(inProgress)
        && results == old(results) && finished == old(finished) && failed == old(failed)
        && unchanged(Repr)
      ensures Get(old(inProgress), pid).Some? && status == 0 ==>
        && failed == old(failed)
        && (raised.None? ==> finished == Put(old(finished), pid, Get(old(inProgress), pid).value))
        && (raised.None? ==> |results| == |old(results)| + 1 && results[..|old(results)|] == old(results))
        && (raised.Some? ==> results == old(results))
      ensures Get(old(inProgress), pid).Some? && status != 0 ==>
        && finished == old(finished) && results == old(results)
        && (raised.None? ==> failed == Put(old(failed), pid, Get(old(inProgress), pid).value))
      ensures Get(old(inProgress), pid).Some? ==>
        Get(inProgress, pid).None? || (old(queue) != [] && old(queue)[0].Key() == pid)
      ensures && Get(old(inProgress), pid).Some? && status == 0 && raised.None?
              && (old(queue) == [] || old(queue)[0] != Get(old(inProgress), pid).value)
        ==> results[|old(results)|] == old(Get(inProgress, pid).value.SuccessResult(codec))
      ensures Get(old(inProgress), pid).Some? && status == 0 && raised.None? ==>
        var r := Get(old(inProgress), pid).value;
        (old(queue) == [] || old(queue)[0] != r) && !Truthy(old(r.ErrorOutputNow(codec))) ==>
        r.Registry().calls == old(r.Registry().calls) + SuccessCalls(r.Registry().successCallbacks, old(r.OutputNow(codec)))
      ensures Get(old(inProgress), pid).Some? ==>
        var r := Get(old(inProgress), pid).value;
        !stopped && |Remove(old(inProgress), r.Key())| < concurrency && old(queue) != [] && old(queue)[0] != r ==>
        R.Started(old(queue)[0], now)
    {
      var process := Get(inProgress, pid);
      if process.None? {
        return None;
      }
      var r := process.value;
      assert Entry(pid, r) in inProgress;
      assert r.Key() == pid;
      raised := Settle(r, status, now);
    }

    /** The runnable `r` taken out of progress after its child exited with
        `status`: status 0 finishes it, any other status fails it. */
    method Settle(r: R.Runnable, status: int, now: int) returns (raised: Option<Throwable>)
      requires Valid() && r.Objects() <= Repr
      modifies this`queue, this`inProgress, this`results, this`finished, this`failed, r.Objects(), HeadProcess(queue)
      ensures Valid()
      ensures var a := Admit(old(queue), Remove(old(inProgress), r.Key()), concurrency, stopped);
        queue == a.queue && inProgress == a.inProgress
      ensures InFlight(queue, inProgress) <= old(InFlight(queue, inProgress))
      ensures status == 0 ==>
        && failed == old(failed)
        && (raised.None? ==> finished == Put(old(finished), r.Key(), r))
        && (raised.None? ==> |results| == |old(results)| + 1 && results[..|old(results)|] == old(results))
        && (raised.Some? ==> results == old(results))
      ensures status == 0 && raised.None? && (old(queue) == [] || old(queue)[0] != r) ==>
        results[|old(results)|] == old(r.SuccessResult(codec))
      ensures status == 0 && raised.None? && (old(queue) == [] || old(queue)[0] != r) && !Truthy(old(r.ErrorOutputNow(codec))) ==>
        r.Registry().calls == old(r.Registry().calls) + SuccessCalls(r.Registry().successCallbacks, old(r.OutputNow(codec)))
      ensures status != 0 ==>
        && finished == old(finished) && results == old(results)
        && (raised.None? ==> failed == Put(old(failed), r.Key(), r))
      ensures !stopped && |Remove(old(inProgress), r.Key())| < concurrency && old(queue) != [] && old(queue)[0] != r ==>
        R.Started(old(queue)[0], now)
    {
      if status == 0 {
        raised := MarkAsFinished(r, now);
      } else {
        raised := MarkAsFailed(r, now);
      }
    }

    /** One pass of `wait()` over the runnables in progress when it starts,
        at time `now`, taking the steps of the corrected scan (`ScanSteps`):
        an overdue one is timed out and nothing else, an inline one that is
        not overdue is finished. A Throwable that escapes ends the pass. */
    method Scan(snapshot: seq<R.Runnable>, now: int) returns (raised: Option<Throwable>)
      requires Valid()
      requires forall k :: 0 <= k < |snapshot| ==> snapshot[k].Objects() <= InFlight(queue, inProgress)
      modifies this`queue, this`inProgress, this`results, this`finished, this`timeouts, InFlight(queue, inProgress)
      ensures Valid()
      ensures InFlight(queue, inProgress) <= old(InFlight(queue, inProgress))
      ensures |old(results)| <= |results| && results[..|old(results)|] == old(results)
    {
      InFlightInRepr();
      for j := 0 to |snapshot|
        invariant Valid()
        invariant InFlight(queue, inProgress) <= old(InFlight(queue, inProgress)) <= old(Repr) == Repr
        invariant |old(results)| <= |results| && results[..|old(results)|] == old(results)
      {
        var r := snapshot[j];
        var elapsed := r.CurrentExecutionTime(now);
        if elapsed.Failure? {
          return Some(elapsed.error);
        }
        var steps := ScanSteps(r.Synchronous?, elapsed.value > timeout);
        HeadInFlight(queue, inProgress);
        raised := None;
        if TimeOut in steps {
          raised := MarkAsTimedOut(r, now);
        } else if Finish in steps {
          raised := MarkAsFinished(r, now);
        }
        if raised.Some? {
          return;
        }
      }
      raised := None;
    }

    /** One run of the SIGCHLD handler: each reaped pid in turn, under the
        signal's status. A signal with status 0 files nothing as failed,
        and one with any other status finishes nothing, whatever the
        reaped children did. */
    method HandleSignal(sig: Signal, now: int) returns (raised: Option<Throwable>)
      requires Valid()
      modifies this`queue, this`inProgress, this`results, this`finished, this`failed, InFlight(queue, inProgress)
      ensures Valid()
      ensures InFlight(queue, inProgress) <= old(InFlight(queue, inProgress))
      ensures |old(results)| <= |results| && results[..|old(results)|] == old(results)
      ensures sig.status == 0 ==> failed == old(failed)
      ensures sig.status != 0 ==> finished == old(finished) && results == old(results)
    {
      for j := 0 to |sig.reaped|
        invariant Valid()
        invariant InFlight(queue, inProgress) <= old(InFlight(queue, inProgress))
        invariant |old(results)| <= |results| && results[..|old(results)|] == old(results)
        invariant sig.status == 0 ==> failed == old(failed)
        invariant sig.status != 0 ==> finished == old(finished) && results == old(results)
      {
        HeadInFlight(queue, inProgress);
        if Get(inProgress, sig.reaped[j]).Some? {
          EntryInFlight(queue, inProgress, Entry(sig.reaped[j], Get(inProgress, sig.reaped[j]).value));
        }
        raised := OnChildExit(sig.reaped[j], sig.status, now);
        if raised.Some? {
          return;
        }
      }
      raised := None;
    }

    /** The signals that arrive during one sleep of `wait()`, handled in
        order. */
    method Reap(signals: seq<Signal>, now: int) returns (raised: Option<Throwable>)
      requires Valid()
      modifies this`queue, this`inProgress, this`results, this`finished, this`failed, InFlight(queue, inProgress)
      ensures Valid()
      ensures InFlight(queue, inProgress) <= old(InFlight(queue, inProgress))
      ensures |old(results)| <= |results| && results[..|old(results)|] == old(results)
      ensures (forall k :: 0 <= k < |signals| ==> signals[k].status == 0) ==> failed == old(failed)
      ensures (forall k :: 0 <= k < |signals| ==> signals[k].status != 0) ==>
        finished == old(finished) && results == old(results)
    {
      for j := 0 to |signals|
        invariant Valid()
        invariant InFlight(queue, inProgress) <= old(InFlight(queue, inProgress))
        invariant |old(results)| <= |results| && results[..|old(results)|] == old(results)
        invariant (forall k :: 0 <= k < |signals| ==> signals[k].status == 0) ==> failed == old(failed)
        invariant (forall k :: 0 <= k < |signals| ==> signals[k].status != 0) ==>
          finished == old(finished) && results == old(results)
      {
        raised := HandleSignal(signals[j], now);
        if raised.Some? {
          return;
        }
      }
      raised := None;
    }

    /** `wait()` over the polls in `schedule`: while anything is in
        progress, a scan, then the children that exit during the sleep. A
        Throwable that escapes a callback or a start ends the wait. The
        results only grow. */
    method Wait(schedule: seq<Tick>) returns (outcome: WaitOutcome)
      requires Valid()
      modifies this`queue, this`inProgress, this`results, this`finished, this`failed, this`timeouts
      modifies InFlight(queue, inProgress)
      ensures Valid()
      ensures InFlight(queue, inProgress) <= old(InFlight(queue, inProgress))
      ensures |old(results)| <= |results| && results[..|old(results)|] == old(results)
      ensures outcome.Completed? ==> inProgress == [] && outcome.results == results
      ensures outcome.StillWaiting? ==> inProgress != []
    {
      var i := 0;
      while inProgress != []
        invariant Valid() && 0 <= i <= |schedule|
        invariant InFlight(queue, inProgress) <= old(InFlight(queue, inProgress))
        invariant |old(results)| <= |results| && results[..|old(results)|] == old(results)
        decreases |schedule| - i
      {
        if i == |schedule| {
          return StillWaiting;
        }
        var snapshot := Values(inProgress);
        assert forall k :: 0 <= k < |snapshot| ==> inProgress[k] in inProgress;
        assert forall k :: 0 <= k < |snapshot| ==> snapshot[k].Objects() <= InFlight(queue, inProgress);
        var raised := Scan(snapshot, schedule[i].now);
        if raised.Some? {
          return WaitOutcome.Raised(raised.value);
        }
        if inProgress == [] {
          break;
        }
        raised := Reap(schedule[i].signals, schedule[i].now);
        if raised.Some? {
          return WaitOutcome.Raised(raised.value);
        }
        i := i + 1;
      }
      return Completed(results);
    }

    /** The first half of `add`: a callable is made into a runnable by the
        runtime (`files`, `osPid` and `os` as there), a runnable is taken as
        it is. */
    method Prepare(x: Submission, outputLength: Option<int>, files: set<string>, osPid: Value, os: seq<Value> -> PR.Launch)
      returns (r: R.Runnable)
      requires Valid()
      modifies runtime
      ensures Valid()
      ensures unchanged(HeadProcess(queue))
      ensures x.Prepared? ==> r == x.runnable && unchanged(runtime)
      ensures x.Callable? ==> fresh(r.Objects()) && R.Unstarted(r) && R.NoCallbacks(r)
      ensures Made(x, r, outputLength, files, osPid, os, old(runtime.Fields()), runtime.Fields(), runtime.lastId, old(binary), old(supported))
    {
      match x {
        case Callable(job) =>
          HeadInFlight(queue, inProgress);
          InFlightInRepr();
          assert runtime !in HeadProcess(queue);
          r := runtime.CreateProcess(job, outputLength, binary, supported, files, osPid, codec, os);
        case Prepared(runnable) =>
          r := runnable;
      }
    }

    /** `add($process, $outputLength)` at time `now`: the runnable joins the
        queue, then `notify()`. Only the runtime and the process of the
        head of the new queue change. */
    method Add(x: Submission, outputLength: Option<int>, now: int, files: set<string>, osPid: Value, os: seq<Value> -> PR.Launch)
      returns (r: R.Runnable, raised: Option<Throwable>)
      requires Valid()
      modifies this`queue, this`inProgress, this`Repr, runtime
      modifies if queue != [] then queue[0].Process() else if x.Prepared? then x.runnable.Process() else {}
      ensures Valid()
      ensures Repr == old(Repr) + r.Objects()
      ensures x.Prepared? ==> r == x.runnable && unchanged(runtime)
      ensures x.Callable? ==> fresh(r.Objects()) && R.NoCallbacks(r)
      ensures Made(x, r, outputLength, files, osPid, os, old(runtime.Fields()), runtime.Fields(), runtime.lastId, old(binary), old(supported))
      ensures x.Callable? && (stopped || |old(inProgress)| >= concurrency || old(queue) != []) ==> R.Unstarted(r)
      ensures Admission(raised, queue, inProgress) == Admit(old(queue) + [r], old(inProgress), concurrency, stopped)
      ensures !stopped && |old(inProgress)| < concurrency && old(queue) != [] ==> R.Started(old(queue)[0], now)
      ensures !stopped && |old(inProgress)| < concurrency && old(queue) == [] && x.Prepared? ==> R.Started(x.runnable, now)
    {
      match x {
        case Callable(job) =>
          r, raised := AddCallable(job, outputLength, now, files, osPid, os);
        case Prepared(runnable) =>
          r := runnable;
          HeadOfAppend(queue, r);
          raised := Enqueue(r, now);
      }
    }

    /** `add($callable, $outputLength)`: `createProcess` makes the runnable,
        which then joins the queue as in `add`. */
    method AddCallable(job: Job, outputLength: Option<int>, now: int, files: set<string>, osPid: Value, os: seq<Value> -> PR.Launch)
      returns (r: R.Runnable, raised: Option<Throwable>)
      requires Valid()
      modifies this`queue, this`inProgress, this`Repr, runtime, HeadProcess(queue)
      ensures Valid()
      ensures Repr == old(Repr) + r.Objects()
      ensures fresh(r.Objects()) && R.NoCallbacks(r)
      ensures Made(Callable(job), r, outputLength, files, osPid, os, old(runtime.Fields()), runtime.Fields(), runtime.lastId, old(binary), old(supported))
      ensures stopped || |old(inProgress)| >= concurrency || old(queue) != [] ==> R.Unstarted(r)
      ensures Admission(raised, queue, inProgress) == Admit(old(queue) + [r], old(inProgress), concurrency, stopped)
      ensures !stopped && |old(inProgress)| < concurrency && old(queue) != [] ==> R.Started(old(queue)[0], now)
    {
      r := Prepare(Callable(job), outputLength, files, osPid, os);
      assert Owned();
      HeadOfAppend(old(queue), r);
      raised := Enqueue(r, now);
    }

    /** `$pool[] = $process`: the same as `add($process)`; `r` is the
        runnable it queues. */
    method OffsetSet(x: Submission, now: int, files: set<string>, osPid: Value, os: seq<Value> -> PR.Launch)
      returns (ghost r: R.Runnable, raised: Option<Throwable>)
      requires Valid()
      modifies this`queue, this`inProgress, this`Repr, runtime
      modifies if queue != [] then queue[0].Process() else if x.Prepared? then x.runnable.Process() else {}
      ensures Valid()
      ensures Repr == old(Repr) + r.Objects()
      ensures x.Prepared? ==> r == x.runnable && unchanged(runtime)
      ensures x.Callable? ==> fresh(r.Objects()) && R.NoCallbacks(r)
      ensures Made(x, r, None, files, osPid, os, old(runtime.Fields()), runtime.Fields(), runtime.lastId, old(binary), old(supported))
      ensures x.Callable? && (stopped || |old(inProgress)| >= concurrency || old(queue) != []) ==> R.Unstarted(r)
      ensures Admission(raised, queue, inProgress) == Admit(old(queue) + [r], old(inProgress), concurrency, stopped)
      ensures !stopped && |old(inProgress)| < concurrency && old(queue) != [] ==> R.Started(old(queue)[0], now)
      ensures !stopped && |old(inProgress)| < concurrency && old(queue) == [] && x.Prepared? ==> R.Started(x.runnable, now)
    {
      var made;
      made, raised := Add(x, None, now, files, osPid, os);
      r := made;
    }

    /** `stop()`: no queued runnable is started from now on. */
    method Stop()
      modifies this`stopped
      ensures stopped
    {
      stopped := true;
    }

    method Concurrency(n: int) returns (self: Pool)
      modifies this`concurrency
      ensures self == this && concurrency == n
    {
      concurrency := n;
      self := this;
    }

    method Timeout(t: int) returns (self: Pool)
      modifies this`timeout
      ensures self == this && timeout == t
    {
      timeout := t;
      self := this;
    }

    method SleepTime(t: int) returns (self: Pool)
      modifies this`sleepTime
      ensures self == this && sleepTime == t
    {
      sleepTime := t;
      self := this;
    }

    method WithBinary(b: string) returns (self: Pool)
      modifies this`binary
      ensures self == this && binary == b
    {
      binary := b;
      self := this;
    }

    /** `forceSynchronous()`: runnables made from now on run inline. */
    method ForceSynchronous() returns (self: Pool)
      modifies this`supported
      ensures self == this && !supported
    {
      supported := false;
      self := this;
    }

    /** `autoload($path)`: the runtime is initialised with that autoloader. */
    method Autoload(path: string, files: set<string>) returns (self: Pool)
      requires Valid()
      modifies runtime
      ensures Valid() && self == this
      ensures runtime.isInitialised && runtime.autoloader == Some(Str(path))
      ensures runtime.childProcessScript == Some(runtime.dir + "/ChildRuntime.php")
      ensures runtime.currentId == old(runtime.currentId) && runtime.myPid == old(runtime.myPid)
    {
      runtime.Init(Some(path), files);
      self := this;
    }

    function FailedItems(a: seq<Entry<R.Runnable>>): (items: seq<Result<PS.FailedProcess, Throwable>>)
      requires forall e :: e in a ==> e.value.Objects() <= Repr
      reads this, Repr
      ensures |items| == |a|
      ensures forall i :: 0 <= i < |a| ==> items[i] == FailedItem(a[i].value, codec)
    {
      if a == [] then [] else [FailedItem(a[0].value, codec)] + FailedItems(a[1..])
    }

    /** Every failed runnable has its status line exactly when each can be
        described. */
    lemma FailedLinesPresent()
      requires Valid()
      ensures PS.AllPresent(PS.LinesOf(FailedItems(failed), classes))
          <==> forall i :: 0 <= i < |failed| ==> Describable(failed[i].value, codec)
    {
      var lines := PS.LinesOf(FailedItems(failed), classes);
      forall i | 0 <= i < |failed|
        ensures lines[i].Success? <==> Describable(failed[i].value, codec)
      {
        LineOfFailedItem(failed[i].value, codec, classes);
      }
    }

    /** `(string) $pool->status()`: the counts of the queue and of the
        finished, failed and timed-out runnables, then a line per failed
        process; it fails exactly when a failed runnable cannot be
        described. */
    function Status(): (s: Result<string, Throwable>)
      requires Valid()
      reads this, runtime, Repr
      ensures failed == [] ==> s == Success(PS.Summary(|queue|, |finished|, 0, |timeouts|) + PS.EOL)
      ensures (exists i :: 0 <= i < |failed| && failed[i].value.Synchronous?) ==> s.Failure?
      ensures s.Success? <==> forall i :: 0 <= i < |failed| ==> Describable(failed[i].value, codec)
      ensures failed != [] && s.Success? ==>
        var lines := PS.LinesOf(FailedItems(failed), classes);
        && PS.AllPresent(lines)
        && s.value == PS.Summary(|queue|, |finished|, |failed|, |timeouts|) + PS.EOL + PS.Listed(PS.Texts(lines))
    {
      FailedLinesPresent();
      RenderedStatus();
      PS.Render(|queue|, |finished|, |failed|, |timeouts|, FailedItems(failed), classes)
    }

    /** The rendering `status()` returns: the summary alone when nothing
        failed, and the summary with the listed lines when every failed
        runnable has one. */
    lemma RenderedStatus()
      requires Valid()
      ensures var rendered := PS.Render(|queue|, |finished|, |failed|, |timeouts|, FailedItems(failed), classes);
        && (failed == [] ==> rendered == Success(PS.Summary(|queue|, |finished|, 0, |timeouts|) + PS.EOL))
        && (var lines := PS.LinesOf(FailedItems(failed), classes);
            PS.AllPresent(lines) && failed != [] ==>
            rendered == Success(PS.Summary(|queue|, |finished|, |failed|, |timeouts|) + PS.EOL + PS.Listed(PS.Texts(lines))))
    {
      var items := FailedItems(failed);
      if failed == [] {
        PS.NoFailures(|queue|, |finished|, 0, |timeouts|, classes);
      } else if PS.AllPresent(PS.LinesOf(items, classes)) {
        PS.Layout(|queue|, |finished|, |failed|, |timeouts|, items, classes);
      }
    }
  }
}
