/** The parent's side of the wire: where the child finds its autoloader,
    how a task is encoded, the argv a child is started with, and the ids
    given to processes. The class's static state is one object here. */
module ParentRuntime {
  import opened Wrappers
  import opened Php
  import opened Task
  import Wire
  import Base64
  import PP = ParallelProcess
  import SP = SynchronousProcess
  import Runnable
  import ChildRuntime
  import Output

  /** The four places an autoloader may be, relative to the directory of the
      runtime's source, in the order they are tried. */
  function Candidates(dir: string): (paths: seq<string>)
    ensures |paths| == 4
  {
    [dir + "/../../../../autoload.php", dir + "/../../../autoload.php",
     dir + "/../../vendor/autoload.php", dir + "/../../../vendor/autoload.php"]
  }

  /** `reset(array_filter($paths, 'file_exists'))`: the first path that
      exists, or false when none does. */
  function FirstExisting(paths: seq<string>, files: set<string>): (r: Value)
    ensures r == Bool(false) <==> forall j :: 0 <= j < |paths| ==> paths[j] !in files
    ensures r != Bool(false) ==> exists k :: (0 <= k < |paths| && r == Str(paths[k]) && paths[k] in files
      && forall j :: 0 <= j < k ==> paths[j] !in files)
  {
    if paths == [] then Bool(false)
    else if paths[0] in files then Str(paths[0])
    else
      var r := FirstExisting(paths[1..], files);
      assert forall j :: 1 <= j < |paths| ==> paths[j] == paths[1..][j - 1];
      r
  }

  /** The autoloader `init` settles on: the given path verbatim, otherwise
      the first existing candidate. */
  function ChooseAutoloader(given: Option<string>, dir: string, files: set<string>): (a: Value)
    ensures given.Some? ==> a == Str(given.value)
    ensures given.None? ==> a == FirstExisting(Candidates(dir), files)
  {
    match given
    case Some(path) => Str(path)
    case None => FirstExisting(Candidates(dir), files)
  }

  /** What is serialized for a task: a Closure wrapped in a
      SerializableClosure, any other callable as it is. */
  function TaskValue(job: Job): (v: Value)
    ensures job.Closure? ==> v == Object(SerializableClosureClass, [Str(job.code)], None)
    ensures !job.Closure? ==> v == job.obj
  {
    match job
    case Closure(code, _) => Object(SerializableClosureClass, [Str(code)], None)
    case Invokable(obj, _) => obj
    case TaskObject(obj, _) => obj
  }

  /** `encodeTask($task)`: a Closure travels inside a SerializableClosure,
      any other callable as it is. */
  function EncodeTask(c: Wire.Serializer, job: Job): (s: string)
    ensures job.Closure? ==> s == Wire.Encode(c, Object(SerializableClosureClass, [Str(job.code)], None))
    ensures !job.Closure? ==> s == Wire.Encode(c, job.obj)
  {
    Wire.Encode(c, TaskValue(job))
  }

  /** `decodeTask($text)`: an empty text gives false, and anything else
      than false is what the bytes of the text unserialize to. */
  function DecodeTask(c: Wire.Serializer, text: string): (v: Value)
    ensures Wire.RefusesEmpty(c) && text == "" ==> v == Bool(false)
    ensures v != Bool(false) ==> c.unserialize(Base64.Decode(text)) == Some(v)
  {
    Wire.Decode(c, text)
  }

  /** Decoding an encoded task gives back what was serialized: the callable
      itself, or the wrapper of a Closure. */
  lemma TaskRoundTrip(c: Wire.Serializer, job: Job)
    requires Wire.RoundTrips(c)
    ensures DecodeTask(c, EncodeTask(c, job)) == TaskValue(job)
    ensures !job.Closure? ==> DecodeTask(c, EncodeTask(c, job)) == job.obj
  {
    Wire.DecodeEncode(c, TaskValue(job));
  }

  /** An encoded task is never empty, so the child never takes it for a
      missing one. */
  lemma EncodedTaskIsTruthy(c: Wire.Serializer, job: Job)
    requires Wire.RoundTrips(c) && Wire.RefusesEmpty(c)
    ensures Truthy(Str(EncodeTask(c, job)))
  {
    var v := TaskValue(job);
    assert c.unserialize(c.serialize(v)) == Some(v);
    assert c.serialize(v) != [];
    var text := EncodeTask(c, job);
    assert |text| >= 4;
    assert text != "0";
  }

  /** The text of the id made from a counter and the cached pid. */
  function IdText(counter: int, myPid: Value): (s: string)
    ensures |IntToString(counter)| <= |s| && s[..|IntToString(counter)|] == IntToString(counter)
  {
    IntToString(counter) + ToPhpString(myPid)
  }

  /** The int a process is given as its id: PHP converts the numeric id text
      when passing it to the constructor's `int` parameter. Without a pid
      (`getmypid()` failed) the id is the counter alone. */
  function IdNumber(counter: int, myPid: Value): (n: int)
    ensures myPid == Null || myPid == Bool(false) ==> n == counter
  {
    assert myPid == Null || myPid == Bool(false) ==> IdText(counter, myPid) == IntToString(counter) by {
      assert IntToString(counter) + "" == IntToString(counter);
    }
    IntCastRoundTrip(counter);
    IntCast(IdText(counter, myPid))
  }

  /** The id of counter `i` under a pid is `i` shifted left by the pid's
      digits, plus the pid. */
  lemma IdNumberValue(i: nat, pid: nat)
    ensures IdNumber(i, Int(pid)) == i * Pow10(|NatToDecimal(pid)|) + pid
  {
    var a, d := NatToDecimal(i), NatToDecimal(pid);
    assert IdText(i, Int(pid)) == a + d;
    DigitsValueAppend(a, d);
    IntCastOfDigits(a + d);
    DecimalRoundTrip(i);
    DecimalRoundTrip(pid);
  }

  /** Under pid 1 the id of counter `i` is `10 * i + 1`. */
  lemma IdsUnderPidOne(i: nat)
    ensures IdNumber(i, Int(1)) == 10 * i + 1
  {
    SingleDigitShift(1);
    IdNumberValue(i, 1);
  }

  lemma ShiftInjective(i: nat, j: nat, p: nat, d: nat)
    requires i != j && p >= 1
    ensures i * p + d != j * p + d
  {
    if i < j {
      assert (j - i) * p >= 1;
    } else {
      assert (i - j) * p >= 1;
    }
  }

  /** With the pid fixed, different counters give different ids: the pid's
      digits only shift the counter's. */
  lemma IdsDistinct(i: nat, j: nat, pid: nat)
    requires i != j
    ensures IdNumber(i, Int(pid)) != IdNumber(j, Int(pid))
  {
    IdNumberValue(i, pid);
    IdNumberValue(j, pid);
    ShiftInjective(i, j, Pow10(|NatToDecimal(pid)|), pid);
  }

  /** How a child reads an argument of its command line. */
  function ArgText(v: Value): string {
    ToPhpString(v)
  }

  /** The child's `$argv`: the command without the binary, as strings. */
  function ChildArgv(command: seq<Value>): (argv: seq<string>)
    requires |command| >= 1
    ensures |argv| == |command| - 1
    ensures forall i :: 0 <= i < |argv| ==> argv[i] == ArgText(command[i + 1])
  {
    seq(|command| - 1, i requires 0 <= i < |command| - 1 => ArgText(command[i + 1]))
  }

  /** The output-length argument: an int, or null when none was given. */
  function LengthArg(outputLength: Option<int>): (v: Value)
    ensures outputLength.Some? ==> v == Int(outputLength.value)
    ensures outputLength.None? ==> v == Null
  {
    match outputLength
    case Some(n) => Int(n)
    case None => Null
  }

  /** The limit the child uses is the one given, except that none and 0 both
      mean the default. */
  lemma LimitTransmitted(command: seq<Value>, outputLength: Option<int>)
    requires |command| == 5 && command[4] == LengthArg(outputLength)
    ensures outputLength.Some? && outputLength.value != 0 ==>
      ChildRuntime.OutputLimit(ChildArgv(command)) == outputLength.value
    ensures outputLength.None? || outputLength.value == 0 ==>
      ChildRuntime.OutputLimit(ChildArgv(command)) == ChildRuntime.DefaultOutputLength
  {
    var argv := ChildArgv(command);
    assert argv[3] == ToPhpString(LengthArg(outputLength));
    if outputLength.Some? {
      var n := outputLength.value;
      assert argv[3] == IntToString(n);
      if n != 0 {
        NonZeroIsTruthy(n);
        IntCastRoundTrip(n);
      } else {
        assert IntToString(n) == "0";
      }
    }
  }

  lemma NonZeroIsTruthy(n: int)
    requires n != 0
    ensures Truthy(Str(IntToString(n)))
  {
    if IntToString(n) == "0" {
      IntCastRoundTrip(n);
      IntCastOfDigits("0");
    }
  }

  /** What the operating system gives a launched command: a pid and, once it
      has exited, the text of its two streams. */
  datatype Launch = Launch(pid: int, stdout: string, stderr: string)

  /** The command line a child is launched on: the binary, the child
      script, the autoloader, the encoded task and the output length. */
  function Command(binary: string, script: string, autoloader: Value, c: Wire.Serializer, job: Job,
                   outputLength: Option<int>): (command: seq<Value>)
    ensures |command| == 5 && command[3] == Str(EncodeTask(c, job)) && command[4] == LengthArg(outputLength)
    ensures command[..3] == [Str(binary), Str(script), autoloader]
  {
    [Str(binary), Str(script), autoloader, Str(EncodeTask(c, job)), LengthArg(outputLength)]
  }

  /** The runnable `createProcess` makes of `job` under `id`: an inline one
      without support, otherwise a child on `command` as `os` launched it. */
  predicate Makes(r: Runnable.Runnable, job: Job, id: int, supported: bool, command: seq<Value>, os: seq<Value> -> Launch)
  {
    && r.Id() == id
    && (!supported ==> r.Synchronous? && r.s.job == job)
    && (supported ==> var l := os(command);
          r.Parallel? && r.p.handle == PP.Handle(command, l.pid, l.stdout, l.stderr))
  }

  /** The values of the runtime's static fields that `createProcess`
      changes. */
  datatype StaticFields = StaticFields(isInitialised: bool, autoloader: Option<Value>, childProcessScript: Option<string>,
                                       currentId: int, myPid: Value)

  /** The static fields `createProcess` leaves, `after`, from those in
      `before`, for a runtime whose source file is in `dir`: `init()` the
      first time, keeping what it set afterwards, then one more id. */
  predicate AdvancedFrom(before: StaticFields, after: StaticFields, dir: string, files: set<string>, osPid: Value)
  {
    && after.isInitialised && after.autoloader.Some? && after.childProcessScript.Some?
    && (before.isInitialised ==>
          after.autoloader == before.autoloader && after.childProcessScript == before.childProcessScript)
    && (!before.isInitialised ==>
          after.autoloader == Some(ChooseAutoloader(None, dir, files)) && after.childProcessScript == Some(dir + "/ChildRuntime.php"))
    && after.currentId == before.currentId + 1
    && after.myPid == (if before.myPid == Null then osPid else before.myPid)
  }

  /** The id `getId()` gives next from the fields in `before`: `IdNumber`
      of the counter one up and of the pid, fetched from `osPid` only while
      unknown. */
  function NextIdFrom(before: StaticFields, osPid: Value): int
  {
    IdNumber(before.currentId + 1, if before.myPid == Null then osPid else before.myPid)
  }

  /** The runtime's static state. */
  class ParentRuntime {
    /** The directory of the runtime's source file. */
    const dir: string
    var isInitialised: bool
    var autoloader: Option<Value>
    var childProcessScript: Option<string>
    var currentId: int
    var myPid: Value
    /** The id `getId()` gave last, as the int a process receives. */
    ghost var lastId: int

    /** `init` has run exactly when its two fields are set. */
    predicate Valid()
      reads this
    {
      isInitialised ==> autoloader.Some? && childProcessScript.Some?
    }

    constructor (dir: string)
      ensures this.dir == dir && Valid()
      ensures !isInitialised && autoloader.None? && childProcessScript.None?
      ensures currentId == 0 && myPid == Null
    {
      this.dir := dir;
      isInitialised, autoloader, childProcessScript, currentId, myPid := false, None, None, 0, Null;
      lastId := 0;
    }

    /** The static fields as they stand. */
    function Fields(): StaticFields
      reads this
    {
      StaticFields(isInitialised, autoloader, childProcessScript, currentId, myPid)
    }

    /** `init($autoloader)`: the autoloader chosen, the child script next to
        this file; the id counter and pid are kept. */
    method Init(given: Option<string>, files: set<string>)
      modifies this`isInitialised, this`autoloader, this`childProcessScript
      ensures Valid() && isInitialised
      ensures autoloader == Some(ChooseAutoloader(given, dir, files))
      ensures childProcessScript == Some(dir + "/ChildRuntime.php")
      ensures currentId == old(currentId) && myPid == old(myPid)
    {
      autoloader := Some(ChooseAutoloader(given, dir, files));
      childProcessScript := Some(dir + "/ChildRuntime.php");
      isInitialised := true;
    }

    /** `getId()`: the pid is fetched on the first call only (`osPid` is what
        `getmypid()` gives); the counter goes up by one and the id is the
        counter's digits followed by the pid's. */
    method GetId(osPid: Value) returns (id: string)
      modifies this`currentId, this`myPid
      ensures myPid == (if old(myPid) == Null then osPid else old(myPid))
      ensures currentId == old(currentId) + 1
      ensures id == IdText(currentId, myPid)
    {
      if myPid == Null {
        myPid := osPid;
      }
      currentId := currentId + 1;
      id := IdText(currentId, myPid);
    }

    /** `createProcess($task, $outputLength, $binary)`. `supported` is
        `Pool::isSupported()`, `files` the files that exist, `osPid` what
        `getmypid()` gives and `os` what the system does with a command.
        Initialisation happens first, once; without support the task runs
        inline and nothing is encoded; otherwise a child is launched on
        `[binary, child script, autoloader, encoded task, output length]`. */
    method CreateProcess(job: Job, outputLength: Option<int>, binary: string, supported: bool,
                         files: set<string>, osPid: Value, c: Wire.Serializer, os: seq<Value> -> Launch)
      returns (r: Runnable.Runnable)
      requires Valid()
      modifies this
      ensures Valid() && AdvancedFrom(old(Fields()), Fields(), dir, files, osPid)
      ensures fresh(r.Objects())
      ensures lastId == IdNumber(currentId, myPid)
      ensures Makes(r, job, lastId, supported,
                    Command(binary, childProcessScript.value, autoloader.value, c, job, outputLength), os)
      ensures Runnable.Unstarted(r) && Runnable.NoCallbacks(r)
    {
      if !isInitialised {
        Init(None, files);
      }
      var id := NextId(osPid);
      if !supported {
        r := RunInline(job, id);
      } else {
        r := LaunchChild(job, outputLength, binary, id, c, os);
      }
    }

    /** `getId()` as evaluated for the constructor's argument in both
        branches of `createProcess`: PHP coerces the id text to the `int`
        parameter, read here with `IntCast`, which agrees with that
        coercion for digit strings within the range of a PHP int. */
    method NextId(osPid: Value) returns (id: int)
      modifies this`currentId, this`myPid, this`lastId
      ensures myPid == (if old(myPid) == Null then osPid else old(myPid))
      ensures currentId == old(currentId) + 1
      ensures id == IdNumber(currentId, myPid) && lastId == id
    {
      var text := GetId(osPid);
      id := IntCast(text);
      lastId := id;
    }

    /** The unsupported branch of `createProcess`: the task is wrapped to
        run inline under the id it was given. */
    method RunInline(job: Job, id: int) returns (r: Runnable.Runnable)
      ensures fresh(r.Objects())
      ensures r.Synchronous? && r.s.job == job && r.s.id == id
      ensures r.s.output.None? && r.s.errorOutput.None? && r.s.executionTime.None? && r.s.trace == []
      ensures r.Registry().successCallbacks == [] && r.Registry().errorCallbacks == []
      ensures r.Registry().timeoutCallbacks == [] && r.Registry().calls == []
    {
      var s := new SP.SynchronousProcess(job, id);
      r := Runnable.Synchronous(s);
    }

    /** The supported branch of `createProcess`: the child's command line is
        laid out and the process object made under the id it was given. */
    method LaunchChild(job: Job, outputLength: Option<int>, binary: string, id: int,
                       c: Wire.Serializer, os: seq<Value> -> Launch)
      returns (r: Runnable.Runnable)
      requires Valid() && isInitialised
      ensures fresh(r.Objects())
      ensures r.Parallel? && r.p.id == id
      ensures r.p.handle.command == [Str(binary), Str(childProcessScript.value), autoloader.value, Str(EncodeTask(c, job)), LengthArg(outputLength)]
      ensures var l := os(r.p.handle.command);
        r.p.handle == PP.Handle(r.p.handle.command, l.pid, l.stdout, l.stderr)
      ensures r.p.pid.None? && r.p.output.None? && r.p.errorOutput.None? && r.p.startTime.None?
      ensures r.Registry().successCallbacks == [] && r.Registry().errorCallbacks == []
      ensures r.Registry().timeoutCallbacks == [] && r.Registry().calls == []
    {
      var command := [Str(binary), Str(childProcessScript.value), autoloader.value, Str(EncodeTask(c, job)), LengthArg(outputLength)];
      var l := os(command);
      var p := new PP.ParallelProcess(PP.Handle(command, l.pid, l.stdout, l.stderr), id);
      r := Runnable.Parallel(p);
    }
  }

  /** What the child is asked to run, once decoded, is what calling the job
      in the parent does: `__invoke` for a Task, the call itself otherwise. */
  function JobOutcome(job: Job): Outcome {
    match job
    case TaskObject(_, b) => Invoke(b).result
    case Closure(_, b) => b.run
    case Invokable(_, b) => b.run
  }

  /** End to end: a child started on the command `createProcess` lays out,
      with an autoloader that exists and a job that returns `v` within the
      limit, prints the encoded `v` and exits with 0, and the parent's
      `getOutput()` gives `v` back. */
  lemma ChildRunsTask(command: seq<Value>, binary: string, script: string, path: string, job: Job,
                      outputLength: Option<int>, files: set<string>, c: Wire.Serializer,
                      invoke: Value -> Outcome, trace: Throwable -> string, v: Value)
    requires Wire.RoundTrips(c) && Wire.RefusesEmpty(c)
    requires command == [Str(binary), Str(script), Str(path), Str(EncodeTask(c, job)), LengthArg(outputLength)]
    requires Truthy(Str(path)) && path in files
    requires invoke(TaskValue(job)) == JobOutcome(job) && JobOutcome(job) == Returned(v)
    requires |Wire.Encode(c, v)| <= ChildRuntime.OutputLimit(ChildArgv(command))
    ensures var x := ChildRuntime.Run(ChildArgv(command), files, c, invoke, trace);
      && x == ChildRuntime.Effect(Wire.Encode(c, v), "", 0)
      && PP.OutputView(None, x.stdout, c) == v
  {
    var argv := ChildArgv(command);
    assert ChildRuntime.Attempt(argv, files, c, invoke) == Success(Wire.Encode(c, v)) by {
      assert argv[1] == path;
      assert argv[2] == EncodeTask(c, job);
      EncodedTaskIsTruthy(c, job);
      TaskRoundTrip(c, job);
    }
    PP.StreamRoundTrip(c, v);
  }

  /** A child whose `try` block ends with `e` exits with 1 and nothing on
      standard output, and the parent resolves its error output to a
      Throwable of `e`'s class, or a ParallelException naming it, whose
      message begins with `e`'s. */
  lemma FailedChildResolves(argv: seq<string>, files: set<string>, c: Wire.Serializer,
                            invoke: Value -> Outcome, trace: Throwable -> string, e: Throwable, classes: Classes)
    requires Wire.RoundTrips(c)
    requires ChildRuntime.Attempt(argv, files, c, invoke) == Failure(e)
    ensures var x := ChildRuntime.Run(argv, files, c, invoke, trace);
      && x == ChildRuntime.Effect("", Wire.Encode(c, Record(Output.Capture(e, trace(e)))), 1)
      && var r := PP.Resolve(PP.ErrorOutputView(None, x.stderr, c), classes);
      && r.Success?
      && (r.value.Class() == e.Class() || (r.value.ParallelException? && r.value.originalClass == e.Class()))
      && |e.message| <= |r.value.message| && r.value.message[..|e.message|] == e.message
      && (Output.Construct(classes, e.Class(), "").Some? ==> r.value.Class() == e.Class())
  {
    PP.ChildFailureResolves(c, e, trace(e), classes);
  }

  /** End to end, the failure path: a child started on the command
      `createProcess` lays out, with an autoloader that exists and a job
      that raises `e`, prints nothing, writes the encoded record of `e` on
      standard error and exits with 1; the parent resolves that error
      output to a Throwable of `e`'s class, or a ParallelException naming
      it, whose message begins with `e`'s. */
  lemma ChildReportsFailure(command: seq<Value>, binary: string, script: string, path: string, job: Job,
                            outputLength: Option<int>, files: set<string>, c: Wire.Serializer,
                            invoke: Value -> Outcome, trace: Throwable -> string, e: Throwable, classes: Classes)
    requires Wire.RoundTrips(c) && Wire.RefusesEmpty(c)
    requires command == [Str(binary), Str(script), Str(path), Str(EncodeTask(c, job)), LengthArg(outputLength)]
    requires Truthy(Str(path)) && path in files
    requires invoke(TaskValue(job)) == JobOutcome(job) && JobOutcome(job) == Raised(e)
    ensures var x := ChildRuntime.Run(ChildArgv(command), files, c, invoke, trace);
      && x == ChildRuntime.Effect("", Wire.Encode(c, Record(Output.Capture(e, trace(e)))), 1)
      && var r := PP.Resolve(PP.ErrorOutputView(None, x.stderr, c), classes);
      && r.Success?
      && (r.value.Class() == e.Class() || (r.value.ParallelException? && r.value.originalClass == e.Class()))
      && |e.message| <= |r.value.message| && r.value.message[..|e.message|] == e.message
  {
    var argv := ChildArgv(command);
    assert argv[1] == path;
    assert argv[2] == EncodeTask(c, job);
    EncodedTaskIsTruthy(c, job);
    TaskRoundTrip(c, job);
    FailedChildResolves(argv, files, c, invoke, trace, e, classes);
  }

  /** End to end, a result over the limit: the child reports
      `outputTooLarge(limit)`, and the parent resolves it to a ParallelError,
      a class it can always build, whose message begins with that one. */
  lemma ChildReportsOversizedResult(command: seq<Value>, binary: string, script: string, path: string, job: Job,
                                    outputLength: Option<int>, files: set<string>, c: Wire.Serializer,
                                    invoke: Value -> Outcome, trace: Throwable -> string, v: Value, classes: Classes)
    requires Wire.RoundTrips(c) && Wire.RefusesEmpty(c)
    requires command == [Str(binary), Str(script), Str(path), Str(EncodeTask(c, job)), LengthArg(outputLength)]
    requires Truthy(Str(path)) && path in files
    requires invoke(TaskValue(job)) == JobOutcome(job) && JobOutcome(job) == Returned(v)
    requires |Wire.Encode(c, v)| > ChildRuntime.OutputLimit(ChildArgv(command))
    ensures var x := ChildRuntime.Run(ChildArgv(command), files, c, invoke, trace);
      var tooLarge := Output.OutputTooLarge(ChildRuntime.OutputLimit(ChildArgv(command))).message;
      && x.exitCode == 1 && x.stdout == ""
      && var r := PP.Resolve(PP.ErrorOutputView(None, x.stderr, c), classes);
      && r.Success? && r.value.Class() == ParallelErrorClass
      && |tooLarge| <= |r.value.message| && r.value.message[..|tooLarge|] == tooLarge
  {
    var argv := ChildArgv(command);
    assert argv[1] == path;
    assert argv[2] == EncodeTask(c, job);
    EncodedTaskIsTruthy(c, job);
    TaskRoundTrip(c, job);
    var tooLarge := Output.OutputTooLarge(ChildRuntime.OutputLimit(argv));
    assert tooLarge.Class() == ParallelErrorClass;
    FailedChildResolves(argv, files, c, invoke, trace, tooLarge, classes);
  }
}
