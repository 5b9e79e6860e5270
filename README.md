# A verified model of the flokurz/async process pool

flokurz/async, a fork of spatie/async, runs PHP callables in parallel. `Pool::add` turns each callable
into a *runnable*:

- a `ParallelProcess`: a child PHP process started on
  `src/Runtime/ChildRuntime.php`, which receives the task as
  `base64_encode(serialize(...))` on its command line;
- a `SynchronousProcess`: the task runs inline in the parent. This happens
  when the platform lacks `pcntl`/`posix`/`proc_open` or when
  `forceSynchronous()` was called.

The pool keeps four PHP arrays of runnables:

- a queue;
- the runnables in progress, keyed by pid;
- finished, failed and timed out.

It also keeps the list of results. At most `concurrency` runnables run at
once. A child's exit reaches the pool through a SIGCHLD handler: the status
that comes with the signal decides, 0 finishing and anything else failing
every child the handler reaps in that run. `wait()` polls the
runnables in progress; it times out the overdue ones and finishes the
inline ones. Each runnable carries success, error and timeout callbacks:

- an error is routed to the first callback whose parameter type accepts it;
- a failure inside the child crosses back as a serialized
  `SerializableException` record.

`PoolStatus` renders a summary line and one line per failed process.

The model is a set of Dafny modules, one per source file, in the source's
own form:

- The pool, the runtime's static state, both process classes and their
  callback registry are classes. Their methods change fields under
  `modifies` clauses and state the new state.
- The child script, base64, the wire format, the error classes,
  `Task::__invoke` and the status rendering are functions. The lemmas about
  them carry the properties.
- PHP's own semantics that the code relies on are defined in `Php`:
  truthiness, decimal rendering, the `(int)` cast of a string, conversion
  to string (with the Error and TypeError it raises for objects and
  arrays) and `is_a`. Base64 follows section 4 of RFC 4648 for encoding,
  and PHP's lenient `base64_decode` for decoding.
- PHP arrays with integer keys are sequences of key/value entries in
  insertion order (`PhpArray`).

Things the model cannot see are parameters:

- `serialize`/`unserialize` are a `Wire.Serializer`, a pair of functions;
  `serialize` is total, and the lemmas that need it assume the round trip;
- which files exist is a set of paths;
- `getmypid()` is a value;
- the operating system's launch of a command is a function from the
  command to a pid and the text of the two streams;
- the clock is a tick count given by the caller;
- what user code does is a `Task.Behaviour`: the outcome of `configure()`,
  the outcome of `run()` or the call, and the ticks `configure()` and
  `run()` take together.

## Model

| member | source | states |
|---|---|---|
| Php.UninitializedRead | src/Process/ParallelProcess.php:21-30 | reading a typed property that was never assigned raises an `Error` |
| Php.Truthy | src/Process/ParallelProcess.php:106-111 | falsy exactly for null, false, 0, "", "0" and the empty array |
| Php.NatToDecimal | src/Runtime/ParentRuntime.php:123 | the decimal rendering of a natural has at least one digit, only digits, and no leading zero except for 0 |
| Php.DecimalRoundTrip | src/Runtime/ParentRuntime.php:123 | the digits rendered for `n` denote `n` |
| Php.DigitsValueAppend | src/Runtime/ParentRuntime.php:123 | concatenated digit strings denote the left number shifted by the right one's length, plus the right number |
| Php.IntToString | src/Runtime/ParentRuntime.php:123 | the rendering of an int is never empty |
| Php.SkipSpaces | src/Runtime/ChildRuntime.php:10 | `(int)` skips a suffix-preserving run of leading white space and stops at a non-space |
| Php.LeadingDigits | src/Runtime/ChildRuntime.php:10 | `(int)` reads the longest prefix of digits, stopping at the first non-digit |
| Php.IntCastOfDigits | src/Runtime/ChildRuntime.php:10 | a string of digits casts to the number it denotes |
| Php.IntCastOfNegative | src/Runtime/ChildRuntime.php:10 | a minus sign followed by digits casts to the negated number |
| Php.IntCastRoundTrip | src/Runtime/ChildRuntime.php:10 | casting the rendering of any int back with `(int)` gives the int |
| Php.IntCast | src/Runtime/ChildRuntime.php:10 | a string that, after white space, has no sign and no leading digit casts to 0 |
| Php.IntToStringInjective | src/Output/ParallelError.php:22-25 | distinct ints render as distinct strings |
| Php.ToPhpString | src/PoolStatus.php:67 | a string is itself; an int casts back to itself; a scalar keeps its truthiness; an object with `__toString()` is its text; a Throwable starts with its class and message |
| Php.Interpolate | src/PoolStatus.php:67 | exactly an object without `__toString()` raises Error naming its class; an object with one gives its text; everything else converts |
| Php.MessageArgument | src/Output/ParallelError.php:15 | exactly an array or an object without `__toString()` as the `string $message` raises TypeError; an object with one passes its text; everything else converts |
| Php.IsA | src/Process/ProcessCallbacks.php:140 | a class is itself and each class or interface it extends or implements, names compared without regard to case; a class unknown to PHP is only itself |
| Php.IsACaseInsensitive | src/Process/ProcessCallbacks.php:140 | the case of the type name asked about never changes the answer |
| Php.LibraryErrorsAreExceptions | src/Output/ParallelError.php:7 | `ParallelError` and `ParallelException` are `Exception`s, hence `Throwable`s |
| Base64.CharOf | src/Runtime/ParentRuntime.php:100 | each 6-bit value maps to an alphabet character other than the pad |
| Base64.IndexOf | src/Runtime/ParentRuntime.php:109 | the decoder's character table yields only 6-bit values |
| Base64.IndexOfCharOf | src/Runtime/ParentRuntime.php:100-109 | the decoder's table inverts the encoder's alphabet |
| Base64.EncodeGroup | src/Runtime/ParentRuntime.php:100 | three bytes become four characters |
| Base64.Encode | src/Runtime/ParentRuntime.php:100 | `base64_encode` yields 4 characters per started group of 3 bytes |
| Base64.DecodeValues | src/Runtime/ParentRuntime.php:109 | four 6-bit values give three bytes |
| Base64.Sextets | src/Runtime/ParentRuntime.php:109 | the lenient decoder keeps the alphabet characters and drops the rest, so a foreign character shortens the input |
| Base64.DecodeSextets | src/Runtime/ParentRuntime.php:109 | four values give three bytes; a final three give two, a final two give one, a final one gives none |
| Base64.Decode | src/Runtime/ParentRuntime.php:109 | `base64_decode` never fails; its length follows the number of alphabet characters read |
| Base64.GroupValues | src/Runtime/ParentRuntime.php:100-109 | splitting three bytes into 6-bit values and joining them back gives the bytes |
| Base64.GroupRoundTrip | src/Runtime/ParentRuntime.php:100-109 | a full group in front of any text decodes to its three bytes, then the text |
| Base64.OneByteRoundTrip | src/Runtime/ParentRuntime.php:100-109 | a single byte, padded with "==", decodes back |
| Base64.TwoBytesRoundTrip | src/Runtime/ParentRuntime.php:100-109 | two bytes, padded with "=", decode back |
| Base64.RoundTrip | src/Runtime/ParentRuntime.php:100-109 | for every byte string, decoding `base64_encode`'s output gives the bytes back |
| Base64.SextetsAppend | src/Runtime/ParentRuntime.php:109 | the decoder reads a concatenation as the values of each part in turn |
| Base64.SkipsForeign | src/Process/ParallelProcess.php:109 | a character outside the alphabet (white space, say) changes nothing in what is decoded |
| Base64.UnpaddedText | src/Process/ParallelProcess.php:109 | text whose padding was dropped still decodes: "YjoxOw" gives the bytes of `b:1;` |
| Wire.Encode | src/Runtime/ParentRuntime.php:100 | the payload's length is 4 per started group of 3 serialized bytes |
| Wire.Decode | src/Process/ParallelProcess.php:109 | false when the decoded bytes do not unserialize; any other value is what they unserialize to |
| Wire.DecodeEncode | src/Runtime/ParentRuntime.php:92-110 | `@unserialize(base64_decode(...))` of `base64_encode(serialize($v))` is `$v` |
| Wire.DecodeEmpty | src/Process/ParallelProcess.php:127 | an empty stream decodes to `false` |
| Wire.EncodeInjective | src/Runtime/ChildRuntime.php:30 | distinct values travel as distinct payloads |
| Wire.UnpaddedPayloadReads | src/Process/ParallelProcess.php:109 | a payload without its padding reads as the value it carries |
| Output.FromException | src/Output/ParallelError.php:13-16 | a scalar, a Throwable or an object with `__toString()` becomes a ParallelError whose message is its text; an array or another object makes the constructor raise TypeError |
| Output.OutputTooLarge | src/Output/ParallelError.php:22-25 | a ParallelError whose message is the fixed text around the decimal limit |
| Output.OutputTooLargeDistinct | src/Output/ParallelError.php:22-25 | different limits give different messages |
| Output.ParallelExceptionKeepsArguments | src/Output/ParallelException.php:20-41 | the getters return the constructor's class and trace; the object is an Exception |
| Output.GetOriginalClass | src/Output/ParallelException.php:30-33 | the class the exception was built with |
| Output.GetOriginalTrace | src/Output/ParallelException.php:38-41 | the trace the exception was built with |
| Output.Capture | src/Output/SerializableException.php:21-26 | the record holds the Throwable's class name, message and trace |
| Output.Construct | src/Output/SerializableException.php:35 | `new $class($message)` builds that class with that message; ParallelError always builds; ParallelException never does (three parameters) |
| Output.AsThrowable | src/Output/SerializableException.php:31-41 | the recorded class rebuilt with message + blank line + trace; a ParallelException naming the class when it cannot be built |
| Output.CaptureAsThrowable | src/Output/SerializableException.php:21-41 | a captured failure comes back with its class, always when the parent can build it, or as a ParallelException naming it; its message in front |
| Task.Invoke | src/Task.php:14-19 | `configure()` is called first; `run()` is called exactly when `configure()` returned; the result is `run()`'s, or `configure()`'s exception |
| Task.ConfigureResultDiscarded | src/Task.php:14-19 | what `configure()` returns has no effect on the invocation |
| ProcessCallbacks.IsAllowedThrowableType | src/Process/ProcessCallbacks.php:118-145 | an untyped or parameterless callback accepts anything; one typed with the Throwable's class accepts it; for a class PHP does not know, only that type, in any case, does |
| ProcessCallbacks.FirstAllowed | src/Process/ProcessCallbacks.php:86-94 | the first callback from a position that accepts the Throwable; none before it accepts; none at all when it answers nothing |
| ProcessCallbacks.SuccessCalls | src/Process/ProcessCallbacks.php:67-69 | every success callback, in order, with the same output |
| ProcessCallbacks.TimeoutCalls | src/Process/ProcessCallbacks.php:107-109 | every timeout callback, in order, without arguments |
| ProcessCallbacks.ErrorCalls | src/Process/ProcessCallbacks.php:86-94 | at most one call: empty iff no callback accepts, otherwise exactly the first accepting one |
| ProcessCallbacks.LibraryErrorsAllowed | src/Process/ProcessCallbacks.php:118-145 | callbacks typed Exception, Throwable or ParallelError accept the library's errors |
| ProcessCallbacks.CallbackRegistry.constructor | src/Process/ProcessCallbacks.php:11-18 | the three callback lists start empty |
| ProcessCallbacks.CallbackRegistry.AddSuccess | src/Process/ProcessCallbacks.php:24-29 | one more success callback at the end; nothing else changes |
| ProcessCallbacks.CallbackRegistry.AddError | src/Process/ProcessCallbacks.php:35-40 | one more error callback at the end; nothing else changes |
| ProcessCallbacks.CallbackRegistry.AddTimeout | src/Process/ProcessCallbacks.php:46-51 | one more timeout callback at the end; nothing else changes |
| ProcessCallbacks.CallbackRegistry.FireSuccess | src/Process/ProcessCallbacks.php:65-71 | the loop calls exactly `SuccessCalls` |
| ProcessCallbacks.CallbackRegistry.FireError | src/Process/ProcessCallbacks.php:82-94 | with no error callback the exception is thrown; otherwise nothing is thrown and exactly `ErrorCalls` are made |
| ProcessCallbacks.CallbackRegistry.FireTimeout | src/Process/ProcessCallbacks.php:105-110 | the loop calls exactly `TimeoutCalls` |
| ChildRuntime.Arg | src/Runtime/ChildRuntime.php:8-9 | `$argv[$i] ?? null` |
| ChildRuntime.OutputLimit | src/Runtime/ChildRuntime.php:10 | the limit is the third argument cast to int when truthy, 10240 otherwise |
| ChildRuntime.Attempt | src/Runtime/ChildRuntime.php:7-36 | the three argument checks fail in order with their messages; then the task's exception is the failure, a payload over the limit fails with `outputTooLarge(limit)`, and one within it is the result |
| ChildRuntime.Run | src/Runtime/ChildRuntime.php:7-47 | exit 0 with the payload on stdout alone, or exit 1 with the encoded failure record on stderr alone |
| ChildRuntime.FailureRecordRoundTrip | src/Runtime/ChildRuntime.php:39-46 | the parent decodes a failed child's stderr to the record of its class, message and trace |
| ChildRuntime.LimitIsInclusive | src/Runtime/ChildRuntime.php:32-34 | a payload exactly at the limit is printed; one byte over fails with `outputTooLarge(limit)` |
| ChildRuntime.LimitArgument | src/Runtime/ChildRuntime.php:10 | no argument or "0" means the default limit; a truthy non-number means a limit of 0 |
| ParallelProcess.Memo | src/Process/ParallelProcess.php:24-27 | a memo field never assigned reads as null (the corrected reading, see Findings) |
| ParallelProcess.OutputView | src/Process/ParallelProcess.php:104-117 | the cached output while truthy, otherwise a fresh decode of stdout |
| ParallelProcess.ErrorOutputView | src/Process/ParallelProcess.php:122-135 | the cached error output while truthy; otherwise the decode of stderr when truthy, and the raw text when not |
| ParallelProcess.OutputViewStable | src/Process/ParallelProcess.php:104-117 | reading the output again after caching gives the same value |
| ParallelProcess.ErrorOutputViewStable | src/Process/ParallelProcess.php:122-135 | reading the error output again after caching gives the same value |
| ParallelProcess.StreamRoundTrip | src/Process/ParallelProcess.php:104-135 | what the child encoded comes back from stdout; from stderr when truthy, otherwise the raw text |
| ParallelProcess.SilentStderrIsFalsy | src/Process/ParallelProcess.php:122-135 | a child that wrote nothing on stderr has the falsy error output "" |
| ParallelProcess.Resolve | src/Process/ParallelProcess.php:172-185 | a record becomes `asThrowable()`; a Throwable passes through; a scalar or an object with `__toString()` becomes a ParallelError of its text; an array or another object raises TypeError in `fromException` |
| ParallelProcess.ChildFailureResolves | src/Process/ParallelProcess.php:172-185 | a failure captured in the child resolves to its class, or a ParallelException naming it, with its message in front |
| ParallelProcess.RawStderrResolves | src/Process/ParallelProcess.php:172-185 | undecodable stderr text becomes a ParallelError carrying the text |
| ParallelProcess.ArrayStderrDoesNotResolve | src/Process/ParallelProcess.php:172-185 | a serialized array on stderr makes resolving raise TypeError |
| ParallelProcess.ParallelProcess.constructor | src/Process/ParallelProcess.php:36-40 | keeps the process and id; memo fields unset; empty callback lists |
| ParallelProcess.ParallelProcess.Start | src/Process/ParallelProcess.php:55-64 | records the start time and then the launched process's pid |
| ParallelProcess.ParallelProcess.Stop | src/Process/ParallelProcess.php:70-75 | the process is killed |
| ParallelProcess.ParallelProcess.GetPid | src/Process/ParallelProcess.php:156-159 | the pid once started; PHP's Error before |
| ParallelProcess.ParallelProcess.CurrentExecutionTime | src/Process/ParallelProcess.php:164-167 | the time since `start()`; PHP's Error before |
| ParallelProcess.ParallelProcess.GetOutput | src/Process/ParallelProcess.php:104-117 | returns `OutputView` and caches it; a falsy decode files the raw stdout as error output |
| ParallelProcess.ParallelProcess.GetErrorOutput | src/Process/ParallelProcess.php:122-135 | returns `ErrorOutputView` and caches it unless a truthy value was cached |
| ParallelProcess.ParallelProcess.ResolveErrorOutput | src/Process/ParallelProcess.php:172-185 | `Resolve` of the error output, or the TypeError it raises; the error output is cached |
| ParallelProcess.ErrorOutputAsDeclared | src/Process/ParallelProcess.php:122-135 | as declared, the first read of the unassigned field raises Error |
| ParallelProcess.OutputAsDeclared | src/Process/ParallelProcess.php:104-117 | as declared, the first read of the unassigned field raises Error |
| ParallelProcess.FirstReadOfFreshProcess | src/Process/ProcessCallbacks.php:57-65 | as declared, `triggerSuccess` on a fresh process raises Error; with a null default a successful child's result comes back |
| SynchronousProcess.ResolveStored | src/Process/SynchronousProcess.php:121-124 | the stored error output if it is a Throwable, otherwise a TypeError |
| SynchronousProcess.InlineOutcome | src/Process/SynchronousProcess.php:74-77 | a Task whose `configure()` returned gives what `__invoke` gives; any other callable gives the call's outcome |
| SynchronousProcess.SynchronousProcess.constructor | src/Process/SynchronousProcess.php:31-35 | keeps the task and id; nothing stored; empty callback lists |
| SynchronousProcess.SynchronousProcess.GetPid | src/Process/SynchronousProcess.php:58-61 | the pid is the id |
| SynchronousProcess.SynchronousProcess.Start | src/Process/SynchronousProcess.php:66-83 | a Task's `configure()` then `run()`, or one call; an exception from `configure()` escapes and nothing is stored; one from the run is stored as error output; otherwise the value is the output; the run's duration is stored |
| SynchronousProcess.SynchronousProcess.Stop | src/Process/SynchronousProcess.php:89-92 | always true |
| SynchronousProcess.SynchronousProcess.CurrentExecutionTime | src/Process/SynchronousProcess.php:113-116 | the stored duration; PHP's Error before a run |
| SynchronousProcess.InlineMatchesInvoke | src/Process/SynchronousProcess.php:70-77 | running a Task inline makes the calls `__invoke` makes and stores its result |
| SynchronousProcess.ErrorOutputAsDeclared | src/Process/SynchronousProcess.php:105-108 | as declared, reading the error output after a run that returned raises Error |
| Runnable.Runnable.CurrentExecutionTime | src/Process/Runnable.php:47 | dispatches to the kind of process |
| Runnable.Runnable.SuccessResult | src/Process/ProcessCallbacks.php:57-72 | what `triggerSuccess` returns: null with a truthy error output, otherwise the output |
| Runnable.Runnable.StartEscape | src/Process/SynchronousProcess.php:70-72 | only a Task's `configure()`, run inline, can throw out of `start()` |
| Runnable.Then | src/Process/ProcessCallbacks.php:24-29 | returns the same runnable with one more success callback |
| Runnable.Catch | src/Process/ProcessCallbacks.php:35-40 | returns the same runnable with one more error callback |
| Runnable.Timeout | src/Process/ProcessCallbacks.php:46-51 | returns the same runnable with one more timeout callback |
| Runnable.Start | src/Process/Runnable.php:11 | only the process object changes (`Started`): a child gets start time `now` and its launched pid and keeps its outputs and kill flag; an inline run makes its calls on the job and stores the duration with the run's value or Throwable, or nothing when `configure()` throws; only `StartEscape` escapes |
| Runnable.Stop | src/Process/Runnable.php:35 | a child is killed; an inline runnable is untouched |
| Runnable.TriggerTimeout | src/Process/ProcessCallbacks.php:105-110 | every timeout callback, in order |
| Runnable.TriggerError | src/Process/ProcessCallbacks.php:78-95 | a resolving TypeError is thrown; otherwise thrown without error callbacks, or passed to the first accepting one; the outputs read the same afterwards |
| Runnable.TriggerSuccess | src/Process/ProcessCallbacks.php:57-72 | a truthy error output runs `triggerError` instead and gives null; otherwise every success callback gets the output, which is returned, and a child whose output decodes falsy has its raw stdout as error output |
| ParentRuntime.Candidates | src/Runtime/ParentRuntime.php:39-44 | the four autoloader locations, in order |
| ParentRuntime.FirstExisting | src/Runtime/ParentRuntime.php:39-48 | `false` iff no candidate exists; otherwise the first existing one |
| ParentRuntime.ChooseAutoloader | src/Runtime/ParentRuntime.php:38-51 | a given path verbatim, otherwise the first existing candidate |
| ParentRuntime.TaskValue | src/Runtime/ParentRuntime.php:94-98 | a Closure is wrapped in a SerializableClosure, any other callable is serialized as it is |
| ParentRuntime.EncodeTask | src/Runtime/ParentRuntime.php:92-101 | a Closure is encoded inside a SerializableClosure, any other callable as it is |
| ParentRuntime.DecodeTask | src/Runtime/ParentRuntime.php:107-110 | an empty text gives false; any other value is what the decoded bytes unserialize to |
| ParentRuntime.TaskRoundTrip | src/Runtime/ParentRuntime.php:92-110 | `decodeTask(encodeTask($t))` gives the serialized value; the callable itself unless it is a Closure |
| ParentRuntime.EncodedTaskIsTruthy | src/Runtime/ChildRuntime.php:20-22 | an encoded task is never falsy, so the child never reports it missing |
| ParentRuntime.IdText | src/Runtime/ParentRuntime.php:123 | the id text starts with the counter's digits |
| ParentRuntime.IdNumber | src/Runtime/ParentRuntime.php:115-124 | without a pid the id is the counter itself |
| ParentRuntime.IdNumberValue | src/Runtime/ParentRuntime.php:115-124 | the int id is the counter shifted by the pid's digit count, plus the pid |
| ParentRuntime.IdsDistinct | src/Runtime/ParentRuntime.php:115-124 | under one pid, distinct counters give distinct ids |
| ParentRuntime.IdsUnderPidOne | src/Runtime/ParentRuntime.php:115-124 | under pid 1 the id of counter `i` is `10 * i + 1` |
| ParentRuntime.ChildArgv | src/Runtime/ParentRuntime.php:76-82 | the child's `$argv` is the command without the binary, as strings |
| ParentRuntime.LengthArg | src/Runtime/ParentRuntime.php:81 | the output-length argument is the int given, or null |
| ParentRuntime.LimitTransmitted | src/Runtime/ParentRuntime.php:76-82 | the child uses the length given unless it is none or 0, which mean the default |
| ParentRuntime.NonZeroIsTruthy | src/Runtime/ChildRuntime.php:10 | the rendering of a non-zero int is truthy |
| ParentRuntime.ParentRuntime.constructor | src/Runtime/ParentRuntime.php:17-30 | not initialised; counter 0; pid unknown |
| ParentRuntime.ParentRuntime.Init | src/Runtime/ParentRuntime.php:36-57 | stores the chosen autoloader and the child script; marks initialised; keeps the counter and pid |
| ParentRuntime.ParentRuntime.GetId | src/Runtime/ParentRuntime.php:115-124 | the pid is fetched only while unknown; the counter goes up by one; the id is counter then pid |
| ParentRuntime.ParentRuntime.NextId | src/Runtime/ParentRuntime.php:84 | `self::getId()` passed to an `int` parameter: the counter goes up by one, the pid is fetched only while unknown, and the process gets `IdNumber` of the new counter and pid, kept as `lastId` |
| ParentRuntime.ParentRuntime.CreateProcess | src/Runtime/ParentRuntime.php:66-85 | initialises once; the static fields move as `AdvancedFrom` says: initialised, the autoloader and child script kept or chosen, the counter one up, the pid fetched only while unknown; unsupported gives an inline runnable of the task; otherwise a child on `[binary, script, autoloader, encoded task, length]`; both fresh, unstarted, with no callbacks, under `IdNumber` of the new counter and pid |
| ParentRuntime.ParentRuntime.RunInline | src/Runtime/ParentRuntime.php:72-74 | a fresh inline runnable of the task with the given id and empty callback lists |
| ParentRuntime.ParentRuntime.LaunchChild | src/Runtime/ParentRuntime.php:76-84 | a fresh child runnable on the five-part command with the given id |
| ParentRuntime.ChildRunsTask | src/Runtime/ChildRuntime.php:7-38 | end to end: a child started on that command runs the task, exits 0, and the parent's `getOutput()` gives the task's value |
| ParentRuntime.FailedChildResolves | src/Runtime/ChildRuntime.php:39-46 | a child whose `try` block fails exits 1 with the record on stderr, and the parent resolves it to the class, or a ParallelException naming it, with the message in front |
| ParentRuntime.ChildReportsFailure | src/Runtime/ChildRuntime.php:26-46 | end to end: a task that raises `e` makes the child exit 1, and the parent resolves its error output to `e`'s class or a ParallelException naming it, with `e`'s message in front |
| ParentRuntime.ChildReportsOversizedResult | src/Runtime/ChildRuntime.php:30-46 | end to end: a result over the limit makes the child exit 1, and the parent resolves a ParallelError carrying the `outputTooLarge` message |
| PhpArray.Find | src/Pool.php:405 | the first position of a key, or none when the key is absent |
| PhpArray.Get | src/Pool.php:405 | `$a[$k] ?? null`: a value iff the key is present, and it is the value at that key |
| PhpArray.Put | src/Pool.php:254 | an existing key keeps its place and takes the value; a new key goes last; keys stay unique |
| PhpArray.Remove | src/Pool.php:263 | `unset`: the key is gone, every other entry stays, keys stay unique, one entry fewer when it was present |
| PhpArray.Values | src/Pool.php:201 | the values in insertion order |
| Pool.Admit | src/Pool.php:154-167 | below the cap the head leaves the queue; unless stopped it is started, and starting's Throwable is reported and leaves it out of progress, otherwise it is filed under its pid; at most one moves; the cap holds |
| Pool.StoppedPoolDrainsQueue | src/Pool.php:240-244 | on a stopped pool, as many `notify()` calls as queued runnables empty the queue and start none |
| Pool.DrainStopped | src/Pool.php:240-244 | `notify()` on a stopped pool never starts anything or throws |
| Pool.ScanStepsAsWritten | src/Pool.php:201-209 | as written, an overdue runnable is timed out and an inline one is finished, independently |
| Pool.ScanSteps | src/Pool.php:201-209 | as intended, at most one step: overdue means timed out, otherwise inline means finished |
| Pool.OverdueInlineRunnableFiledTwice | src/Pool.php:201-209 | as written, an overdue inline runnable is both timed out and finished |
| Pool.Shift | src/Pool.php:160 | `array_shift`: the head leaves and the others are renumbered from 0 |
| Pool.QueueAfterStartAsWritten | src/Pool.php:252 | as written, the queue after a start (`array_shift` in `notify()`, then this `unset`) holds renumbered keys without the started id, and one entry fewer again when that id is a position |
| Pool.UnsetAfterShiftDrops | src/Pool.php:229-254 | when the started runnable's id is a position of the renumbered queue, another runnable is lost with it |
| Pool.RenumberedQueueLosesRunnable | src/Pool.php:229-254 | under pid 1 with 29 queued runnables, starting the first loses the 24th runnable made |
| Pool.FailedItem | src/PoolStatus.php:60-67 | an inline runnable is refused with a TypeError; a child gives its pid and error output iff it was started |
| Pool.LineOfFailedItem | src/PoolStatus.php:60-67 | a failed runnable has a status line exactly when it is a started child whose error output is not an object without `__toString()` |
| Pool.Pool.constructor | src/Pool.php:19-64 | the defaults: 20 at a time, timeout 300, sleep 50000, the running binary; everything empty and not stopped |
| Pool.Pool.PutInProgress | src/Pool.php:240-255 | nothing when stopped; otherwise only the runnable's process changes, into the `Started` state, and it is filed under its pid unless starting throws, which is reported |
| Pool.Pool.Notify | src/Pool.php:154-167 | the queue, the in-progress map and the reported Throwable become `Admit`'s; only the head's process may change, and a started head is in the `Started` state |
| Pool.Pool.PutInQueue | src/Pool.php:229-234 | the runnable joins the queue, then `notify()`; only the process of the new queue's head may change, into the `Started` state when admitted |
| Pool.Pool.Release | src/Pool.php:263-265 | out of progress, then `notify()`; only the head's process may change; the runnable keeps its callbacks, and, unless it heads the queue, its output, error output and result read the same |
| Pool.Pool.MarkAsFinished | src/Pool.php:261-270 | out of progress and `notify()`, which leaves the head it admits in the `Started` state; once `triggerSuccess()` returns, its value is appended to the results, every success callback has been called in order with the output when the error output was falsy, and the runnable is filed as finished; only the runnable's objects and the head's process change |
| Pool.Pool.Conclude | src/Pool.php:267-269 | the result of `triggerSuccess()` is appended, every success callback called in order with the output when the error output was falsy, and the runnable filed as finished, unless it threw; only the runnable's objects change |
| Pool.Pool.MarkAsTimedOut | src/Pool.php:276-286 | out of progress; a child is killed; its timeout callbacks called; filed under timeouts; then `notify()`, whose result is reported and whose admitted head is in the `Started` state; only the runnable's objects and the head's process change |
| Pool.Pool.Refill | src/Pool.php:285 | the `notify()` closing `markAsTimedOut`: the queue, the in-progress map and the reported Throwable become `Admit`'s, an admitted head is in the `Started` state, and the timed-out runnable's callbacks and kill flag are kept |
| Pool.Pool.Expire | src/Pool.php:278-283 | the steps before `notify()`: out of progress, a child killed, its timeout callbacks called, filed under timeouts |
| Pool.Pool.MarkAsFailed | src/Pool.php:292-301 | out of progress and `notify()`, which leaves the head it admits in the `Started` state; filed as failed only if `triggerError()` returns; only the runnable's objects and the head's process change |
| Pool.Pool.Fail | src/Pool.php:298-300 | `triggerError()`, then the runnable is filed as failed unless it threw; only the runnable's objects and the failed map change |
| Pool.Pool.OnChildExit | src/Pool.php:405-417 | an unknown pid changes nothing; status 0 finishes, appending the runnable's result and calling its success callbacks with the output when the error output was falsy, any other status fails; the runnable leaves progress; an admitted head is in the `Started` state; only that runnable's objects and the head's process may change |
| Pool.Pool.Settle | src/Pool.php:411-417 | status 0 is `markAsFinished`, any other status `markAsFailed`, with what each of them states |
| Pool.Pool.Scan | src/Pool.php:201-209 | one pass over the runnables in progress with the corrected steps (`ScanSteps`), not the two independent tests as written; results only grow |
| Pool.Pool.HandleSignal | src/Pool.php:397-419 | every pid reaped in one handler run is judged by the signal's status: status 0 fails nothing, another status finishes nothing; results only grow; only queued and in-progress runnables may change |
| Pool.Pool.Reap | src/Pool.php:397-419 | the signals of one sleep handled in order; if all carry 0 nothing fails, if none does nothing finishes; results only grow |
| Pool.Pool.Wait | src/Pool.php:198-223 | results only grow; the results returned when nothing is in progress are the pool's |
| Pool.Pool.Prepare | src/Pool.php:181-187 | a runnable is taken as it is; a callable becomes a fresh, unstarted runnable with no callbacks, under the id `getId()` gave, `IdNumber` of the new counter and pid (`NextIdFrom`), on `[binary, script, autoloader, encoded task, length]`, and the runtime's static fields move as `AdvancedFrom` says (`Made`) |
| Pool.Pool.Add | src/Pool.php:175-192 | the runnable, made as `Prepare` states or given, joins the queue and `notify()` runs as `Admit` says; only the runtime and the new head's process change |
| Pool.Pool.AddCallable | src/Pool.php:181-189 | a callable is made into a runnable as `Prepare` states, with the id `IdNumber` of the new counter and pid, which joins the queue as in `Add` |
| Pool.Pool.Enqueue | src/Pool.php:175-189 | the runnable's objects join the pool's, it joins the queue and `notify()` runs as `Admit` says; the old head, or the runnable itself when the queue was empty, is in the `Started` state when admitted; nothing else changes |
| Pool.Pool.OffsetSet | src/Pool.php:331-334 | `$pool[] = $x` adds `$x` with no length, with everything `Add` states, the id included |
| Pool.Pool.Stop | src/Pool.php:425-428 | the pool is stopped |
| Pool.Pool.Concurrency | src/Pool.php:100-105 | sets the cap and returns the pool |
| Pool.Pool.Timeout | src/Pool.php:111-116 | sets the timeout and returns the pool |
| Pool.Pool.SleepTime | src/Pool.php:133-138 | sets the sleep time and returns the pool |
| Pool.Pool.WithBinary | src/Pool.php:144-149 | sets the binary and returns the pool |
| Pool.Pool.ForceSynchronous | src/Pool.php:89-94 | runnables made from now on run inline |
| Pool.Pool.Autoload | src/Pool.php:122-127 | the runtime is initialised with the given path as autoloader and its child script; the counter and the pid are kept |
| Pool.Pool.FailedItems | src/PoolStatus.php:60-68 | the status callback's view of each failed runnable, in order |
| Pool.Pool.Status | src/Pool.php:385-388 | with no failures the summary and an end of line; it fails exactly when a failed runnable cannot be described; otherwise the summary, a blank line and one line each |
| Pool.Pool.RenderedStatus | src/PoolStatus.php:21-27 | the rendering is the summary alone when nothing failed, and the summary with the listed lines when every failed runnable has one |
| PoolStatus.Lines | src/PoolStatus.php:33-36 | `implode(PHP_EOL, ...)`: empty for no lines, starts with the first line, an end of line after it when there are more |
| PoolStatus.LinesPair | src/PoolStatus.php:33-36 | `implode(PHP_EOL, [$a, $b])` is `$a` PHP_EOL `$b` |
| PoolStatus.FieldsRoundTrip | src/PoolStatus.php:41-53 | tags that start with a non-digit, each followed by a count, read back to the counts |
| PoolStatus.Summary | src/PoolStatus.php:41-53 | the summary line reads back to its four counts and starts with "queue: " |
| PoolStatus.SummaryInjective | src/PoolStatus.php:41-53 | distinct counts give distinct summary lines |
| PoolStatus.Describe | src/PoolStatus.php:61-67 | a failure record is shown as the rebuilt Throwable's class and message; exactly an object without `__toString()` raises Error; an object with one is its text; anything else is its text |
| PoolStatus.ChildFailureDescribed | src/PoolStatus.php:61-65 | a child's failure is shown starting with its class or ParallelException, then its message |
| PoolStatus.FailedLine | src/PoolStatus.php:67 | the pid, " failed with ", then the description; it fails exactly when the error output is an object without `__toString()` |
| PoolStatus.LineOf | src/PoolStatus.php:60-67 | the line of a failed process, or the error of the callback or of the line |
| PoolStatus.LinesOf | src/PoolStatus.php:60-67 | one line or error per failed runnable, in order |
| PoolStatus.FirstError | src/PoolStatus.php:60-68 | the first failed runnable the callback cannot describe |
| PoolStatus.Reduce | src/PoolStatus.php:60-68 | `array_reduce` succeeds exactly when no line is an error, and fails with one of them; the null start survives only an empty list; what was accumulated stays in front |
| PoolStatus.ReduceFrom | src/PoolStatus.php:60-68 | the reduction appends each line after an end of line |
| PoolStatus.ReduceStops | src/PoolStatus.php:60-68 | the first error escapes the reduction |
| PoolStatus.FailedToStringLists | src/PoolStatus.php:58-69 | starting from null, `failedToString()` is every line preceded by an end of line |
| PoolStatus.FailedToString | src/PoolStatus.php:58-69 | "" for no failures; it fails exactly when a line is an error, with that line's error |
| PoolStatus.Render | src/PoolStatus.php:21-27 | fails exactly when `failedToString()` does, with its error; otherwise starts with the summary and an end of line |
| PoolStatus.NoFailures | src/PoolStatus.php:21-27 | with no failure the status is the summary and one end of line |
| PoolStatus.Layout | src/PoolStatus.php:21-27 | with failures that can all be described the status is the summary, an empty line, then one line per failed process in order |
| PoolStatus.FirstErrorEscapes | src/PoolStatus.php:21-27 | when a line is an error, rendering throws the first such error |

## Left out

- The Symfony `Process` object is left out. Launching, the operating-system pid and the streams are one opaque `Launch` result; `setTimeout` (`src/Pool.php:246-248`) is not modelled.
- The kill signal in `ParallelProcess::stop` is recorded as a flag, not sent.
- Real time is left out. `microtime(true)` and the timeout are whole ticks, so float seconds and the float `Pool::timeout` argument are not modelled.
- SIGCHLD is not asynchronous here. A signal is handled only where `wait()` sleeps, and `pcntl_waitpid`'s loop is the finite list of pids it reaps. Which pids `pcntl_waitpid(-1, $processState, WNOHANG | WUNTRACED)` returns (stopped children included) is a parameter; `$processState` is not read, as in the source.
- `Pool::isSupported` is a boolean field. Extension detection is not modelled, and `forceSynchronous()` changes that one pool rather than a static flag shared by all pools.
- Pool.Pool.Wait: takes a finite schedule of polls and may end `StillWaiting`; the source loops until nothing is in progress. Its contract states that results grow and the completion condition, not each poll's effect.
- Pool.Pool.Scan: takes the corrected steps, `ScanSteps`, not the two independent tests at `src/Pool.php:202-208`, so `Scan` and `Wait` do not time out and also finish an overdue inline runnable as the source does (the second finding). It states only that results grow and the pool stays consistent; `MarkAsTimedOut` and `MarkAsFinished` state the effect of each step.
- Pool.Pool.Reap: states that results grow and which maps cannot change for the statuses given. `OnChildExit` states the effect of each pid.
- Pool.Pool.HandleSignal: may change any queued or in-progress runnable, not only the ones its pids name; runnables already finished, failed or timed out are unchanged. `OnChildExit` narrows the frame for each pid.
- Pool.Pool.Add: a runnable made from a callable and started at once is not stated in the `Started` state, because that state is relative to the runnable before the call and the runnable did not exist then; `Admit` still gives what its start reports.
- The intermediate callback of `wait()` and `usleep` are left out: the callback is user code.
- Pool.Pool.MarkAsFinished: states the value appended, the success callbacks called and the admitted head `Started` only when the runnable is not also the queue's head. The source allows a runnable queued twice.
- Pool.Pool.MarkAsFinished: on a truthy error output, does not state that the first error callback accepting the resolved Throwable is called. `Runnable.TriggerSuccess` states that.
- Pool.Pool.Conclude: on a truthy error output, does not state the error callback called, as `MarkAsFinished`.
- Pool.Pool.Settle: for status 0 and a truthy error output, does not state the error callback called, as `MarkAsFinished`.
- Pool.Pool.OnChildExit: for status 0 and a truthy error output, does not state the error callback called, as `MarkAsFinished`.
- Pool.Pool.MarkAsFailed: states the admitted head `Started` only when it is not the failed runnable itself, which can happen only for a runnable queued twice.
- Pool.Pool.MarkAsTimedOut: states the admitted head `Started` only when it is not the timed-out runnable itself, as `MarkAsFailed`.
- Pool.Pool.OnChildExit: states the value appended, the success callbacks called and the admitted head `Started` only when the head is not the exited runnable, as `MarkAsFinished`.
- Pool.Pool.MarkAsFailed: does not state which error callbacks are called. `Runnable.TriggerError` states that.
- Pool.Pool.PutInQueue: appends the runnable. The source assigns `$queue[$id]`, so queuing the same runnable twice keeps one entry. Keys are otherwise ignored; see the third finding for where they matter.
- Pool.Pool.Status: does not write back the error outputs that `getErrorOutput()` caches while rendering. `ParallelProcess.ErrorOutputViewStable` shows that a later read sees the same value.
- The `InvalidArgumentException` branch of `Pool::add` (`src/Pool.php:177-179`) is left out: the parameter type already admits only callables and runnables.
- `getQueue`, `getInProgress`, `getFinished`, `getFailed` and `getTimeouts` are the fields themselves. `offsetExists`, `offsetGet` and `offsetUnset` are TODO stubs that return false or do nothing.
- `helpers.php` (`async`, `await`) is left out: it only wraps `createProcess` and `wait`.
- `serialize`, `unserialize` and the `SerializableClosure` wrapper are foreign code and a parameter. The lemmas that need it assume their round trip.
- Wire.Encode: `serialize` is total here. A result that cannot be serialized (a closure, say) throws inside the child's `try` (`src/Runtime/ChildRuntime.php:30`) and would give an exit-1 record; a task that cannot be serialized throws out of `encodeTask`, escaping `add()` before `getId()` runs (`src/Runtime/ParentRuntime.php:80` before `:84`). Neither path is modelled.
- ProcessCallbacks.CallbackRegistry.FireSuccess, FireError and FireTimeout: user callbacks are assumed to return. A callback that throws escapes `trigger*`, so the source then skips filing the runnable (`src/Pool.php:269`, `:283-285` with the `notify()`, `:300`); `MarkAsTimedOut` has no escape path in the model.
- Php.ToPhpString: a Throwable's `__toString()` also gives " in file:line", the stack trace and the previous exceptions; the model keeps the class and message only, so `PoolStatus.Describe` and `Output.FromException` show the start of that text.
- Php.IntCast: numeric strings with a fraction or an exponent (`"1e3"` casts to 1000) and the saturation at `PHP_INT_MAX` are not modelled.
- ParentRuntime.ParentRuntime.NextId: the id text reaches the `int $id` parameter of `SynchronousProcess::create` and `ParallelProcess::create` (`src/Runtime/ParentRuntime.php:73`, `:84`) by PHP's coercion of a numeric string to an `int` parameter, not by an `(int)` cast. The model reads it with `IntCast`, which agrees with that coercion only for digit strings within the range of a PHP int. Ids past `PHP_INT_MAX` make `create()` raise TypeError in PHP; the model never raises it and gives them their exact value.
- Php.Value: there are no floats, references or resources. A task that returns `0.0` is falsy in PHP, so `getOutput()` would then file the raw stdout as error output; the model cannot express that value.
- `require_once` of the autoloader is left out: only the file's existence is checked.
- The trace text of a Throwable is a parameter.
- Which classes PHP knows, and which can be built from a single message, is a parameter. `IsA` follows the declared parents and interfaces.
- ProcessCallbacks.IsAllowedThrowableType: takes what reflection reports about a callback's first parameter. `new ReflectionFunction($callable)` (`src/Process/ProcessCallbacks.php:120`) raises TypeError for an array callable or an invokable object that is not a Closure, and `getName()` (`:140`) fails on a union type; neither error path is modelled, so the model's callbacks are closures and named functions with at most a single class type.
- ParallelProcess.Memo and the methods that use it read an unassigned memo field as null. This is the corrected behaviour, not the source's; the findings model the source's typed-property behaviour.

## Findings

| source | as written | input that shows it | evidently intended | confidence | as-written member | corrected member |
|---|---|---|---|---|---|---|
| src/Process/ParallelProcess.php:24-27 | `$output` and `$errorOutput` are typed with no default, so `triggerSuccess()`'s first `getErrorOutput()` reads an unassigned property and raises `Error`; `SynchronousProcess` (lines 19-22) does the same after a run that returned | a child that exits with 0 and prints the encoding of any truthy value | unassigned memo fields read as null, so a successful child's output reaches the success callbacks | not executed | ParallelProcess.FirstReadOfFreshProcess | ParallelProcess.Memo |
| src/Pool.php:201-208 | the two tests of the scan are independent, so an inline runnable whose run took longer than the timeout is timed out and then also finished | a synchronous pool with `timeout(0)` and a task that takes one tick | an overdue runnable is only timed out | not executed | Pool.OverdueInlineRunnableFiledTwice | Pool.ScanSteps |
| src/Pool.php:229-254 | the queue is keyed by id; `array_shift` in `notify()` renumbers the remaining keys from 0, and `putInProgress` then unsets `$queue[$id]`, which drops whichever runnable now sits at that index | parent pid 1, `concurrency(1)`, 30 callables added before the first finishes: starting the 2nd (id 21) drops the 24th | only the started runnable leaves the queue | not executed | Pool.RenumberedQueueLosesRunnable | Pool.Admit |
