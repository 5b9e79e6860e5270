/** The script run in the child process, as a function from its arguments
    and what the task does to what it writes and the exit code. Which files
    exist is a parameter, so is what calling the decoded task gives. */
module ChildRuntime {
  import opened Wrappers
  import opened Php
  import Output
  import Wire

  /** The limit used when none is passed: 1024 * 10 bytes. */
  const DefaultOutputLength := 10240

  const NoAutoloader := "No autoloader provided in child process."
  const MissingAutoloader := "Could not find autoloader in child process: "
  const NoClosure := "No valid closure was passed to the child process."

  /** What the child leaves behind: its two streams and its exit code. */
  datatype Effect = Effect(stdout: string, stderr: string, exitCode: int)

  /** `$argv[$i] ?? null`. */
  function Arg(argv: seq<string>, i: nat): (v: Value)
    ensures i < |argv| ==> v == Str(argv[i])
    ensures i >= |argv| ==> v == Null
  {
    if i < |argv| then Str(argv[i]) else Null
  }

  /** The output limit: the third argument cast to int when it is truthy,
      the default otherwise. */
  function OutputLimit(argv: seq<string>): (n: int)
    ensures Truthy(Arg(argv, 3)) ==> n == IntCast(argv[3])
    ensures !Truthy(Arg(argv, 3)) ==> n == DefaultOutputLength
  {
    if Truthy(Arg(argv, 3)) then IntCast(argv[3]) else DefaultOutputLength
  }

  /** The `try` block: the encoded result to print, or the Throwable that
      ends it. The arguments are checked in order (autoloader given,
      autoloader exists, task given) before the task runs. */
  function Attempt(argv: seq<string>, files: set<string>, c: Wire.Serializer, invoke: Value -> Outcome): (o: Result<string, Throwable>)
    ensures !Truthy(Arg(argv, 1)) ==> o == Failure(Native(InvalidArgumentClass, NoAutoloader))
    ensures Truthy(Arg(argv, 1)) && argv[1] !in files ==>
      o == Failure(Native(InvalidArgumentClass, MissingAutoloader + argv[1]))
    ensures Truthy(Arg(argv, 1)) && argv[1] in files && !Truthy(Arg(argv, 2)) ==>
      o == Failure(Native(InvalidArgumentClass, NoClosure))
    ensures Truthy(Arg(argv, 1)) && argv[1] in files && Truthy(Arg(argv, 2)) ==>
      var ran := invoke(Wire.Decode(c, argv[2]));
      && (ran.Raised? ==> o == Failure(ran.error))
      && (ran.Returned? && |Wire.Encode(c, ran.value)| > OutputLimit(argv) ==>
            o == Failure(Output.OutputTooLarge(OutputLimit(argv))))
      && (ran.Returned? && |Wire.Encode(c, ran.value)| <= OutputLimit(argv) ==>
            o == Success(Wire.Encode(c, ran.value)))
    ensures o.Success? ==> |o.value| <= OutputLimit(argv)
    ensures o.Success? ==> Truthy(Arg(argv, 1)) && argv[1] in files && Truthy(Arg(argv, 2))
    ensures o.Success? && Wire.RoundTrips(c) ==> invoke(Wire.Decode(c, argv[2])) == Returned(Wire.Decode(c, o.value))
  {
    if !Truthy(Arg(argv, 1)) then Failure(Native(InvalidArgumentClass, NoAutoloader))
    else if argv[1] !in files then Failure(Native(InvalidArgumentClass, MissingAutoloader + argv[1]))
    else if !Truthy(Arg(argv, 2)) then Failure(Native(InvalidArgumentClass, NoClosure))
    else
      match invoke(Wire.Decode(c, argv[2]))
      case Raised(e) => Failure(e)
      case Returned(v) =>
        var serialized := Wire.Encode(c, v);
        if |serialized| > OutputLimit(argv) then Failure(Output.OutputTooLarge(OutputLimit(argv)))
        else
          assert Wire.RoundTrips(c) ==> Wire.Decode(c, serialized) == v by {
            if Wire.RoundTrips(c) {
              Wire.DecodeEncode(c, v);
            }
          }
          Success(serialized)
  }

  /** The whole script: on success the encoded result goes to standard output
      alone and the exit code is 0; any Throwable is captured as a wire
      record, encoded, written to standard error alone, and the exit code
      is 1. `trace` gives a Throwable's trace text. */
  function Run(argv: seq<string>, files: set<string>, c: Wire.Serializer, invoke: Value -> Outcome,
               trace: Throwable -> string): (x: Effect)
    ensures x.exitCode == 0 || x.exitCode == 1
    ensures x.exitCode == 0 ==> x.stderr == "" && Attempt(argv, files, c, invoke) == Success(x.stdout)
    ensures x.exitCode == 1 ==> x.stdout == "" && Attempt(argv, files, c, invoke).Failure?
    ensures x.exitCode == 1 ==>
      var e := Attempt(argv, files, c, invoke).error;
      x.stderr == Wire.Encode(c, Record(Output.Capture(e, trace(e))))
  {
    match Attempt(argv, files, c, invoke)
    case Success(s) => Effect(s, "", 0)
    case Failure(e) => Effect("", Wire.Encode(c, Record(Output.Capture(e, trace(e)))), 1)
  }

  /** What the parent decodes from a failed child is the record of the
      failure: its class, message and trace. */
  lemma FailureRecordRoundTrip(argv: seq<string>, files: set<string>, c: Wire.Serializer,
                               invoke: Value -> Outcome, trace: Throwable -> string)
    requires Wire.RoundTrips(c)
    ensures var x := Run(argv, files, c, invoke, trace);
      x.exitCode == 1 ==>
        var e := Attempt(argv, files, c, invoke).error;
        Wire.Decode(c, x.stderr) == Record(SerializableException(e.Class(), e.message, trace(e)))
  {
    var x := Run(argv, files, c, invoke, trace);
    if x.exitCode == 1 {
      var e := Attempt(argv, files, c, invoke).error;
      Wire.DecodeEncode(c, Record(Output.Capture(e, trace(e))));
    }
  }

  /** A result whose encoding is exactly as long as the limit is printed; one
      byte longer and the child fails with `outputTooLarge(limit)`. */
  lemma LimitIsInclusive(argv: seq<string>, files: set<string>, c: Wire.Serializer, invoke: Value -> Outcome, v: Value)
    requires Truthy(Arg(argv, 1)) && argv[1] in files && Truthy(Arg(argv, 2))
    requires invoke(Wire.Decode(c, argv[2])) == Returned(v)
    ensures |Wire.Encode(c, v)| == OutputLimit(argv) ==>
      Attempt(argv, files, c, invoke) == Success(Wire.Encode(c, v))
    ensures |Wire.Encode(c, v)| == OutputLimit(argv) + 1 ==>
      Attempt(argv, files, c, invoke) == Failure(Output.OutputTooLarge(OutputLimit(argv)))
  {
  }

  /** A limit argument of "0", or none at all, means the default; a truthy
      one that is not a number casts to 0, so that every result is too large. */
  lemma LimitArgument(argv: seq<string>)
    ensures |argv| <= 3 ==> OutputLimit(argv) == DefaultOutputLength
    ensures |argv| > 3 && argv[3] == "0" ==> OutputLimit(argv) == DefaultOutputLength
    ensures |argv| > 3 && argv[3] == "none" ==> OutputLimit(argv) == 0
  {
    if |argv| > 3 && argv[3] == "none" {
      assert LeadingDigits(argv[3]) == [];
    }
  }
}
