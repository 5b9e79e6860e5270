/** The text a pool's status renders to: a summary line with the four
    counts, then one line per failed process, all joined by PHP_EOL. */
module PoolStatus {
  import opened Wrappers
  import opened Php
  import Output

  const EOL := "\n"

  /** `implode(PHP_EOL, $lines)`: the lines in order, an end of line
      between each two. */
  function Lines(lines: seq<string>): (r: string)
    ensures lines == [] ==> r == ""
    ensures lines != [] ==> lines[0] <= r
    ensures |lines| >= 2 ==> lines[0] + EOL <= r
  {
    if lines == [] then ""
    else if |lines| == 1 then lines[0]
    else lines[0] + EOL + Lines(lines[1..])
  }

  lemma LinesPair(a: string, b: string)
    ensures Lines([a, b]) == a + EOL + b
  {
    assert [a, b][1..] == [b];
  }

  /** The tags of the summary line. */
  const QueueLabel := "queue: "
  const FinishedLabel := " - finished: "
  const FailedLabel := " - failed: "
  const TimeoutLabel := " - timeout: "

  const SummaryTags := [QueueLabel, FinishedLabel, FailedLabel, TimeoutLabel]

  /** Each tag followed by its count, in order. */
  function Fields(tags: seq<string>, counts: seq<nat>): string
    requires |tags| == |counts|
  {
    if tags == [] then "" else tags[0] + (IntToString(counts[0]) + Fields(tags[1..], counts[1..]))
  }

  /** Reads `tag` followed by a decimal count off the front of `s`. */
  function ParseField(tag: string, s: string): Option<(nat, string)> {
    if tag <= s then
      var rest := s[|tag|..];
      var d := LeadingDigits(rest);
      if d == [] then None else Some((DigitsValue(d), rest[|d|..]))
    else None
  }

  /** Reads the counts back, each after its tag, with nothing left over. */
  function ParseFields(tags: seq<string>, s: string): Option<seq<nat>> {
    if tags == [] then (if s == [] then Some([]) else None)
    else
      match ParseField(tags[0], s)
      case None => None
      case Some((n, rest)) =>
        match ParseFields(tags[1..], rest)
        case None => None
        case Some(ns) => Some([n] + ns)
  }

  /** Reads the four counts back from a summary line. */
  function ParseSummary(s: string): Option<seq<nat>> {
    ParseFields(SummaryTags, s)
  }

  /** Every tag starts with something that is not a digit. */
  predicate Separated(tags: seq<string>) {
    forall i :: 0 <= i < |tags| ==> tags[i] != [] && !IsDigit(tags[i][0])
  }

  lemma {:induction false} LeadingDigitsOfPrefix(d: string, tail: string)
    requires AllDigits(d)
    requires tail != [] ==> !IsDigit(tail[0])
    ensures LeadingDigits(d + tail) == d
  {
    if d != [] {
      assert (d + tail)[1..] == d[1..] + tail;
      LeadingDigitsOfPrefix(d[1..], tail);
    } else {
      assert d + tail == tail;
    }
  }

  lemma ParseFieldOf(tag: string, n: nat, tail: string)
    requires tail != [] ==> !IsDigit(tail[0])
    ensures ParseField(tag, tag + (IntToString(n) + tail)) == Some((n, tail))
  {
    var s := tag + (IntToString(n) + tail);
    var d := NatToDecimal(n);
    assert s[|tag|..] == d + tail;
    LeadingDigitsOfPrefix(d, tail);
    DecimalRoundTrip(n);
    assert (d + tail)[|d|..] == tail;
  }

  /** Reading a tag and its count, then the remaining fields. */
  lemma ParseFieldsCons(tags: seq<string>, s: string, n: nat, rest: string, ns: seq<nat>)
    requires tags != [] && ParseField(tags[0], s) == Some((n, rest))
    requires ParseFields(tags[1..], rest) == Some(ns)
    ensures ParseFields(tags, s) == Some([n] + ns)
  {
  }

  lemma SeparatedTail(tags: seq<string>)
    requires tags != [] && Separated(tags)
    ensures Separated(tags[1..])
  {
    assert forall i :: 0 <= i < |tags| - 1 ==> tags[1..][i] == tags[i + 1];
  }

  /** A run of fields starts with its first tag, so not with a digit. */
  lemma FieldsStart(tags: seq<string>, counts: seq<nat>)
    requires |tags| == |counts| && Separated(tags)
    ensures Fields(tags, counts) != [] ==> !IsDigit(Fields(tags, counts)[0])
  {
    if tags != [] {
      assert tags[0] != [];
    }
  }

  lemma {:induction false} FieldsRoundTrip(tags: seq<string>, counts: seq<nat>)
    requires |tags| == |counts| && Separated(tags)
    ensures ParseFields(tags, Fields(tags, counts)) == Some(counts)
  {
    if tags != [] {
      var rest := Fields(tags[1..], counts[1..]);
      SeparatedTail(tags);
      FieldsStart(tags[1..], counts[1..]);
      ParseFieldOf(tags[0], counts[0], rest);
      FieldsRoundTrip(tags[1..], counts[1..]);
      ParseFieldsCons(tags, Fields(tags, counts), counts[0], rest, counts[1..]);
      assert [counts[0]] + counts[1..] == counts;
    }
  }

  /** `summaryToString()` for the counts of the queue and of the finished,
      failed and timed-out runnables: it reads back as those four counts. */
  function Summary(queue: nat, finished: nat, failed: nat, timeouts: nat): (s: string)
    ensures ParseSummary(s) == Some([queue, finished, failed, timeouts])
    ensures QueueLabel <= s
  {
    assert Separated(SummaryTags) by {
      assert forall i :: 1 <= i < |SummaryTags| ==> SummaryTags[i][0] == ' ';
    }
    FieldsRoundTrip(SummaryTags, [queue, finished, failed, timeouts]);
    Fields(SummaryTags, [queue, finished, failed, timeouts])
  }

  /** Distinct counts give distinct summary lines. */
  lemma SummaryInjective(q: nat, f: nat, x: nat, t: nat, q': nat, f': nat, x': nat, t': nat)
    requires Summary(q, f, x, t) == Summary(q', f', x', t')
    ensures q == q' && f == f' && x == x' && t == t'
  {
    assert [q, f, x, t] == ParseSummary(Summary(q, f, x, t)).value;
    assert [q', f', x', t'] == ParseSummary(Summary(q', f', x', t')).value;
  }

  /** A failed process as the status sees it: its pid and its error output. */
  datatype FailedProcess = FailedProcess(pid: int, errorOutput: Value)

  /** How an error output is shown: a failure record as the class and the
      message of the Throwable it is rebuilt as, anything else interpolated,
      which raises Error for an object that has no string conversion. */
  function Describe(output: Value, classes: Classes): (s: Result<string, Throwable>)
    ensures output.Record? ==>
      var t := Output.AsThrowable(output.record, classes);
      s == Success(t.Class() + ": " + t.message)
    ensures s.Failure? <==> output.Object? && output.text.None?
    ensures s.Failure? ==> s.error.Class() == "Error"
    ensures output.Object? && output.text.Some? ==> s == Success(output.text.value)
    ensures !output.Record? && !(output.Object? && output.text.None?) ==> s == Success(ToPhpString(output))
  {
    match output
    case Record(r) =>
      var t := Output.AsThrowable(r, classes);
      Success(t.Class() + ": " + t.message)
    case _ => Interpolate(output)
  }

  /** A failure that came back from a child is shown with the class it was
      raised as, or as a ParallelException when that class cannot be built,
      followed by the original message. */
  lemma ChildFailureDescribed(e: Throwable, trace: string, classes: Classes)
    ensures var s := Describe(Record(Output.Capture(e, trace)), classes);
      && s.Success?
      && ((e.Class() + ": " + e.message) <= s.value || (ParallelExceptionClass + ": " + e.message) <= s.value)
  {
    var t := Output.AsThrowable(Output.Capture(e, trace), classes);
    Output.CaptureAsThrowable(e, trace, classes);
    var s := Describe(Record(Output.Capture(e, trace)), classes).value;
    assert s == t.Class() + ": " + t.message;
    var p := t.Class() + ": ";
    assert p + e.message <= s by {
      assert s == p + t.message;
      assert e.message <= t.message;
    }
  }

  /** The line for one failed process: its pid, then how its error output is
      shown; the interpolation fails when the error output cannot be shown. */
  function FailedLine(f: FailedProcess, classes: Classes): (r: Result<string, Throwable>)
    ensures r.Failure? <==> f.errorOutput.Object? && f.errorOutput.text.None?
    ensures r.Success? ==> IntToString(f.pid) + " failed with " <= r.value
    ensures r.Success? ==> r.value == IntToString(f.pid) + " failed with " + Describe(f.errorOutput, classes).value
  {
    var shown :- Describe(f.errorOutput, classes);
    Success(IntToString(f.pid) + " failed with " + shown)
  }

  lemma Associative(a: string, b: string, c: string)
    ensures (a + b) + c == a + (b + c)
  {
  }

  /** The callback of `failedToString()` applied to one failed runnable: its
      line, or the error the callback raises (its typed parameter refuses a
      runnable that is not a parallel process, reading the pid of a process
      never started fails, and so does showing an object). */
  function LineOf(item: Result<FailedProcess, Throwable>, classes: Classes): (r: Result<string, Throwable>)
    ensures item.Failure? ==> r == Failure(item.error)
    ensures item.Success? ==> r == FailedLine(item.value, classes)
  {
    match item
    case Failure(e) => Failure(e)
    case Success(f) => FailedLine(f, classes)
  }

  predicate AllPresent<T>(items: seq<Result<T, Throwable>>) {
    forall i :: 0 <= i < |items| ==> items[i].Success?
  }

  /** `array_reduce` over the lines, from an accumulator that starts as
      null; the first error stops the reduction. The accumulator stays null
      only when nothing is reduced, and what it held is kept in front. */
  function Reduce(current: Option<string>, lines: seq<Result<string, Throwable>>)
    : (r: Result<Option<string>, Throwable>)
    ensures r.Success? <==> AllPresent(lines)
    ensures r.Failure? ==> exists i :: 0 <= i < |lines| && lines[i] == Failure(r.error)
    ensures r.Success? ==> (r.value.None? <==> current.None? && lines == [])
    ensures r.Success? && current.Some? ==> current.value <= r.value.value
    decreases |lines|
  {
    if lines == [] then Success(current)
    else
      match lines[0]
      case Failure(e) => Failure(e)
      case Success(line) =>
        var next := Lines([current.GetOr(""), line]);
        var r := Reduce(Some(next), lines[1..]);
        assert AllPresent(lines) <==> AllPresent(lines[1..]) by {
          assert forall i :: 1 <= i < |lines| ==> lines[i] == lines[1..][i - 1];
        }
        assert r.Failure? ==> exists i :: 0 <= i < |lines| && lines[i] == Failure(r.error) by {
          if r.Failure? {
            var i :| 0 <= i < |lines[1..]| && lines[1..][i] == Failure(r.error);
            assert lines[i + 1] == Failure(r.error);
          }
        }
        assert current.Some? && r.Success? ==> current.value <= r.value.value by {
          if current.Some? && r.Success? {
            assert current.value <= next;
            PrefixTransitive(current.value, next, r.value.value);
          }
        }
        r
  }

  lemma PrefixTransitive(a: string, b: string, c: string)
    requires a <= b && b <= c
    ensures a <= c
  {
    assert c[..|a|] == c[..|b|][..|a|];
  }

  function LinesOf(items: seq<Result<FailedProcess, Throwable>>, classes: Classes): (r: seq<Result<string, Throwable>>)
    ensures |r| == |items|
    ensures forall i :: 0 <= i < |items| ==> r[i] == LineOf(items[i], classes)
  {
    seq(|items|, i requires 0 <= i < |items| => LineOf(items[i], classes))
  }

  /** `failedToString()`: the reduction cast to string; nothing to reduce
      gives "", and an error comes from one of the lines. */
  function FailedToString(items: seq<Result<FailedProcess, Throwable>>, classes: Classes)
    : (r: Result<string, Throwable>)
    ensures items == [] ==> r == Success("")
    ensures r.Success? <==> AllPresent(LinesOf(items, classes))
    ensures r.Failure? ==> exists i :: 0 <= i < |items| && LineOf(items[i], classes) == Failure(r.error)
  {
    var lines := LinesOf(items, classes);
    var reduced :- Reduce(None, lines);
    Success(reduced.GetOr(""))
  }

  /** `__toString()`: the summary and the failed lines, joined; it fails
      exactly when `failedToString()` does. */
  function Render(queue: nat, finished: nat, failed: nat, timeouts: nat,
                  items: seq<Result<FailedProcess, Throwable>>, classes: Classes)
    : (r: Result<string, Throwable>)
    ensures r.Success? <==> FailedToString(items, classes).Success?
    ensures r.Failure? ==> r.error == FailedToString(items, classes).error
    ensures r.Success? ==> Summary(queue, finished, failed, timeouts) + EOL <= r.value
  {
    var lines :- FailedToString(items, classes);
    LinesPair(Summary(queue, finished, failed, timeouts), lines);
    Success(Lines([Summary(queue, finished, failed, timeouts), lines]))
  }

  // ---------------------------------------------------------------------
  // The layout, stated independently of the reduction

  /** Each line preceded by an end of line. */
  function Listed(lines: seq<string>): string {
    if lines == [] then "" else EOL + lines[0] + Listed(lines[1..])
  }

  /** The text of lines none of which is an error. */
  function Texts(lines: seq<Result<string, Throwable>>): (r: seq<string>)
    requires AllPresent(lines)
    ensures |r| == |lines|
    ensures forall i :: 0 <= i < |lines| ==> lines[i] == Success(r[i])
  {
    seq(|lines|, i requires 0 <= i < |lines| => lines[i].value)
  }

  /** The index of the first item that is an error. */
  function FirstError<T>(items: seq<Result<T, Throwable>>): (i: nat)
    requires !AllPresent(items)
    ensures i < |items| && items[i].Failure?
    ensures forall j :: 0 <= j < i ==> items[j].Success?
  {
    if items[0].Failure? then 0 else 1 + FirstError(items[1..])
  }

  /** Lines none of which is an error. */
  function Present(lines: seq<string>): (r: seq<Result<string, Throwable>>)
    ensures |r| == |lines|
    ensures forall i :: 0 <= i < |lines| ==> r[i] == Success(lines[i])
  {
    seq(|lines|, i requires 0 <= i < |lines| => Success(lines[i]))
  }

  lemma {:induction false} ReduceFrom(acc: string, lines: seq<string>)
    ensures Reduce(Some(acc), Present(lines)) == Success(Some(acc + Listed(lines)))
    decreases |lines|
  {
    var wrapped := Present(lines);
    if lines == [] {
      assert acc + "" == acc;
    } else {
      var e, rest := EOL + lines[0], Listed(lines[1..]);
      LinesPair(acc, lines[0]);
      assert acc + EOL + lines[0] == acc + e;
      assert wrapped[1..] == Present(lines[1..]);
      ReduceFrom(acc + e, lines[1..]);
      Associative(acc, e, rest);
    }
  }

  lemma {:induction false} ReduceStops(current: Option<string>, lines: seq<Result<string, Throwable>>)
    requires !AllPresent(lines)
    ensures Reduce(current, lines) == Failure(lines[FirstError(lines)].error)
    decreases |lines|
  {
    if lines[0].Success? {
      ReduceStops(Some(Lines([current.GetOr(""), lines[0].value])), lines[1..]);
      assert FirstError(lines) == 1 + FirstError(lines[1..]);
    }
  }

  /** With every line present the reduction lists them. */
  lemma FailedToStringLists(items: seq<Result<FailedProcess, Throwable>>, classes: Classes)
    requires AllPresent(LinesOf(items, classes))
    ensures FailedToString(items, classes) == Success(Listed(Texts(LinesOf(items, classes))))
  {
    var wrapped := LinesOf(items, classes);
    var lines := Texts(wrapped);
    assert wrapped == Present(lines);
    if lines != [] {
      var first := lines[0];
      var rest := lines[1..];
      LinesPair("", first);
      assert "" + EOL + first == EOL + first;
      assert wrapped[1..] == Present(rest);
      ReduceFrom(EOL + first, rest);
    }
  }

  /** With no failed process the status is the summary and an end of line. */
  lemma NoFailures(queue: nat, finished: nat, failed: nat, timeouts: nat, classes: Classes)
    ensures Render(queue, finished, failed, timeouts, [], classes) == Success(Summary(queue, finished, failed, timeouts) + EOL)
  {
    var summary := Summary(queue, finished, failed, timeouts);
    LinesPair(summary, "");
    assert summary + EOL + "" == summary + EOL;
  }

  /** With failed processes that can all be shown, the summary is followed
      by an empty line and then one line per failed process, in order. */
  lemma Layout(queue: nat, finished: nat, failed: nat, timeouts: nat,
               items: seq<Result<FailedProcess, Throwable>>, classes: Classes)
    requires AllPresent(LinesOf(items, classes)) && items != []
    ensures Render(queue, finished, failed, timeouts, items, classes)
         == Success(Summary(queue, finished, failed, timeouts) + EOL + Listed(Texts(LinesOf(items, classes))))
    ensures Listed(Texts(LinesOf(items, classes)))[..1] == EOL
  {
    FailedToStringLists(items, classes);
    LinesPair(Summary(queue, finished, failed, timeouts), Listed(Texts(LinesOf(items, classes))));
  }

  /** When any line is an error the status fails with the first such error. */
  lemma FirstErrorEscapes(queue: nat, finished: nat, failed: nat, timeouts: nat,
                          items: seq<Result<FailedProcess, Throwable>>, classes: Classes)
    requires !AllPresent(LinesOf(items, classes))
    ensures var lines := LinesOf(items, classes);
      Render(queue, finished, failed, timeouts, items, classes) == Failure(lines[FirstError(lines)].error)
  {
    ReduceStops(None, LinesOf(items, classes));
  }
}
