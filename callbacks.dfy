/** The callback registry every process carries: ordered success, error and
    timeout lists, and the dispatch rules. Calling a user callback is
    recorded as an entry in `calls`; what the callback itself does is not
    modelled. */
module ProcessCallbacks {
  import opened Wrappers
  import opened Php

  /** What reflection reports about a callback's first parameter. */
  datatype Param = NoParameter | Untyped | Typed(cls: string)

  /** A registered callback, identified by `id`. */
  datatype Callback = Callback(id: nat, param: Param)

  /** One call of a registered callback and its argument. */
  datatype Call = SuccessCall(id: nat, output: Value) | ErrorCall(id: nat, error: Throwable) | TimeoutCall(id: nat)

  /** `isAllowedThrowableType`: a callback without a first parameter, or with
      an untyped one, accepts anything; otherwise it accepts exactly the
      instances of the declared type, whatever the case of its name. */
  predicate IsAllowedThrowableType(t: ClassTable, e: Throwable, cb: Callback)
    ensures !cb.param.Typed? ==> IsAllowedThrowableType(t, e, cb)
    ensures cb.param == Typed(e.Class()) ==> IsAllowedThrowableType(t, e, cb)
    ensures cb.param.Typed? && e.Class() !in t ==> (IsAllowedThrowableType(t, e, cb) <==> SameClass(e.Class(), cb.param.cls))
  {
    match cb.param
    case NoParameter => true
    case Untyped => true
    case Typed(cls) => IsA(t, e.Class(), cls)
  }

  /** The first callback at or after `from` that accepts `e`. */
  function FirstAllowed(t: ClassTable, e: Throwable, cbs: seq<Callback>, from: nat): (k: Option<nat>)
    requires from <= |cbs|
    ensures k.Some? ==> from <= k.value < |cbs| && IsAllowedThrowableType(t, e, cbs[k.value])
    ensures k.Some? ==> forall j :: from <= j < k.value ==> !IsAllowedThrowableType(t, e, cbs[j])
    ensures k.None? ==> forall j :: from <= j < |cbs| ==> !IsAllowedThrowableType(t, e, cbs[j])
    decreases |cbs| - from
  {
    if from == |cbs| then None
    else if IsAllowedThrowableType(t, e, cbs[from]) then Some(from)
    else FirstAllowed(t, e, cbs, from + 1)
  }

  /** The success callbacks called in registration order, each once, all
      with the same output. */
  function SuccessCalls(cbs: seq<Callback>, output: Value): (r: seq<Call>)
    ensures |r| == |cbs|
    ensures forall i :: 0 <= i < |cbs| ==> r[i] == SuccessCall(cbs[i].id, output)
  {
    seq(|cbs|, i requires 0 <= i < |cbs| => SuccessCall(cbs[i].id, output))
  }

  /** The timeout callbacks called in registration order, with no argument. */
  function TimeoutCalls(cbs: seq<Callback>): (r: seq<Call>)
    ensures |r| == |cbs|
    ensures forall i :: 0 <= i < |cbs| ==> r[i] == TimeoutCall(cbs[i].id)
  {
    seq(|cbs|, i requires 0 <= i < |cbs| => TimeoutCall(cbs[i].id))
  }

  /** The error callbacks called for `e`: the first accepting one, or none. */
  function ErrorCalls(t: ClassTable, cbs: seq<Callback>, e: Throwable): (r: seq<Call>)
    ensures |r| <= 1
    ensures r == [] <==> forall j :: 0 <= j < |cbs| ==> !IsAllowedThrowableType(t, e, cbs[j])
    ensures r != [] ==> exists k :: (0 <= k < |cbs| && r == [ErrorCall(cbs[k].id, e)]
      && IsAllowedThrowableType(t, e, cbs[k])
      && forall j :: 0 <= j < k ==> !IsAllowedThrowableType(t, e, cbs[j]))
  {
    match FirstAllowed(t, e, cbs, 0)
    case Some(k) => [ErrorCall(cbs[k].id, e)]
    case None => []
  }

  /** The library's errors reach a callback typed Exception or Throwable,
      and a ParallelError reaches one typed ParallelError. */
  lemma LibraryErrorsAllowed(t: ClassTable, message: string, cls: string, trace: string, id: nat)
    requires HasLibraryClasses(t)
    ensures IsAllowedThrowableType(t, ParallelError(message), Callback(id, Typed(ExceptionClass)))
    ensures IsAllowedThrowableType(t, ParallelError(message), Callback(id, Typed(ParallelErrorClass)))
    ensures IsAllowedThrowableType(t, ParallelError(message), Callback(id, Typed(ThrowableInterface)))
    ensures IsAllowedThrowableType(t, ParallelException(message, cls, trace), Callback(id, Typed(ExceptionClass)))
  {
    LibraryErrorsAreExceptions(t);
  }

  /** The state the `ProcessCallbacks` trait adds to a process. */
  class CallbackRegistry {
    var successCallbacks: seq<Callback>
    var errorCallbacks: seq<Callback>
    var timeoutCallbacks: seq<Callback>
    /** Every call made to a registered callback, in order. */
    var calls: seq<Call>

    constructor ()
      ensures successCallbacks == [] && errorCallbacks == [] && timeoutCallbacks == [] && calls == []
    {
      successCallbacks, errorCallbacks, timeoutCallbacks, calls := [], [], [], [];
    }

    /** `then`: one more success callback, nothing else changes. */
    method AddSuccess(cb: Callback)
      modifies this
      ensures successCallbacks == old(successCallbacks) + [cb]
      ensures errorCallbacks == old(errorCallbacks) && timeoutCallbacks == old(timeoutCallbacks) && calls == old(calls)
    {
      successCallbacks := successCallbacks + [cb];
    }

    /** `catch`: one more error callback, nothing else changes. */
    method AddError(cb: Callback)
      modifies this
      ensures errorCallbacks == old(errorCallbacks) + [cb]
      ensures successCallbacks == old(successCallbacks) && timeoutCallbacks == old(timeoutCallbacks) && calls == old(calls)
    {
      errorCallbacks := errorCallbacks + [cb];
    }

    /** `timeout`: one more timeout callback, nothing else changes. */
    method AddTimeout(cb: Callback)
      modifies this
      ensures timeoutCallbacks == old(timeoutCallbacks) + [cb]
      ensures successCallbacks == old(successCallbacks) && errorCallbacks == old(errorCallbacks) && calls == old(calls)
    {
      timeoutCallbacks := timeoutCallbacks + [cb];
    }

    /** The loop of `triggerSuccess` over the success callbacks. */
    method FireSuccess(output: Value)
      modifies this`calls
      ensures calls == old(calls) + SuccessCalls(successCallbacks, output)
    {
      for i := 0 to |successCallbacks|
        invariant calls == old(calls) + SuccessCalls(successCallbacks[..i], output)
      {
        assert SuccessCalls(successCallbacks[..i + 1], output)
          == SuccessCalls(successCallbacks[..i], output) + [SuccessCall(successCallbacks[i].id, output)];
        calls := calls + [SuccessCall(successCallbacks[i].id, output)];
      }
      assert successCallbacks[..|successCallbacks|] == successCallbacks;
    }

    /** `triggerError` once the exception is resolved: with no error callback
        the exception is thrown; otherwise the first accepting callback, and
        only that one, is called, and nothing is thrown even when none
        accepts. */
    method FireError(t: ClassTable, e: Throwable) returns (thrown: Option<Throwable>)
      modifies this`calls
      ensures thrown == (if errorCallbacks == [] then Some(e) else None)
      ensures calls == old(calls) + (if errorCallbacks == [] then [] else ErrorCalls(t, errorCallbacks, e))
    {
      if errorCallbacks == [] {
        return Some(e);
      }
      thrown := None;
      var i := 0;
      while i < |errorCallbacks|
        invariant 0 <= i <= |errorCallbacks|
        invariant FirstAllowed(t, e, errorCallbacks, 0) == FirstAllowed(t, e, errorCallbacks, i)
        invariant calls == old(calls)
      {
        if !IsAllowedThrowableType(t, e, errorCallbacks[i]) {
          i := i + 1;
          continue;
        }
        calls := calls + [ErrorCall(errorCallbacks[i].id, e)];
        break;
      }
    }

    /** `triggerTimeout`: every timeout callback, in order, with no argument. */
    method FireTimeout()
      modifies this`calls
      ensures calls == old(calls) + TimeoutCalls(timeoutCallbacks)
    {
      for i := 0 to |timeoutCallbacks|
        invariant calls == old(calls) + TimeoutCalls(timeoutCallbacks[..i])
      {
        assert TimeoutCalls(timeoutCallbacks[..i + 1])
          == TimeoutCalls(timeoutCallbacks[..i]) + [TimeoutCall(timeoutCallbacks[i].id)];
        calls := calls + [TimeoutCall(timeoutCallbacks[i].id)];
      }
      assert timeoutCallbacks[..|timeoutCallbacks|] == timeoutCallbacks;
    }
  }
}
