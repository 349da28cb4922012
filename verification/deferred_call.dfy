/** `DeferredCall` from huntgame/utils.py: an immutable
    (callable, args, kwargs) triple that can be indexed like a tuple and,
    when called, invokes the callable with the stored arguments and then
    emits one debug record. */
module DeferredCalls {
  import opened Runtime

  /** The message logged when the caller gives none (or an empty one). */
  const DEFAULT_CALL_LOG_TEMPLATE: string := "Deferred call of {} with: args={}, kwargs={}"

  /** The triple itself; the fields are the `callable`, `args` and `kwargs`
      accessors. None of the three slots can be rebound once built; the
      arguments are held as values, so the model does not follow mutation
      of a shared dictionary or other mutable argument through the triple. */
  datatype DeferredCall = DeferredCall(callable: Callable, args: seq<Value>, kwargs: Kwargs)

  /** The triple seen as the tuple the class extends. */
  function Items(d: DeferredCall): seq<Value> {
    [VFunc(d.callable), VTuple(d.args), VDict(d.kwargs)]
  }

  /** Python's `t[i]` on a tuple: negative indices count from the end, and
      anything outside the tuple raises IndexError. */
  function TupleIndex(items: seq<Value>, i: int): Result<Value> {
    if 0 <= i < |items| then Ok(items[i])
    else if -|items| <= i < 0 then Ok(items[|items| + i])
    else Raise(IndexError)
  }

  /** `d[i]`. */
  function Index(d: DeferredCall, i: int): Result<Value> {
    TupleIndex(Items(d), i)
  }

  /** `DeferredCall(c, *args, **kwargs)`. A keyword argument named after one
      of `__new__`'s own parameters, `cls` or `_callable`, collides with it
      and raises TypeError. Otherwise the callable lands at index 0, the
      positional arguments as one tuple at index 1, the keyword arguments as
      one dictionary at index 2, and the accessors return the same. */
  function New(c: Callable, args: seq<Value>, kwargs: Kwargs): (r: Result<DeferredCall>)
    ensures r.Raise? <==> "cls" in kwargs || "_callable" in kwargs
    ensures r.Raise? ==> r.error == TypeError
    ensures r.Ok? ==>
      var d := r.value;
      && d.callable == c && d.args == args && d.kwargs == kwargs
      && Index(d, 0) == Ok(VFunc(c))
      && Index(d, 1) == Ok(VTuple(args))
      && Index(d, 2) == Ok(VDict(kwargs))
      && Index(d, 3) == Raise(IndexError)
  {
    if "cls" in kwargs || "_callable" in kwargs then Raise(TypeError)
    else Ok(DeferredCall(c, args, kwargs))
  }

  /** Indexing and the named accessors agree, from either end of the tuple,
      and exactly the indices -3..2 are valid. */
  lemma AccessorsAgreeWithIndex(d: DeferredCall, i: int)
    ensures i == 0 || i == -3 ==> Index(d, i) == Ok(VFunc(d.callable))
    ensures i == 1 || i == -2 ==> Index(d, i) == Ok(VTuple(d.args))
    ensures i == 2 || i == -1 ==> Index(d, i) == Ok(VDict(d.kwargs))
    ensures Index(d, i).Ok? <==> -3 <= i < 3
    ensures Index(d, i).Raise? ==> Index(d, i).error == IndexError
  {
  }

  /** Two triples are equal exactly when they are equal as tuples. */
  lemma EqualIffSameItems(d: DeferredCall, e: DeferredCall)
    ensures d == e <==> Items(d) == Items(e)
  {
  }

  /** `log_message or DEFAULT_CALL_LOG_TEMPLATE`: a missing or empty message
      falls back to the default, any other message is used as given. */
  function TraceMessage(logMessage: Option<string>): (m: string)
    ensures m != ""
    ensures logMessage.Some? && logMessage.value != "" ==> m == logMessage.value
    ensures logMessage == None || logMessage == Some("") ==> m == DEFAULT_CALL_LOG_TEMPLATE
  {
    if logMessage.Some? && logMessage.value != "" then logMessage.value
    else DEFAULT_CALL_LOG_TEMPLATE
  }

  /** The value or exception of a call, and the effect log after it. */
  datatype Outcome = Outcome(result: Result<Value>, log: seq<Event>)

  /** `d(log_message)`: call the callable with the stored arguments; only if
      it returns, log one debug record and hand its result back unchanged.
      An exception propagates before anything is logged. */
  function Call(d: DeferredCall, logMessage: Option<string>, world: World, log: seq<Event>): (o: Outcome)
    ensures o.result == world(log, d.callable, d.args, d.kwargs)
    ensures |o.log| == |log| + (if o.result.Ok? then 2 else 1)
    ensures o.log[..|log|] == log
    ensures o.log[|log|] == Called(d.callable, d.args, d.kwargs)
    ensures o.result.Ok? ==>
      o.log[|log| + 1] == Debug(TraceMessage(logMessage), d.callable, d.args, d.kwargs)
  {
    var result := world(log, d.callable, d.args, d.kwargs);
    var called := log + [Called(d.callable, d.args, d.kwargs)];
    match result
    case Ok(_) =>
      Outcome(result, called + [Debug(TraceMessage(logMessage), d.callable, d.args, d.kwargs)])
    case Raise(_) =>
      Outcome(result, called)
  }

  /** Each call invokes the callable exactly once, and logs exactly one debug
      record when it returns and none when it raises. */
  lemma CallLogsOncePerSuccess(d: DeferredCall, logMessage: Option<string>, world: World, log: seq<Event>)
    ensures var o := Call(d, logMessage, world, log);
      && Count(o.log, IsCall) == Count(log, IsCall) + 1
      && Count(o.log, IsDebug) == Count(log, IsDebug) + (if o.result.Ok? then 1 else 0)
  {
  }

  /** Calling twice is two independent calls: no memoisation. The second
      call sees the first one's effects, invokes the callable again with the
      same arguments, and returns whatever that second invocation returns. */
  lemma CallTwiceCallsTwice(d: DeferredCall, m1: Option<string>, m2: Option<string>, world: World, log: seq<Event>)
    ensures var o1 := Call(d, m1, world, log);
      var o2 := Call(d, m2, world, o1.log);
      && o2.result == world(o1.log, d.callable, d.args, d.kwargs)
      && o2.log[..|log|] == log
      && o2.log[|o1.log|] == o2.log[|log|] == Called(d.callable, d.args, d.kwargs)
      && (o1.result.Ok? && o2.result.Ok? ==> |o2.log| == |log| + 4)
  {
  }
}
