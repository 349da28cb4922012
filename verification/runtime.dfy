/** The slice of the Python runtime the game's deferred-call and window code
    relies on: the values that flow through calls, the exceptions a call can
    raise, and the log of observable effects (calls made, logger records,
    clock requests, views shown).

    Callables are opaque identities. What calling one does is given by a
    `World`, an arbitrary function of everything that has happened so far, so
    two calls of the same callable with the same arguments may return
    different objects (a constructor returning a fresh view, say). */
module Runtime {

  datatype Option<+T> = None | Some(value: T)

  /** The exceptions the model distinguishes; `Raised` stands for anything a
      user-supplied callable raises. */
  datatype Exception = AttributeError | IndexError | TypeError | Raised(tag: nat)

  /** The outcome of a Python expression: a value, or a propagating exception. */
  datatype Result<+T> = Ok(value: T) | Raise(error: Exception)

  /** The identity of a callable object (a function, a class, a bound method). */
  datatype Callable = Callable(id: nat)

  /** Python objects as far as this code looks at them. `VDict` is a
      dictionary with string keys, the only kind that appears here. */
  datatype Value =
    | VNone
    | VBool(b: bool)
    | VInt(i: int)
    | VStr(s: string)
    | VTuple(items: seq<Value>)
    | VDict(entries: map<string, Value>)
    | VFunc(f: Callable)
    | VObject(id: nat)

  /** The keyword arguments of a call. */
  type Kwargs = map<string, Value>

  /** The callbacks this code hands to the clock; the window's deferred-view
      handler is the only one. */
  datatype ScheduledCallback = DeferredViewHandler

  /** One observable effect, in the order it happened.
      - `Called`: a callable was invoked with these arguments.
      - `Debug`: a debug record reached the logger, with its positional fields.
      - `ScheduleOnce`: a one-shot timer was requested from the clock.
      - `ShowView`: the window was asked to show this view.
      - `SkippedInit`: the deferred-view handler fired with nothing to do. */
  datatype Event =
    | Called(callee: Callable, args: seq<Value>, kwargs: Kwargs)
    | Debug(message: string, fn: Callable, fnArgs: seq<Value>, fnKwargs: Kwargs)
    | ScheduleOnce(callback: ScheduledCallback, delay: real)
    | ShowView(view: Value)
    | SkippedInit(elapsed: Option<real>)

  /** How callables behave: given the effects so far, the callable and its
      arguments, the value it returns or the exception it raises. */
  type World = (seq<Event>, Callable, seq<Value>, Kwargs) -> Result<Value>

  predicate IsCall(e: Event) { e.Called? }
  predicate IsDebug(e: Event) { e.Debug? }
  predicate IsShow(e: Event) { e.ShowView? }

  /** The number of events in `log` that satisfy `p`. */
  function Count(log: seq<Event>, p: Event -> bool): nat {
    if |log| == 0 then 0
    else Count(log[..|log| - 1], p) + (if p(log[|log| - 1]) then 1 else 0)
  }

  /** Counting distributes over appending to the log. */
  lemma {:induction false} CountAppend(log: seq<Event>, more: seq<Event>, p: Event -> bool)
    ensures Count(log + more, p) == Count(log, p) + Count(more, p)
    decreases |more|
  {
    if |more| == 0 {
      assert log + more == log;
    } else {
      var init := more[..|more| - 1];
      assert (log + more)[..|log + more| - 1] == log + init;
      CountAppend(log, init, p);
    }
  }
}
