/** `StackWindow` from huntgame/views.py: a window that is handed a recipe for
    its first ("base") view, asks the clock for one deferred callback, and
    builds and shows the view when that callback fires.

    The window's state is a record; construction, the deferred-view handler
    and the `base_view` property are pure functions that thread the effect
    log. */
module StackWindows {
  import opened Runtime
  import opened DeferredCalls

  /** The constructor's `base_view_spec`: absent (`None`), a ready-made
      `DeferredCall`, or a plain `(callable, args, kwargs)` call template. */
  datatype BaseViewSpec =
    | NoSpec
    | Deferred(call: DeferredCall)
    | Template(callable: Callable, args: seq<Value>, kwargs: Kwargs)

  /** Python truthiness of the spec: `None` is false; a `DeferredCall` and a
      template are non-empty tuples, so both are true. */
  predicate Truthy(spec: BaseViewSpec) {
    !spec.NoSpec?
  }

  /** `base_view_spec if isinstance(base_view_spec, DeferredCall) else
      DeferredCall(*base_view_spec)`. Unpacking a template passes its args
      tuple and kwargs dictionary as two positional arguments, with no
      keyword arguments. */
  function Wrap(spec: BaseViewSpec): (d: DeferredCall)
    requires Truthy(spec)
    ensures spec.Deferred? ==> d == spec.call
    ensures spec.Template? ==>
      New(spec.callable, [VTuple(spec.args), VDict(spec.kwargs)], map[]) == Ok(d)
  {
    match spec
    case Deferred(call) => call
    case Template(c, a, k) => New(c, [VTuple(a), VDict(k)], map[]).value
  }

  /** The `_pending_deferred_call` attribute: never assigned (the constructor
      got no spec), or assigned a call or `None`. */
  datatype PendingSlot = Unassigned | Assigned(call: Option<DeferredCall>)

  /** The window's own state: `_base_view` and `_pending_deferred_call`. */
  datatype StackWindow = StackWindow(baseView: Value, pending: PendingSlot)

  /** The window together with the effect log. */
  datatype Session = Session(window: StackWindow, log: seq<Event>)

  /** What the handler returned or raised, and the session after it. */
  datatype Step = Step(result: Result<Value>, after: Session)

  /** The three states of the deferred-view machine. */
  datatype Phase = NoBaseView | Scheduled | Installed

  function PhaseOf(w: StackWindow): Phase {
    match w.pending
    case Unassigned => NoBaseView
    case Assigned(Some(_)) => Scheduled
    case Assigned(None) => Installed
  }

  /** The `base_view` getter. */
  function BaseView(w: StackWindow): Value {
    w.baseView
  }

  /** The `base_view` setter: the getter then returns `v`, and the pending
      call is untouched. */
  function SetBaseView(w: StackWindow, v: Value): (r: StackWindow)
    ensures BaseView(r) == v
    ensures r.pending == w.pending
  {
    w.(baseView := v)
  }

  /** The getter and setter form a lens: writing what was read changes
      nothing, and the last write wins. */
  lemma BaseViewLens(w: StackWindow, v: Value, v': Value)
    ensures SetBaseView(w, BaseView(w)) == w
    ensures SetBaseView(SetBaseView(w, v), v') == SetBaseView(w, v')
  {
  }

  /** `StackWindow(base_view_spec, defer_seconds)`. With a falsy spec no base
      view is requested: nothing is scheduled, the pending attribute is left
      unassigned, and the log is untouched. Otherwise the wrapped spec is
      pending and exactly one one-shot timer for the handler is requested. */
  function Init(spec: BaseViewSpec, deferSeconds: real, log: seq<Event>): (s: Session)
    ensures BaseView(s.window) == VNone
    ensures PhaseOf(s.window) == NoBaseView <==> !Truthy(spec)
    ensures !Truthy(spec) ==> s.window.pending == Unassigned && s.log == log
    ensures Truthy(spec) ==>
      && s.window.pending == Assigned(Some(Wrap(spec)))
      && s.log == log + [ScheduleOnce(DeferredViewHandler, deferSeconds)]
  {
    if Truthy(spec) then
      Session(StackWindow(VNone, Assigned(Some(Wrap(spec)))),
              log + [ScheduleOnce(DeferredViewHandler, deferSeconds)])
    else
      Session(StackWindow(VNone, Unassigned), log)
  }

  /** `_handle_deferred_view(elapsed)`.
      - Never assigned: reading the attribute raises AttributeError.
      - Assigned `None`: only the skip message is logged.
      - A pending call: invoke it with the default trace message; if it
        raises, the exception propagates with the window untouched; if it
        returns, store the result as the base view, show it, and clear the
        pending call. */
  function HandleDeferredView(s: Session, elapsed: Option<real>, world: World): (st: Step)
    ensures PhaseOf(s.window) == NoBaseView ==> st == Step(Raise(AttributeError), s)
    ensures PhaseOf(s.window) == Installed ==>
      st == Step(Ok(VNone), Session(s.window, s.log + [SkippedInit(elapsed)]))
    ensures PhaseOf(s.window) == Scheduled ==>
      var call := s.window.pending.call.value;
      var made := Call(call, None, world, s.log);
      if made.result.Raise? then
        st == Step(made.result, Session(s.window, made.log))
      else
        && st.result == Ok(VNone)
        && PhaseOf(st.after.window) == Installed
        && BaseView(st.after.window) == made.result.value
        && st.after.log == made.log + [ShowView(made.result.value)]
  {
    match s.window.pending
    case Unassigned =>
      Step(Raise(AttributeError), s)
    case Assigned(None) =>
      Step(Ok(VNone), Session(s.window, s.log + [SkippedInit(elapsed)]))
    case Assigned(Some(call)) =>
      var made := Call(call, None, world, s.log);
      match made.result
      case Raise(e) =>
        Step(Raise(e), Session(s.window, made.log))
      case Ok(view) =>
        var w := SetBaseView(s.window, view);
        var shown := made.log + [ShowView(BaseView(w))];
        Step(Ok(VNone), Session(w.(pending := Assigned(None)), shown))
  }

  /** The handler only ever adds to the log. */
  lemma HandlerExtendsLog(s: Session, elapsed: Option<real>, world: World)
    ensures var st := HandleDeferredView(s, elapsed, world);
      |s.log| <= |st.after.log| && st.after.log[..|s.log|] == s.log
  {
  }

  /** The handler moves the machine only from Scheduled to Installed, and
      shows a view exactly when it does so. */
  lemma {:induction false} HandlerShowsOnlyOnInstall(s: Session, elapsed: Option<real>, world: World)
    ensures var st := HandleDeferredView(s, elapsed, world);
      && (PhaseOf(st.after.window) == PhaseOf(s.window)
          || (PhaseOf(s.window) == Scheduled && PhaseOf(st.after.window) == Installed))
      && Count(st.after.log, IsShow) ==
           Count(s.log, IsShow) + (if PhaseOf(st.after.window) != PhaseOf(s.window) then 1 else 0)
  {
    match s.window.pending
    case Unassigned =>
    case Assigned(None) =>
      CountAppend(s.log, [SkippedInit(elapsed)], IsShow);
    case Assigned(Some(call)) =>
      var made := Call(call, None, world, s.log);
      var called := [Called(call.callable, call.args, call.kwargs)];
      if made.result.Raise? {
        assert made.log == s.log + called;
        CountAppend(s.log, called, IsShow);
      } else {
        var debug := [made.log[|s.log| + 1]];
        assert made.log == s.log + called + debug;
        CountAppend(s.log, called, IsShow);
        CountAppend(s.log + called, debug, IsShow);
        CountAppend(made.log, [ShowView(made.result.value)], IsShow);
      }
  }

  /** A second firing after a successful install is a no-op apart from the
      skip message: no call, no view shown, the base view kept. */
  lemma SecondFiringIsNoOp(s: Session, e1: Option<real>, e2: Option<real>, world: World)
    requires PhaseOf(s.window) == Scheduled
    requires HandleDeferredView(s, e1, world).result.Ok?
    ensures var first := HandleDeferredView(s, e1, world).after;
      var second := HandleDeferredView(first, e2, world);
      && second.result == Ok(VNone)
      && second.after.window == first.window
      && second.after.log == first.log + [SkippedInit(e2)]
  {
  }

  /** A failed install leaves the call pending, so the next firing retries it
      from scratch: the same callable with the same arguments. */
  lemma FailedInstallRetries(s: Session, e1: Option<real>, e2: Option<real>, world: World)
    requires PhaseOf(s.window) == Scheduled
    requires HandleDeferredView(s, e1, world).result.Raise?
    ensures var first := HandleDeferredView(s, e1, world).after;
      var call := s.window.pending.call.value;
      && first.window == s.window
      && BaseView(first.window) == BaseView(s.window)
      && Count(first.log, IsShow) == Count(s.log, IsShow)
      && HandleDeferredView(first, e2, world).after.log[|first.log|]
           == Called(call.callable, call.args, call.kwargs)
  {
  }

  /** The handler fired once per tick, whatever each firing returned or
      raised (the clock, or a caller retrying by hand, fires it again). */
  function FireAll(s: Session, ticks: seq<Option<real>>, world: World): (r: Session)
    decreases |ticks|
  {
    if |ticks| == 0 then s
    else FireAll(HandleDeferredView(s, ticks[0], world).after, ticks[1..], world)
  }

  /** However often the handler fires, the base view is installed and shown
      at most once: the log gains one ShowView exactly when the machine went
      from Scheduled to Installed. A window without a base view is never
      changed, and an installed one keeps its state. */
  lemma {:induction false} FiringsShowAtMostOnce(s: Session, ticks: seq<Option<real>>, world: World)
    ensures var r := FireAll(s, ticks, world);
      && Count(r.log, IsShow) ==
           Count(s.log, IsShow) + (if PhaseOf(s.window) != PhaseOf(r.window) then 1 else 0)
      && (PhaseOf(r.window) == PhaseOf(s.window)
          || (PhaseOf(s.window) == Scheduled && PhaseOf(r.window) == Installed))
      && (PhaseOf(s.window) == NoBaseView ==> r == s)
      && (PhaseOf(s.window) == Installed ==> r.window == s.window)
    decreases |ticks|
  {
    if |ticks| > 0 {
      var next := HandleDeferredView(s, ticks[0], world).after;
      HandlerShowsOnlyOnInstall(s, ticks[0], world);
      FiringsShowAtMostOnce(next, ticks[1..], world);
    }
  }

  /** A window built without a base-view spec never shows a view and its base
      view stays `None`, however often the handler is fired. */
  lemma NoSpecNeverShows(deferSeconds: real, ticks: seq<Option<real>>, world: World, log: seq<Event>)
    ensures var r := FireAll(Init(NoSpec, deferSeconds, log), ticks, world);
      && r.log == log
      && BaseView(r.window) == VNone
  {
  }

  /** Construction with a spec followed by one successful firing: the wrapped
      call ran once with the stored arguments, its result is the base view,
      and it was shown exactly once. */
  lemma {:induction false} InitThenFireInstalls(spec: BaseViewSpec, deferSeconds: real, elapsed: Option<real>, world: World, log: seq<Event>)
    requires Truthy(spec)
    ensures var s := Init(spec, deferSeconds, log);
      var st := HandleDeferredView(s, elapsed, world);
      var call := Wrap(spec);
      var built := world(s.log, call.callable, call.args, call.kwargs);
      && st.after.log[..|s.log|] == s.log
      && st.after.log[|s.log|] == Called(call.callable, call.args, call.kwargs)
      && (built.Ok? <==> PhaseOf(st.after.window) == Installed)
      && (built.Ok? ==> BaseView(st.after.window) == built.value
                        && Count(st.after.log, IsShow) == Count(log, IsShow) + 1)
      && (built.Raise? ==> st.result == built && st.after.window == s.window)
  {
    var s := Init(spec, deferSeconds, log);
    HandlerShowsOnlyOnInstall(s, elapsed, world);
    assert s.log == log + [ScheduleOnce(DeferredViewHandler, deferSeconds)];
    CountAppend(log, [ScheduleOnce(DeferredViewHandler, deferSeconds)], IsShow);
  }

  /** A plain template is not unpacked a second time: the window calls the
      template's callable with its args tuple and kwargs dictionary as two
      positional arguments, never as `callable(*args, **kwargs)`. */
  lemma TemplateIsNotSpread(c: Callable, args: seq<Value>, kwargs: Kwargs)
    ensures Wrap(Template(c, args, kwargs)).args == [VTuple(args), VDict(kwargs)]
    ensures Wrap(Template(c, args, kwargs)).kwargs == map[]
    ensures New(c, args, kwargs) != Ok(Wrap(Template(c, args, kwargs)))
  {
    if |args| == 2 {
      // An element of a tuple is strictly smaller than the tuple.
      assert args[0] in args;
      assert args[0] != VTuple(args);
    }
  }
}
