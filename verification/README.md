# Deferred view construction in huntgame, modelled in Dafny

huntgame is a small arcade game scaffold. Its core is two pieces of logic:

- `DeferredCall` (huntgame/utils.py) is a `(callable, args, kwargs)` tuple whose slots cannot be rebound. It can be indexed like a tuple. Calling it invokes the callable with the stored arguments, logs one debug record and returns the callable's result.
- `StackWindow` (huntgame/views.py) is a window given a recipe for its first ("base") view. It asks the clock for one deferred callback. When the callback fires, it builds the view, stores it as `base_view`, shows it and forgets the recipe.

The model also covers `ChoiceScreen.setup` and `text_finished`. `ChoiceScreen` is the view that shows a text above one button per choice.

Files:

- `runtime.dfy` (module `Runtime`) holds the Python values, exceptions, results, callables and the effect log. It counts events in a log.
- `deferred_call.dfy` (module `DeferredCalls`) models `DeferredCall`.
- `stack_window.dfy` (module `StackWindows`) models the `StackWindow` construction, the `_handle_deferred_view` state machine and the `base_view` property.
- `choice_screen.dfy` (module `ChoiceScreens`) models `ChoiceScreen`'s construction, `setup` and `text_finished`, with the widget tree kept abstract.

Modelling choices:

- A callable is an opaque identity. What calling it does is given by a `World`, an arbitrary function of the effects so far, the callable and the arguments. The function returns a value or raises an exception. Two calls with the same arguments may therefore return different objects, which makes missing memoisation observable.
- The logger, the clock (`pyglet.clock.schedule_once`) and arcade's `show_view` are modelled as events appended to one effect log. The events are `Called`, `Debug`, `ScheduleOnce`, `ShowView` and `SkippedInit`.
- The window's state has the three phases the handler distinguishes: `NoBaseView`, `Scheduled` and `Installed`. With no spec, the pending attribute is never assigned (`PendingSlot.Unassigned`), exactly as in the code. It is not the same as `None`.
- `defer_seconds` and `elapsed` are only passed through or logged, so they are modelled as `real` values that are never computed with.

Two behaviours of the code that are easy to misread are modelled exactly as written:

- Firing the handler on a window built without a spec does not log a skip. It raises AttributeError, because `_pending_deferred_call` was never assigned (huntgame/views.py:66-77). Construction never schedules the handler in that case, so only a manual call reaches it. `StackWindows.HandleDeferredView` and `StackWindows.NoSpecNeverShows` state this behaviour.
- The constructor's spec is typed as a `(callable, args, kwargs)` template. It is wrapped with `DeferredCall(*spec)`. The callable therefore receives the args tuple and the kwargs dictionary as two positional arguments and no keyword arguments (huntgame/views.py:68). `StackWindows.TemplateIsNotSpread` proves that this is never the same as `callable(*args, **kwargs)`.

## Model

| member | source | states |
|---|---|---|
| `DeferredCalls.New` | huntgame/utils.py:48-61 | Construction raises TypeError exactly when a keyword argument is named `cls` or `_callable`, since those collide with `__new__`'s own parameters. Otherwise it puts the callable at index 0, the positional arguments as one tuple at index 1 and the keyword arguments as one dictionary at index 2. Index 3 raises IndexError. The `callable`, `args` and `kwargs` accessors return the given values. |
| `DeferredCalls.AccessorsAgreeWithIndex` | huntgame/utils.py:51-61 | The named accessors agree with tuple indexing from both ends: 0 and -3, 1 and -2, 2 and -1. Exactly the indices -3 to 2 are valid; any other index raises IndexError. |
| `DeferredCalls.EqualIffSameItems` | huntgame/utils.py:40-49 | Two deferred calls are equal exactly when the tuples they extend are equal. |
| `DeferredCalls.TraceMessage` | huntgame/utils.py:46-67 | The logged message is never empty. A non-empty given message is used as is. A missing or empty message falls back to `DEFAULT_CALL_LOG_TEMPLATE`. |
| `DeferredCalls.Call` | huntgame/utils.py:63-70 | Calling returns the callable's own result or exception, unchanged, for the stored args and kwargs. The log keeps its old contents. It gains first a `Called` record for exactly those arguments, then one `Debug(message, callable, args, kwargs)` record, but the `Debug` record only if the callable returned. |
| `DeferredCalls.CallLogsOncePerSuccess` | huntgame/utils.py:63-70 | Each call adds exactly one invocation to the log. It adds one debug record on success and none on failure. |
| `DeferredCalls.CallTwiceCallsTwice` | huntgame/utils.py:63-70 | There is no memoisation. A second call invokes the callable again with the same arguments. It returns what that invocation returns, which depends on the first call's effects. Two successful calls add four log entries. |
| `StackWindows.Wrap` | huntgame/views.py:67-68 | A spec that is already a `DeferredCall` is kept as it is. A template `(c, a, k)` becomes `DeferredCall(c, a, k)`: callable `c`, positional arguments `(a, k)` and no keyword arguments. |
| `StackWindows.TemplateIsNotSpread` | huntgame/views.py:68 | The wrapped template is never the call `c(*a, **k)`, whether or not constructing that call would succeed. Its args are the tuple and the dictionary themselves, and its kwargs are empty. |
| `StackWindows.SetBaseView` | huntgame/views.py:92-94 | After the setter, the getter returns the value written, and the pending call is unchanged. |
| `StackWindows.BaseViewLens` | huntgame/views.py:88-94 | Writing back the value just read changes nothing. Of two writes, the last one wins. |
| `StackWindows.Init` | huntgame/views.py:62-74 | The base view starts as None. The phase is `NoBaseView` exactly when the spec is falsy. A falsy spec leaves the pending attribute unassigned and the log untouched. A truthy spec makes the wrapped call pending and appends exactly one one-shot timer request for the handler with the given delay. |
| `StackWindows.HandleDeferredView` | huntgame/views.py:76-86 | A never-assigned slot raises AttributeError and changes nothing. An installed window only logs a skip. A pending call is invoked with the default message. If it raises, the exception propagates and the window is unchanged. If it returns, its result becomes the base view and is shown once, and the machine is `Installed`. |
| `StackWindows.HandlerExtendsLog` | huntgame/views.py:76-86 | The handler never removes or rewrites earlier log entries. |
| `StackWindows.HandlerShowsOnlyOnInstall` | huntgame/views.py:77-86 | The only phase change the handler makes is from `Scheduled` to `Installed`. It shows a view exactly when it makes that change. |
| `StackWindows.SecondFiringIsNoOp` | huntgame/views.py:77-86 | After a successful install, firing again returns normally. The window is unchanged, and only a skip record is logged: no invocation and no `show_view`. |
| `StackWindows.FailedInstallRetries` | huntgame/views.py:82-84 | After a failed install, the window is unchanged and no view was shown. The next firing invokes the same callable with the same arguments again. |
| `StackWindows.FiringsShowAtMostOnce` | huntgame/views.py:76-86 | Across any number of firings, whether each one succeeds or fails, the log gains one `ShowView` exactly when the machine went from `Scheduled` to `Installed`, and otherwise none. A window without a base view never changes. An installed window keeps its state. |
| `StackWindows.NoSpecNeverShows` | huntgame/views.py:64-77 | A window built without a spec never logs anything or shows a view, however often the handler fires. Its base view stays None. |
| `StackWindows.InitThenFireInstalls` | huntgame/views.py:64-84 | After construction with a spec, the first firing invokes the wrapped call once with its stored arguments. The window is `Installed` exactly when that call returns. The base view is then the call's result and has been shown exactly once. If the call raises, that exception is the handler's result and the window is unchanged. |
| `ChoiceScreens.Buttons` | huntgame/views.py:147-150 | There is one button per choice, in dictionary order. Each button carries its choice's text and is bound to its callback. |
| `ChoiceScreens.OfferedButtons` | huntgame/views.py:147-150 | Reading the choices back from the buttons gives exactly the original choices: none are lost, added or reordered. |
| `ChoiceScreens.Setup` | huntgame/views.py:131-156 | A missing text or choices argument falls back to the stored one. An explicit one is used even when empty. The stored text, choices and title are not updated. The previously added anchor is cleared, and one new anchor holding the panel is added. Only the newest anchor holds widgets, and the screen is marked initialized. |
| `ChoiceScreens.NewChoiceScreen` | huntgame/views.py:102-125 | The constructor stores its text, choices and title. With `setup` true it shows the text and one button per choice in a single anchor. With `setup` false it has no label and no widgets. |
| `ChoiceScreens.TextFinished` | huntgame/views.py:127-129 | `text_finished` raises AttributeError exactly when no label exists yet. When a label exists, it returns whether the label shows the constructor's text: true when it does, false otherwise. |
| `ChoiceScreens.TextFinishedAfterSetup` | huntgame/views.py:127-138 | After `setup`, `text_finished` holds exactly when setup kept the constructor's text, either by not overriding it or by passing the same text. |
| `ChoiceScreens.SetupAgainClearsPrevious` | huntgame/views.py:141-154 | A second setup leaves the first setup's anchor in the UI but cleared. It adds a new anchor that shows the current label. |

## Left out

- Rendering in `HelperView` (`fullscreen`, `on_show_view`, `on_hide_view`, `on_draw`) is left out. These are pure arcade and OpenGL calls.
- The real pyglet clock and arcade's `show_view` are left out. A timer request and a shown view are recorded as events. Anything `show_view` itself would do or raise is not modelled.
- Only the skip message of the window's own debug messages is modelled. The "Scheduled", "No view scheduled." and "processing scheduled view call" messages carry no behaviour.
- `_view_stack` is left out. It is created and never used.
- Widget geometry and toolkit details are left out: widths, `space_between`, anchor positions, and the `center_widget`, `title` and `vertical` attributes. The resolved title in `setup` is computed but unused, so the model does not compute it.
- Button clicks are left out. A button only records the callback it is bound to. The toolkit dispatches clicks and calls the callback.
- `cache` in huntgame/utils.py is left out. It is a thin wrapper over `functools.lru_cache`.
- huntgame/__main__.py is left out. It only bootstraps the window.
- The base-view spec is modelled only with the declared `CallTemplate` triple shape. Tuples of other lengths are not modelled. They would unpack into `DeferredCall` differently or fail there.
- `Runtime.Value` is limited to the kinds of Python object this code handles. Dictionaries have string keys only, which covers keyword arguments.
- DeferredCalls.Call: the debug record is assumed to be logged without error. loguru's default handler formats a custom message right away with `str.format(callable, args, kwargs)`. A custom message with a named field, a fourth `{}` or a lone brace therefore raises KeyError, IndexError or ValueError after the callable has run, and the caller gets that exception instead of the result. Modelling this would need a model of `str.format` and of the objects' own formatting. The default template and the window's no-message call are not affected.
- DeferredCalls.New: arguments are stored as immutable values, so the model does not follow aliasing. In Python the kwargs dictionary at index 2, and the template's own dictionary stored among the positional arguments, are shared mutable objects. Mutating one, from outside or inside a failed call, changes what a later call or a retry in `StackWindows.FailedInstallRetries` receives.
- The default `defer_seconds` of 0.1 is not singled out. `StackWindows.Init` takes the delay as a parameter and records it unchanged, whatever it is.
