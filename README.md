# Unless: deferred error handling for a function call, in Dafny

A model of the `Result` container in `unless/result.py`. A caller wraps a function
with `Result.from_func`. Each call of the returned wrapper runs the function and
stores its return value in `value`, or its caught exception as `(type, traceback)` in
`error`. Later, `unless(handler, **kwargs)` binds a handler if one is given, invokes
the bound handler with `error` when `error` is truthy, and returns `value`.

Modules:

- `UnlessResult` (`result.dfy`): the data model and the operations.
  - The `Result` class has the three attributes and a ghost log `handled` of handler invocations.
  - `Result.Unless` is the dispatch step. `Result.DefaultHandle` is the private default handler.
  - The `Wrapper` class is the `fn_wrapper` closure over one container.
  - `FromFunc` is the factory, and `ApplyPartial` is the call of the partial it returns
    when no function is given.
  - The pure functions `InitialState`, `AfterCall` and `DispatchOf` say what each step does
    to the attributes. The methods are proved against them.
- `ResultLifecycle` (`lifecycle.dfy`): one container shared by a wrapper, under any
  interleaving of wrapper calls and `unless` calls. `Run` folds these events. `RunState`
  says what the attributes hold after any sequence of them.
- `ResultFindings` (`findings.dfy`): three behaviours of the code that differ from what its
  documentation intends. Each is shown on the as-written model, with the intended version
  defined beside it.
- `ResultScenarios` (`scenarios.dfy`): two callers that use the class contracts.
- `Wrappers` (`wrappers.dfy`): `Option`.

The wrapped function is a Dafny function from `Args` to
`Outcome = Returned(v) | Raised(kind, trace)`. `kind.isException` says whether
`except Exception` catches the exception (`KeyboardInterrupt`, for example, is not caught).
The `error` attribute has the type its annotation gives it: None, a pair, or a str. This
makes the truthiness guard of `unless` a real test. The model proves that the
attribute is always a pair, so the guard always passes.

Where the documentation and the code disagree, the model follows the code:

- The handler runs after a successful call too. The initial `(None, None)` is a
  non-empty tuple and therefore truthy.
- The wrapper returns the same container on every call. Stale `value` or `error` from an
  earlier call survives a later call that does not overwrite it.
- The asynchronous branches test the callable itself instead of what calling it gives.
  They are left out (see below).

## Model

| member | source | states |
|---|---|---|
| `UnlessResult.Result.constructor` | unless/result.py:26-31 | a new container holds value None, error `(None, None)` and the default handler, and no handler has been invoked |
| `UnlessResult.DispatchOf` | unless/result.py:46-57 | after `unless(h)` the bound handler is `h` if given, else the old one; exactly one invocation, with the current error and the kwargs, happens iff the error is truthy and the handler takes the kwargs; the value is returned unless the default handler raised TypeError on kwargs |
| `UnlessResult.Result.Unless` | unless/result.py:33-57 | rebinds the handler and appends the invocation as `DispatchOf` says, returns its result, and leaves `value` and `error` unchanged |
| `UnlessResult.Result.DefaultHandle` | unless/result.py:95-97 | the default handler records one invocation with the error it is given and no kwargs |
| `UnlessResult.Wrapper.Call` | unless/result.py:77-88 | a return value replaces `value` and leaves `error`; a caught exception replaces `error` with (type, traceback) and leaves `value`; the shared container is returned; an exception outside `Exception` propagates and leaves the container untouched |
| `UnlessResult.FromFunc` | unless/result.py:59-93 | with no function it returns the partial holding rtype, args and kwargs; otherwise it allocates one container and either returns a wrapper over it (no args and no kwargs) or calls the wrapper at once and returns that container or propagates its exception |
| `UnlessResult.ApplyPartial` | unless/result.py:72-73 | calling the partial with a function raises TypeError (rtype bound twice) iff positional args were stored; otherwise it calls `from_func(g, rtype, **kwargs)` |
| `ResultLifecycle.Run` | unless/result.py:75-93 | along any sequence of calls on one shared container, handler invocations are only appended and an error that is a tuple stays a tuple |
| `ResultLifecycle.LastReturned` | unless/result.py:84 | the value selected is the default or the return value of one of the calls |
| `ResultLifecycle.LastCaught` | unless/result.py:85-86 | the error selected is the default or the (type, traceback) of one caught exception |
| `ResultLifecycle.LastBound` | unless/result.py:47 | the handler selected is the default or one passed to `unless` |
| `ResultLifecycle.RunSnoc` | unless/result.py:75-93 | running events and then one more is running the extended sequence |
| `ResultLifecycle.RunState` | unless/result.py:75-93 | after any sequence of calls, the shared container holds the last returned value, the last caught error and the last handler passed to `unless`, each defaulting to its earlier content |
| `ResultLifecycle.StaleValueSurvivesFailure` | unless/result.py:84-88 | a caught exception keeps the value an earlier call stored and records its own (type, traceback) |
| `ResultLifecycle.StaleErrorSurvivesSuccess` | unless/result.py:84-88 | a normal return keeps the error an earlier call stored and records its own value |
| `ResultLifecycle.EveryUnlessInvokesHandler` | unless/result.py:50-54 | from a tuple-valued error, every `unless` call without kwargs invokes a handler, so the number of invocations equals the number of `unless` calls |
| `ResultLifecycle.RepeatedUnlessRepeatsCall` | unless/result.py:46-57 | two `unless` calls with the same arguments make the same invocation twice: dispatch does not consume the error |
| `ResultLifecycle.HandlerOverridePersists` | unless/result.py:47 | a handler bound by `unless` stays bound through later `unless` calls that pass none |
| `ResultFindings.HandlerRunsWithoutFailure` | unless/result.py:50 | when no wrapped call raised a caught exception, `unless()` still invokes the bound handler once, with `(None, None)` |
| `ResultFindings.IntendedDispatch` | unless/result.py:46-57 | the intended dispatch rebinds like `unless` and makes at most one invocation, with the current error and kwargs |
| `ResultFindings.LastCaughtRecordsFailure` | unless/result.py:85-86 | if any call raised a caught exception, the last-caught slot holds a pair with an exception type |
| `ResultFindings.IntendedDispatchOnlyOnFailure` | unless/result.py:50-54 | with the intended guard, the handler runs iff some wrapped call raised a caught exception (and the handler takes the kwargs) |
| `ResultFindings.SharedWrapperReportsStaleValue` | unless/result.py:75-88 | after a success and then a division by zero through one wrapper, the container holds the first value, where a container for the second call alone holds None |
| `ResultFindings.IsolatedWrapper.Call` | unless/result.py:75-88 | the intended wrapper returns a fresh container holding only this call's outcome |
| `ResultFindings.IsolatedCallReflectsOutcome` | unless/result.py:84-86 | a container for one call holds that call's value or None, and records a failure iff that call raised a caught exception |
| `ResultFindings.PartialWithArgumentsRaises` | unless/result.py:73 | `from_func(None, rtype, 21)(g)` raises TypeError |
| `ResultFindings.PartialRoundTrip` | unless/result.py:72-73 | applying the intended partial to `g` equals the direct call `from_func(g, rtype, *args, **kwargs)`; the partial as written does so iff no positional args were stored |
| `ResultScenarios.ImmediateCallThenUnless` | unless/result.py:90-91 | `from_func(double, int, 21).unless()` returns 42, and the default handler is invoked once with `(None, None)` |
| `ResultScenarios.DecoratedCalledTwice` | unless/result.py:75-93 | two calls of one wrapper return the same container; after a failing second call it still holds the first value, and the bound handler gets the second call's TypeError |

## Left out

- The asynchronous branches (unless/result.py:51-52 and 79-82) are not modelled. They drive a process-wide event loop. Their `isinstance(..., types.CoroutineType)` tests the callable, not a coroutine object, so an ordinary `async def` function never takes them. Only the synchronous `else` paths are modelled.
- Traceback formatting (`traceback.format_exc()`) is not modelled. The trace is an opaque string carried by `Raised`.
- The text of the default handler's `logging.error` line is not modelled. The call is recorded in the ghost log `handled`; no I/O is modelled.
- The `rtype` hint and the `cls[rtype]` subscription are not modelled beyond storing `rtype` in the partial. They have no runtime effect.
- Python's argument passing (`*args`, `**kwargs`, `functools.partial`) is modelled only as far as `Args` and `ApplyPartial` need. `__slots__` is not modelled.
- Exceptions raised by a user handler are not modelled: user handlers are total and accept any kwargs. Only the default handler's TypeError on kwargs is modelled.
- A handler object that is callable but falsy is not modelled. `Option<Handler>` treats every passed handler as truthy and `None` as falsy.
- Assignments to `value`, `error` or `handler` made by callers outside the class are not modelled. `ErrorNone` and `ErrorStr` exist only because the annotation admits them.

## Findings

| source | as written | input that shows it | evidently intended | confidence | as-written member | corrected member |
|---|---|---|---|---|---|---|
| unless/result.py:50 | `if self.error:` tests the truth of a tuple, and the "no error" sentinel `(None, None)` is a non-empty tuple | `Result.from_func(lambda x: x * 2, int, 21).unless(h)` calls `h((None, None))` | the handler runs only when an exception was caught | high, not executed | `ResultFindings.HandlerRunsWithoutFailure` | `ResultFindings.IntendedDispatchOnlyOnFailure` |
| unless/result.py:75 | one container is allocated per `from_func` call and every wrapper call writes into it and returns it | a decorated `f` that returns on a first call and raises on a second: both calls return the same object, and its `value` is still the first call's | a fresh container per call, holding only that call's outcome | medium, not executed | `ResultFindings.SharedWrapperReportsStaleValue` | `ResultFindings.IsolatedWrapper.Call` |
| unless/result.py:73 | `functools.partial(cls.from_func, rtype=rtype, *args, **kwargs)` puts the stored positional args before the decorated function, so the first one binds `func` and the function binds `rtype`, which the keyword also supplies | `Result.from_func(None, int, 21)(f)` raises `TypeError: from_func() got multiple values for argument 'rtype'` | `from_func(f, rtype, *args, **kwargs)` | high, not executed | `ResultFindings.PartialWithArgumentsRaises` | `ResultFindings.PartialRoundTrip` |
