/** Three places where unless/result.py does something other than what its documentation and
    its design evidently intend. Each is shown on the model of the code as written, and the
    intended behaviour is defined beside it with its property proved. */
module ResultFindings {
  import opened Wrappers
  import opened UnlessResult
  import opened ResultLifecycle

  // ---------------------------------------------------------------------------------------
  // 1. The handler runs after a successful call: the "no error" sentinel (None, None) is a
  //    non-empty tuple, so the guard `if self.error` always passes.

  /** Without a caught exception, `unless()` still invokes the bound handler, with (None, None). */
  lemma HandlerRunsWithoutFailure(evs: seq<Event>)
    requires forall i :: 0 <= i < |evs| && evs[i].WrapperCalled? ==> !Caught(evs[i].o)
    ensures var s := Run(Start(), evs).state;
            DispatchOf(s, None, map[]).calls == [HandlerCall(s.handler, ErrorPair(None, None), map[])]
  {
    RunState(Start(), evs);
  }

  /** The error attribute records a failure: a tuple with an exception type in it, or a
      non-empty str. */
  predicate RecordsFailure(e: ErrorValue)
  {
    match e
    case ErrorPair(k, _) => k.Some?
    case _ => Truthy(e)
  }

  /** `unless` with the guard evidently intended: the handler runs only on a recorded failure. */
  function IntendedDispatch(s: State, h: Option<Handler>, kwargs: map<string, PyObj>): (d: Dispatch)
    ensures d.bound == Rebind(s.handler, h)
    ensures d.calls == [] || d.calls == [HandlerCall(d.bound, s.error, kwargs)]
  {
    var bound := Rebind(s.handler, h);
    if !RecordsFailure(s.error) then
      Dispatch(bound, [], ReturnsValue(s.value))
    else if Accepts(bound, kwargs) then
      Dispatch(bound, [HandlerCall(bound, s.error, kwargs)], ReturnsValue(s.value))
    else
      Dispatch(bound, [], HandlerTypeError)
  }

  /** A caught exception anywhere in `evs` leaves its (type, traceback) in the last-caught slot. */
  lemma {:induction false} LastCaughtRecordsFailure(evs: seq<Event>, d: ErrorValue)
    requires exists i :: 0 <= i < |evs| && evs[i].WrapperCalled? && Caught(evs[i].o)
    ensures LastCaught(evs, d).ErrorPair? && LastCaught(evs, d).kind.Some?
  {
    var n := |evs| - 1;
    var e := evs[n];
    if !(e.WrapperCalled? && Caught(e.o)) {
      var i :| 0 <= i < |evs| && evs[i].WrapperCalled? && Caught(evs[i].o);
      assert i < n && evs[..n][i] == evs[i];
      LastCaughtRecordsFailure(evs[..n], d);
    }
  }

  /** With the intended guard, a container that a wrapper has used invokes the handler exactly
      when some wrapped call raised a caught exception (and the handler takes the arguments). */
  lemma IntendedDispatchOnlyOnFailure(evs: seq<Event>, h: Option<Handler>, kwargs: map<string, PyObj>)
    ensures var s := Run(Start(), evs).state;
            var d := IntendedDispatch(s, h, kwargs);
            |d.calls| == 1 <==>
              (exists i :: 0 <= i < |evs| && evs[i].WrapperCalled? && Caught(evs[i].o)) && Accepts(d.bound, kwargs)
  {
    RunState(Start(), evs);
    if exists i :: 0 <= i < |evs| && evs[i].WrapperCalled? && Caught(evs[i].o) {
      LastCaughtRecordsFailure(evs, ErrorPair(None, None));
    }
  }

  // ---------------------------------------------------------------------------------------
  // 2. Every call of the wrapper writes into, and returns, the one container allocated by
  //    from_func, so a failing call reports the value of an earlier successful one.

  const ZeroDivision: ExcType := ExcType("ZeroDivisionError", true)

  /** A success and then a division by zero through one wrapper: the container still holds the
      first call's value, where a container for the second call alone would hold None. */
  lemma SharedWrapperReportsStaleValue(t: string)
    ensures Run(Start(), [WrapperCalled(Returned(PyInt(1))), WrapperCalled(Raised(ZeroDivision, t))]).state.value
            == PyInt(1)
    ensures AfterCall(InitialState(), Raised(ZeroDivision, t)).value == PyNone
  {
    var first, second := WrapperCalled(Returned(PyInt(1))), WrapperCalled(Raised(ZeroDivision, t));
    assert [first, second] == [first] + [second];
    StaleValueSurvivesFailure(Start(), [first], ZeroDivision, t);
    assert [first][1..] == [];
  }

  /** `fn_wrapper` as evidently intended: a fresh container for every call. */
  class IsolatedWrapper {
    const func: Callable

    constructor (func: Callable)
      ensures this.func == func
    {
      this.func := func;
    }

    /** Calls the wrapped function and returns a new container holding that call's outcome. */
    method Call(a: Args) returns (r: CallReturn)
      ensures Escapes(func(a)) ==> r == CallPropagates(func(a).kind, func(a).trace)
      ensures !Escapes(func(a)) ==>
        r.Container? && fresh(r.res) && r.res.View() == AfterCall(InitialState(), func(a)) && r.res.handled == []
    {
      var res := new Result();
      var w := new Wrapper(func, res);
      r := w.Call(a);
    }
  }

  /** The container of an isolated call holds that call's return value or None, and a recorded
      failure exactly when that call raised a caught exception. */
  lemma IsolatedCallReflectsOutcome(o: Outcome)
    requires !Escapes(o)
    ensures AfterCall(InitialState(), o).value == (if o.Returned? then o.v else PyNone)
    ensures RecordsFailure(AfterCall(InitialState(), o).error) <==> Caught(o)
    ensures Caught(o) ==> AfterCall(InitialState(), o).error == ErrorPair(Some(o.kind), Some(o.trace))
  {
  }

  // ---------------------------------------------------------------------------------------
  // 3. The partial returned for `func is None` passes its stored positional arguments before
  //    the decorated function, so with any positional argument `rtype` is bound twice.

  /** `from_func(None, rtype, 21)(g)` raises TypeError instead of calling g with 21. */
  lemma PartialWithArgumentsRaises(g: Callable)
    ensures ApplyPartial(Partial(PyNone, [PyInt(21)], map[]), g) == RtypeGivenTwice
  {
  }

  /** The partial as evidently intended: the decorated function takes the `func` slot and the
      stored arguments follow it. */
  function ApplyPartialIntended(p: Partial, g: Callable): Application
  {
    Calls(FromFuncCall(Some(g), p.rtype, p.args, p.kwargs))
  }

  /** Deferring a call of `from_func` and then supplying the function is the same call made
      directly: with the intended partial always, with the partial as written exactly when no
      positional argument was stored. */
  lemma PartialRoundTrip(rtype: PyObj, args: seq<PyObj>, kwargs: map<string, PyObj>, g: Callable)
    ensures ApplyPartialIntended(Partial(rtype, args, kwargs), g) == Calls(FromFuncCall(Some(g), rtype, args, kwargs))
    ensures ApplyPartial(Partial(rtype, args, kwargs), g) == Calls(FromFuncCall(Some(g), rtype, args, kwargs))
            <==> args == []
  {
  }
}
