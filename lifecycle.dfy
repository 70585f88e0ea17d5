/** What happens to the one container a `fn_wrapper` closure owns when the caller interleaves
    calls of the wrapper with calls of `unless` on it. */
module ResultLifecycle {
  import opened Wrappers
  import opened UnlessResult

  /** Something a caller does with the shared container: call the wrapper (whose wrapped call
      ends with `o`), or call `unless(h, **kwargs)` on the container. */
  datatype Event =
    | WrapperCalled(o: Outcome)
    | UnlessCalled(h: Option<Handler>, kwargs: map<string, PyObj>)

  /** The container's attributes and the handler invocations made so far. */
  datatype Lifecycle = Lifecycle(state: State, calls: seq<HandlerCall>)

  /** The container's lifecycle before any event. */
  function Start(): Lifecycle
  {
    Lifecycle(InitialState(), [])
  }

  /** One event; an exception that escapes the wrapper or `unless` reaches the caller, who may
      go on using the same container. */
  function Step(l: Lifecycle, e: Event): Lifecycle
  {
    match e
    case WrapperCalled(o) => Lifecycle(AfterCall(l.state, o), l.calls)
    case UnlessCalled(h, kwargs) =>
      var d := DispatchOf(l.state, h, kwargs);
      Lifecycle(l.state.(handler := d.bound), l.calls + d.calls)
  }

  /** The events in order. Handler invocations are only ever appended, and an error attribute
      that starts as a tuple stays one. */
  function Run(l: Lifecycle, evs: seq<Event>): (t: Lifecycle)
    ensures l.calls <= t.calls
    ensures l.state.error.ErrorPair? ==> t.state.error.ErrorPair?
    decreases |evs|
  {
    if evs == [] then l else Run(Step(l, evs[0]), evs[1..])
  }

  /** The value returned by the last wrapper call in `evs` that returned normally, or `d`. */
  function LastReturned(evs: seq<Event>, d: PyObj): (v: PyObj)
    ensures v == d || exists i :: 0 <= i < |evs| && evs[i] == WrapperCalled(Returned(v))
  {
    if evs == [] then d
    else
      var e := evs[|evs| - 1];
      if e.WrapperCalled? && e.o.Returned? then e.o.v
      else
        var v := LastReturned(evs[..|evs| - 1], d);
        assert forall i :: 0 <= i < |evs| - 1 ==> evs[..|evs| - 1][i] == evs[i];
        v
  }

  /** The (type, traceback) pair of the last caught exception in `evs`, or `d`. */
  function LastCaught(evs: seq<Event>, d: ErrorValue): (r: ErrorValue)
    ensures r == d || exists i :: 0 <= i < |evs| && evs[i].WrapperCalled? && Caught(evs[i].o) &&
                                  r == ErrorPair(Some(evs[i].o.kind), Some(evs[i].o.trace))
  {
    if evs == [] then d
    else
      var e := evs[|evs| - 1];
      if e.WrapperCalled? && Caught(e.o) then ErrorPair(Some(e.o.kind), Some(e.o.trace))
      else
        var r := LastCaught(evs[..|evs| - 1], d);
        assert forall i :: 0 <= i < |evs| - 1 ==> evs[..|evs| - 1][i] == evs[i];
        r
  }

  /** The last handler passed to `unless` in `evs`, or `d`. */
  function LastBound(evs: seq<Event>, d: Handler): (h: Handler)
    ensures h == d || exists i :: 0 <= i < |evs| && evs[i].UnlessCalled? && evs[i].h == Some(h)
  {
    if evs == [] then d
    else
      var e := evs[|evs| - 1];
      if e.UnlessCalled? && e.h.Some? then e.h.value
      else
        var h := LastBound(evs[..|evs| - 1], d);
        assert forall i :: 0 <= i < |evs| - 1 ==> evs[..|evs| - 1][i] == evs[i];
        h
  }

  /** The number of `unless` calls in `evs`. */
  function UnlessCount(evs: seq<Event>): nat
  {
    if evs == [] then 0 else (if evs[0].UnlessCalled? then 1 else 0) + UnlessCount(evs[1..])
  }

  /** Running `evs` and then `e` is running `evs + [e]`. */
  lemma {:induction false} RunSnoc(l: Lifecycle, evs: seq<Event>, e: Event)
    ensures Run(l, evs + [e]) == Step(Run(l, evs), e)
    decreases |evs|
  {
    if evs == [] {
      assert [e][1..] == [];
    } else {
      assert (evs + [e])[0] == evs[0];
      assert (evs + [e])[1..] == evs[1..] + [e];
      RunSnoc(Step(l, evs[0]), evs[1..], e);
    }
  }

  /** The shared container after any sequence of events holds the value of the last call that
      returned, the error of the last call that raised a caught exception, and the last handler
      passed to `unless`; each keeps its earlier content when no later event overwrites it. */
  lemma {:induction false} RunState(l: Lifecycle, evs: seq<Event>)
    ensures Run(l, evs).state == State(LastReturned(evs, l.state.value),
                                       LastCaught(evs, l.state.error),
                                       LastBound(evs, l.state.handler))
  {
    if evs != [] {
      var init, e := evs[..|evs| - 1], evs[|evs| - 1];
      assert evs == init + [e];
      RunSnoc(l, init, e);
      RunState(l, init);
    }
  }

  /** A caught exception after earlier calls keeps the value an earlier call stored. */
  lemma StaleValueSurvivesFailure(l: Lifecycle, evs: seq<Event>, k: ExcType, t: string)
    requires k.isException
    ensures Run(l, evs + [WrapperCalled(Raised(k, t))]).state.value == Run(l, evs).state.value
    ensures Run(l, evs + [WrapperCalled(Raised(k, t))]).state.error == ErrorPair(Some(k), Some(t))
  {
    RunSnoc(l, evs, WrapperCalled(Raised(k, t)));
  }

  /** A successful call after earlier calls keeps the error an earlier call stored. */
  lemma StaleErrorSurvivesSuccess(l: Lifecycle, evs: seq<Event>, v: PyObj)
    ensures Run(l, evs + [WrapperCalled(Returned(v))]).state.error == Run(l, evs).state.error
    ensures Run(l, evs + [WrapperCalled(Returned(v))]).state.value == v
  {
    RunSnoc(l, evs, WrapperCalled(Returned(v)));
  }

  /** Starting from a tuple-valued error, every `unless` call without keyword arguments invokes
      a handler, whether or not any wrapped call failed. */
  lemma {:induction false} EveryUnlessInvokesHandler(l: Lifecycle, evs: seq<Event>)
    requires l.state.error.ErrorPair?
    requires forall i :: 0 <= i < |evs| && evs[i].UnlessCalled? ==> evs[i].kwargs == map[]
    ensures |Run(l, evs).calls| == |l.calls| + UnlessCount(evs)
    decreases |evs|
  {
    if evs != [] {
      assert forall i :: 0 <= i < |evs| - 1 ==> evs[1..][i] == evs[i + 1];
      EveryUnlessInvokesHandler(Step(l, evs[0]), evs[1..]);
    }
  }

  /** Calling `unless` twice in a row with the same arguments invokes the same handler with the
      same error twice: dispatch does not consume the error. */
  lemma RepeatedUnlessRepeatsCall(l: Lifecycle, h: Option<Handler>, kwargs: map<string, PyObj>)
    ensures var d := DispatchOf(l.state, h, kwargs);
            Run(l, [UnlessCalled(h, kwargs), UnlessCalled(h, kwargs)]).calls == l.calls + d.calls + d.calls
  {
    var e := UnlessCalled(h, kwargs);
    var d := DispatchOf(l.state, h, kwargs);
    var l1 := Step(l, e);
    assert DispatchOf(l1.state, h, kwargs) == d;
    assert [e, e][1..] == [e] && [e][1..] == [];
    assert Run(l, [e, e]) == Run(l1, [e]) == Step(l1, e);
  }

  /** Once `unless` binds a handler, later `unless` calls without one use it. */
  lemma {:induction false} HandlerOverridePersists(l: Lifecycle, h: Handler, kwargs: map<string, PyObj>, evs: seq<Event>)
    requires forall i :: 0 <= i < |evs| && evs[i].UnlessCalled? ==> evs[i].h == None
    ensures Run(l, [UnlessCalled(Some(h), kwargs)] + evs).state.handler == h
  {
    var first := UnlessCalled(Some(h), kwargs);
    assert ([first] + evs)[0] == first && ([first] + evs)[1..] == evs;
    var l1 := Step(l, first);
    RunState(l1, evs);
  }
}
