/** Callers of the model: the uses of `from_func` and `unless` that the library's documentation
    describes, run through the class contracts. */
module ResultScenarios {
  import opened Wrappers
  import opened UnlessResult

  /** A function of one int that doubles it; any other arguments raise TypeError. */
  function Double(a: Args): Outcome
  {
    if |a.positional| == 1 && a.positional[0].PyInt? && a.keyword == map[] then
      Returned(PyInt(2 * a.positional[0].i))
    else
      Raised(ExcType("TypeError", true), "TypeError")
  }

  /** `Result.from_func(double, int, 21).unless()`: the call runs at once, `unless` returns 42,
      and the default handler still logs the sentinel (None, None). */
  method ImmediateCallThenUnless() returns (v: UnlessReturn, ghost log: seq<HandlerCall>)
    ensures v == ReturnsValue(PyInt(42))
    ensures log == [HandlerCall(DefaultHandler, ErrorPair(None, None), map[])]
  {
    var r := FromFunc(Some(Double), PyNone, [PyInt(21)], map[]);
    var res := r.res;
    v := res.Unless(None, map[]);
    log := res.handled;
  }

  /** Decorating `double` and calling the wrapper with 1 and then with a string: both calls
      return the same container, which after the failing call still holds 2, and a handler
      bound by `unless` is invoked with the TypeError of the second call. */
  method DecoratedCalledTwice() returns (same: bool, v: UnlessReturn, ghost log: seq<HandlerCall>)
    ensures same
    ensures v == ReturnsValue(PyInt(2))
    ensures log == [HandlerCall(UserHandler(0), ErrorPair(Some(ExcType("TypeError", true)), Some("TypeError")), map[])]
  {
    var r := FromFunc(Some(Double), PyNone, [], map[]);
    var w := r.w;
    var first := w.Call(Args([PyInt(1)], map[]));
    var second := w.Call(Args([PyStr("x")], map[]));
    same := first.res == second.res;
    v := second.res.Unless(Some(UserHandler(0)), map[]);
    log := second.res.handled;
  }
}
