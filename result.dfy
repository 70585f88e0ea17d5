/** A model of the `Result` container of unless/result.py: the three attributes it holds,
    the `unless` dispatch step, the `from_func` factory and the `fn_wrapper` closure it
    returns. Only the synchronous paths are modelled. */
module UnlessResult {
  import opened Wrappers

  /** The Python objects the model passes around: return values, arguments, the rtype hint. */
  datatype PyObj = PyNone | PyInt(i: int) | PyStr(s: string) | PyObject(id: nat)

  /** An exception class. `isException` is false for the classes that derive from
      BaseException but not from Exception (KeyboardInterrupt, SystemExit, GeneratorExit),
      which `except Exception` lets through. */
  datatype ExcType = ExcType(name: string, isException: bool)

  /** What one call of a wrapped function does: return a value, or raise an exception of some
      class, together with the text `traceback.format_exc()` gives for it. */
  datatype Outcome = Returned(v: PyObj) | Raised(kind: ExcType, trace: string)

  /** The positional and keyword arguments of one call. */
  datatype Args = Args(positional: seq<PyObj>, keyword: map<string, PyObj>)

  /** A synchronous Python callable, seen through what it does with its arguments. */
  type Callable = Args -> Outcome

  /** The value of `Result.error` as it is annotated: None, a (type, text) tuple whose two
      parts may each be None, or a str. */
  datatype ErrorValue =
    | ErrorNone
    | ErrorPair(kind: Option<ExcType>, trace: Option<string>)
    | ErrorStr(s: string)

  /** The handlers `Result.handler` can hold: the private default handler bound at
      construction, or a function supplied by the caller. */
  datatype Handler = DefaultHandler | UserHandler(id: nat)

  /** One invocation `handler(error, **kwargs)`. An entry for DefaultHandler stands for the
      `logging.error` line that handler writes. */
  datatype HandlerCall = HandlerCall(handler: Handler, error: ErrorValue, kwargs: map<string, PyObj>)

  /** The three attributes of a Result. */
  datatype State = State(value: PyObj, error: ErrorValue, handler: Handler)

  /** What a call of `unless` gives its caller: the stored value, or the TypeError raised when
      the default handler is passed keyword arguments it does not take. */
  datatype UnlessReturn = ReturnsValue(v: PyObj) | HandlerTypeError

  /** The effect of one call of `unless`: the handler bound afterwards, the handler
      invocations made (none or one) and what the call gives back. */
  datatype Dispatch = Dispatch(bound: Handler, calls: seq<HandlerCall>, result: UnlessReturn)

  /** The attributes of a freshly constructed Result. */
  function InitialState(): State
  {
    State(PyNone, ErrorPair(None, None), DefaultHandler)
  }

  /** Python's truth value of an error attribute: None and the empty str are false; a tuple
      is true whenever it is non-empty, whatever it holds, so `(None, None)` is true. */
  predicate Truthy(e: ErrorValue)
  {
    match e
    case ErrorNone => false
    case ErrorPair(_, _) => true
    case ErrorStr(s) => s != ""
  }

  /** The wrapped call raised an exception that `except Exception` catches. */
  predicate Caught(o: Outcome)
  {
    o.Raised? && o.kind.isException
  }

  /** The wrapped call raised an exception that `except Exception` lets through. */
  predicate Escapes(o: Outcome)
  {
    o.Raised? && !o.kind.isException
  }

  /** The attributes after one call of `fn_wrapper` whose wrapped call ends with `o`: a return
      value replaces `value`, a caught exception replaces `error` with (type, traceback), and
      an escaping exception leaves the container as it was. */
  function AfterCall(s: State, o: Outcome): State
  {
    match o
    case Returned(v) => s.(value := v)
    case Raised(k, t) => if k.isException then s.(error := ErrorPair(Some(k), Some(t))) else s
  }

  /** `handler or self.handler`: a handler passed in replaces the bound one, None keeps it. */
  function Rebind(current: Handler, h: Option<Handler>): Handler
  {
    if h.Some? then h.value else current
  }

  /** The default handler is the method `__default_handler(self, error)`: it accepts no keyword
      arguments. A user handler is taken to accept the ones it is given. */
  predicate Accepts(h: Handler, kwargs: map<string, PyObj>)
  {
    h.UserHandler? || kwargs == map[]
  }

  /** One call of `unless(h, **kwargs)` on a container whose attributes are `s`. */
  function DispatchOf(s: State, h: Option<Handler>, kwargs: map<string, PyObj>): (d: Dispatch)
    ensures d.bound == (if h.Some? then h.value else s.handler)
    ensures |d.calls| == 1 <==> Truthy(s.error) && Accepts(d.bound, kwargs)
    ensures d.calls == [] || d.calls == [HandlerCall(d.bound, s.error, kwargs)]
    ensures d.result == ReturnsValue(s.value) <==> !Truthy(s.error) || Accepts(d.bound, kwargs)
    ensures d.result != ReturnsValue(s.value) ==> d.result == HandlerTypeError
  {
    var bound := Rebind(s.handler, h);
    if !Truthy(s.error) then
      Dispatch(bound, [], ReturnsValue(s.value))
    else if Accepts(bound, kwargs) then
      Dispatch(bound, [HandlerCall(bound, s.error, kwargs)], ReturnsValue(s.value))
    else
      Dispatch(bound, [], HandlerTypeError)
  }

  /** The container of unless/result.py. `handled` records every handler invocation made
      through `unless`, in order. */
  class Result {
    var value: PyObj
    var error: ErrorValue
    var handler: Handler
    ghost var handled: seq<HandlerCall>

    /** The three attributes as a value. */
    function View(): State
      reads this
    {
      State(value, error, handler)
    }

    constructor ()
      ensures View() == InitialState() && handled == []
    {
      value := PyNone;
      error := ErrorPair(None, None);
      handler := DefaultHandler;
      handled := [];
    }

    /** Binds `h` if one is given, invokes the bound handler with the stored error and `kwargs`
        when that error is truthy, and gives back the stored value. */
    method Unless(h: Option<Handler>, kwargs: map<string, PyObj>) returns (r: UnlessReturn)
      modifies this`handler, this`handled
      ensures value == old(value) && error == old(error)
      ensures handler == DispatchOf(old(View()), h, kwargs).bound
      ensures handled == old(handled) + DispatchOf(old(View()), h, kwargs).calls
      ensures r == DispatchOf(old(View()), h, kwargs).result
    {
      handler := Rebind(handler, h);
      if Truthy(error) {
        match handler {
          case DefaultHandler =>
            if kwargs != map[] {
              return HandlerTypeError;
            }
            DefaultHandle(error);
          case UserHandler(_) =>
            handled := handled + [HandlerCall(handler, error, kwargs)];
        }
      }
      r := ReturnsValue(value);
    }

    /** `__default_handler`: logs the error it is given and returns; the log line is recorded
        as a handler invocation. */
    method DefaultHandle(e: ErrorValue)
      modifies this`handled
      ensures handled == old(handled) + [HandlerCall(DefaultHandler, e, map[])]
    {
      handled := handled + [HandlerCall(DefaultHandler, e, map[])];
    }
  }

  /** What a call of `fn_wrapper` gives its caller: the container it writes to, or the exception
      that `except Exception` did not catch. */
  datatype CallReturn = Container(res: Result) | CallPropagates(kind: ExcType, trace: string)

  /** The closure `fn_wrapper`: the wrapped function and the one container allocated for it. */
  class Wrapper {
    const func: Callable
    const target: Result

    constructor (func: Callable, target: Result)
      ensures this.func == func && this.target == target
    {
      this.func := func;
      this.target := target;
    }

    /** Calls the wrapped function and stores its return value or its caught exception in the
        shared container, which it then returns. */
    method Call(a: Args) returns (r: CallReturn)
      modifies target`value, target`error
      ensures target.View() == AfterCall(old(target.View()), func(a))
      ensures Escapes(func(a)) ==> r == CallPropagates(func(a).kind, func(a).trace)
      ensures !Escapes(func(a)) ==> r == Container(target)
    {
      var o := func(a);
      match o {
        case Returned(v) =>
          target.value := v;
        case Raised(k, t) =>
          if !k.isException {
            return CallPropagates(k, t);
          }
          target.error := ErrorPair(Some(k), Some(t));
      }
      r := Container(target);
    }
  }

  /** The `functools.partial` that `from_func` returns when no function is given. */
  datatype Partial = Partial(rtype: PyObj, args: seq<PyObj>, kwargs: map<string, PyObj>)

  /** What a call of `from_func` gives its caller. */
  datatype FromFuncReturn =
    | ReturnsPartial(p: Partial)
    | ReturnsWrapper(w: Wrapper)
    | ReturnsResult(res: Result)
    | FromFuncPropagates(kind: ExcType, trace: string)

  /** `if args or kwargs`: whether `from_func` calls the wrapper at once. */
  predicate RunsNow(args: seq<PyObj>, kwargs: map<string, PyObj>)
  {
    args != [] || kwargs != map[]
  }

  /** `Result.from_func(func, rtype, *args, **kwargs)`. */
  method FromFunc(func: Option<Callable>, rtype: PyObj, args: seq<PyObj>, kwargs: map<string, PyObj>)
    returns (r: FromFuncReturn)
    ensures func.None? ==> r == ReturnsPartial(Partial(rtype, args, kwargs))
    ensures func.Some? && !RunsNow(args, kwargs) ==>
      r.ReturnsWrapper? && fresh(r.w) && fresh(r.w.target) && r.w.func == func.value &&
      r.w.target.View() == InitialState() && r.w.target.handled == []
    ensures func.Some? && RunsNow(args, kwargs) && Escapes(func.value(Args(args, kwargs))) ==>
      r == FromFuncPropagates(func.value(Args(args, kwargs)).kind, func.value(Args(args, kwargs)).trace)
    ensures func.Some? && RunsNow(args, kwargs) && !Escapes(func.value(Args(args, kwargs))) ==>
      r.ReturnsResult? && fresh(r.res) &&
      r.res.View() == AfterCall(InitialState(), func.value(Args(args, kwargs))) && r.res.handled == []
  {
    if func.None? {
      return ReturnsPartial(Partial(rtype, args, kwargs));
    }
    var toReturn := new Result();
    var w := new Wrapper(func.value, toReturn);
    if RunsNow(args, kwargs) {
      var c := w.Call(Args(args, kwargs));
      match c
      case Container(res) =>
        r := ReturnsResult(res);
      case CallPropagates(k, t) =>
        r := FromFuncPropagates(k, t);
    } else {
      r := ReturnsWrapper(w);
    }
  }

  /** A call of `from_func` with its arguments bound. */
  datatype FromFuncCall = FromFuncCall(func: Option<Callable>, rtype: PyObj, args: seq<PyObj>, kwargs: map<string, PyObj>)

  /** What calling a partial does: call `from_func` with bound arguments, or raise TypeError
      because `rtype` received two values. */
  datatype Application = Calls(call: FromFuncCall) | RtypeGivenTwice

  /** Calling the partial `p` with the function `g`. `functools.partial` passes its stored
      positional arguments first, so `from_func` receives `(*p.args, g)` positionally together
      with the keyword `rtype`: the first positional binds `func`, the second binds `rtype`,
      which the keyword binds as well. */
  function ApplyPartial(p: Partial, g: Callable): (r: Application)
    ensures r.RtypeGivenTwice? <==> p.args != []
    ensures r.Calls? ==> r.call == FromFuncCall(Some(g), p.rtype, [], p.kwargs)
  {
    var positional := |p.args| + 1;
    if positional >= 2 then RtypeGivenTwice else Calls(FromFuncCall(Some(g), p.rtype, [], p.kwargs))
  }
}
