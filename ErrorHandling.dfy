/**
  Routing of errors raised while a wrapper is generated
  (`call_with_error_handling`) and the evaluation of parameter and
  return-value specifications that goes through it (`eval_param`,
  `eval_retval`).
 */
module ErrorHandling {
  import opened Wrappers
  import opened Python
  import opened Specs

  /**
    The configured error handler (`settings.error_handler`): its
    `handle_error` verdict for a wrapper and a raised exception.
   */
  type ErrorHandler<!W> = (W, Exc) -> bool

  /** A constructor such as `Parameter.new` or `ReturnValue.new`, called with `(*args, **kwargs)`. */
  type Callback<T> = (seq<Value>, map<string, Value>) -> Outcome<T>

  /** The exception kinds handled when the caller names none. */
  const DefaultHandled: set<Exc> := {TypeConfigurationError, CodeGenerationError, NotSupportedError}

  /** The exception kinds handled when parameter and return-value specifications are evaluated. */
  const EvalHandled: set<Exc> := {TypeConfigurationError, NotSupportedError, TypeLookupError}

  /**
    `call_with_error_handling`: without a handler the callback's outcome is
    returned as it is. With a handler, an exception of a handled kind
    becomes SkipWrapper exactly when the handler says so, and is re-raised
    otherwise; any other exception is re-raised.
   */
  function CallWithErrorHandling<W, T>(
    callback: Callback<T>, args: seq<Value>, kwargs: map<string, Value>,
    wrapper: W, handler: Option<ErrorHandler<W>>, handled: set<Exc>): (r: Outcome<T>)
    ensures handler.None? ==> r == callback(args, kwargs)
    ensures callback(args, kwargs).Returned? ==> r == callback(args, kwargs)
    ensures callback(args, kwargs).Raised? && callback(args, kwargs).exc !in handled ==> r == callback(args, kwargs)
    ensures r != callback(args, kwargs) <==>
      && handler.Some?
      && callback(args, kwargs).Raised?
      && callback(args, kwargs).exc in handled
      && handler.value(wrapper, callback(args, kwargs).exc)
      && callback(args, kwargs).exc != SkipWrapper
    ensures r != callback(args, kwargs) ==> r == Raised(SkipWrapper)
  {
    var outcome := callback(args, kwargs);
    match handler
    case None => outcome
    case Some(handleError) =>
      match outcome
      case Returned(_) => outcome
      case Raised(ex) =>
        if ex in handled then
          if handleError(wrapper, ex) then Raised(SkipWrapper) else outcome
        else
          outcome
  }

  /**
    `call_with_error_handling` with its default `exceptions_to_handle`:
    a TypeLookupError is not among them and always propagates.
   */
  function CallWithDefaultHandling<W, T>(
    callback: Callback<T>, args: seq<Value>, kwargs: map<string, Value>,
    wrapper: W, handler: Option<ErrorHandler<W>>): (r: Outcome<T>)
    ensures r != callback(args, kwargs) <==>
      && handler.Some?
      && callback(args, kwargs).Raised?
      && (callback(args, kwargs).exc == TypeConfigurationError
          || callback(args, kwargs).exc == CodeGenerationError
          || callback(args, kwargs).exc == NotSupportedError)
      && handler.value(wrapper, callback(args, kwargs).exc)
    ensures r != callback(args, kwargs) ==> r == Raised(SkipWrapper)
    ensures callback(args, kwargs) == Raised(TypeLookupError) ==> r == Raised(TypeLookupError)
  {
    CallWithErrorHandling(callback, args, kwargs, wrapper, handler, DefaultHandled)
  }

  /** Every result is the callback's own outcome or the skip signal. */
  lemma CallWithErrorHandlingOutcomes<W, T>(
    callback: Callback<T>, args: seq<Value>, kwargs: map<string, Value>,
    wrapper: W, handler: Option<ErrorHandler<W>>, handled: set<Exc>)
    ensures var r := CallWithErrorHandling(callback, args, kwargs, wrapper, handler, handled);
      r == callback(args, kwargs) || r == Raised(SkipWrapper)
  {
  }

  /**
    `eval_param`: a Parameter object is returned as it is; anything else is
    parsed as a specification, and the parsed arguments go to
    `Parameter.new` under error handling. Parse errors are raised directly.
   */
  function EvalParam<W>(value: Value, newParameter: Callback<Value>, wrapper: W, handler: Option<ErrorHandler<W>>): (r: Outcome<Value>)
    ensures value.Instance? && value.cls.ParameterClass? ==> r == Returned(value)
    ensures !(value.Instance? && value.cls.ParameterClass?) && ParseParamSpec(value).Err? ==>
      r == Raised(ParseParamSpec(value).error)
    ensures !(value.Instance? && value.cls.ParameterClass?) && ParseParamSpec(value).Ok? ==>
      var p := ParseParamSpec(value).value;
      r == CallWithErrorHandling(newParameter, p.args, p.kwargs, wrapper, handler, EvalHandled)
  {
    if value.Instance? && value.cls.ParameterClass? then Returned(value)
    else
      match ParseParamSpec(value)
      case Err(e) => Raised(e)
      case Ok(p) => CallWithErrorHandling(newParameter, p.args, p.kwargs, wrapper, handler, EvalHandled)
  }

  /** `eval_retval`: the same dispatch for ReturnValue objects and `ReturnValue.new`. */
  function EvalRetval<W>(value: Value, newReturnValue: Callback<Value>, wrapper: W, handler: Option<ErrorHandler<W>>): (r: Outcome<Value>)
    ensures value.Instance? && value.cls.ReturnValueClass? ==> r == Returned(value)
    ensures !(value.Instance? && value.cls.ReturnValueClass?) && ParseRetvalSpec(value).Err? ==>
      r == Raised(ParseRetvalSpec(value).error)
    ensures !(value.Instance? && value.cls.ReturnValueClass?) && ParseRetvalSpec(value).Ok? ==>
      var p := ParseRetvalSpec(value).value;
      r == CallWithErrorHandling(newReturnValue, p.args, p.kwargs, wrapper, handler, EvalHandled)
  {
    if value.Instance? && value.cls.ReturnValueClass? then Returned(value)
    else
      match ParseRetvalSpec(value)
      case Err(e) => Raised(e)
      case Ok(p) => CallWithErrorHandling(newReturnValue, p.args, p.kwargs, wrapper, handler, EvalHandled)
  }

  /** A spec built with `param` reaches `Parameter.new` with exactly the packed arguments. */
  lemma EvalParamOfParam<W>(args: seq<Value>, kwargs: map<string, Value>, newParameter: Callback<Value>,
                            wrapper: W, handler: Option<ErrorHandler<W>>)
    requires |args| >= 1
    ensures EvalParam(Param(args, kwargs), newParameter, wrapper, handler)
         == CallWithErrorHandling(newParameter, args, kwargs, wrapper, handler, EvalHandled)
  {
    ParamRoundTrip(args, kwargs);
  }

  /** A spec built with `retval` reaches `ReturnValue.new` with exactly the packed arguments. */
  lemma EvalRetvalOfRetval<W>(args: seq<Value>, kwargs: map<string, Value>, newReturnValue: Callback<Value>,
                              wrapper: W, handler: Option<ErrorHandler<W>>)
    ensures EvalRetval(Retval(args, kwargs), newReturnValue, wrapper, handler)
         == CallWithErrorHandling(newReturnValue, args, kwargs, wrapper, handler, EvalHandled)
  {
    RetvalRoundTrip(args, kwargs);
  }

  /** Without a handler, evaluating a bare type name is one call of `ReturnValue.new` on it. */
  lemma EvalRetvalOfNameUnhandled<W>(name: string, newReturnValue: Callback<Value>, wrapper: W)
    ensures EvalRetval(Str(name), newReturnValue, wrapper, None) == newReturnValue([Str(name)], map[])
  {
  }
}
