/**
  The slice of Python's object model that the helpers of the binding
  generator look at: the shapes of values a specification may take, the
  classes of type handlers, and the exceptions that the helpers raise or
  route.
 */
module Python {

  /** The type-handler classes that `issubclass` tests distinguish. */
  datatype HandlerClass =
    | ParameterClass(name: string)     // any subclass of Parameter
    | ReturnValueClass(name: string)   // any subclass of ReturnValue
    | OtherClass(name: string)

  /**
    A Python value as seen by the specification helpers. `Dict` stands for
    a keyword-argument mapping, so its keys are strings. `Instance` is an
    object of some class, such as an already built Parameter handler.
   */
  datatype Value =
    | NoneValue
    | Bool(b: bool)
    | Int(i: int)
    | Str(s: string)
    | Tuple(items: seq<Value>)
    | Dict(entries: map<string, Value>)
    | Instance(cls: HandlerClass, id: nat)

  /** The exception kinds raised or handled by the helpers. */
  datatype Exc =
    | TypeError
    | AssertionError
    | IndexError
    | TypeLookupError
    | TypeConfigurationError
    | CodeGenerationError
    | NotSupportedError
    | SkipWrapper
    | OtherException(name: string)

  /** What calling a Python callable produces: a value or a raised exception. */
  datatype Outcome<+T> = Returned(value: T) | Raised(exc: Exc)

  /** The trailing-mapping test `isinstance(items[-1], dict)`. */
  predicate EndsWithDict(items: seq<Value>)
  {
    |items| > 0 && items[|items| - 1].Dict?
  }
}
