/**
  The shorthand specifications of parameters and return values: `param`
  and `retval` pack positional values and a trailing keyword mapping into
  a tuple; `parse_param_spec` and `parse_retval_spec` take such a tuple
  (or, for return values, a bare type name) apart again. `ascii` checks
  that a value is a string or None.
 */
module Specs {
  import opened Wrappers
  import opened Python

  /** The `(args, kwargs)` pair that the parsers return. */
  datatype Parsed = Parsed(args: seq<Value>, kwargs: map<string, Value>)

  /** `param(*args, **kwargs)`: the positional values followed by the keyword mapping. */
  function Param(args: seq<Value>, kwargs: map<string, Value>): (spec: Value)
    ensures spec.Tuple? && EndsWithDict(spec.items)
    ensures spec.items[|spec.items| - 1] == Dict(kwargs) && spec.items[..|spec.items| - 1] == args
  {
    Tuple(args + [Dict(kwargs)])
  }

  /** `retval(*args, **kwargs)` packs exactly as `param` does. */
  function Retval(args: seq<Value>, kwargs: map<string, Value>): (spec: Value)
    ensures spec.Tuple? && EndsWithDict(spec.items)
    ensures spec.items[|spec.items| - 1] == Dict(kwargs) && spec.items[..|spec.items| - 1] == args
  {
    Param(args, kwargs)
  }

  /** The common tail of both parsers: split off a trailing dict, if any. */
  function SplitTrailingDict(items: seq<Value>): (p: Parsed)
    ensures EndsWithDict(items) ==> items == p.args + [Dict(p.kwargs)]
    ensures !EndsWithDict(items) ==> p.args == items && p.kwargs == map[]
  {
    if EndsWithDict(items) then Parsed(items[..|items| - 1], items[|items| - 1].entries)
    else Parsed(items, map[])
  }

  /**
    `parse_param_spec`: a tuple of at least two items, split into its
    positional prefix and its trailing mapping; a tuple without a trailing
    mapping passes whole with no keyword arguments.
   */
  function ParseParamSpec(spec: Value): (r: Result<Parsed, Exc>)
    ensures r == Err(TypeError) <==> !spec.Tuple?
    ensures r == Err(AssertionError) <==> spec.Tuple? && |spec.items| < 2
    ensures r.Ok? <==> spec.Tuple? && |spec.items| >= 2
    ensures r.Ok? && EndsWithDict(spec.items) ==> spec == Param(r.value.args, r.value.kwargs)
    ensures r.Ok? && !EndsWithDict(spec.items) ==> spec == Tuple(r.value.args) && r.value.kwargs == map[]
  {
    if spec.Tuple? then
      if |spec.items| >= 2 then Ok(SplitTrailingDict(spec.items)) else Err(AssertionError)
    else
      Err(TypeError)
  }

  /**
    `parse_retval_spec`: like `parse_param_spec`, but a tuple needs only one
    item, and a bare string names the type with no other arguments.
   */
  function ParseRetvalSpec(spec: Value): (r: Result<Parsed, Exc>)
    ensures r == Err(TypeError) <==> !spec.Tuple? && !spec.Str?
    ensures r == Err(AssertionError) <==> spec == Tuple([])
    ensures r.Ok? <==> spec.Str? || (spec.Tuple? && |spec.items| >= 1)
    ensures spec.Str? ==> r == Ok(Parsed([spec], map[]))
    ensures r.Ok? && spec.Tuple? && EndsWithDict(spec.items) ==> spec == Retval(r.value.args, r.value.kwargs)
    ensures r.Ok? && spec.Tuple? && !EndsWithDict(spec.items) ==> spec == Tuple(r.value.args) && r.value.kwargs == map[]
  {
    if spec.Tuple? then
      if |spec.items| >= 1 then Ok(SplitTrailingDict(spec.items)) else Err(AssertionError)
    else if spec.Str? then
      Ok(Parsed([spec], map[]))
    else
      Err(TypeError)
  }

  /** Parsing undoes `param` whenever there is at least one positional value. */
  lemma ParamRoundTrip(args: seq<Value>, kwargs: map<string, Value>)
    requires |args| >= 1
    ensures ParseParamSpec(Param(args, kwargs)) == Ok(Parsed(args, kwargs))
  {
    var items := args + [Dict(kwargs)];
    assert items[..|items| - 1] == args;
  }

  /** `param()` with no positional value packs a one-item tuple, which the parser's assertion rejects. */
  lemma ParamWithoutArgsRejected(kwargs: map<string, Value>)
    ensures ParseParamSpec(Param([], kwargs)) == Err(AssertionError)
  {
  }

  /** Parsing undoes `retval` for every argument list, the empty one included. */
  lemma RetvalRoundTrip(args: seq<Value>, kwargs: map<string, Value>)
    ensures ParseRetvalSpec(Retval(args, kwargs)) == Ok(Parsed(args, kwargs))
  {
    var items := args + [Dict(kwargs)];
    assert items[..|items| - 1] == args;
  }

  /** Packing what the parser returned rebuilds a spec that parses the same way. */
  lemma ParamParseRepack(spec: Value)
    requires ParseParamSpec(spec).Ok?
    ensures var p := ParseParamSpec(spec).value;
      |p.args| >= 1 && ParseParamSpec(Param(p.args, p.kwargs)) == Ok(p)
  {
    var p := ParseParamSpec(spec).value;
    ParamRoundTrip(p.args, p.kwargs);
  }

  /** A tuple of two or more items without a trailing dict is passed whole, with no options. */
  lemma ParamPlainTuple(items: seq<Value>)
    requires |items| >= 2 && !EndsWithDict(items)
    ensures ParseParamSpec(Tuple(items)) == Ok(Parsed(items, map[]))
  {
  }

  /** A non-empty tuple without a trailing dict is passed whole, with no options. */
  lemma RetvalPlainTuple(items: seq<Value>)
    requires |items| >= 1 && !EndsWithDict(items)
    ensures ParseRetvalSpec(Tuple(items)) == Ok(Parsed(items, map[]))
  {
  }

  /** A bare type name means the same as the one-item tuple holding it. */
  lemma RetvalStringIsOneTuple(name: string)
    ensures ParseRetvalSpec(Str(name)) == ParseRetvalSpec(Tuple([Str(name)]))
  {
  }

  /** On tuples of two or more items the two parsers agree. */
  lemma ParsersAgreeOnLongTuples(items: seq<Value>)
    requires |items| >= 2
    ensures ParseRetvalSpec(Tuple(items)) == ParseParamSpec(Tuple(items))
  {
  }

  /**
    `ascii`: None and strings pass through unchanged; anything else is a
    TypeError. (The source's third branch repeats the second one's test and
    can never run.)
   */
  function Ascii(value: Value): (r: Result<Value, Exc>)
    ensures r.Ok? <==> value.NoneValue? || value.Str?
    ensures r.Ok? ==> r.value == value
    ensures r.Err? ==> r.error == TypeError
  {
    if value.NoneValue? then Ok(value)
    else if value.Str? then Ok(value)
    else Err(TypeError)
  }

}
