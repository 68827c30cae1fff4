/**
  The PointerHolder type transformation of the test fixture: the C type
  `PointerHolder<T>` is presented to the generator as `T*`, with conversions
  between the holder and the raw pointer written as C expressions.
 */
module PointerHolder {
  import opened Wrappers
  import opened Python

  /** A word character of the pattern's `\w`: an ASCII letter, digit or underscore. */
  predicate IsWordChar(c: char)
  {
    ('a' <= c <= 'z') || ('A' <= c <= 'Z') || ('0' <= c <= '9') || c == '_'
  }

  predicate IsWord(s: string)
  {
    forall i :: 0 <= i < |s| ==> IsWordChar(s[i])
  }

  predicate IsPrefix(p: string, s: string)
  {
    |p| <= |s| && s[..|p|] == p
  }

  const Holder: string := "PointerHolder<"
  const Scope: string := "::"

  /** Length of the longest run of word characters at the start of `s`. */
  function WordRun(s: string): (n: nat)
    ensures n <= |s|
    ensures IsWord(s[..n])
    ensures n < |s| ==> !IsWordChar(s[n])
  {
    if |s| > 0 && IsWordChar(s[0]) then
      var n := 1 + WordRun(s[1..]);
      assert s[..n] == [s[0]] + s[1..][..n - 1];
      n
    else 0
  }

  /** The name without one leading `::`. */
  function StripScope(name: string): string
  {
    if IsPrefix(Scope, name) then name[|Scope|..] else name
  }

  /**
    `get_untransformed_name`: match `(?:::)?PointerHolder<(\w+)>` at the start
    of `name` and give the captured identifier followed by `*`.
   */
  function GetUntransformedName(name: string): (r: Option<string>)
    ensures r.Some? ==> |r.value| >= 2 && r.value[|r.value| - 1] == '*' && IsWord(r.value[..|r.value| - 1])
  {
    var rest := StripScope(name);
    if IsPrefix(Holder, rest) then
      var after := rest[|Holder|..];
      var n := WordRun(after);
      if 1 <= n < |after| && after[n] == '>' then Some(after[..n] + "*") else None
    else None
  }

  /**
    The pattern, stated directly: `name` starts with `PointerHolder<id>`,
    optionally preceded by `::`, for a non-empty word `id`. Anything may follow.
   */
  predicate Matches(name: string, id: string)
  {
    && |id| >= 1 && IsWord(id)
    && (IsPrefix(Holder + id + ">", name) || IsPrefix(Scope + Holder + id + ">", name))
  }

  lemma PrefixConcat(p: string, q: string, s: string)
    ensures IsPrefix(p + q, s) <==> IsPrefix(p, s) && IsPrefix(q, s[|p|..])
  {
    if IsPrefix(p, s) && IsPrefix(q, s[|p|..]) {
      assert s[..|p + q|] == s[..|p|] + s[|p|..][..|q|];
    }
    if IsPrefix(p + q, s) {
      assert s[..|p|] == (p + q)[..|p|];
      assert s[|p|..][..|q|] == (p + q)[|p|..];
    }
  }

  /** A name that starts with `::` cannot start with `PointerHolder<`. */
  lemma ScopeExcludesHolder(name: string, id: string)
    requires IsPrefix(Scope, name)
    ensures !IsPrefix(Holder + id + ">", name)
  {
    assert name[0] == Scope[0] == ':';
    assert (Holder + id + ">")[0] == 'P';
  }

  /** The word run after `PointerHolder<` is exactly `id` when `id` is a word followed by `>`. */
  lemma {:induction false} WordRunOf(id: string, s: string)
    requires IsWord(id) && IsPrefix(id + ">", s)
    ensures WordRun(s) == |id|
    decreases |id|
  {
    assert s[0] == (id + ">")[0];
    if |id| > 0 {
      assert (id + ">")[1..] == id[1..] + ">";
      assert s[1..][..|id[1..] + ">"|] == s[..|id + ">"|][1..];
      WordRunOf(id[1..], s[1..]);
    }
  }

  /** Every name the pattern matches yields its identifier followed by `*`. */
  lemma {:induction false} MatchesGivesName(name: string, id: string)
    requires Matches(name, id)
    ensures GetUntransformedName(name) == Some(id + "*")
  {
    var rest := StripScope(name);
    if IsPrefix(Scope + Holder + id + ">", name) {
      assert Scope + Holder + id + ">" == Scope + (Holder + id + ">");
      PrefixConcat(Scope, Holder + id + ">", name);
    } else {
      if IsPrefix(Scope, name) {
        ScopeExcludesHolder(name, id);
      }
    }
    assert IsPrefix(Holder + id + ">", rest);
    assert Holder + id + ">" == Holder + (id + ">");
    PrefixConcat(Holder, id + ">", rest);
    var after := rest[|Holder|..];
    WordRunOf(id, after);
    assert after[..|id|] == (id + ">")[..|id|] == id;
  }

  /** Every name that yields a result matches the pattern with the identifier the result names. */
  lemma {:induction false} NameGivesMatch(name: string)
    requires GetUntransformedName(name).Some?
    ensures var r := GetUntransformedName(name).value;
      Matches(name, r[..|r| - 1])
  {
    var rest := StripScope(name);
    var after := rest[|Holder|..];
    var n := WordRun(after);
    var id := after[..n];
    assert GetUntransformedName(name).value[..n] == id;
    assert after[..n + 1] == id + ">";
    PrefixConcat(Holder, id + ">", rest);
    assert Holder + (id + ">") == Holder + id + ">";
    if IsPrefix(Scope, name) {
      PrefixConcat(Scope, Holder + id + ">", name);
      assert Scope + (Holder + id + ">") == Scope + Holder + id + ">";
    }
  }

  /** No match, no result: `GetUntransformedName` is None exactly when no identifier matches. */
  lemma NoMatchGivesNone(name: string)
    ensures GetUntransformedName(name).None? <==> forall id :: !Matches(name, id)
  {
    if GetUntransformedName(name).Some? {
      NameGivesMatch(name);
    } else {
      forall id | Matches(name, id)
        ensures false
      {
        MatchesGivesName(name, id);
      }
    }
  }

  /** Examples of the pattern's behaviour: with and without `::`. */
  lemma PlainHolderExample(name: string)
    requires name == "PointerHolder<Foo>"
    ensures GetUntransformedName(name) == Some("Foo*")
  {
    assert Matches(name, "Foo") by { assert name == Holder + "Foo" + ">"; }
    MatchesGivesName(name, "Foo");
    assert "Foo" + "*" == "Foo*";
  }

  lemma ScopedHolderExample(name: string)
    requires name == "::PointerHolder<Foo>"
    ensures GetUntransformedName(name) == Some("Foo*")
  {
    assert Matches(name, "Foo") by { assert name == Scope + Holder + "Foo" + ">"; }
    MatchesGivesName(name, "Foo");
    assert "Foo" + "*" == "Foo*";
  }

  /** Only the start is anchored: text after the closing `>` is ignored. */
  lemma TrailingTextExample(name: string)
    requires name == "PointerHolder<Foo>::Bar"
    ensures GetUntransformedName(name) == Some("Foo*")
  {
    assert Matches(name, "Foo") by { assert name[..|Holder + "Foo" + ">"|] == Holder + "Foo" + ">"; }
    MatchesGivesName(name, "Foo");
    assert "Foo" + "*" == "Foo*";
  }

  /** `\w+` needs at least one character, so an empty argument list does not match. */
  lemma EmptyHolderExample(name: string)
    requires name == "PointerHolder<>"
    ensures GetUntransformedName(name) == None
  {
    assert name[..|Scope|] != Scope by { assert name[0] == 'P'; }
    assert name[|Holder|..] == ">";
  }

  /** A name that does not begin with the holder is not transformed. */
  lemma UnrelatedNameExample(name: string)
    requires name == "Foo*"
    ensures GetUntransformedName(name) == None
  {
    assert name[..|Scope|] != Scope by { assert name[0] == 'F'; }
  }

  /** `untransform`: the raw pointer held by the holder expression `expression`. */
  function Untransform(expression: string): string
  {
    "(" + expression + ").thePointer"
  }

  /** The expression can be read back from the result, so distinct expressions give distinct results. */
  lemma UntransformRecoversExpression(expression: string)
    ensures var u := Untransform(expression);
      |u| == |expression| + 13 && u[1..|u| - 12] == expression
  {
  }

  lemma UntransformInjective(a: string, b: string)
    requires Untransform(a) == Untransform(b)
    ensures a == b
  {
    UntransformRecoversExpression(a);
    UntransformRecoversExpression(b);
  }

  /** The holder type declared for the pointer type `ctype` (which ends in `*`). */
  function HolderType(ctype: string): string
    requires |ctype| >= 1
  {
    Holder + ctype[..|ctype| - 1] + ">"
  }

  /** The expression `transform` returns: store `expression` in the holder `varName`, then yield the holder. */
  function TransformExpression(varName: string, expression: string): string
  {
    "(" + varName + ".thePointer = (" + expression + "), " + varName + ")"
  }

  /** The holder type declared for a pointer type is recognised again as that pointer type. */
  lemma {:induction false} HolderTypeRoundTrip(ctype: string)
    requires |ctype| >= 2 && ctype[|ctype| - 1] == '*' && IsWord(ctype[..|ctype| - 1])
    ensures GetUntransformedName(HolderType(ctype)) == Some(ctype)
  {
    var id := ctype[..|ctype| - 1];
    assert Matches(HolderType(ctype), id) by { assert IsPrefix(Holder + id + ">", HolderType(ctype)); }
    MatchesGivesName(HolderType(ctype), id);
    assert id + "*" == ctype;
  }

  /**
    Every name the transformation recognises spells, after an optional `::`,
    the holder type that `transform` declares for the untransformed name.
   */
  lemma RecognisedNameSpellsHolderType(name: string)
    requires GetUntransformedName(name).Some?
    ensures var ctype := GetUntransformedName(name).value;
      IsPrefix(HolderType(ctype), name) || IsPrefix(Scope + HolderType(ctype), name)
  {
    var r := GetUntransformedName(name).value;
    var id := r[..|r| - 1];
    assert Matches(name, id) by { NameGivesMatch(name); }
    assert HolderType(r) == Holder + id + ">";
    assert Scope + (Holder + id + ">") == Scope + Holder + id + ">";
  }

  /**
    The variables declared in a wrapper's scope, each with its C type and
    the base name it was requested under.
   */
  class Declarations {
    var declared: seq<(string, string)>

    constructor ()
      ensures declared == []
    {
      declared := [];
    }

    /** Record a declaration of a variable of type `ctype`, requested as `baseName`. */
    method DeclareVariable(ctype: string, baseName: string)
      modifies this
      ensures declared == old(declared) + [(ctype, baseName)]
    {
      declared := declared + [(ctype, baseName)];
    }
  }

  /**
    `transform`: declare a holder temporary for the untransformed C type
    `untransformedCtype` and give the expression that fills it from
    `expression`. The declarations scope answers with `varName`. An empty
    type fails on its last character, a type not ending in `*` fails the
    assertion; neither declares anything.
   */
  method Transform(decls: Declarations, untransformedCtype: string, expression: string, varName: string)
    returns (r: Result<string, Exc>)
    modifies decls
    ensures |untransformedCtype| == 0 ==> r == Err(IndexError)
    ensures |untransformedCtype| > 0 && untransformedCtype[|untransformedCtype| - 1] != '*' ==> r == Err(AssertionError)
    ensures r.Ok? <==> |untransformedCtype| > 0 && untransformedCtype[|untransformedCtype| - 1] == '*'
    ensures r.Err? ==> decls.declared == old(decls.declared)
    ensures r.Ok? ==>
      && |untransformedCtype| > 0 && untransformedCtype[|untransformedCtype| - 1] == '*'
      && r.value == TransformExpression(varName, expression)
      && decls.declared == old(decls.declared) + [(HolderType(untransformedCtype), "tmp")]
  {
    if |untransformedCtype| == 0 {
      return Err(IndexError);
    }
    if untransformedCtype[|untransformedCtype| - 1] != '*' {
      return Err(AssertionError);
    }
    decls.DeclareVariable(HolderType(untransformedCtype), "tmp");
    r := Ok(TransformExpression(varName, expression));
  }

  /** A type handler built through the transformation, with the untransformed name it was given. */
  datatype Handler = Handler(cls: HandlerClass, args: seq<Value>, kwargs: map<string, Value>, untransformedName: Option<string>)

  /**
    The ownership option the transformation forces for a handler class, and
    its value: `transfer_ownership=False` for a Parameter class,
    `caller_owns_return=True` for a ReturnValue class.
   */
  function ForcedOption(cls: HandlerClass): string
    requires !cls.OtherClass?
  {
    match cls
    case ParameterClass(_) => "transfer_ownership"
    case ReturnValueClass(_) => "caller_owns_return"
  }

  function ForcedValue(cls: HandlerClass): Value
    requires !cls.OtherClass?
  {
    match cls
    case ParameterClass(_) => Bool(false)
    case ReturnValueClass(_) => Bool(true)
  }

  /**
    `create_type_handler`: force the ownership option for a Parameter or a
    ReturnValue class (fail for any other class), build the handler from the
    arguments and record the untransformed name of the first one. The
    caller's options are not changed: Python gives the function its own copy.
   */
  method CreateTypeHandler(cls: HandlerClass, args: seq<Value>, kwargs: map<string, Value>)
    returns (r: Result<Handler, Exc>)
    ensures r == Err(AssertionError) <==> cls.OtherClass?
    ensures r == Err(IndexError) <==> !cls.OtherClass? && |args| == 0
    ensures r == Err(TypeError) <==> !cls.OtherClass? && |args| > 0 && !args[0].Str?
    ensures r.Ok? <==> !cls.OtherClass? && |args| > 0 && args[0].Str?
    ensures r.Ok? ==>
      && r.value.cls == cls && r.value.args == args
      && r.value.untransformedName == GetUntransformedName(args[0].s)
      && r.value.kwargs.Keys == kwargs.Keys + {ForcedOption(cls)}
      && r.value.kwargs[ForcedOption(cls)] == ForcedValue(cls)
      && (forall k :: k in kwargs && k != ForcedOption(cls) ==> r.value.kwargs[k] == kwargs[k])
  {
    var options := kwargs;
    if cls.ParameterClass? {
      options := options["transfer_ownership" := Bool(false)];
    } else if cls.ReturnValueClass? {
      options := options["caller_owns_return" := Bool(true)];
    } else {
      return Err(AssertionError);
    }
    if |args| == 0 {
      return Err(IndexError);
    }
    if !args[0].Str? {
      return Err(TypeError);
    }
    r := Ok(Handler(cls, args, options, GetUntransformedName(args[0].s)));
  }
}
