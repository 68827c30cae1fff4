# PyBindGen helpers and the PointerHolder transformation, in Dafny

This project models two parts of PyBindGen.

The first part is the helper module `pybindgen/utils.py`:
- name mangling of C++ spellings (`mangle_name`, `get_mangled_name`);
- the shorthand parameter and return-value specifications (`param`, `retval`, `parse_param_spec`, `parse_retval_spec`, `ascii`);
- the routing of code-generation errors to a configured handler (`call_with_error_handling`, `eval_param`, `eval_retval`);
- the duplicate-call guard and version gating of `write_preamble`.

The second part is the `PointerHolderTransformation` of `tests/foomodulegen_common.py`. It presents the C type `PointerHolder<T>` to the generator as `T*`.

Layout:
- `Wrappers.dfy`: `Option` and `Result`.
- `Python.dfy`: the Python values the helpers see (None, booleans, integers, strings, tuples, dicts with string keys, and handler instances), the handler classes, the exception kinds, and a call outcome (returned value or raised exception).
- `Mangling.dfy`: `mangle_name` written as the source's chain of nine replacements, together with a per-character table. The two are proved equal. Some properties are proved on the replace chain directly, the rest through the table. It also holds `get_mangled_name` and the documented example.
- `Specs.dfy`: packing and parsing of specifications, and `ascii`.
- `ErrorHandling.dfy`: `call_with_error_handling`, `eval_param` and `eval_retval`. `Parameter.new`, `ReturnValue.new` and the error handler are function parameters.
- `Preamble.dfy`: a `CodeSink` class holding the written blocks and the have-written-preamble flag, Python's tuple order on versions, and `WritePreamble`. `WritePreamble` is proved to append exactly `PreambleBlocks` of the effective version, or nothing on a duplicate call.
- `PointerHolder.dfy`: the anchored matcher `(?:::)?PointerHolder<(\w+)>` written out by hand, with a direct statement of the pattern (`Matches`) proved equivalent to it. It also holds `untransform`, `transform` over a `Declarations` class, and `create_type_handler`.

Python `assert` statements are taken to be enabled: a failing one is `AssertionError`.

## Model

| member | source | states |
|---|---|---|
| Mangling.MangleNameIsPerChar | pybindgen/utils.py:166-172 | the nine chained `replace` calls equal a per-character substitution, because no token contains a character that a later step replaces |
| Mangling.MangleNameOneChar | pybindgen/utils.py:168-171 | on a single character the replacement chain gives that character's token from the table |
| Mangling.LookupRules | pybindgen/utils.py:168-171 | the nine replacement rules, in source order, map each special character to its token and leave every other character as it is |
| Mangling.ReplaceChainOneChar | pybindgen/utils.py:168-171 | when no token contains a later rule's pattern, chaining the rules on one character yields the first matching rule's token |
| Mangling.ReplaceChainConcat | pybindgen/utils.py:168-171 | a chain of single-character replacements distributes over concatenation |
| Mangling.ReplaceChainUntouched | pybindgen/utils.py:168-171 | a chain of replacements leaves a string holding none of its patterns unchanged |
| Mangling.ReplaceConcat | pybindgen/utils.py:168 | one `str.replace` of a single character distributes over concatenation |
| Mangling.ReplaceAbsent | pybindgen/utils.py:168 | `str.replace` of a character that does not occur returns the string unchanged |
| Mangling.MangleNameNoSpecial | pybindgen/utils.py:166-172 | no output character is one of `< > , space & * : ( )`; each output character is an input character, `_`, or a lower-case token letter |
| Mangling.MangleNameConcat | pybindgen/utils.py:166-172 | `mangle_name(a + b) == mangle_name(a) + mangle_name(b)` |
| Mangling.MangleNameClean | pybindgen/utils.py:166-172 | a string with none of the special characters comes back unchanged |
| Mangling.MangleNameIdempotent | pybindgen/utils.py:166-172 | mangling a mangled name changes nothing |
| Mangling.MangleCharClean | pybindgen/utils.py:168-171 | no character's token holds a special character |
| Mangling.MangleCharsClean | pybindgen/utils.py:168-171 | the per-character table's output holds no special character, only input characters, `_` and lower-case letters |
| Mangling.MangleCharsConcat | pybindgen/utils.py:168-171 | the per-character table distributes over concatenation |
| Mangling.MangleNameCommaSplit | pybindgen/utils.py:168 | a comma between two parts becomes `_` between their manglings |
| Mangling.MangleJoin | pybindgen/utils.py:181-182 | mangling a comma-joined argument list is the `_`-join of the mangled arguments |
| Mangling.MangleEach | pybindgen/utils.py:182 | a list of the same length whose i-th item is `mangle_name(args[i])` |
| Mangling.GetMangledNameIsMangledSpelling | pybindgen/utils.py:175-184 | `get_mangled_name(b, args)` equals mangling the C++ spelling `b<a1,...,an>` (or `b` without arguments) |
| Mangling.GetMangledNameNoSpecial | pybindgen/utils.py:175-184 | the result of `get_mangled_name` holds none of the special characters |
| Mangling.GetMangledNameNoArgs | pybindgen/utils.py:180-184 | without template arguments the result is `mangle_name(base_name)` |
| Mangling.Lookup | pybindgen/utils.py:168-171 | a character that no rule's pattern matches maps to itself |
| Mangling.MangleChar | pybindgen/utils.py:168-171 | a character that is not special maps to itself |
| ManglingExample.MangleNameExample | pybindgen/utils.py:167 | `mangle_name("Like<This,and,That>") == "Like__lt__This_and_That__gt__"` |
| ManglingExample.MangleCharsWord | pybindgen/utils.py:167 | a word of letters passes through the table unchanged |
| ManglingExample.MangleCharsTemplate | pybindgen/utils.py:167 | mangling a template spelling made of words builds the result from the words and the three tokens |
| ManglingExample.ExampleWord | pybindgen/utils.py:167 | each word of the documented example is left unchanged |
| ManglingExample.MangleCharsCons | pybindgen/utils.py:168-171 | the table maps a string character by character from its head |
| Specs.Param | pybindgen/utils.py:232-238 | `param(*args, **kwargs)` is a tuple of the positional values followed by the options dict, so it ends in a dict |
| Specs.Retval | pybindgen/utils.py:241-247 | `retval(*args, **kwargs)` is a tuple of the positional values followed by the options dict, so it ends in a dict |
| Specs.SplitTrailingDict | pybindgen/utils.py:253-258 | a trailing dict is split off as the options, and the rest are the arguments; without one, all items are arguments and the options are empty |
| Specs.ParseParamSpec | pybindgen/utils.py:250-261 | `TypeError` exactly for a non-tuple; `AssertionError` exactly for a tuple of fewer than 2 items; success exactly for a tuple of 2 or more items, and then the spec is `param(*args, **kwargs)` of the result, or the whole tuple with empty options |
| Specs.ParseRetvalSpec | pybindgen/utils.py:264-278 | `TypeError` exactly for a value that is neither a tuple nor a string; `AssertionError` exactly for the empty tuple; success exactly for a string or a non-empty tuple; a string `s` gives `((s,), {})`; tuples are split as for parameters |
| Specs.ParamPlainTuple | pybindgen/utils.py:256-258 | a tuple of two or more items without a trailing dict parses to the whole tuple and empty options |
| Specs.RetvalPlainTuple | pybindgen/utils.py:270-272 | a non-empty tuple without a trailing dict parses to the whole tuple and empty options |
| Specs.ParamRoundTrip | pybindgen/utils.py:232-261 | `parse_param_spec(param(*a, **k)) == (a, k)` whenever `a` is non-empty |
| Specs.ParamWithoutArgsRejected | pybindgen/utils.py:232-254 | `param()` without positional values fails the parser's length assertion |
| Specs.RetvalRoundTrip | pybindgen/utils.py:241-278 | `parse_retval_spec(retval(*a, **k)) == (a, k)` for every `a`, the empty one included |
| Specs.ParamParseRepack | pybindgen/utils.py:232-261 | re-packing a successful parse with `param` gives a spec that parses to the same result |
| Specs.RetvalStringIsOneTuple | pybindgen/utils.py:264-278 | a bare string parses like the one-item tuple that holds it |
| Specs.ParsersAgreeOnLongTuples | pybindgen/utils.py:250-278 | on tuples of two or more items the two parsers agree |
| Specs.Ascii | pybindgen/utils.py:214-229 | None and strings are returned unchanged; anything else raises `TypeError` |
| ErrorHandling.CallWithErrorHandling | pybindgen/utils.py:192-211 | with no handler, the callback's outcome; a returned value passes through; an exception outside the handled kinds is re-raised; the outcome changes exactly when a handler is set, the exception is of a handled kind and the handler says so, and it then becomes `SkipWrapper` |
| ErrorHandling.CallWithDefaultHandling | pybindgen/utils.py:192-211 | with the default handled kinds (`TypeConfigurationError`, `CodeGenerationError`, `NotSupportedError`) the outcome changes exactly when a handler is set, one of those is raised and the handler says so, and it then becomes `SkipWrapper`; a `TypeLookupError` always propagates |
| ErrorHandling.CallWithErrorHandlingOutcomes | pybindgen/utils.py:197-211 | the result is always the callback's own outcome or `SkipWrapper` |
| ErrorHandling.EvalParam | pybindgen/utils.py:281-289 | a Parameter object is returned as it is; a parse error is raised unhandled; otherwise `Parameter.new` runs under error handling for `TypeConfigurationError`, `NotSupportedError`, `TypeLookupError` |
| ErrorHandling.EvalRetval | pybindgen/utils.py:292-300 | the same dispatch for ReturnValue objects and `ReturnValue.new` |
| ErrorHandling.EvalParamOfParam | pybindgen/utils.py:232-289 | a spec built by `param` with positional values reaches `Parameter.new` with exactly those arguments and options |
| ErrorHandling.EvalRetvalOfRetval | pybindgen/utils.py:241-300 | a spec built by `retval` reaches `ReturnValue.new` with exactly its arguments and options |
| ErrorHandling.EvalRetvalOfNameUnhandled | pybindgen/utils.py:272-300 | without a handler, a bare type name is one call of `ReturnValue.new` on that name |
| Preamble.VersionLessIrreflexive | pybindgen/utils.py:61 | no version is below itself under tuple `<` |
| Preamble.VersionLessTransitive | pybindgen/utils.py:61-104 | tuple `<` is transitive |
| Preamble.VersionLessTrichotomy | pybindgen/utils.py:61-104 | any two versions are equal or exactly one is below the other |
| Preamble.VersionLessPair | pybindgen/utils.py:61-104 | closed form of `v < (major, minor)`: the empty tuple, a smaller major, or the same major with no minor or a smaller one |
| Preamble.PreambleBlocksShape | pybindgen/utils.py:55-162 | the preamble opens with the header block and ends with the two fixed blocks; each compatibility block is present exactly when the version is below 2.4, 2.5 or 2.6 respectively |
| Preamble.PreambleBlocksOrdered | pybindgen/utils.py:55-162 | the blocks keep the source's order and none is written twice |
| Preamble.CompatBlocksNested | pybindgen/utils.py:61-104 | a version that needs the 2.4 block needs the 2.5 block, and one that needs the 2.5 block needs the 2.6 block |
| Preamble.ModernPreamble | pybindgen/utils.py:55-162 | for every version not below `(2, 6)` under tuple `<`, one-part versions such as `(3,)` included, only the header and the two fixed blocks are written |
| Preamble.Python3Preamble | pybindgen/utils.py:61-110 | a version whose first part is 3 or more, of any length, gets no compatibility block |
| Preamble.CodeSink.Writeln | pybindgen/utils.py:55 | `writeln` appends one block and nothing else changes |
| Preamble.WriteWhen | pybindgen/utils.py:61-105 | a block is appended exactly when its version test holds |
| Preamble.WriteCompatBlocks | pybindgen/utils.py:61-110 | the three compatibility blocks are appended in order, each when the version is below its threshold |
| Preamble.WritePreamble | pybindgen/utils.py:32-162 | the default version comes from the settings; a sink that already carries a preamble is left unchanged and the call reports it; otherwise the flag is set and exactly the preamble of the effective version is appended |
| PointerHolder.WordRun | tests/foomodulegen_common.py:18 | the greedy `\w+`: the run is all word characters and is followed by a non-word character or the end |
| PointerHolder.GetUntransformedName | tests/foomodulegen_common.py:20-25 | a result is a non-empty word followed by `*` |
| PointerHolder.MatchesGivesName | tests/foomodulegen_common.py:18-25 | a name starting with `PointerHolder<id>` or `::PointerHolder<id>`, for a non-empty word `id`, gives `id*` |
| PointerHolder.NameGivesMatch | tests/foomodulegen_common.py:18-25 | every result `id*` comes from a name that starts with `PointerHolder<id>`, with or without `::` |
| PointerHolder.NoMatchGivesNone | tests/foomodulegen_common.py:18-23 | None exactly when the name matches the pattern for no identifier |
| PointerHolder.WordRunOf | tests/foomodulegen_common.py:18 | when a word is followed by `>`, the greedy word run stops exactly at `>` |
| PointerHolder.ScopeExcludesHolder | tests/foomodulegen_common.py:18 | a name starting with `::` cannot match the unscoped alternative |
| PointerHolder.PrefixConcat | tests/foomodulegen_common.py:18 | matching a concatenated prefix is matching its parts one after the other |
| PointerHolder.PlainHolderExample | tests/foomodulegen_common.py:18-25 | `PointerHolder<Foo>` gives `Foo*` |
| PointerHolder.ScopedHolderExample | tests/foomodulegen_common.py:18-25 | `::PointerHolder<Foo>` gives `Foo*` |
| PointerHolder.TrailingTextExample | tests/foomodulegen_common.py:18-25 | the match is anchored only at the start: `PointerHolder<Foo>::Bar` still gives `Foo*` |
| PointerHolder.EmptyHolderExample | tests/foomodulegen_common.py:18-23 | `PointerHolder<>` gives None, because `\w+` needs a character |
| PointerHolder.UnrelatedNameExample | tests/foomodulegen_common.py:18-23 | a name that does not start with the holder gives None |
| PointerHolder.UntransformRecoversExpression | tests/foomodulegen_common.py:38-39 | `untransform` wraps the expression as `(e).thePointer`, from which `e` can be read back |
| PointerHolder.UntransformInjective | tests/foomodulegen_common.py:38-39 | distinct expressions untransform to distinct expressions |
| PointerHolder.HolderTypeRoundTrip | tests/foomodulegen_common.py:42-44 | for a pointee `T` made only of ASCII word characters (the only kind `get_untransformed_name` yields), the holder type `transform` declares for `T*` is recognised again as `T*` |
| PointerHolder.RecognisedNameSpellsHolderType | tests/foomodulegen_common.py:20-25 | every recognised name begins, after an optional `::`, with the holder type `transform` declares for its result |
| PointerHolder.Declarations.DeclareVariable | tests/foomodulegen_common.py:43-44 | a declaration is recorded with its type and requested name |
| PointerHolder.Transform | tests/foomodulegen_common.py:41-45 | an empty C type raises `IndexError` and one not ending in `*` fails the assertion, and neither declares anything; the call succeeds exactly for a non-empty type ending in `*`, and then one `tmp` variable of type `PointerHolder<T>` is declared for `T*` and the result is `(v.thePointer = (e), v)` |
| PointerHolder.CreateTypeHandler | tests/foomodulegen_common.py:27-36 | `AssertionError` exactly for a class that is neither Parameter nor ReturnValue; `IndexError` for no arguments; `TypeError` for a first argument that is not a string; otherwise the handler receives the arguments unchanged, the options with `transfer_ownership=False` (Parameter) or `caller_owns_return=True` (ReturnValue) and every other option unchanged, and the untransformed name of the first argument |

## Left out

- The C text of the preamble blocks (pybindgen/utils.py:55-162) is not modelled; each block is a token. The `'.'.join(str(x) ...)` formatting of the generator version is also left out: the header block holds the version itself.
- The `DeprecationWarning` on a duplicate `write_preamble` call (pybindgen/utils.py:46-50) is not modelled; `WritePreamble` returns a flag in its place.
- Execution under `python -O` is not modelled. There `__debug__` is false, the guard is skipped and asserts do not fire.
- WritePreamble: versions are integer tuples, so the `isinstance(min_python_version, tuple)` assertion (pybindgen/utils.py:41) and comparisons of non-integer tuple items are not modelled. The `isinstance(code_sink, CodeSink)` assertion is settled by the types.
- The two type assertions of `get_mangled_name` (pybindgen/utils.py:177-178) are settled by the parameter types: the base name is a string and the template arguments are a sequence of strings.
- Transform: a pointee that is not a single word (`ns::Foo*`, `Foo**`, `unsigned int*`) is accepted by `transform`, but its declared holder type is not recognised again by `get_untransformed_name`, whose `\w+` captures words only; `HolderTypeRoundTrip` is stated for word pointees only.
- `settings.min_python_version` and `settings.error_handler` are parameters, not a global.
- `pybindgen.version.__version__` and its `[0, 0, 0, 0]` fallback (pybindgen/utils.py:23-26) are a parameter.
- The Python 2/3 `string_types` switch and the `any` fallback loop (pybindgen/utils.py:1-17) are not modelled: strings are the single `Str` kind, and `any` is not used by the modelled functions.
- Ascii: the third branch of `ascii` (pybindgen/utils.py:226-227) repeats the second branch's test and can never run, so no ASCII encoding is modelled.
- `Parameter.new`, `ReturnValue.new`, the type handler constructors and `set_tranformation` are code this model does not contain. The first two are callback parameters, and the handler built by `create_type_handler` is a record of what it was given.
- CreateTypeHandler: a failure of the handler constructor itself (tests/foomodulegen_common.py:34) is not modelled.
- `sys.exc_info` and the traceback passed to `handle_error` are not modelled; the handler is a function of the wrapper and the exception kind.
- CallWithErrorHandling: exception kinds are matched by equality, so the subclass relation between PyBindGen's exception classes (defined in `pybindgen/typehandlers/base.py`, which is not part of this model) is not modelled.
- Dictionary keys are strings only, as keyword arguments are.
- The `\w` of the PointerHolder pattern is taken as ASCII letters, digits and `_`. Python 3 also counts other Unicode letters and digits as word characters.
- The variable name that `declare_variable` picks is a parameter of `Transform`, since the declarations scope's naming rule is not part of this model.
- The type handler's `untransformed_ctype` is a string argument of `Transform`.
- `customize_module` (tests/foomodulegen_common.py:54-119) and the registration of the transformation with the type matchers (tests/foomodulegen_common.py:47-50) are not modelled. They act on the Module, CppClass and matcher APIs, which are not part of this model.
