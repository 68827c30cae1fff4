/**
  Name mangling of the binding generator (`mangle_name`,
  `get_mangled_name`): C++ spellings such as `Like<This,and,That>` become
  identifier-safe strings.
 */
module Mangling {

  /** The characters that mangling rewrites. */
  predicate IsSpecial(c: char)
  {
    c == '<' || c == '>' || c == ',' || c == ' ' || c == '&' || c == '*' || c == ':' || c == '(' || c == ')'
  }

  /** Python's `s.replace(c, token)` for a one-character pattern `c`. */
  function Replace(s: string, c: char, token: string): (r: string)
  {
    if s == [] then []
    else (if s[0] == c then token else [s[0]]) + Replace(s[1..], c, token)
  }

  /** Replacing a character that does not occur changes nothing. */
  lemma {:induction false} ReplaceAbsent(s: string, c: char, token: string)
    requires c !in s
    ensures Replace(s, c, token) == s
  {
    if s != [] {
      assert c !in s[1..];
      ReplaceAbsent(s[1..], c, token);
      assert s == [s[0]] + s[1..];
    }
  }

  lemma {:induction false} ReplaceConcat(a: string, b: string, c: char, token: string)
    ensures Replace(a + b, c, token) == Replace(a, c, token) + Replace(b, c, token)
  {
    if a == [] {
      assert a + b == b;
    } else {
      assert (a + b)[0] == a[0];
      assert (a + b)[1..] == a[1..] + b;
      ReplaceConcat(a[1..], b, c, token);
    }
  }

  /** One `.replace(pattern, token)` step of `mangle_name`. */
  datatype Rule = Rule(pattern: char, token: string)

  /** The replacement steps of `mangle_name`, in the order it applies them. */
  const Rules: seq<Rule> := [
    Rule('<', "__lt__"), Rule('>', "__gt__"), Rule(',', "_"),
    Rule(' ', "_"), Rule('&', "__amp__"), Rule('*', "__star__"),
    Rule(':', "_"),
    Rule('(', "_lp_"), Rule(')', "_rp_")
  ]

  /** Applies the replacement steps one after the other, as chained `.replace` calls. */
  function ReplaceChain(s: string, rules: seq<Rule>): (r: string)
    decreases |rules|
  {
    if rules == [] then s
    else ReplaceChain(Replace(s, rules[0].pattern, rules[0].token), rules[1..])
  }

  /** `mangle_name` as written: the chained replacements of the source. */
  function MangleName(name: string): (r: string)
  {
    ReplaceChain(name, Rules)
  }

  /** No token contains a character that a LATER step replaces. */
  predicate LaterTokensClean(rules: seq<Rule>)
  {
    forall i, j :: 0 <= i < j < |rules| ==> rules[j].pattern !in rules[i].token
  }

  /** True when no character of `s` is the pattern of any step. */
  predicate Untouched(s: string, rules: seq<Rule>)
  {
    forall k :: 0 <= k < |rules| ==> rules[k].pattern !in s
  }

  /** First-match lookup of one character in the steps. */
  function Lookup(c: char, rules: seq<Rule>): (r: string)
    ensures Untouched([c], rules) ==> r == [c]
  {
    if rules == [] then [c]
    else if rules[0].pattern == c then rules[0].token
    else Lookup(c, rules[1..])
  }

  lemma {:induction false} ReplaceChainConcat(a: string, b: string, rules: seq<Rule>)
    ensures ReplaceChain(a + b, rules) == ReplaceChain(a, rules) + ReplaceChain(b, rules)
    decreases |rules|
  {
    if rules != [] {
      var p, t := rules[0].pattern, rules[0].token;
      ReplaceConcat(a, b, p, t);
      ReplaceChainConcat(Replace(a, p, t), Replace(b, p, t), rules[1..]);
    }
  }

  lemma {:induction false} ReplaceChainUntouched(s: string, rules: seq<Rule>)
    requires Untouched(s, rules)
    ensures ReplaceChain(s, rules) == s
    decreases |rules|
  {
    if rules != [] {
      assert rules[0].pattern !in s;
      ReplaceAbsent(s, rules[0].pattern, rules[0].token);
      assert Untouched(s, rules[1..]) by {
        forall k | 0 <= k < |rules[1..]| ensures rules[1..][k].pattern !in s {
          assert rules[1..][k] == rules[k + 1];
        }
      }
      ReplaceChainUntouched(s, rules[1..]);
    }
  }

  /** When later tokens are clean, the chain on one character is a lookup. */
  lemma {:induction false} ReplaceChainOneChar(c: char, rules: seq<Rule>)
    requires LaterTokensClean(rules)
    ensures ReplaceChain([c], rules) == Lookup(c, rules)
    decreases |rules|
  {
    if rules != [] {
      var p, t := rules[0].pattern, rules[0].token;
      var rest := rules[1..];
      assert LaterTokensClean(rest) by {
        forall i, j | 0 <= i < j < |rest| ensures rest[j].pattern !in rest[i].token {
          assert rest[j] == rules[j + 1] && rest[i] == rules[i + 1];
        }
      }
      if c == p {
        assert Replace([c], p, t) == t by { assert Replace([], p, t) == []; }
        assert Untouched(t, rest) by {
          forall k | 0 <= k < |rest| ensures rest[k].pattern !in t {
            assert rest[k] == rules[k + 1];
          }
        }
        ReplaceChainUntouched(t, rest);
      } else {
        assert Replace([c], p, t) == [c] by { assert Replace([], p, t) == []; }
        ReplaceChainOneChar(c, rest);
      }
    }
  }

  /** The replacement of one character, as an independent per-character table. */
  function MangleChar(c: char): (r: string)
    ensures !IsSpecial(c) ==> r == [c]
  {
    match c
    case '<' => "__lt__"
    case '>' => "__gt__"
    case ',' => "_"
    case ' ' => "_"
    case '&' => "__amp__"
    case '*' => "__star__"
    case ':' => "_"
    case '(' => "_lp_"
    case ')' => "_rp_"
    case _ => [c]
  }

  /** Mangling as a per-character map: the reference definition. */
  function MangleChars(s: string): (r: string)
  {
    if s == [] then [] else MangleChar(s[0]) + MangleChars(s[1..])
  }

  /** Each table entry is free of special characters: letters, `_` or the character itself. */
  lemma MangleCharClean(c: char)
    ensures forall x :: x in MangleChar(c) ==> !IsSpecial(x) && (x == c || x == '_' || 'a' <= x <= 'z')
  {
  }

  /** The per-character map leaves no special character behind. */
  lemma {:induction false} MangleCharsClean(s: string)
    ensures forall x :: x in MangleChars(s) ==> !IsSpecial(x) && (x in s || x == '_' || 'a' <= x <= 'z')
  {
    if s != [] {
      MangleCharClean(s[0]);
      MangleCharsClean(s[1..]);
      assert forall x :: x in s[1..] ==> x in s;
    }
  }

  lemma {:induction false} MangleCharsConcat(a: string, b: string)
    ensures MangleChars(a + b) == MangleChars(a) + MangleChars(b)
  {
    if a == [] {
      assert a + b == b;
    } else {
      assert (a + b)[0] == a[0];
      assert (a + b)[1..] == a[1..] + b;
      MangleCharsConcat(a[1..], b);
    }
  }

  /** The source's steps satisfy the side condition of ReplaceChainOneChar. */
  lemma RulesLaterTokensClean()
    ensures LaterTokensClean(Rules)
  {
  }

  /** The source's steps, looked up, are the per-character table. */
  lemma LookupRules(c: char)
    ensures Lookup(c, Rules) == MangleChar(c)
  {
    match c
    case '<' => assert Lookup('<', Rules) == "__lt__";
    case '>' => assert Lookup('>', Rules) == "__gt__";
    case ',' => assert Lookup(',', Rules) == "_";
    case ' ' => assert Lookup(' ', Rules) == "_";
    case '&' => assert Lookup('&', Rules) == "__amp__";
    case '*' => assert Lookup('*', Rules) == "__star__";
    case ':' => assert Lookup(':', Rules) == "_";
    case '(' => assert Lookup('(', Rules) == "_lp_";
    case ')' => assert Lookup(')', Rules) == "_rp_";
    case _ => assert Untouched([c], Rules);
  }

  /** On one character the chain of replacements is the table. */
  lemma MangleNameOneChar(c: char)
    ensures MangleName([c]) == MangleChar(c)
  {
    RulesLaterTokensClean();
    ReplaceChainOneChar(c, Rules);
    LookupRules(c);
  }

  /**
    No replacement token contains a character that a later step replaces,
    so the chained replacements amount to the per-character table.
   */
  lemma {:induction false} MangleNameIsPerChar(s: string)
    ensures MangleName(s) == MangleChars(s)
  {
    if s == [] {
      assert MangleName(s) == [] by { ReplaceChainUntouched(s, Rules); }
    } else {
      assert s == [s[0]] + s[1..];
      ReplaceChainConcat([s[0]], s[1..], Rules);
      MangleNameOneChar(s[0]);
      MangleNameIsPerChar(s[1..]);
    }
  }

  /**
    None of the special characters survives mangling: every output character
    is a letter or `_` of a token, or a non-special character of the input.
   */
  lemma MangleNameNoSpecial(s: string)
    ensures forall x :: x in MangleName(s) ==> !IsSpecial(x) && (x in s || x == '_' || 'a' <= x <= 'z')
  {
    MangleNameIsPerChar(s);
    MangleCharsClean(s);
  }

  /** Mangling distributes over concatenation. */
  lemma MangleNameConcat(a: string, b: string)
    ensures MangleName(a + b) == MangleName(a) + MangleName(b)
  {
    ReplaceChainConcat(a, b, Rules);
  }

  /** A string with none of the special characters comes back unchanged. */
  lemma MangleNameClean(s: string)
    requires forall x :: x in s ==> !IsSpecial(x)
    ensures MangleName(s) == s
  {
    assert Untouched(s, Rules);
    ReplaceChainUntouched(s, Rules);
  }

  /** Mangling is idempotent. */
  lemma MangleNameIdempotent(s: string)
    ensures MangleName(MangleName(s)) == MangleName(s)
  {
    MangleNameNoSpecial(s);
    MangleNameClean(MangleName(s));
  }

  /** Python's `sep.join(parts)`. */
  function Join(sep: string, parts: seq<string>): (r: string)
    ensures |parts| == 1 ==> r == parts[0]
  {
    if |parts| == 0 then ""
    else if |parts| == 1 then parts[0]
    else parts[0] + sep + Join(sep, parts[1..])
  }

  /** `[mangle_name(arg) for arg in args]`. */
  function MangleEach(args: seq<string>): (r: seq<string>)
    ensures |r| == |args|
    ensures forall i :: 0 <= i < |args| ==> r[i] == MangleName(args[i])
  {
    if args == [] then [] else [MangleName(args[0])] + MangleEach(args[1..])
  }

  /** `get_mangled_name(base_name, template_args)`. */
  function GetMangledName(baseName: string, templateArgs: seq<string>): (r: string)
  {
    if |templateArgs| > 0 then
      MangleName(baseName) + "__lt__" + Join("_", MangleEach(templateArgs)) + "__gt__"
    else
      MangleName(baseName)
  }

  /** The C++ spelling of a template instance, `base<a1,a2,...>`. */
  function TemplateSpelling(baseName: string, templateArgs: seq<string>): string
  {
    if |templateArgs| > 0 then baseName + "<" + Join(",", templateArgs) + ">" else baseName
  }

  /** A comma between two mangled parts becomes `_`. */
  lemma MangleNameCommaSplit(a: string, b: string)
    ensures MangleName(a + "," + b) == MangleName(a) + "_" + MangleName(b)
  {
    MangleNameConcat(a + ",", b);
    MangleNameConcat(a, ",");
    MangleNameOneChar(',');
  }

  /** Mangling a comma-joined list is joining the mangled items with `_`. */
  lemma {:induction false} MangleJoin(args: seq<string>)
    ensures MangleName(Join(",", args)) == Join("_", MangleEach(args))
  {
    if |args| == 0 {
      MangleNameClean("");
    } else if |args| > 1 {
      MangleNameCommaSplit(args[0], Join(",", args[1..]));
      MangleJoin(args[1..]);
      assert MangleEach(args)[1..] == MangleEach(args[1..]);
    }
  }

  /**
    The template-argument form is what mangling the C++ spelling gives:
    the base and each argument are mangled, `<` `,` `>` become tokens.
   */
  lemma GetMangledNameIsMangledSpelling(baseName: string, templateArgs: seq<string>)
    ensures GetMangledName(baseName, templateArgs) == MangleName(TemplateSpelling(baseName, templateArgs))
  {
    if |templateArgs| > 0 {
      var j := Join(",", templateArgs);
      MangleNameConcat(baseName + "<" + j, ">");
      MangleNameConcat(baseName + "<", j);
      MangleNameConcat(baseName, "<");
      MangleNameOneChar('<');
      MangleNameOneChar('>');
      MangleJoin(templateArgs);
    }
  }

  /** The template-argument form holds none of the special characters either. */
  lemma GetMangledNameNoSpecial(baseName: string, templateArgs: seq<string>)
    ensures forall x :: x in GetMangledName(baseName, templateArgs) ==> !IsSpecial(x)
  {
    GetMangledNameIsMangledSpelling(baseName, templateArgs);
    MangleNameNoSpecial(TemplateSpelling(baseName, templateArgs));
  }

  /** Without template arguments, the base name is mangled alone. */
  lemma GetMangledNameNoArgs(baseName: string)
    ensures GetMangledName(baseName, []) == MangleName(baseName)
  {
  }
}

/** The documented mangling example, worked through the per-character table. */
module ManglingExample {
  import opened Mangling

  lemma MangleCharsCons(c: char, s: string)
    ensures MangleChars([c] + s) == MangleChar(c) + MangleChars(s)
  {
    assert ([c] + s)[0] == c && ([c] + s)[1..] == s;
  }

  lemma {:induction false} MangleCharsWord(w: string)
    requires forall i :: 0 <= i < |w| ==> !IsSpecial(w[i])
    ensures MangleChars(w) == w
  {
    if w != [] {
      MangleCharsWord(w[1..]);
      assert w == [w[0]] + w[1..];
      MangleCharsCons(w[0], w[1..]);
    }
  }

  /** `w1<w2,w3,w4>` is mangled piece by piece, the separators left abstract. */
  lemma MangleCharsTemplate(w1: string, w2: string, w3: string, w4: string, open: char, sep: char, close: char)
    ensures MangleChars(w1 + ([open] + (w2 + ([sep] + (w3 + ([sep] + (w4 + [close]))))))) ==
            MangleChars(w1) + (MangleChar(open) + (MangleChars(w2) + (MangleChar(sep) +
            (MangleChars(w3) + (MangleChar(sep) + (MangleChars(w4) + MangleChar(close)))))))
  {
    var s7 := [close];
    assert MangleChars(s7) == MangleChar(close) by {
      MangleCharsCons(close, []);
      assert [close] + [] == [close];
    }
    var s6 := w4 + s7;
    MangleCharsConcat(w4, s7);
    var s5 := [sep] + s6;
    MangleCharsCons(sep, s6);
    var s4 := w3 + s5;
    MangleCharsConcat(w3, s5);
    var s3 := [sep] + s4;
    MangleCharsCons(sep, s4);
    var s2 := w2 + s3;
    MangleCharsConcat(w2, s3);
    var s1 := [open] + s2;
    MangleCharsCons(open, s2);
    MangleCharsConcat(w1, s1);
  }

  lemma ExampleWord(w: string)
    requires w == "Like" || w == "This" || w == "and" || w == "That"
    ensures MangleChars(w) == w
  {
    MangleCharsWord(w);
  }

  /** The docstring's example: `Like<This,and,That>` becomes `Like__lt__This_and_That__gt__`. */
  lemma MangleNameExample(name: string, mangled: string)
    requires name == "Like<This,and,That>" && mangled == "Like__lt__This_and_That__gt__"
    ensures MangleName(name) == mangled
  {
    var w1, w2, w3, w4 := "Like", "This", "and", "That";
    var spelled := w1 + (['<'] + (w2 + ([','] + (w3 + ([','] + (w4 + ['>']))))));
    var expected := w1 + ("__lt__" + (w2 + ("_" + (w3 + ("_" + (w4 + "__gt__"))))));
    assert name == spelled;
    assert mangled == expected;
    assert MangleChars(spelled) == expected by {
      assert MangleChar('<') == "__lt__" && MangleChar(',') == "_" && MangleChar('>') == "__gt__";
      ExampleWord(w1);
      ExampleWord(w2);
      ExampleWord(w3);
      ExampleWord(w4);
      MangleCharsTemplate(w1, w2, w3, w4, '<', ',', '>');
    }
    MangleNameIsPerChar(name);
  }
}
