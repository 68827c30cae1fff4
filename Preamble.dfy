/**
  `write_preamble`: the blocks of C text written at the top of a generated
  module, gated by a duplicate-call guard on the code sink and by the
  minimum Python version the module has to compile against. The C text of
  each block is represented by a token.
 */
module Preamble {
  import opened Wrappers

  /** The blocks in the order the function writes them. */
  datatype Block =
    | Header(generatorVersion: seq<int>)  // banner naming the generator version, PY_SSIZE_T_CLEAN, includes
    | Compat24                            // PyEval_ThreadsInitialized, Py_CLEAR, Py_VISIT before Python 2.4
    | Compat25                            // Py_ssize_t and its slot typedefs before Python 2.5
    | Compat26                            // PyVarObject_HEAD_INIT before Python 2.6
    | LimitedApiCompat                    // _TYPEDEC, _TYPEREF, PBG_SETATTR and the Python 3 aliases
    | UnusedAndWrapperFlags               // PYBINDGEN_UNUSED and the PyBindGenWrapperFlags enum

  /** Position of a block kind in the preamble. */
  function Rank(b: Block): nat
  {
    match b
    case Header(_) => 0
    case Compat24 => 1
    case Compat25 => 2
    case Compat26 => 3
    case LimitedApiCompat => 4
    case UnusedAndWrapperFlags => 5
  }

  /** Python's `<` on tuples of integers: lexicographic, a proper prefix being smaller. */
  predicate VersionLess(a: seq<int>, b: seq<int>)
    decreases |a|
  {
    if |a| == 0 then |b| > 0
    else if |b| == 0 then false
    else if a[0] != b[0] then a[0] < b[0]
    else VersionLess(a[1..], b[1..])
  }

  lemma {:induction false} VersionLessIrreflexive(a: seq<int>)
    ensures !VersionLess(a, a)
    decreases |a|
  {
    if |a| > 0 {
      VersionLessIrreflexive(a[1..]);
    }
  }

  lemma {:induction false} VersionLessTransitive(a: seq<int>, b: seq<int>, c: seq<int>)
    requires VersionLess(a, b) && VersionLess(b, c)
    ensures VersionLess(a, c)
    decreases |a|
  {
    if |a| > 0 && |b| > 0 && |c| > 0 && a[0] == b[0] && b[0] == c[0] {
      VersionLessTransitive(a[1..], b[1..], c[1..]);
    }
  }

  /** Exactly one of `a < b`, `a == b`, `b < a` holds. */
  lemma {:induction false} VersionLessTrichotomy(a: seq<int>, b: seq<int>)
    ensures VersionLess(a, b) || a == b || VersionLess(b, a)
    ensures !(VersionLess(a, b) && VersionLess(b, a))
    ensures a == b ==> !VersionLess(a, b)
    decreases |a|
  {
    if |a| > 0 && |b| > 0 && a[0] == b[0] {
      VersionLessTrichotomy(a[1..], b[1..]);
      if a[1..] == b[1..] {
        assert a == [a[0]] + a[1..] && b == [b[0]] + b[1..];
      }
    }
    if a == b {
      VersionLessIrreflexive(a);
    }
  }

  /**
    Closed form of a comparison against a two-part version `(major, minor)`:
    a shorter tuple that agrees so far counts as smaller.
   */
  lemma VersionLessPair(v: seq<int>, major: int, minor: int)
    ensures VersionLess(v, [major, minor]) <==>
      || |v| == 0
      || v[0] < major
      || (v[0] == major && (|v| == 1 || v[1] < minor))
  {
    if |v| > 0 && v[0] == major {
      assert [major, minor][1..] == [minor];
      assert VersionLess(v, [major, minor]) == VersionLess(v[1..], [minor]);
      if |v| > 1 {
        assert v[1..][0] == v[1];
        if v[1] == minor {
          assert VersionLess(v[1..], [minor]) == VersionLess(v[1..][1..], []);
        }
      }
    }
  }

  /** The blocks written for a minimum Python version `v` by a generator whose version is `generatorVersion`. */
  function PreambleBlocks(v: seq<int>, generatorVersion: seq<int>): seq<Block>
  {
    [Header(generatorVersion)] + CompatBlocks(v) + [LimitedApiCompat] + [UnusedAndWrapperFlags]
  }

  /** The compatibility blocks, each present when `v` is below the Python version that made it unnecessary. */
  function CompatBlocks(v: seq<int>): seq<Block>
  {
    (if VersionLess(v, [2, 4]) then [Compat24] else [])
    + (if VersionLess(v, [2, 5]) then [Compat25] else [])
    + (if VersionLess(v, [2, 6]) then [Compat26] else [])
  }

  /**
    The preamble opens with the header and closes with the two fixed
    blocks; each compatibility block is present exactly when the version is
    below its threshold.
   */
  lemma PreambleBlocksShape(v: seq<int>, generatorVersion: seq<int>)
    ensures var r := PreambleBlocks(v, generatorVersion);
      && |r| >= 3 && r[0] == Header(generatorVersion)
      && r[|r| - 2] == LimitedApiCompat && r[|r| - 1] == UnusedAndWrapperFlags
      && (Compat24 in r <==> VersionLess(v, [2, 4]))
      && (Compat25 in r <==> VersionLess(v, [2, 5]))
      && (Compat26 in r <==> VersionLess(v, [2, 6]))
  {
  }

  /** No block kind repeats and the kinds keep their order. */
  lemma PreambleBlocksOrdered(v: seq<int>, generatorVersion: seq<int>)
    ensures var r := PreambleBlocks(v, generatorVersion);
      forall i, j :: 0 <= i < j < |r| ==> Rank(r[i]) < Rank(r[j])
  {
  }

  /** The compatibility blocks are nested: a module old enough for one needs all the later ones. */
  lemma {:induction false} CompatBlocksNested(v: seq<int>, generatorVersion: seq<int>)
    ensures Compat24 in PreambleBlocks(v, generatorVersion) ==> Compat25 in PreambleBlocks(v, generatorVersion)
    ensures Compat25 in PreambleBlocks(v, generatorVersion) ==> Compat26 in PreambleBlocks(v, generatorVersion)
  {
    PreambleBlocksShape(v, generatorVersion);
    if VersionLess(v, [2, 4]) {
      VersionLessPair([2, 4], 2, 5);
      VersionLessTransitive(v, [2, 4], [2, 5]);
    }
    if VersionLess(v, [2, 5]) {
      VersionLessPair([2, 5], 2, 6);
      VersionLessTransitive(v, [2, 5], [2, 6]);
    }
  }

  /** For a version of Python 2.6 or later only the fixed blocks are written. */
  lemma ModernPreamble(v: seq<int>, generatorVersion: seq<int>)
    requires !VersionLess(v, [2, 6])
    ensures PreambleBlocks(v, generatorVersion) == [Header(generatorVersion), LimitedApiCompat, UnusedAndWrapperFlags]
  {
    CompatBlocksNested(v, generatorVersion);
    PreambleBlocksShape(v, generatorVersion);
  }

  /** Python 3 versions, written with one part or more, need no compatibility block. */
  lemma Python3Preamble(v: seq<int>, generatorVersion: seq<int>)
    requires |v| >= 1 && v[0] >= 3
    ensures PreambleBlocks(v, generatorVersion) == [Header(generatorVersion), LimitedApiCompat, UnusedAndWrapperFlags]
  {
    VersionLessPair(v, 2, 6);
    ModernPreamble(v, generatorVersion);
  }

  /** A code sink: the blocks written so far and whether a preamble has been written to it. */
  class CodeSink {
    var lines: seq<Block>
    var haveWrittenPreamble: bool

    constructor ()
      ensures lines == [] && !haveWrittenPreamble
    {
      lines := [];
      haveWrittenPreamble := false;
    }

    /** Append one block. */
    method Writeln(b: Block)
      modifies this
      ensures lines == old(lines) + [b]
      ensures haveWrittenPreamble == old(haveWrittenPreamble)
    {
      lines := lines + [b];
    }
  }

  /** Append `b` to `sink` when `wanted` holds. */
  method WriteWhen(sink: CodeSink, wanted: bool, b: Block)
    modifies sink
    ensures sink.lines == old(sink.lines) + (if wanted then [b] else [])
    ensures sink.haveWrittenPreamble == old(sink.haveWrittenPreamble)
  {
    if wanted {
      sink.Writeln(b);
    }
  }

  /** Append the compatibility blocks `v` needs to `sink`. */
  method WriteCompatBlocks(sink: CodeSink, v: seq<int>)
    modifies sink
    ensures sink.lines == old(sink.lines) + CompatBlocks(v)
    ensures sink.haveWrittenPreamble == old(sink.haveWrittenPreamble)
  {
    ghost var before := sink.lines;
    WriteWhen(sink, VersionLess(v, [2, 4]), Compat24);
    WriteWhen(sink, VersionLess(v, [2, 5]), Compat25);
    WriteWhen(sink, VersionLess(v, [2, 6]), Compat26);
    assert sink.lines == before + CompatBlocks(v);
  }

  /**
    Write the preamble to `sink` for `minPythonVersion`, defaulting to the
    configured `settingsMinPythonVersion`. A sink that already carries a
    preamble is left as it is and the call reports the duplicate.
   */
  method WritePreamble(sink: CodeSink, minPythonVersion: Option<seq<int>>, settingsMinPythonVersion: seq<int>,
                       generatorVersion: seq<int>) returns (duplicate: bool)
    modifies sink
    ensures duplicate == old(sink.haveWrittenPreamble)
    ensures sink.haveWrittenPreamble
    ensures duplicate ==> sink.lines == old(sink.lines)
    ensures !duplicate ==>
      var v := if minPythonVersion.Some? then minPythonVersion.value else settingsMinPythonVersion;
      sink.lines == old(sink.lines) + PreambleBlocks(v, generatorVersion)
  {
    var v := settingsMinPythonVersion;
    if minPythonVersion.Some? {
      v := minPythonVersion.value;
    }
    if sink.haveWrittenPreamble {
      return true;
    }
    sink.haveWrittenPreamble := true;
    ghost var before := sink.lines;
    sink.Writeln(Header(generatorVersion));
    WriteCompatBlocks(sink, v);
    sink.Writeln(LimitedApiCompat);
    sink.Writeln(UnusedAndWrapperFlags);
    duplicate := false;
    assert sink.lines == before + [Header(generatorVersion)] + CompatBlocks(v) + [LimitedApiCompat] + [UnusedAndWrapperFlags];
  }
}
