/**
 * The plugin naming convention. Both discovery loops test each devDependency key with a
 * regular expression of the shape `/(.*)MARKER(.*)/gi`, created afresh on every iteration
 * (so the `g` flag's `lastIndex` never carries over). This module gives that test its
 * ECMAScript meaning and proves it equal to a case-insensitive substring test.
 */
module NamePattern {
  import opened Strings

  const OutMarker: string := "-sky-pages-out-"
  const InMarker: string := "-sky-pages-in-"

  /** The characters that `.` does not match. */
  predicate IsLineTerminator(c: char) {
    c == '\n' || c == '\r' || c == '\U{2028}' || c == '\U{2029}'
  }

  predicate NoLineTerminator(s: string) {
    forall i :: 0 <= i < |s| ==> !IsLineTerminator(s[i])
  }

  /**
   * `lit` matches `s` at `j` under the `i` flag. Without the `u` flag ECMAScript
   * canonicalises characters by upper-casing but never maps a non-ASCII character onto an
   * ASCII one, so for an ASCII literal comparing ASCII upper cases is exact.
   */
  predicate CaseMatchesAt(s: string, lit: string, j: int) {
    0 <= j && j + |lit| <= |s| && forall t :: 0 <= t < |lit| ==> AsciiUpper(s[j + t]) == AsciiUpper(lit[t])
  }

  /** `(.*)lit(.*)` matches `s[i..k]` with the literal at `j`. */
  predicate MatchSpan(s: string, lit: string, i: int, j: int, k: int) {
    0 <= i <= j && j + |lit| <= k <= |s|
    && NoLineTerminator(s[i..j]) && CaseMatchesAt(s, lit, j) && NoLineTerminator(s[j + |lit|..k])
  }

  /** `/(.*)lit(.*)/i.test(s)`: a match starts somewhere in `s`. */
  ghost predicate RegexTest(s: string, lit: string) {
    exists i, j, k :: MatchSpan(s, lit, i, j, k)
  }

  /** The executable filter of index.js: the key contains "-sky-pages-out-", ignoring case. */
  predicate IsPluginName(d: string) {
    IndexOf(UpperAscii(d), UpperAscii(OutMarker)) != -1
  }

  /** The filter of serve.config.js: "-sky-pages-in-" or "-sky-pages-out-", ignoring case. */
  predicate IsLoaderName(d: string) {
    IndexOf(UpperAscii(d), UpperAscii(InMarker)) != -1 || IndexOf(UpperAscii(d), UpperAscii(OutMarker)) != -1
  }

  /** Both groups may be empty, so the regular expression matches iff the literal occurs. */
  lemma RegexTestIffContains(s: string, lit: string)
    ensures RegexTest(s, lit) <==> Contains(UpperAscii(s), UpperAscii(lit))
  {
    var us, ul := UpperAscii(s), UpperAscii(lit);
    if RegexTest(s, lit) {
      var i, j, k :| MatchSpan(s, lit, i, j, k);
      assert us[j..j + |lit|] == ul by {
        forall t | 0 <= t < |lit| ensures us[j..j + |lit|][t] == ul[t] {
          assert AsciiUpper(s[j + t]) == AsciiUpper(lit[t]);
        }
      }
      assert OccursAt(us, ul, j);
    }
    if Contains(us, ul) {
      var j :| 0 <= j <= |us| && OccursAt(us, ul, j);
      forall t | 0 <= t < |lit| ensures AsciiUpper(s[j + t]) == AsciiUpper(lit[t]) {
        assert us[j..j + |lit|][t] == ul[t];
      }
      assert MatchSpan(s, lit, j, j, j + |lit|);
    }
  }

  /** The index.js filter is the regular expression `/(.*)-sky-pages-out-(.*)/gi`. */
  lemma PluginNameIsRegex(d: string)
    ensures IsPluginName(d) <==> RegexTest(d, OutMarker)
  {
    RegexTestIffContains(d, OutMarker);
  }

  /**
   * The serve.config.js filter is `/(.*)-sky-pages-(in|out)-(.*)/gi`, whose middle part
   * matches exactly the two literals "-sky-pages-in-" and "-sky-pages-out-".
   */
  lemma LoaderNameIsRegex(d: string)
    ensures IsLoaderName(d) <==> RegexTest(d, InMarker) || RegexTest(d, OutMarker)
  {
    RegexTestIffContains(d, InMarker);
    RegexTestIffContains(d, OutMarker);
  }

  /** A key made only of digits never contains a marker: every marker starts with '-'. */
  lemma {:induction false} DigitKeyNotSelected(d: string, marker: string)
    requires AllDigits(d)
    requires |marker| > 0 && marker[0] == '-'
    ensures IndexOf(UpperAscii(d), UpperAscii(marker)) == -1
  {
    var ud, um := UpperAscii(d), UpperAscii(marker);
    forall j | 0 <= j <= |ud| ensures !OccursAt(ud, um, j) {
      if j + |um| <= |ud| {
        assert ud[j] == AsciiUpper(d[j]) && IsDigit(d[j]);
        assert ud[j..j + |um|][0] != um[0];
      }
    }
  }

  lemma DigitKeysAreNotPlugins(d: string)
    requires AllDigits(d)
    ensures !IsPluginName(d) && !IsLoaderName(d)
  {
    DigitKeyNotSelected(d, OutMarker);
    DigitKeyNotSelected(d, InMarker);
  }

  /** The elements of `s` that satisfy `p`, in order. */
  function Filter<T>(p: T -> bool, s: seq<T>): (r: seq<T>)
    ensures |r| <= |s|
    ensures forall x :: x in r ==> x in s && p(x)
    decreases |s|
  {
    if s == [] then []
    else Filter(p, s[..|s| - 1]) + (if p(s[|s| - 1]) then [s[|s| - 1]] else [])
  }

  lemma {:induction false} FilterConcat<T>(p: T -> bool, a: seq<T>, b: seq<T>)
    ensures Filter(p, a + b) == Filter(p, a) + Filter(p, b)
    decreases |b|
  {
    if b == [] {
      assert a + b == a;
    } else {
      var b' := b[..|b| - 1];
      assert (a + b)[..|a + b| - 1] == a + b';
      FilterConcat(p, a, b');
    }
  }

  lemma {:induction false} FilterNone<T>(p: T -> bool, s: seq<T>)
    requires forall x :: x in s ==> !p(x)
    ensures Filter(p, s) == []
    decreases |s|
  {
    if s != [] {
      FilterNone(p, s[..|s| - 1]);
    }
  }

  /** Filtering first by a weaker predicate changes nothing. */
  lemma {:induction false} FilterAbsorbs<T>(p: T -> bool, q: T -> bool, s: seq<T>)
    requires forall x :: x in s && p(x) ==> q(x)
    ensures Filter(p, Filter(q, s)) == Filter(p, s)
    decreases |s|
  {
    if s != [] {
      var s' := s[..|s| - 1];
      var x := s[|s| - 1];
      FilterAbsorbs(p, q, s');
      FilterConcat(p, Filter(q, s'), if q(x) then [x] else []);
      if q(x) {
        assert Filter(p, [x]) == Filter(p, []) + (if p(x) then [x] else []) by {
          assert [x][..0] == [];
        }
      }
    }
  }

  predicate NotAllDigits(d: string) {
    !AllDigits(d)
  }

  /**
   * JavaScript enumerates integer-like keys of an object first, in ascending order, and
   * then the other keys in insertion order. Whatever the integer-like keys `ix` are and
   * however they are ordered, a plugin-name filter sees the same keys in the same order
   * as in the manifest's insertion order `keys`.
   */
  lemma EnumerationOrderIrrelevant(p: string -> bool, ix: seq<string>, keys: seq<string>)
    requires forall k :: k in ix ==> AllDigits(k)
    requires forall d :: AllDigits(d) ==> !p(d)
    ensures Filter(p, ix + Filter(NotAllDigits, keys)) == Filter(p, keys)
  {
    FilterConcat(p, ix, Filter(NotAllDigits, keys));
    FilterNone(p, ix);
    FilterAbsorbs(p, NotAllDigits, keys);
  }

  lemma PluginOrderIsInsertionOrder(ix: seq<string>, keys: seq<string>)
    requires forall k :: k in ix ==> AllDigits(k)
    ensures Filter(IsPluginName, ix + Filter(NotAllDigits, keys)) == Filter(IsPluginName, keys)
    ensures Filter(IsLoaderName, ix + Filter(NotAllDigits, keys)) == Filter(IsLoaderName, keys)
  {
    forall d | AllDigits(d) ensures !IsPluginName(d) && !IsLoaderName(d) {
      DigitKeysAreNotPlugins(d);
    }
    EnumerationOrderIrrelevant(IsPluginName, ix, keys);
    EnumerationOrderIrrelevant(IsLoaderName, ix, keys);
  }
}
