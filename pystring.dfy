/**
 * Python's `str.strip()` called without arguments: it removes the longest
 * run of whitespace from each end of a string, where whitespace is what
 * `str.isspace()` accepts.
 */
module PyString {

  /** One character of Python's whitespace set (`str.isspace()`): the ASCII
      controls TAB..CR and FS..US, SPACE, NEL, NO-BREAK SPACE and the Unicode
      space and line/paragraph separators. */
  predicate IsSpace(c: char)
    ensures c in {' ', '\t', '\n', '\r', '\U{0b}', '\U{0c}'} ==> IsSpace(c)
    ensures ('0' <= c <= '9' || 'A' <= c <= 'Z' || 'a' <= c <= 'z') ==> !IsSpace(c)
    ensures c == '\U{200b}' ==> !IsSpace(c)
  {
    || ('\t' <= c <= '\r')
    || ('\U{1c}' <= c <= '\U{1f}')
    || c == ' '
    || c == '\U{85}'
    || c == '\U{a0}'
    || c == '\U{1680}'
    || ('\U{2000}' <= c <= '\U{200a}')
    || c == '\U{2028}'
    || c == '\U{2029}'
    || c == '\U{202f}'
    || c == '\U{205f}'
    || c == '\U{3000}'
  }

  /** Every character of `s` is whitespace (so also the empty string). */
  ghost predicate AllSpace(s: string) {
    forall i :: 0 <= i < |s| ==> IsSpace(s[i])
  }

  lemma AllSpaceConcat(a: string, b: string)
    requires AllSpace(a) && AllSpace(b)
    ensures AllSpace(a + b)
  {
    forall i | 0 <= i < |a + b| ensures IsSpace((a + b)[i]) {
      if i < |a| { assert (a + b)[i] == a[i]; } else { assert (a + b)[i] == b[i - |a|]; }
    }
  }

  /** `s` neither starts nor ends with whitespace. */
  ghost predicate Trimmed(s: string) {
    s == [] || (!IsSpace(s[0]) && !IsSpace(s[|s| - 1]))
  }

  /** Python's `lstrip()`: a suffix of `s`, everything dropped was whitespace. */
  function TrimStart(s: string): (r: string)
    ensures |r| <= |s| && r == s[|s| - |r|..]
    ensures AllSpace(s[..|s| - |r|])
    ensures r == [] || !IsSpace(r[0])
  {
    if s != [] && IsSpace(s[0]) then
      var r := TrimStart(s[1..]);
      assert s[..|s| - |r|] == [s[0]] + s[1..][..|s| - 1 - |r|];
      r
    else
      s
  }

  /** Python's `rstrip()`: a prefix of `s`, everything dropped was whitespace. */
  function TrimEnd(s: string): (r: string)
    ensures |r| <= |s| && r == s[..|r|]
    ensures AllSpace(s[|r|..])
    ensures r == [] || !IsSpace(r[|r| - 1])
  {
    if s != [] && IsSpace(s[|s| - 1]) then
      var r := TrimEnd(s[..|s| - 1]);
      assert s[|r|..] == s[..|s| - 1][|r|..] + [s[|s| - 1]];
      r
    else
      s
  }

  /** Python's `strip()`. */
  function Strip(s: string): (r: string)
    ensures |r| <= |s|
    ensures Trimmed(r)
  {
    var t := TrimStart(s);
    var r := TrimEnd(t);
    assert r != [] ==> r[0] == t[0];
    r
  }

  /** Reference definition of stripping: `s` is `r` with only whitespace
      added around it, and `r` cannot be stripped further. */
  ghost predicate IsStripOf(s: string, r: string) {
    Trimmed(r) && exists p, q :: s == p + (r + q) && AllSpace(p) && AllSpace(q)
  }

  /** Strip only removes whitespace, and only at the two ends: `p` is what
      it removes on the left, `q` what it removes on the right. */
  lemma StripParts(s: string) returns (p: string, q: string)
    ensures s == p + (Strip(s) + q) && AllSpace(p) && AllSpace(q)
  {
    p := TrimStartParts(s);
    q := TrimEndParts(TrimStart(s));
  }

  lemma TrimStartParts(s: string) returns (p: string)
    ensures s == p + TrimStart(s) && AllSpace(p)
  {
    var t := TrimStart(s);
    p := s[..|s| - |t|];
    SplitAt(s, |s| - |t|);
  }

  lemma TrimEndParts(t: string) returns (q: string)
    ensures t == TrimEnd(t) + q && AllSpace(q)
  {
    var r := TrimEnd(t);
    q := t[|r|..];
    SplitAt(t, |r|);
  }

  lemma Regroup(a: string, b: string, c: string, d: string, e: string)
    ensures a + ((b + (c + d)) + e) == (a + b) + (c + (d + e))
  {
  }

  lemma SplitAt(s: string, k: nat)
    requires k <= |s|
    ensures s == s[..k] + s[k..]
  {
  }

  /** lstrip() removes exactly a leading run of whitespace. */
  lemma {:induction false} TrimStartPadded(p: string, x: string)
    requires AllSpace(p) && (x == [] || !IsSpace(x[0]))
    ensures TrimStart(p + x) == x
  {
    if p != [] {
      assert (p + x)[1..] == p[1..] + x;
      TrimStartPadded(p[1..], x);
    } else {
      assert p + x == x;
    }
  }

  /** rstrip() removes exactly a trailing run of whitespace. */
  lemma {:induction false} TrimEndPadded(x: string, q: string)
    requires AllSpace(q) && (x == [] || !IsSpace(x[|x| - 1]))
    ensures TrimEnd(x + q) == x
  {
    if q != [] {
      assert (x + q)[..|x + q| - 1] == x + q[..|q| - 1];
      TrimEndPadded(x, q[..|q| - 1]);
    } else {
      assert x + q == x;
    }
  }

  /** Any decomposition of `s` as whitespace, a trimmed core and whitespace
      determines Strip(s): the core is the stripped string. */
  lemma StripUnique(s: string, p: string, r: string, q: string)
    requires s == p + (r + q) && AllSpace(p) && AllSpace(q) && Trimmed(r)
    ensures Strip(s) == r
  {
    if r == [] {
      assert r + q == q;
      AllSpaceConcat(p, q);
      TrimStartPadded(p + q, []);
      assert s == (p + q) + [];
    } else {
      TrimStartPadded(p, r + q);
      TrimEndPadded(r, q);
    }
  }

  /** Strip agrees with its reference definition, in both directions. */
  lemma StripMatchesReference(s: string, r: string)
    ensures IsStripOf(s, r) <==> r == Strip(s)
  {
    if IsStripOf(s, r) {
      var p, q :| s == p + (r + q) && AllSpace(p) && AllSpace(q);
      StripUnique(s, p, r, q);
    }
    if r == Strip(s) {
      var p, q := StripParts(s);
    }
  }

  /** Whitespace added around a string is removed again by Strip. */
  lemma StripIgnoresPadding(p: string, s: string, q: string)
    requires AllSpace(p) && AllSpace(q)
    ensures Strip(p + (s + q)) == Strip(s)
  {
    var r := Strip(s);
    var p', q' := StripParts(s);
    AllSpaceConcat(p, p');
    AllSpaceConcat(q', q);
    Regroup(p, p', r, q', q);
    StripUnique(p + (s + q), p + p', r, q' + q);
  }

  /** Stripping twice is stripping once. */
  lemma StripIdempotent(s: string)
    ensures Strip(Strip(s)) == Strip(s)
  {
    var r := Strip(s);
    assert r == [] + (r + []);
    StripUnique(r, [], r, []);
  }

  /** Strip yields the empty string exactly when the input is all whitespace
      (including the empty input). */
  lemma StripEmptyIff(s: string)
    ensures Strip(s) == [] <==> AllSpace(s)
  {
    if AllSpace(s) {
      assert s == s + ([] + []);
      StripUnique(s, s, [], []);
    }
    if Strip(s) == [] {
      var p, q := StripParts(s);
      assert s == p + q;
      AllSpaceConcat(p, q);
    }
  }
}
