/** The two string operations the core relies on: JavaScript's `String.prototype.replace`
    with a string pattern (first occurrence only) and validator.js's `trim`. */
module Strings {
  import opened Wrappers

  /** `pat` occurs in `s` starting at index `k`. */
  predicate OccursAt(s: string, pat: string, k: int) {
    0 <= k && k + |pat| <= |s| && s[k..k + |pat|] == pat
  }

  /** The first index at or after `from` where `pat` occurs in `s`. */
  function FindFrom(s: string, pat: string, from: nat): (r: Option<nat>)
    decreases |s| - from
    ensures r.Some? ==> from <= r.value && OccursAt(s, pat, r.value)
    ensures r.Some? ==> forall j :: from <= j < r.value ==> !OccursAt(s, pat, j)
    ensures r.None? ==> forall j :: from <= j ==> !OccursAt(s, pat, j)
  {
    if from + |pat| > |s| then None
    else if s[from..from + |pat|] == pat then Some(from)
    else FindFrom(s, pat, from + 1)
  }

  /** `s.replace(pat, rep)`: the first occurrence of `pat`, wherever it is, becomes `rep`;
      a string without an occurrence is returned whole. */
  function ReplaceFirst(s: string, pat: string, rep: string): (r: string)
    ensures (forall j :: !OccursAt(s, pat, j)) ==> r == s
    ensures forall k :: OccursAt(s, pat, k) && (forall j :: 0 <= j < k ==> !OccursAt(s, pat, j)) ==>
              r == s[..k] + rep + s[k + |pat|..]
  {
    match FindFrom(s, pat, 0)
    case None => s
    case Some(k) => s[..k] + rep + s[k + |pat|..]
  }

  /** A prefix occurrence is the first one, so replacing it removes exactly the prefix. */
  lemma ReplaceLeading(pat: string, t: string)
    ensures ReplaceFirst(pat + t, pat, "") == t
  {
    var s := pat + t;
    assert s[0..|pat|] == pat;
    assert OccursAt(s, pat, 0);
    assert s[|pat|..] == t;
  }

  /** The white-space characters of JavaScript's `\s` class, which validator.js's `trim` strips. */
  predicate IsSpace(c: char) {
    c == ' ' || c == '\t' || c == '\n' || c == '\r' || c == '\U{000B}' || c == '\U{000C}' ||
    c == '\U{00A0}' || c == '\U{1680}' || ('\U{2000}' <= c <= '\U{200A}') || c == '\U{2028}' ||
    c == '\U{2029}' || c == '\U{202F}' || c == '\U{205F}' || c == '\U{3000}' || c == '\U{FEFF}'
  }

  /** Every character of `s` in `[lo, hi)` is white space. */
  predicate AllSpace(s: string, lo: int, hi: int)
    requires 0 <= lo && hi <= |s|
  {
    forall i :: lo <= i < hi ==> IsSpace(s[i])
  }

  /** Drops the leading white space: the result is a suffix of `s`, everything dropped is
      white space, and the result does not start with white space. */
  function TrimStart(s: string): (r: string)
    ensures |r| <= |s| && OccursAt(s, r, |s| - |r|)
    ensures AllSpace(s, 0, |s| - |r|)
    ensures r == [] || !IsSpace(r[0])
  {
    if |s| > 0 && IsSpace(s[0]) then TrimStart(s[1..]) else s
  }

  /** Drops the trailing white space: the result is a prefix of `s`, everything dropped is
      white space, and the result does not end with white space. */
  function TrimEnd(s: string): (r: string)
    ensures |r| <= |s| && OccursAt(s, r, 0)
    ensures AllSpace(s, |r|, |s|)
    ensures r == [] || !IsSpace(r[|r| - 1])
  {
    if |s| > 0 && IsSpace(s[|s| - 1]) then TrimEnd(s[..|s| - 1]) else s
  }

  /** The length of the run of white space `s` starts with. */
  function LeadingSpace(s: string): (n: nat)
    ensures n <= |s| && AllSpace(s, 0, n)
    ensures n == |s| || !IsSpace(s[n])
  {
    |s| - |TrimStart(s)|
  }

  /** validator.js `trim`: `rtrim(ltrim(s))`. What remains is the part of `s` between its
      leading run of white space and a trailing run of white space; it neither starts nor
      ends with white space, and a string already in that form is returned unchanged. */
  function Trim(s: string): (r: string)
    ensures LeadingSpace(s) + |r| <= |s|
    ensures OccursAt(s, r, LeadingSpace(s))
    ensures AllSpace(s, LeadingSpace(s) + |r|, |s|)
    ensures r == [] || (!IsSpace(r[0]) && !IsSpace(r[|r| - 1]))
    ensures (s == [] || (!IsSpace(s[0]) && !IsSpace(s[|s| - 1]))) ==> r == s
  {
    var a := TrimStart(s);
    var r := TrimEnd(a);
    TrimParts(s, a, r, LeadingSpace(s));
    r
  }

  /** The facts `Trim` states, from what `ltrim` and `rtrim` guarantee: `a` is `s` without
      its `k` leading white-space characters and `r` is `a` without trailing white space. */
  lemma TrimParts(s: string, a: string, r: string, k: nat)
    requires k == |s| - |a| && OccursAt(s, a, k) && AllSpace(s, 0, k) && (a == [] || !IsSpace(a[0]))
    requires |r| <= |a| && OccursAt(a, r, 0) && AllSpace(a, |r|, |a|) && (r == [] || !IsSpace(r[|r| - 1]))
    ensures k + |r| <= |s|
    ensures OccursAt(s, r, k)
    ensures AllSpace(s, k + |r|, |s|)
    ensures r == [] || (!IsSpace(r[0]) && !IsSpace(r[|r| - 1]))
    ensures (s == [] || (!IsSpace(s[0]) && !IsSpace(s[|s| - 1]))) ==> r == s
  {
    assert a == s[k..];
    assert r == a[..|r|];
    TrimSplit(s, a, r, k);
    TrimKeepsFirst(a, r);
    SuffixWhole(s, a);
    PrefixWhole(a, r);
  }

  /** A white-space-only-dropping suffix of a string that does not start with white space
      is the whole string. */
  lemma SuffixWhole(s: string, a: string)
    requires |a| <= |s| && a == s[|s| - |a|..] && AllSpace(s, 0, |s| - |a|)
    ensures (s == [] || !IsSpace(s[0])) ==> a == s
  {
    if |a| < |s| {
      assert IsSpace(s[0]);
    }
  }

  /** A white-space-only-dropping prefix of a string that does not end with white space is
      the whole string. */
  lemma PrefixWhole(a: string, r: string)
    requires |r| <= |a| && r == a[..|r|] && AllSpace(a, |r|, |a|)
    ensures (a == [] || !IsSpace(a[|a| - 1])) ==> r == a
  {
    if |r| < |a| {
      assert IsSpace(a[|a| - 1]);
    }
  }

  /** What `rtrim` keeps of the suffix `a` of `s` sits in `s` right after `a` begins, and
      is followed in `s` by white space only. */
  lemma TrimSplit(s: string, a: string, r: string, k: nat)
    requires k <= |s| && a == s[k..]
    requires |r| <= |a| && r == a[..|r|] && AllSpace(a, |r|, |a|)
    ensures k + |r| <= |s| && r == s[k..k + |r|] && AllSpace(s, k + |r|, |s|)
  {
    forall i | k + |r| <= i < |s|
      ensures IsSpace(s[i])
    {
      assert s[i] == a[i - k];
    }
  }

  /** A prefix of a string that does not start with white space does not either. */
  lemma TrimKeepsFirst(a: string, r: string)
    requires |r| <= |a| && r == a[..|r|]
    requires a == [] || !IsSpace(a[0])
    ensures r == [] || !IsSpace(r[0])
  {
    if r != [] {
      assert r[0] == a[0];
    }
  }
}
