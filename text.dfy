/** The Python `str` and `os.path` operations the archive code builds its
    paths and file names with. Case mapping covers ASCII letters only. */
module Text {

  predicate IsLowerLetter(c: char) { 'a' <= c <= 'z' }

  predicate IsUpperLetter(c: char) { 'A' <= c <= 'Z' }

  predicate IsDigit(c: char) { '0' <= c <= '9' }

  function LowerChar(c: char): char {
    if IsUpperLetter(c) then (c as int + 32) as char else c
  }

  function UpperChar(c: char): char {
    if IsLowerLetter(c) then (c as int - 32) as char else c
  }

  /** `s.lower()`. */
  function Lower(s: string): (r: string)
    ensures |r| == |s|
    ensures forall i :: 0 <= i < |s| ==> r[i] == LowerChar(s[i])
  {
    if s == [] then [] else [LowerChar(s[0])] + Lower(s[1..])
  }

  /** `s.upper()`. */
  function Upper(s: string): (r: string)
    ensures |r| == |s|
    ensures forall i :: 0 <= i < |s| ==> r[i] == UpperChar(s[i])
  {
    if s == [] then [] else [UpperChar(s[0])] + Upper(s[1..])
  }

  /** `p` occurs in `s` at index `i`. */
  predicate IsAt(s: string, p: string, i: int) {
    0 <= i && i + |p| <= |s| && s[i..i + |p|] == p
  }

  /** `p in s`. */
  predicate Contains(s: string, p: string) {
    exists i | 0 <= i <= |s| :: IsAt(s, p, i)
  }

  predicate StartsWith(s: string, p: string) {
    |p| <= |s| && s[..|p|] == p
  }

  /** `s.endswith(p)`. */
  predicate EndsWith(s: string, p: string) {
    |p| <= |s| && s[|s| - |p|..] == p
  }

  /** The first index at or after `from` where `p` occurs, or -1. */
  function FindFrom(s: string, p: string, from: nat): (r: int)
    requires from <= |s|
    ensures r == -1 || (from <= r && IsAt(s, p, r))
    ensures r == -1 ==> forall j :: from <= j ==> !IsAt(s, p, j)
    ensures r != -1 ==> forall j :: from <= j < r ==> !IsAt(s, p, j)
    decreases |s| - from
  {
    if from + |p| > |s| then -1
    else if s[from..from + |p|] == p then from
    else if from == |s| then -1
    else FindFrom(s, p, from + 1)
  }

  /** `s.find(p)`: the first index of `p` in `s`, or -1. */
  function Find(s: string, p: string): (r: int)
    ensures r == -1 <==> !Contains(s, p)
    ensures r != -1 ==> IsAt(s, p, r) && forall j :: 0 <= j < r ==> !IsAt(s, p, j)
  {
    FindFrom(s, p, 0)
  }

  /** `s.replace(p, r)` for a non-empty pattern: every occurrence, left to right, without overlaps. */
  function Replace(s: string, p: string, r: string): string
    requires |p| > 0
    decreases |s|
  {
    if |s| < |p| then s
    else if s[..|p|] == p then r + Replace(s[|p|..], p, r)
    else [s[0]] + Replace(s[1..], p, r)
  }

  /** `os.path.join(a, b)` on POSIX. */
  function Join(a: string, b: string): string {
    if |b| > 0 && b[0] == '/' then b
    else if a == [] || a[|a| - 1] == '/' then a + b
    else a + "/" + b
  }

  // ---------------------------------------------------------------------------
  // Lemmas about replace

  /** An occurrence in a suffix is an occurrence in the whole string, shifted. */
  lemma IsAtSuffix(s: string, p: string, k: nat, j: nat)
    requires k <= |s|
    ensures IsAt(s[k..], p, j) <==> IsAt(s, p, j + k)
  {
    if 0 <= j && j + |p| <= |s| - k {
      assert s[k..][j..j + |p|] == s[j + k..j + k + |p|];
    }
  }

  /** `Replace` copies a prefix in which no occurrence starts. */
  lemma {:induction false} ReplaceSkips(s: string, p: string, r: string, k: nat)
    requires |p| > 0 && k <= |s|
    requires forall j :: 0 <= j < k ==> !IsAt(s, p, j)
    ensures Replace(s, p, r) == s[..k] + Replace(s[k..], p, r)
    decreases k
  {
    if k > 0 {
      if |s| < |p| {
        assert s[..k] + s[k..] == s;
      } else {
        assert !IsAt(s, p, 0);
        assert s[..|p|] != p;
        var t := s[1..];
        forall j | 0 <= j < k - 1 ensures !IsAt(t, p, j) {
          IsAtSuffix(s, p, 1, j);
        }
        ReplaceSkips(t, p, r, k - 1);
        assert t[..k - 1] == s[1..k];
        assert t[k - 1..] == s[k..];
        assert [s[0]] + s[1..k] == s[..k];
      }
    } else {
      assert s[..0] + s[0..] == s;
    }
  }

  /** `Replace` distributes over a concatenation that no occurrence straddles. */
  lemma {:induction false} ReplaceAppend(a: string, b: string, p: string, r: string)
    requires |p| > 0
    requires forall j :: 0 <= j < |a| && |a| < j + |p| ==> !IsAt(a + b, p, j)
    ensures Replace(a + b, p, r) == Replace(a, p, r) + Replace(b, p, r)
    decreases |a|
  {
    var s := a + b;
    if |a| < |p| {
      forall j | 0 <= j < |a| ensures !IsAt(s, p, j) { }
      ReplaceSkips(s, p, r, |a|);
      assert s[..|a|] == a;
      assert s[|a|..] == b;
    } else {
      assert s[..|p|] == a[..|p|];
      if a[..|p|] == p {
        var a' := a[|p|..];
        assert s[|p|..] == a' + b;
        forall j | 0 <= j < |a'| && |a'| < j + |p| ensures !IsAt(a' + b, p, j) {
          IsAtSuffix(s, p, |p|, j);
        }
        ReplaceAppend(a', b, p, r);
      } else {
        var a' := a[1..];
        assert s[1..] == a' + b;
        assert s[0] == a[0];
        forall j | 0 <= j < |a'| && |a'| < j + |p| ensures !IsAt(a' + b, p, j) {
          IsAtSuffix(s, p, 1, j);
        }
        ReplaceAppend(a', b, p, r);
      }
    }
  }

  /** A string without `p` is left as it is. */
  lemma ReplaceAbsent(s: string, p: string, r: string)
    requires |p| > 0 && !Contains(s, p)
    ensures Replace(s, p, r) == s
  {
    forall j | 0 <= j < |s| ensures !IsAt(s, p, j) { }
    ReplaceSkips(s, p, r, |s|);
    assert s[..|s|] == s;
    assert |s[|s|..]| == 0;
  }

  /** A string that is exactly the pattern becomes the replacement. */
  lemma ReplaceWhole(p: string, r: string)
    requires |p| > 0
    ensures Replace(p, p, r) == r
  {
    assert p[..|p|] == p;
    assert |p[|p|..]| == 0;
  }
}
