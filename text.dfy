/**
  The two JavaScript string operations the relay applies to model output:
  `s.replace(/pat/g, '')` (remove every occurrence, scanning left to right)
  and `String.prototype.trim` (drop leading and trailing white space and
  line terminators, section 22.1.3.32 of ECMA-262).
*/
module Text {

  /** `pat` occurs in `s` starting at index `i`. */
  predicate OccursAt(s: string, pat: string, i: int) {
    0 <= i && i + |pat| <= |s| && s[i..i + |pat|] == pat
  }

  predicate Contains(s: string, pat: string) {
    exists i :: 0 <= i <= |s| && OccursAt(s, pat, i)
  }

  /**
    `s.replace(/pat/g, '')`: the leftmost occurrence is removed, then the scan
    resumes after it. Its contract bounds the length only; what is removed is
    stated by `RemoveAllAbsent`, `RemoveAllSkipsPrefix` and `RemoveRunGone`.
  */
  function RemoveAll(s: string, pat: string): (r: string)
    requires |pat| > 0
    ensures |r| <= |s|
    decreases |s|
  {
    if |s| < |pat| then s
    else if s[..|pat|] == pat then RemoveAll(s[|pat|..], pat)
    else [s[0]] + RemoveAll(s[1..], pat)
  }

  /** Removing a pattern that does not occur leaves the string unchanged. */
  lemma {:induction false} RemoveAllAbsent(s: string, pat: string)
    requires |pat| > 0
    requires !Contains(s, pat)
    ensures RemoveAll(s, pat) == s
    decreases |s|
  {
    if |s| >= |pat| {
      assert !OccursAt(s, pat, 0);
      assert s[..|pat|] != pat;
      forall i | OccursAt(s[1..], pat, i) ensures false {
        assert s[1..][i..i + |pat|] == s[i + 1..i + 1 + |pat|];
        assert OccursAt(s, pat, i + 1);
      }
      RemoveAllAbsent(s[1..], pat);
    }
  }

  /** A prefix that holds no character starting the pattern passes through unchanged. */
  lemma {:induction false} RemoveAllSkipsPrefix(x: string, rest: string, pat: string)
    requires |pat| > 0
    requires forall k :: 0 <= k < |x| ==> x[k] != pat[0]
    ensures RemoveAll(x + rest, pat) == x + RemoveAll(rest, pat)
    decreases |x|
  {
    if |x| > 0 {
      var s := x + rest;
      if |s| >= |pat| {
        assert s[..|pat|] != pat by { assert s[..|pat|][0] == x[0]; }
        assert s[1..] == x[1..] + rest;
        calc {
          RemoveAll(s, pat);
          [s[0]] + RemoveAll(s[1..], pat);
          { RemoveAllSkipsPrefix(x[1..], rest, pat); }
          [x[0]] + (x[1..] + RemoveAll(rest, pat));
          { assert x == [x[0]] + x[1..]; }
          x + RemoveAll(rest, pat);
        }
      } else {
        assert RemoveAll(rest, pat) == rest;
      }
    } else {
      assert x + rest == rest;
    }
  }

  /** JavaScript white space and line terminators, the characters `trim` removes. */
  predicate IsSpace(c: char) {
    || c == '\t' || c == '\n' || c == '\U{B}' || c == '\U{C}' || c == '\r' || c == ' '
    || c == '\U{A0}' || c == '\U{1680}' || ('\U{2000}' <= c <= '\U{200A}')
    || c == '\U{2028}' || c == '\U{2029}' || c == '\U{202F}' || c == '\U{205F}'
    || c == '\U{3000}' || c == '\U{FEFF}'
  }

  /** Every character of `s` from `i` up to `j` is white space. */
  predicate SpaceBetween(s: string, i: int, j: int)
    requires 0 <= i <= j <= |s|
  {
    forall k :: i <= k < j ==> IsSpace(s[k])
  }

  /** Neither end of `s` is white space. */
  predicate Trimmed(s: string) {
    s == [] || (!IsSpace(s[0]) && !IsSpace(s[|s| - 1]))
  }

  /** Skips white space forward from `i`: the first non-space at or after `i`, or `|s|`. */
  function SkipForward(s: string, i: nat): (j: nat)
    requires i <= |s|
    ensures i <= j <= |s| && SpaceBetween(s, i, j)
    ensures j == |s| || !IsSpace(s[j])
    decreases |s| - i
  {
    if i < |s| && IsSpace(s[i]) then SkipForward(s, i + 1) else i
  }

  /** Skips white space backward from `j` down to `lo`: the end of the last non-space
      before `j`, or `lo`. */
  function SkipBackward(s: string, lo: nat, j: nat): (e: nat)
    requires lo <= j <= |s|
    ensures lo <= e <= j && SpaceBetween(s, e, j)
    ensures e == lo || !IsSpace(s[e - 1])
  {
    if lo < j && IsSpace(s[j - 1]) then SkipBackward(s, lo, j - 1) else j
  }

  /** `s.trim()`: the slice of `s` between its leading and its trailing white space. */
  function Trim(s: string): (r: string)
    ensures Trimmed(r)
    ensures var i := SkipForward(s, 0);
            && i + |r| <= |s| && r == s[i..i + |r|]
            && SpaceBetween(s, 0, i) && SpaceBetween(s, i + |r|, |s|)
  {
    var i := SkipForward(s, 0);
    var e := SkipBackward(s, i, |s|);
    s[i..e]
  }

  /** A string that is already trimmed is its own trim. */
  lemma TrimTrimmed(s: string)
    requires Trimmed(s)
    ensures Trim(s) == s
  {
  }

  /** Cutting a piece out of a string cannot create an occurrence. */
  lemma InfixKeepsAbsence(s: string, i: int, j: int, pat: string)
    requires 0 <= i <= j <= |s|
    requires !Contains(s, pat)
    ensures !Contains(s[i..j], pat)
  {
    var r := s[i..j];
    forall k | 0 <= k <= |r| && OccursAt(r, pat, k) ensures false {
      var a, b := r[k..k + |pat|], s[i + k..i + k + |pat|];
      forall m | 0 <= m < |pat| ensures a[m] == b[m] {
        assert r[k + m] == s[i + k + m];
      }
      assert a == b;
      assert OccursAt(s, pat, i + k);
    }
  }

  /** Trimming cannot create an occurrence: whatever `Trim(s)` contains, `s` contains. */
  lemma TrimKeepsAbsence(s: string, pat: string)
    requires !Contains(s, pat)
    ensures !Contains(Trim(s), pat)
  {
    var i := SkipForward(s, 0);
    InfixKeepsAbsence(s, i, i + |Trim(s)|, pat);
  }

  // A pattern made of one character three times (a code fence) cannot be
  // re-created by removing it: removal only shortens a run of that
  // character, and never joins two runs.

  /** A result that starts with `c` came from an input that starts with `c`. */
  lemma {:induction false} RemoveRunFirst(u: string, c: char)
    requires RemoveAll(u, [c, c, c]) != [] && RemoveAll(u, [c, c, c])[0] == c
    ensures u != [] && u[0] == c
  {
    var pat := [c, c, c];
    if |u| >= 3 && u[..3] != pat {
      assert RemoveAll(u, pat) == [u[0]] + RemoveAll(u[1..], pat);
    } else if |u| >= 3 {
      assert u[0] == u[..3][0];
    }
  }

  /** A result that starts with `c c` came from an input that starts with `c c`. */
  lemma {:induction false} RemoveRunFirstTwo(u: string, c: char)
    requires |RemoveAll(u, [c, c, c])| >= 2
    requires RemoveAll(u, [c, c, c])[0] == c && RemoveAll(u, [c, c, c])[1] == c
    ensures |u| >= 2 && u[0] == c && u[1] == c
  {
    var pat := [c, c, c];
    if |u| >= 3 && u[..3] != pat {
      var rest := RemoveAll(u[1..], pat);
      assert RemoveAll(u, pat) == [u[0]] + rest;
      assert rest[0] == c;
      RemoveRunFirst(u[1..], c);
    } else if |u| >= 3 {
      assert u[0] == u[..3][0] && u[1] == u[..3][1];
    }
  }

  /** A string whose first three characters are not all `c` does not start with a run. */
  lemma NoRunAt(r: string, c: char)
    requires |r| < 3 || r[0] != c || r[1] != c || r[2] != c
    ensures !OccursAt(r, [c, c, c], 0)
  {
    if |r| >= 3 {
      assert r[..3] == [r[0], r[1], r[2]];
    }
  }

  /** Removal never leaves a run at the front unless the input started with one. */
  lemma NoRunAtFront(s: string, c: char)
    requires |s| >= 3 && s[..3] != [c, c, c]
    ensures !OccursAt(RemoveAll(s, [c, c, c]), [c, c, c], 0)
  {
    var pat := [c, c, c];
    var rest := RemoveAll(s[1..], pat);
    var r := [s[0]] + rest;
    assert RemoveAll(s, pat) == r;
    if |rest| >= 2 && rest[0] == c && rest[1] == c {
      RemoveRunFirstTwo(s[1..], c);
      assert s[..3] == [s[0], s[1], s[2]];
      assert r[0] == s[0];
    }
    NoRunAt(r, c);
  }

  /** After removing every run-of-three of `c`, none is left. */
  lemma {:induction false} RemoveRunGone(s: string, c: char)
    ensures !Contains(RemoveAll(s, [c, c, c]), [c, c, c])
    decreases |s|
  {
    var pat := [c, c, c];
    var r := RemoveAll(s, pat);
    if |s| < 3 {
      assert r == s;
    } else if s[..3] == pat {
      RemoveRunGone(s[3..], c);
    } else {
      var rest := RemoveAll(s[1..], pat);
      assert r == [s[0]] + rest;
      RemoveRunGone(s[1..], c);
      NoRunAtFront(s, c);
      forall i | 1 <= i <= |r| && OccursAt(r, pat, i) ensures false {
        assert r[i..i + 3] == rest[i - 1..i + 2];
        assert OccursAt(rest, pat, i - 1);
      }
    }
  }

  /** A string that contains `pre + suf` contains `pre`. */
  lemma ContainsPrefix(s: string, pre: string, suf: string)
    requires Contains(s, pre + suf)
    ensures Contains(s, pre)
  {
    var i :| 0 <= i <= |s| && OccursAt(s, pre + suf, i);
    assert s[i..i + |pre|] == (pre + suf)[..|pre|];
    assert OccursAt(s, pre, i);
  }
}
