/**
 * The string operations the assistant relies on: ASCII lower-casing, Python's
 * `str.strip()` with no argument, and Python's substring test `p in s`.
 */
module Text {

  /** True for the ASCII capital letters 'A'..'Z'. */
  predicate IsUpper(c: char) {
    'A' <= c <= 'Z'
  }

  /** Lower-cases one character; only ASCII capitals change. */
  function LowerChar(c: char): (r: char)
    ensures !IsUpper(r)
    ensures IsUpper(c) ==> r as int == c as int + 32
    ensures !IsUpper(c) ==> r == c
  {
    if IsUpper(c) then (c as int + 32) as char else c
  }

  /** ASCII lower-casing of a whole string, character by character. */
  function Lower(s: string): (r: string)
    ensures |r| == |s|
    ensures forall i :: 0 <= i < |s| ==> r[i] == LowerChar(s[i])
  {
    if |s| == 0 then [] else [LowerChar(s[0])] + Lower(s[1..])
  }

  /** Lower-casing twice is lower-casing once. */
  lemma LowerIdempotent(s: string)
    ensures Lower(Lower(s)) == Lower(s)
  {
  }

  /**
   * The characters Python's `str.isspace()` accepts: the ASCII controls
   * tab..carriage return and file..unit separator, space, NEL, no-break space,
   * and the Unicode space separators and line/paragraph separators.
   */
  predicate IsSpace(c: char) {
    var n := c as int;
    || (9 <= n <= 13)
    || (0x1C <= n <= 0x20)
    || n == 0x85 || n == 0xA0 || n == 0x1680
    || (0x2000 <= n <= 0x200A)
    || n == 0x2028 || n == 0x2029 || n == 0x202F || n == 0x205F || n == 0x3000
  }

  /** A character that lower-cases to an ASCII letter is not whitespace. */
  lemma LetterIsNotSpace(c: char)
    requires 'a' <= LowerChar(c) <= 'z'
    ensures !IsSpace(c)
  {
  }

  predicate AllSpace(s: string) {
    forall i :: 0 <= i < |s| ==> IsSpace(s[i])
  }

  /** Drops the leading whitespace: the result is the suffix that starts at the first non-space. */
  function TrimStart(s: string): (r: string)
    ensures |r| <= |s| && r == s[|s| - |r|..]
    ensures AllSpace(s[..|s| - |r|])
    ensures |r| == 0 || !IsSpace(r[0])
  {
    if |s| > 0 && IsSpace(s[0]) then
      var r := TrimStart(s[1..]);
      assert s[..|s| - |r|] == [s[0]] + s[1..][..|s| - 1 - |r|];
      r
    else s
  }

  /** Drops the trailing whitespace: the result is the prefix that ends at the last non-space. */
  function TrimEnd(s: string): (r: string)
    ensures r <= s
    ensures AllSpace(s[|r|..])
    ensures |r| == 0 || !IsSpace(r[|r| - 1])
  {
    if |s| > 0 && IsSpace(s[|s| - 1]) then
      var r := TrimEnd(s[..|s| - 1]);
      assert s[|r|..] == s[..|s| - 1][|r|..] + [s[|s| - 1]];
      r
    else s
  }

  /** `r` is what remains of `s` after removing whitespace before index `i` and after `r`. */
  ghost predicate StrippedAt(s: string, r: string, i: int) {
    0 <= i && i + |r| <= |s| && r == s[i..i + |r|] && AllSpace(s[..i]) && AllSpace(s[i + |r|..])
  }

  /** Python's `str.strip()`: the infix left after removing whitespace at both ends. */
  function Strip(s: string): (r: string)
    ensures exists i :: StrippedAt(s, r, i)
    ensures |r| == 0 || (!IsSpace(r[0]) && !IsSpace(r[|r| - 1]))
  {
    var t := TrimStart(s);
    var r := TrimEnd(t);
    StrippedWitness(s, t, r);
    r
  }

  /** Trimming a suffix `t` of `s` down to its prefix `r` strips `s` at `|s| - |t|`. */
  lemma StrippedWitness(s: string, t: string, r: string)
    requires |t| <= |s| && t == s[|s| - |t|..] && AllSpace(s[..|s| - |t|])
    requires r <= t && AllSpace(t[|r|..])
    ensures StrippedAt(s, r, |s| - |t|)
  {
    var i := |s| - |t|;
    assert r == s[i..i + |r|];
    assert s[i + |r|..] == t[|r|..];
  }

  /** `p` occurs in `s` starting at index `i`. */
  ghost predicate OccursAt(s: string, p: string, i: int) {
    0 <= i && i + |p| <= |s| && s[i..i + |p|] == p
  }

  /** Python's `p in s` on strings, scanning `s` from the left. */
  predicate Contains(s: string, p: string)
    decreases |s|
  {
    p <= s || (|s| > 0 && Contains(s[1..], p))
  }

  /** Moving the start of `s` by one character moves every occurrence after it by one. */
  lemma OccursShift(s: string, p: string, i: int)
    requires |s| > 0 && i >= 0
    ensures OccursAt(s, p, i + 1) <==> OccursAt(s[1..], p, i)
  {
    if i + 1 + |p| <= |s| {
      assert s[1..][i..i + |p|] == s[i + 1..i + 1 + |p|];
    }
  }

  /** `Contains` holds exactly when `p` occurs at some index of `s`. */
  lemma {:induction false} ContainsIffOccurs(s: string, p: string)
    ensures Contains(s, p) <==> exists i :: OccursAt(s, p, i)
    decreases |s|
  {
    if p <= s {
      assert OccursAt(s, p, 0);
    } else if |s| > 0 {
      ContainsIffOccurs(s[1..], p);
      forall i | OccursAt(s, p, i)
        ensures OccursAt(s[1..], p, i - 1)
      {
        OccursShift(s, p, i - 1);
      }
      forall i | OccursAt(s[1..], p, i)
        ensures OccursAt(s, p, i + 1)
      {
        OccursShift(s, p, i);
      }
    }
  }

  /** Leading whitespace before a part that starts with a non-space is exactly what `TrimStart` drops. */
  lemma {:induction false} TrimStartDrops(a: string, rest: string)
    requires AllSpace(a) && (|rest| == 0 || !IsSpace(rest[0]))
    ensures TrimStart(a + rest) == rest
  {
    if |a| == 0 {
      assert a + rest == rest;
    } else {
      assert (a + rest)[1..] == a[1..] + rest;
      TrimStartDrops(a[1..], rest);
    }
  }

  /** Trailing whitespace after a part that ends with a non-space is exactly what `TrimEnd` drops. */
  lemma {:induction false} TrimEndDrops(rest: string, b: string)
    requires AllSpace(b) && (|rest| == 0 || !IsSpace(rest[|rest| - 1]))
    ensures TrimEnd(rest + b) == rest
    decreases |b|
  {
    if |b| == 0 {
      assert rest + b == rest;
    } else {
      assert (rest + b)[..|rest + b| - 1] == rest + b[..|b| - 1];
      TrimEndDrops(rest, b[..|b| - 1]);
    }
  }

  /** `Strip` returns the core of any whitespace + core + whitespace split whose core starts and ends with a non-space. */
  lemma StripCore(a: string, core: string, b: string)
    requires AllSpace(a) && AllSpace(b) && |core| > 0
    requires !IsSpace(core[0]) && !IsSpace(core[|core| - 1])
    ensures Strip(a + core + b) == core
  {
    assert a + core + b == a + (core + b);
    TrimStartDrops(a, core + b);
    TrimEndDrops(core, b);
  }

  /** Lower-casing works character by character, so it lower-cases every infix in place. */
  lemma LowerInfix(pre: string, f: string, post: string)
    ensures Lower(pre + f + post)[|pre|..|pre| + |f|] == Lower(f)
  {
    var s := pre + f + post;
    forall k | 0 <= k < |f|
      ensures Lower(s)[|pre| + k] == Lower(f)[k]
    {
      assert s[|pre| + k] == f[k];
    }
  }

  lemma SliceOfSlice(s: string, a: int, b: int, c: int, d: int)
    requires 0 <= a <= b <= |s| && 0 <= c <= d <= b - a
    ensures s[a..b][c..d] == s[a + c..a + d]
  {
    forall k | 0 <= k < d - c
      ensures s[a..b][c..d][k] == s[a + c..a + d][k]
    {
      assert s[a..b][c..d][k] == s[a..b][c + k];
    }
  }

  /** A pattern found in an infix of `s` is found in `s`. */
  lemma ContainsInInfix(s: string, mid: string, start: int, p: string)
    requires 0 <= start && start + |mid| <= |s| && s[start..start + |mid|] == mid
    requires Contains(mid, p)
    ensures Contains(s, p)
  {
    ContainsIffOccurs(mid, p);
    var i :| OccursAt(mid, p, i);
    SliceOfSlice(s, start, start + |mid|, i, i + |p|);
    assert OccursAt(s, p, start + i);
    ContainsIffOccurs(s, p);
  }

  /** A pattern with a character the text lacks does not occur in it. */
  lemma AbsentCharNotContained(s: string, p: string, k: int)
    requires 0 <= k < |p| && p[k] !in s
    ensures !Contains(s, p)
  {
    ContainsIffOccurs(s, p);
    forall i
      ensures !OccursAt(s, p, i)
    {
      if 0 <= i && i + |p| <= |s| {
        assert s[i..i + |p|][k] == s[i + k];
      }
    }
  }
}
