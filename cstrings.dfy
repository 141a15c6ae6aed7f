/**
 * Character buffers as the C code sees them: a string is whatever precedes the
 * first NUL, and the libc routines the program calls (strlen, strchr, strrchr,
 * snprintf) are given here as functions on sequences. Scans work on indices,
 * as the C loops do.
 */
module CStrings {
  import opened Wrappers

  const NUL: char := '\0'

  function Min(a: int, b: int): int { if a <= b then a else b }

  function Max(a: int, b: int): int { if a >= b then a else b }

  /** strlen from index k on: the index of the first NUL at or after k, or |buf| when there is none. */
  function StrLenFrom(buf: seq<char>, k: nat): (n: nat)
    requires k <= |buf|
    ensures k <= n <= |buf|
    ensures forall i :: k <= i < n ==> buf[i] != NUL
    ensures n < |buf| ==> buf[n] == NUL
    decreases |buf| - k
  {
    if k == |buf| || buf[k] == NUL then k else StrLenFrom(buf, k + 1)
  }

  /** The C string held by a buffer: the characters before its first NUL (all of them when there is none). */
  function CString(buf: seq<char>): (s: seq<char>)
    ensures s <= buf && NUL !in s
    ensures |s| < |buf| ==> buf[|s|] == NUL
  {
    buf[..StrLenFrom(buf, 0)]
  }

  /** A buffer that holds `s` followed by a NUL holds exactly the C string `s`, whatever comes after. */
  lemma CStringOfTerminated(s: seq<char>, rest: seq<char>)
    requires NUL !in s
    ensures CString(s + [NUL] + rest) == s
  {
    var buf := s + [NUL] + rest;
    assert buf[|s|] == NUL;
    assert forall i :: 0 <= i < |s| ==> buf[i] == s[i];
  }

  /** Writing a NUL after `s` leaves the C string of `s` itself, whatever follows the NUL. */
  lemma CStringCut(s: seq<char>, rest: seq<char>)
    ensures CString(s + [NUL] + rest) == CString(s)
  {
    var buf := s + [NUL] + rest;
    var n := StrLenFrom(s, 0);
    if n < |s| {
      assert forall i :: 0 <= i <= n ==> buf[i] == s[i];
      assert buf[n] == NUL;
    } else {
      CStringOfTerminated(s, rest);
    }
  }

  /** strchr from index k on: the first index at or after k holding `c`. */
  function FindFrom(s: string, c: char, k: nat): (r: Option<nat>)
    requires k <= |s|
    ensures r.Some? ==> k <= r.value < |s| && s[r.value] == c
    ensures r.Some? ==> forall i :: k <= i < r.value ==> s[i] != c
    ensures r.None? ==> forall i :: k <= i < |s| ==> s[i] != c
    decreases |s| - k
  {
    if k == |s| then None
    else if s[k] == c then Some(k)
    else FindFrom(s, c, k + 1)
  }

  /** strchr: the index of the first `c` in `s`. */
  function FirstIndex(s: string, c: char): (r: Option<nat>)
    ensures r.Some? ==> r.value < |s| && s[r.value] == c && c !in s[..r.value]
    ensures r.None? ==> c !in s
  {
    FindFrom(s, c, 0)
  }

  /** strrchr below index n: the last index under n holding `c`. */
  function FindLastBelow(s: string, c: char, n: nat): (r: Option<nat>)
    requires n <= |s|
    ensures r.Some? ==> r.value < n && s[r.value] == c
    ensures r.Some? ==> forall i :: r.value < i < n ==> s[i] != c
    ensures r.None? ==> forall i :: 0 <= i < n ==> s[i] != c
  {
    if n == 0 then None
    else if s[n - 1] == c then Some(n - 1)
    else FindLastBelow(s, c, n - 1)
  }

  /** strrchr: the index of the last `c` in `s`. */
  function LastIndex(s: string, c: char): (r: Option<nat>)
    ensures r.Some? ==> r.value < |s| && s[r.value] == c && c !in s[r.value + 1..]
    ensures r.None? ==> c !in s
  {
    FindLastBelow(s, c, |s|)
  }

  /**
   * How many of the first n characters of s remain once the trailing run of
   * `drop` characters is cut, never cutting below index lo.
   */
  function KeptLength(s: string, drop: set<char>, lo: nat, n: nat): (m: nat)
    requires lo <= n <= |s|
    ensures lo <= m <= n
    ensures m == lo || s[m - 1] !in drop
    ensures forall i :: m <= i < n ==> s[i] in drop
    decreases n
  {
    if n > lo && s[n - 1] in drop then KeptLength(s, drop, lo, n - 1) else n
  }

  /** A slice of a slice is a slice of the whole. */
  lemma SliceOfSlice(s: string, a: nat, b: nat, i: nat, j: nat)
    requires a <= b <= |s| && i <= j <= b - a
    ensures s[a..b][i..j] == s[a + i..a + j]
  {
    var inner := s[a..b][i..j];
    assert forall k :: 0 <= k < |inner| ==> inner[k] == s[a + i + k];
  }

  /** Every character of s is one of `chars`. */
  predicate AllIn(s: string, chars: set<char>)
  {
    forall i :: 0 <= i < |s| ==> s[i] in chars
  }

  /** A run of indices holding only `chars` is a slice of only `chars`. */
  lemma AllInSlice(s: string, chars: set<char>, lo: nat, hi: nat)
    requires lo <= hi <= |s|
    requires forall i :: lo <= i < hi ==> s[i] in chars
    ensures AllIn(s[lo..hi], chars)
  {
    var run := s[lo..hi];
    forall i | 0 <= i < |run|
      ensures run[i] in chars
    {
      assert run[i] == s[lo + i];
    }
  }

  /** The first index at or after k whose character is not in `drop`. */
  function SkipFrom(s: string, drop: set<char>, k: nat): (m: nat)
    requires k <= |s|
    ensures k <= m <= |s|
    ensures m == |s| || s[m] !in drop
    ensures forall i :: k <= i < m ==> s[i] in drop
    decreases |s| - k
  {
    if k < |s| && s[k] in drop then SkipFrom(s, drop, k + 1) else k
  }

  /** The newline fgets keeps is dropped: only a final '\n', and only one. */
  function StripNewline(s: string): string
  {
    if s != [] && s[|s| - 1] == '\n' then s[..|s| - 1] else s
  }

  /**
   * The C string snprintf(buf, size, "%s", s) leaves in a buffer of `size` bytes
   * (size > 0): `s` cut to size - 1 characters, the last byte going to the NUL.
   */
  function Snprintf(s: string, size: nat): (r: string)
    requires size > 0
    ensures r <= s && |r| < size
    ensures |s| < size ==> r == s
    ensures |s| >= size ==> |r| == size - 1
  {
    if |s| < size then s else s[..size - 1]
  }
}
