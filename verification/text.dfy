/**
  The handful of Python `str` operations the core relies on, written over
  `seq<char>`: `strip()`, `lower()`, `startswith`, `find`, `rfind`, `split`,
  `join` and `rstrip(c)`.
 */
module Text {

  /** One byte of an uploaded image. */
  type Byte = b: int | 0 <= b < 256

  /** Python's `str.isspace()` on one character: exactly the characters `strip()` removes. */
  predicate IsSpace(c: char) {
    var n := c as int;
    (9 <= n <= 13) || (28 <= n <= 32) || n == 0x85 || n == 0xA0 || n == 0x1680
    || (0x2000 <= n <= 0x200A) || n == 0x2028 || n == 0x2029 || n == 0x202F
    || n == 0x205F || n == 0x3000
  }

  /** True when every character is whitespace (so `s.strip()` is empty). */
  predicate AllSpace(s: string) {
    forall i :: 0 <= i < |s| ==> IsSpace(s[i])
  }

  /** Neither end of `s` is whitespace: what `strip()` guarantees of its result. */
  predicate Trimmed(s: string) {
    |s| == 0 || (!IsSpace(s[0]) && !IsSpace(s[|s| - 1]))
  }

  /** Number of whitespace characters at the front of `s`. */
  function LeadingSpaces(s: string): (n: nat)
    ensures n <= |s|
    ensures AllSpace(s[..n])
    ensures n < |s| ==> !IsSpace(s[n])
  {
    if |s| == 0 || !IsSpace(s[0]) then 0
    else
      var m := LeadingSpaces(s[1..]);
      assert s[..1 + m] == [s[0]] + s[1..][..m];
      1 + m
  }

  /** Number of whitespace characters at the back of `s`. */
  function TrailingSpaces(s: string): (n: nat)
    ensures n <= |s|
    ensures n < |s| ==> !IsSpace(s[|s| - 1 - n])
  {
    if |s| == 0 || !IsSpace(s[|s| - 1]) then 0
    else 1 + TrailingSpaces(s[..|s| - 1])
  }

  /** What `TrailingSpaces` counts is whitespace. */
  lemma {:induction false} TrailingBlank(s: string)
    ensures AllSpace(s[|s| - TrailingSpaces(s)..])
    decreases |s|
  {
    if |s| > 0 && IsSpace(s[|s| - 1]) {
      var init := s[..|s| - 1];
      TrailingBlank(init);
      var m := TrailingSpaces(init);
      assert s[|s| - (1 + m)..] == init[|init| - m..] + [s[|s| - 1]];
    }
  }

  /**
    Python's `s.strip()`: the slice of `s` left after removing whitespace from
    both ends.
   */
  function Strip(s: string): (r: string)
    ensures Trimmed(r)
    ensures |r| <= |s|
    ensures |r| == 0 <==> AllSpace(s)
  {
    StripTrimmedResult(s);
    StripBlank(s);
    Between(s)
  }

  /** The text between the leading and the trailing whitespace. */
  function Between(s: string): string {
    var rest := s[LeadingSpaces(s)..];
    rest[..|rest| - TrailingSpaces(rest)]
  }

  lemma StripTrimmedResult(s: string)
    ensures Trimmed(Between(s))
  {
    TrimmedMiddle(s[LeadingSpaces(s)..]);
  }

  /** `strip()` returns a slice of its argument. */
  lemma StripSlice(s: string)
    ensures var lo := LeadingSpaces(s);
      lo + |Strip(s)| <= |s| && Strip(s) == s[lo..lo + |Strip(s)|]
  {
    PrefixOfSlice(s, LeadingSpaces(s), |s|, |Between(s)|);
  }

  lemma StripBlank(s: string)
    ensures |Between(s)| == 0 <==> AllSpace(s)
  {
    var lo := LeadingSpaces(s);
    BlankRest(s[lo..]);
    AllSpaceSplit(s, lo);
  }

  /** Cutting the trailing whitespace off a text that does not open with whitespace leaves it trimmed. */
  lemma TrimmedMiddle(rest: string)
    requires |rest| == 0 || !IsSpace(rest[0])
    ensures Trimmed(rest[..|rest| - TrailingSpaces(rest)])
  {
    TrimmedCutAt(rest, TrailingSpaces(rest));
  }

  /** Cutting `n` characters off the end leaves a trimmed text when the new last character is not whitespace. */
  lemma TrimmedCutAt(rest: string, n: nat)
    requires n <= |rest|
    requires |rest| == 0 || !IsSpace(rest[0])
    requires n < |rest| ==> !IsSpace(rest[|rest| - 1 - n])
    ensures Trimmed(rest[..|rest| - n])
  {
    if n < |rest| {
      TrimmedEnds(rest, |rest| - n);
    }
  }

  /** A prefix whose first and last characters are not whitespace is trimmed. */
  lemma TrimmedEnds(s: string, k: nat)
    requires 0 < k <= |s|
    requires !IsSpace(s[0]) && !IsSpace(s[k - 1])
    ensures Trimmed(s[..k])
  {
    var r := s[..k];
    assert r[0] == s[0] && r[|r| - 1] == s[k - 1];
  }

  /**
    A text that does not open with whitespace is all trailing whitespace
    exactly when it is blank.
   */
  lemma BlankRest(rest: string)
    requires |rest| == 0 || !IsSpace(rest[0])
    ensures TrailingSpaces(rest) == |rest| <==> AllSpace(rest)
  {
    if TrailingSpaces(rest) == |rest| {
      assert rest[|rest| - |rest|..] == rest;
    }
  }

  /** A text is blank exactly when both sides of any cut are. */
  lemma AllSpaceSplit(s: string, k: int)
    requires 0 <= k <= |s|
    ensures AllSpace(s) <==> AllSpace(s[..k]) && AllSpace(s[k..])
  {
    if AllSpace(s) {
      forall i | 0 <= i < k
        ensures IsSpace(s[..k][i])
      {
        assert s[..k][i] == s[i];
      }
      forall i | 0 <= i < |s| - k
        ensures IsSpace(s[k..][i])
      {
        assert s[k..][i] == s[k + i];
      }
    }
    if AllSpace(s[..k]) && AllSpace(s[k..]) {
      forall i | 0 <= i < |s|
        ensures IsSpace(s[i])
      {
        if i < k {
          assert s[i] == s[..k][i];
        } else {
          assert s[i] == s[k..][i - k];
        }
      }
    }
  }

  /** Whitespace in front of a non-whitespace character is exactly what `LeadingSpaces` counts. */
  lemma {:induction false} LeadingSpacesOf(a: string, m: string)
    requires AllSpace(a) && |m| > 0 && !IsSpace(m[0])
    ensures LeadingSpaces(a + m) == |a|
    decreases |a|
  {
    if |a| == 0 {
      assert a + m == m;
    } else {
      assert (a + m)[0] == a[0];
      assert (a + m)[1..] == a[1..] + m;
      LeadingSpacesOf(a[1..], m);
    }
  }

  /** Whitespace behind a non-whitespace character is exactly what `TrailingSpaces` counts. */
  lemma {:induction false} TrailingSpacesOf(m: string, b: string)
    requires AllSpace(b) && |m| > 0 && !IsSpace(m[|m| - 1])
    ensures TrailingSpaces(m + b) == |b|
    decreases |b|
  {
    if |b| == 0 {
      assert m + b == m;
    } else {
      var s := m + b;
      assert s[|s| - 1] == b[|b| - 1];
      assert s[..|s| - 1] == m + b[..|b| - 1];
      TrailingSpacesOf(m, b[..|b| - 1]);
    }
  }

  /**
    `strip()` is determined by its specification: a trimmed middle between two
    all-whitespace ends is exactly what it returns.
   */
  lemma StripCharacterised(a: string, m: string, b: string)
    requires AllSpace(a) && AllSpace(b) && Trimmed(m)
    ensures Strip(a + m + b) == m
  {
    var s := a + m + b;
    if |m| == 0 {
      assert AllSpace(s);
    } else {
      assert s == a + (m + b);
      LeadingSpacesOf(a, m + b);
      var rest := s[|a|..];
      assert rest == m + b;
      TrailingSpacesOf(m, b);
      assert rest[..|rest| - |b|] == m;
    }
  }

  /** `strip()` is idempotent, and leaves an already trimmed string alone. */
  lemma StripTrimmed(s: string)
    requires Trimmed(s)
    ensures Strip(s) == s
  {
    StripCharacterised([], s, []);
    assert [] + s + [] == s;
  }

  /** Stripping a string free of `pat` leaves it free of `pat`. */
  lemma StripAvoids(s: string, pat: string)
    requires !Contains(s, pat)
    ensures !Contains(Strip(s), pat)
  {
    var lo := LeadingSpaces(s);
    StripSlice(s);
    SliceAvoids(s, lo, lo + |Strip(s)|, pat);
  }

  lemma StripIdempotent(s: string)
    ensures Strip(Strip(s)) == Strip(s)
  {
    StripTrimmed(Strip(s));
  }

  /** ASCII case mapping of Python's `str.lower()`. */
  function LowerChar(c: char): char {
    if 'A' <= c <= 'Z' then (c as int + 32) as char else c
  }

  function Lower(s: string): (r: string)
    ensures |r| == |s|
    ensures forall i :: 0 <= i < |s| ==> r[i] == LowerChar(s[i])
  {
    seq(|s|, i requires 0 <= i < |s| => LowerChar(s[i]))
  }

  /** `pat` occurs in `s` starting at index `i`. */
  predicate OccursAt(s: string, pat: string, i: int) {
    0 <= i && i + |pat| <= |s| && s[i..i + |pat|] == pat
  }

  /** Python's `pat in s` for strings. */
  predicate Contains(s: string, pat: string) {
    exists i :: 0 <= i <= |s| && OccursAt(s, pat, i)
  }

  /** Python's `s.startswith(prefix)`. */
  predicate StartsWith(s: string, prefix: string) {
    |prefix| <= |s| && s[..|prefix|] == prefix
  }

  lemma StartsWithOccurs(s: string, prefix: string)
    ensures StartsWith(s, prefix) ==> OccursAt(s, prefix, 0) && Contains(s, prefix)
  {
    if StartsWith(s, prefix) {
      assert OccursAt(s, prefix, 0);
    }
  }

  /** `pat` occurs in `a + pat + b` right after `a`. */
  lemma OccursBetween(a: string, pat: string, b: string)
    ensures OccursAt(a + pat + b, pat, |a|)
  {
    assert (a + pat + b)[|a|..|a| + |pat|] == pat;
  }

  /** An occurrence inside a slice is an occurrence in the whole string. */
  lemma OccursInSlice(s: string, lo: int, hi: int, pat: string, i: int)
    requires 0 <= lo <= hi <= |s|
    requires OccursAt(s[lo..hi], pat, i)
    ensures OccursAt(s, pat, lo + i)
  {
    forall k | 0 <= k < |pat|
      ensures s[lo + i + k] == pat[k]
    {
      assert s[lo..hi][i..i + |pat|][k] == pat[k];
    }
    assert s[lo + i..lo + i + |pat|] == pat;
  }

  /** An occurrence in the whole string that lies inside a slice is an occurrence in the slice. */
  lemma OccursInWhole(s: string, lo: int, hi: int, pat: string, i: int)
    requires 0 <= lo <= hi <= |s| && 0 <= i
    requires OccursAt(s, pat, lo + i) && lo + i + |pat| <= hi
    ensures OccursAt(s[lo..hi], pat, i)
  {
    forall k | 0 <= k < |pat|
      ensures s[lo..hi][i + k] == pat[k]
    {
      assert s[lo + i..lo + i + |pat|][k] == pat[k];
    }
    assert s[lo..hi][i..i + |pat|] == pat;
  }

  /** A one-character pattern occurs exactly where that character is. */
  lemma OccursChar(s: string, c: char, k: int)
    ensures OccursAt(s, [c], k) <==> 0 <= k < |s| && s[k] == c
  {
    if 0 <= k < |s| {
      assert s[k..k + 1] == [s[k]];
    }
  }

  /** A slice of a string free of `pat` is free of `pat`. */
  lemma SliceAvoids(s: string, lo: int, hi: int, pat: string)
    requires 0 <= lo <= hi <= |s|
    requires !Contains(s, pat)
    ensures !Contains(s[lo..hi], pat)
  {
    if Contains(s[lo..hi], pat) {
      var i :| OccursAt(s[lo..hi], pat, i);
      OccursInSlice(s, lo, hi, pat, i);
    }
  }

  /**
    Python's `s.find(pat, start)`: the first index at or after `start` where
    `pat` occurs, or -1.
   */
  function Find(s: string, pat: string, start: nat): (r: int)
    ensures r == -1 || (start <= r && OccursAt(s, pat, r))
    ensures forall k :: start <= k && (r == -1 || k < r) ==> !OccursAt(s, pat, k)
    decreases |s| - start
  {
    if start + |pat| > |s| then -1
    else if s[start..start + |pat|] == pat then start
    else Find(s, pat, start + 1)
  }

  /** Python's `s.find(c)` for one character: the first `c`, or -1 when there is none. */
  lemma FindChar(s: string, c: char)
    ensures var i := Find(s, [c], 0);
      && (i == -1 <==> c !in s)
      && (i != -1 ==> 0 <= i < |s| && s[i] == c && c !in s[..i])
  {
    var i := Find(s, [c], 0);
    if i != -1 {
      OccursChar(s, c, i);
      forall k | 0 <= k < i
        ensures s[..i][k] != c
      {
        OccursChar(s, c, k);
      }
    }
    if c in s {
      var k :| 0 <= k < |s| && s[k] == c;
      OccursChar(s, c, k);
    }
  }

  /** `Find` returns a given occurrence when none starts earlier. */
  lemma FindAt(s: string, pat: string, start: nat, p: int)
    requires start <= p && OccursAt(s, pat, p)
    requires forall k :: start <= k < p ==> !OccursAt(s, pat, k)
    ensures Find(s, pat, start) == p
  {
  }

  /** `Find` skips positions holding a character other than the pattern's first. */
  lemma FindPastOthers(s: string, pat: string, start: nat, p: int)
    requires |pat| > 0 && start <= p && OccursAt(s, pat, p)
    requires forall k :: start <= k < p ==> s[k] != pat[0]
    ensures Find(s, pat, start) == p
  {
    forall k | start <= k < p
      ensures !OccursAt(s, pat, k)
    {
      if k + |pat| <= |s| {
        assert s[k..k + |pat|][0] == s[k];
      }
    }
    FindAt(s, pat, start, p);
  }

  /** Python's `s.rfind(c)` for a one-character needle: the last index of `c`, or -1. */
  function RFind(s: string, c: char): (r: int)
    ensures -1 <= r < |s|
    ensures r >= 0 ==> s[r] == c
    ensures forall k :: r < k < |s| ==> s[k] != c
  {
    if |s| == 0 then -1
    else if s[|s| - 1] == c then |s| - 1
    else RFind(s[..|s| - 1], c)
  }

  /** Python's `s.split(sep)[0]`: the text before the first occurrence of `sep`. */
  function SplitHead(s: string, sep: string): (r: string)
    requires |sep| > 0
    ensures r <= s
    ensures !Contains(r, sep)
    ensures |r| < |s| ==> OccursAt(s, sep, |r|)
    ensures forall k :: 0 <= k < |r| ==> !OccursAt(s, sep, k)
  {
    var i := Find(s, sep, 0);
    if i == -1 then
      assert !Contains(s, sep);
      s
    else
      assert !Contains(s[..i], sep) by {
        if Contains(s[..i], sep) {
          var k :| OccursAt(s[..i], sep, k);
          OccursInSlice(s, 0, i, sep, k);
        }
      }
      s[..i]
  }

  /** `split(sep)[0]` stops at the first occurrence of `sep`, or runs to the end. */
  lemma SplitHeadAt(s: string, sep: string, p: int)
    requires |sep| > 0 && 0 <= p <= |s|
    requires p == |s| || OccursAt(s, sep, p)
    requires forall k :: 0 <= k < p ==> !OccursAt(s, sep, k)
    ensures SplitHead(s, sep) == s[..p]
  {
  }

  /** A prefix of a slice is a slice. */
  lemma PrefixOfSlice(s: string, lo: int, hi: int, m: int)
    requires 0 <= lo <= hi <= |s| && 0 <= m <= hi - lo
    ensures s[lo..hi][..m] == s[lo..lo + m]
  {
  }

  /** A stretch of `s` free of `pat` stays free of it in a slice. */
  lemma NoOccurrenceInSlice(s: string, lo: int, hi: int, pat: string, n: int)
    requires 0 <= lo <= hi <= |s|
    requires forall k :: lo <= k < lo + n ==> !OccursAt(s, pat, k)
    ensures forall k :: 0 <= k < n ==> !OccursAt(s[lo..hi], pat, k)
  {
    forall k | 0 <= k < n && OccursAt(s[lo..hi], pat, k)
      ensures false
    {
      OccursInSlice(s, lo, hi, pat, k);
    }
  }

  /**
    Python's `s.split(sep)[1]`, for a string known to contain `sep`: the text
    between the first occurrence of `sep` and the next one that does not
    overlap it, or the end of `s`.
   */
  function SplitSecond(s: string, sep: string): string
    requires |sep| > 0 && Contains(s, sep)
  {
    var i := Find(s, sep, 0);
    var j := Find(s, sep, i + |sep|);
    s[i + |sep|..if j == -1 then |s| else j]
  }

  /** Python's `sep.join(parts)`. */
  function Join(parts: seq<string>, sep: string): string {
    if |parts| == 0 then ""
    else if |parts| == 1 then parts[0]
    else parts[0] + sep + Join(parts[1..], sep)
  }

  /**
    Python's `s.split(c)` for a one-character separator: the pieces between
    separators, empty pieces included. Joining them back with `c` gives `s`,
    and no piece contains `c`, which determines the split uniquely.
   */
  function SplitChar(s: string, c: char): (parts: seq<string>)
    ensures |parts| >= 1
    ensures forall i :: 0 <= i < |parts| ==> c !in parts[i]
    ensures Join(parts, [c]) == s
    decreases |s|
  {
    var i := Find(s, [c], 0);
    FindChar(s, c);
    if i == -1 then [s]
    else
      var rest := SplitChar(s[i + 1..], c);
      assert ([s[..i]] + rest)[1..] == rest;
      assert s == s[..i] + [c] + s[i + 1..];
      [s[..i]] + rest
  }

  /** Splitting pieces without `c` that were joined with `c` gives the pieces back. */
  lemma {:induction false} SplitCharOfJoin(parts: seq<string>, c: char)
    requires |parts| >= 1
    requires forall i :: 0 <= i < |parts| ==> c !in parts[i]
    ensures SplitChar(Join(parts, [c]), c) == parts
    decreases |parts|
  {
    var s := Join(parts, [c]);
    FindChar(s, c);
    if |parts| > 1 {
      var n := |parts[0]|;
      var rest := Join(parts[1..], [c]);
      assert s == parts[0] + [c] + rest;
      assert s[n] == c;
      var i := Find(s, [c], 0);
      assert forall k :: 0 <= k < n ==> s[k] == parts[0][k];
      assert i == n;
      assert s[i + 1..] == rest;
      SplitCharOfJoin(parts[1..], c);
    }
  }

  /** Number of occurrences of `c` in `s`. */
  function CountChar(s: string, c: char): nat {
    if |s| == 0 then 0 else (if s[0] == c then 1 else 0) + CountChar(s[1..], c)
  }

  /** Python's `s.rstrip(c)` for one character `c`. */
  function TrimEndChar(s: string, c: char): (r: string)
    ensures r <= s
    ensures forall i :: |r| <= i < |s| ==> s[i] == c
    ensures |r| == 0 || r[|r| - 1] != c
  {
    if |s| == 0 || s[|s| - 1] != c then s
    else TrimEndChar(s[..|s| - 1], c)
  }
}
