/** Substring search, overlap search and whitespace trimming on byte strings:
    `std::string::find`, `string_find_partial_stop` and `string_strip`. */
module TextSearch {
  import opened Wrappers

  /** `isspace` in the C locale. */
  predicate IsSpace(c: char) {
    c == ' ' || '\t' <= c <= '\r'
  }

  /** `s` holds nothing but whitespace between `lo` and `hi`. */
  ghost predicate Blank(s: string, lo: nat, hi: nat)
    requires lo <= hi <= |s|
  {
    forall i :: lo <= i < hi ==> IsSpace(s[i])
  }

  /** The first index from `i` on that does not hold whitespace. */
  function SkipSpaces(s: string, i: nat): (r: nat)
    requires i <= |s|
    ensures i <= r <= |s|
    ensures Blank(s, i, r)
    ensures r < |s| ==> !IsSpace(s[r])
    decreases |s| - i
  {
    if i < |s| && IsSpace(s[i]) then SkipSpaces(s, i + 1) else i
  }

  lemma SkipSpacesUnique(s: string, i: nat, r: nat)
    requires i <= r <= |s|
    requires Blank(s, i, r)
    requires r < |s| ==> !IsSpace(s[r])
    ensures SkipSpaces(s, i) == r
  {
  }

  /** A skip that stopped inside `s` stops at the same place on every extension of `s`. */
  lemma SkipSpacesExtends(s: string, t: string, i: nat)
    requires i <= |s| && s <= t
    ensures SkipSpaces(s, i) <= SkipSpaces(t, i)
    ensures SkipSpaces(s, i) < |s| ==> SkipSpaces(t, i) == SkipSpaces(s, i)
  {
    var k := SkipSpaces(s, i);
    if k < |s| {
      SkipSpacesUnique(t, i, k);
    }
  }

  // --- std::string::find -----------------------------------------------------------------

  predicate Occurs(s: string, lit: string, i: int) {
    0 <= i <= |s| - |lit| && s[i..i + |lit|] == lit
  }

  lemma CharOfOccurrence(s: string, lit: string, i: int, k: nat)
    requires k < |lit|
    ensures Occurs(s, lit, i) ==> s[i + k] == lit[k]
  {
    if Occurs(s, lit, i) {
      assert s[i..i + |lit|][k] == s[i + k];
    }
  }

  /** The first occurrence of `lit` at or after `from`. */
  function Find(s: string, lit: string, from: nat): (r: Option<nat>)
    ensures r.Some? ==> from <= r.value <= |s| - |lit| && Occurs(s, lit, r.value)
    ensures r.Some? ==> forall j :: from <= j < r.value ==> !Occurs(s, lit, j)
    ensures r.None? ==> forall j :: from <= j ==> !Occurs(s, lit, j)
    decreases |s| - from
  {
    if from + |lit| > |s| then None
    else if s[from..from + |lit|] == lit then Some(from)
    else Find(s, lit, from + 1)
  }

  lemma OccursExtends(s: string, t: string, lit: string, i: int)
    requires s <= t && i + |lit| <= |s|
    ensures Occurs(s, lit, i) == Occurs(t, lit, i)
  {
    if 0 <= i {
      assert t[i..i + |lit|] == s[i..i + |lit|];
    }
  }

  /** A first occurrence stays the first occurrence on every extension. */
  lemma FindExtends(s: string, t: string, lit: string, from: nat)
    requires s <= t && Find(s, lit, from).Some?
    ensures Find(t, lit, from) == Find(s, lit, from)
  {
    var p := Find(s, lit, from).value;
    forall j | 0 <= j <= p
      ensures Occurs(s, lit, j) == Occurs(t, lit, j)
    {
      OccursExtends(s, t, lit, j);
    }
  }

  // --- string_find_partial_stop ----------------------------------------------------------

  /** The suffix of `s` that starts at `i` is a non-empty prefix of `stop`. */
  predicate Overlap(s: string, stop: string, i: int) {
    0 <= i < |s| && |s| - i <= |stop| && s[i..] == stop[..|s| - i]
  }

  function PartialStopFrom(s: string, stop: string, i: nat): (r: Option<nat>)
    requires i <= |s|
    ensures r.Some? ==> i <= r.value && Overlap(s, stop, r.value)
    ensures r.Some? ==> forall j :: i <= j < r.value ==> !Overlap(s, stop, j)
    ensures r.None? ==> forall j :: i <= j ==> !Overlap(s, stop, j)
    decreases |s| - i
  {
    if i == |s| then None
    else if Overlap(s, stop, i) then Some(i)
    else PartialStopFrom(s, stop, i + 1)
  }

  /** The start of the longest suffix of `s` that is a prefix of `stop`. */
  function PartialStop(s: string, stop: string): (r: Option<nat>)
    ensures r.Some? ==> r.value < |s| && Overlap(s, stop, r.value)
    ensures r.Some? ==> forall j :: j < r.value ==> !Overlap(s, stop, j)
    ensures r.None? ==> forall j :: !Overlap(s, stop, j)
  {
    PartialStopFrom(s, stop, 0)
  }

  lemma LastCharOfOverlap(s: string, stop: string, i: int)
    ensures Overlap(s, stop, i) ==> stop[|s| - i - 1] == s[|s| - 1]
  {
    if Overlap(s, stop, i) {
      assert s[i..][|s| - i - 1] == stop[..|s| - i][|s| - i - 1];
    }
  }

  predicate EndsWith(s: string, suffix: string) {
    |s| >= |suffix| && s[|s| - |suffix|..] == suffix
  }

  /** `string_find_partial_stop`: the descending search, which skips lengths whose last
      character differs from the last character of the text. */
  method FindPartialStop(s: string, stop: string) returns (r: Option<nat>)
    ensures r == PartialStop(s, stop)
    ensures r.Some? ==> Overlap(s, stop, r.value) && forall j :: j < r.value ==> !Overlap(s, stop, j)
    ensures r.None? ==> forall j :: !Overlap(s, stop, j)
  {
    if |s| > 0 && |stop| > 0 {
      var maxLen := if |s| < |stop| then |s| else |stop|;
      var lastChar := s[|s| - 1];
      var len := maxLen;
      while len > 0
        invariant 0 <= len <= maxLen
        invariant forall j :: j < |s| - len ==> !Overlap(s, stop, j)
      {
        if stop[len - 1] == lastChar {
          if EndsWith(s, stop[..len]) {
            assert Overlap(s, stop, |s| - len);
            return Some(|s| - len);
          }
        }
        LastCharOfOverlap(s, stop, |s| - len);
        len := len - 1;
      }
    }
    r := None;
  }

  /** Withholding is enough: if the literal does not occur in `s` from `from` on, then on any
      extension it can only occur where `s` overlaps it, or past the end of `s`. */
  lemma OccurrenceNeedsOverlap(s: string, t: string, lit: string, from: nat, i: int)
    requires s <= t
    requires Find(s, lit, from).None?
    requires from <= i < |s| && Occurs(t, lit, i)
    ensures Overlap(s, lit, i)
  {
    if i + |lit| <= |s| {
      OccursExtends(s, t, lit, i);
      assert false;
    } else {
      assert t[i..i + |lit|][..|s| - i] == t[i..|s|] == s[i..];
    }
  }

  /** An overlap of a longer text, if it begins inside `s`, is already an overlap of `s`. */
  lemma OverlapRestricts(s: string, t: string, lit: string, i: int)
    requires s <= t && i < |s| && Overlap(t, lit, i)
    ensures Overlap(s, lit, i)
  {
    assert s[i..] == t[i..][..|s| - i] == lit[..|t| - i][..|s| - i] == lit[..|s| - i];
  }

  // --- string_strip ----------------------------------------------------------------------

  function StripEnd(s: string, lo: nat, hi: nat): (r: nat)
    requires lo <= hi <= |s|
    ensures lo <= r <= hi
    ensures Blank(s, r, hi)
    ensures lo < r ==> !IsSpace(s[r - 1])
  {
    if lo < hi && IsSpace(s[hi - 1]) then StripEnd(s, lo, hi - 1) else hi
  }

  function Strip(s: string): (r: string)
  {
    var lo := SkipSpaces(s, 0);
    s[lo..StripEnd(s, lo, |s|)]
  }

  method StringStrip(s: string) returns (r: string)
    ensures r == Strip(s)
  {
    var start := 0;
    var end := |s|;
    while start < end && IsSpace(s[start])
      invariant 0 <= start <= end == |s|
      invariant SkipSpaces(s, start) == SkipSpaces(s, 0)
    {
      start := start + 1;
    }
    while end > start && IsSpace(s[end - 1])
      invariant start <= end <= |s|
      invariant StripEnd(s, start, end) == StripEnd(s, start, |s|)
    {
      end := end - 1;
    }
    r := s[start..end];
  }

  /** The stripped text is the only middle part of `s` that is surrounded by whitespace and
      neither starts nor ends with whitespace. */
  lemma StripIsTheTrimmedMiddle(s: string, lo: nat, hi: nat)
    requires lo <= hi <= |s|
    requires Blank(s, 0, lo) && Blank(s, hi, |s|)
    requires lo < hi ==> !IsSpace(s[lo]) && !IsSpace(s[hi - 1])
    ensures Strip(s) == s[lo..hi]
  {
    if lo < hi {
      SkipSpacesUnique(s, 0, lo);
    } else {
      SkipSpacesUnique(s, 0, |s|);
    }
  }

  /** Stripping never takes back text when the input grows. */
  lemma StripExtends(a: string, b: string)
    requires a <= b
    ensures Strip(a) <= Strip(b)
  {
    var lo := SkipSpaces(a, 0);
    if lo < |a| {
      SkipSpacesExtends(a, b, 0);
      var e, e' := StripEnd(a, lo, |a|), StripEnd(b, lo, |b|);
      assert a[lo] == b[lo] && a[..e] == b[..e];
    }
  }
}
