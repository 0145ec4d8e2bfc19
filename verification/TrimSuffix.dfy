/** The suffix trimming of the XML-style tool-call parser: text that may be the beginning of a
    tag is cut off before the content is reported. */
module TrimSuffix {
  import opened TextSearch

  ghost predicate OverlapsAny(s: string, patterns: seq<string>, i: int) {
    exists k :: 0 <= k < |patterns| && Overlap(s, patterns[k], i)
  }

  /** `cut` is the first position from where the rest of `s` begins some pattern, or the end. */
  ghost predicate FirstOverlap(s: string, patterns: seq<string>, cut: int) {
    && 0 <= cut <= |s|
    && (cut < |s| ==> OverlapsAny(s, patterns, cut))
    && forall i :: 0 <= i < cut ==> !OverlapsAny(s, patterns, i)
  }

  lemma OverlapIsCompare(s: string, pattern: string, i: nat)
    requires i < |s| && |s| - i <= |pattern|
    ensures Overlap(s, pattern, i) == (s[i..] == pattern[..|s| - i])
  {
  }

  lemma OneMore(s: string, patterns: seq<string>, n: nat, i: int)
    requires n < |patterns|
    ensures OverlapsAny(s, patterns[..n + 1], i) <==> OverlapsAny(s, patterns[..n], i) || Overlap(s, patterns[n], i)
  {
    assert forall k :: 0 <= k < n ==> patterns[..n + 1][k] == patterns[..n][k];
    assert patterns[..n + 1][n] == patterns[n];
  }

  /** The inner scan over one pattern. */
  method ScanPattern(content: string, pattern: string, bestSoFar: nat) returns (best: nat)
    requires bestSoFar <= |content|
    ensures best <= bestSoFar
    ensures best == bestSoFar || Overlap(content, pattern, best)
    ensures forall i :: 0 <= i < best ==> !Overlap(content, pattern, i)
  {
    best := bestSoFar;
    if |pattern| == 0 {
      return;
    }
    var i := |content| - if |pattern| < |content| then |pattern| else |content|;
    while i < |content|
      invariant 0 <= i <= |content|
      invariant best <= bestSoFar
      invariant best == bestSoFar || Overlap(content, pattern, best)
      invariant i + |pattern| >= |content|
      invariant forall j :: 0 <= j < i && j < best ==> !Overlap(content, pattern, j)
    {
      OverlapIsCompare(content, pattern, i);
      if content[i..] == pattern[..|content| - i] && best > i {
        best := i;
      }
      i := i + 1;
    }
  }

  /** `trim_suffix`: the content up to the first position whose rest begins a pattern. */
  method Trim(content: string, patterns: seq<string>) returns (r: string)
    ensures r <= content && FirstOverlap(content, patterns, |r|)
  {
    var best, n := |content|, 0;
    while n < |patterns|
      invariant 0 <= n <= |patterns|
      invariant FirstOverlap(content, patterns[..n], best)
    {
      var next := ScanPattern(content, patterns[n], best);
      ScannedOne(content, patterns, n, best, next);
      best := next;
      n := n + 1;
    }
    assert patterns[..|patterns|] == patterns;
    r := if |content| > best then content[..best] else content;
  }

  lemma ScannedOne(s: string, patterns: seq<string>, n: nat, best: nat, next: nat)
    requires n < |patterns| && FirstOverlap(s, patterns[..n], best) && next <= best
    requires next == best || Overlap(s, patterns[n], next)
    requires forall i :: 0 <= i < next ==> !Overlap(s, patterns[n], i)
    ensures FirstOverlap(s, patterns[..n + 1], next)
  {
    hide Overlap, OverlapsAny;
    forall i {:trigger OverlapsAny(s, patterns[..n + 1], i)}
      ensures OverlapsAny(s, patterns[..n + 1], i) <==> OverlapsAny(s, patterns[..n], i) || Overlap(s, patterns[n], i)
    {
      OneMore(s, patterns, n, i);
    }
  }

  lemma AnyShrinks(s: string, t: string, patterns: seq<string>, i: nat)
    requires s <= t
    ensures i < |s| && OverlapsAny(t, patterns, i) ==> OverlapsAny(s, patterns, i)
  {
    if i < |s| && OverlapsAny(t, patterns, i) {
      var k :| 0 <= k < |patterns| && Overlap(t, patterns[k], i);
      OverlapRestricts(s, t, patterns[k], i);
    }
  }

  /** Trimmed content only grows: what was reported for a prefix is reported for every extension. */
  lemma TrimNeverRetracts(s: string, t: string, patterns: seq<string>, a: nat, b: nat)
    requires s <= t && FirstOverlap(s, patterns, a) && FirstOverlap(t, patterns, b)
    ensures a <= b && s[..a] <= t[..b]
  {
    AnyShrinks(s, t, patterns, b);
  }

  /** Enough is cut and nothing is cut in vain: a tag that runs past the end of the content starts
      at or behind the cut, and if anything is cut, some continuation completes a tag there. */
  lemma CutIsExact(s: string, patterns: seq<string>, cut: nat)
    requires FirstOverlap(s, patterns, cut)
    ensures forall t, k, i :: s <= t && 0 <= k < |patterns| && Occurs(t, patterns[k], i) && i < |s| <= i + |patterns[k]| ==> cut <= i
    ensures cut < |s| ==> exists t, k :: s <= t && 0 <= k < |patterns| && Occurs(t, patterns[k], cut)
  {
    forall t, k, i | s <= t && 0 <= k < |patterns| && Occurs(t, patterns[k], i) && i < |s| <= i + |patterns[k]|
      ensures cut <= i
    {
      OccurrenceOverlaps(s, t, patterns[k], i);
      assert OverlapsAny(s, patterns, i);
    }
    if cut < |s| {
      var k :| 0 <= k < |patterns| && Overlap(s, patterns[k], cut);
      var p := patterns[k];
      var t := s + p[|s| - cut..];
      assert t[cut..cut + |p|] == s[cut..] + p[|s| - cut..] == p[..|s| - cut] + p[|s| - cut..] == p;
      assert s <= t && Occurs(t, patterns[k], cut);
    }
  }

  lemma OccurrenceOverlaps(s: string, t: string, pattern: string, i: nat)
    requires s <= t && Occurs(t, pattern, i) && i < |s| <= i + |pattern|
    ensures Overlap(s, pattern, i)
  {
    assert t[i..i + |pattern|][..|s| - i] == s[i..];
  }
}
