/** `make_gbnf_excluding`: a grammar built from a trie over a sorted list of forbidden strings,
    and the exact language it generates. */
module Excluding {
  import opened Wrappers
  import opened Grammar

  // --- The order of std::sort on strings ---------------------------------------------------------

  predicate Lex(a: string, b: string) {
    a == "" || (b != "" && (a[0] < b[0] || (a[0] == b[0] && Lex(a[1..], b[1..]))))
  }

  ghost predicate Sorted(f: seq<string>) {
    forall i, j :: 0 <= i < j < |f| ==> Lex(f[i], f[j])
  }

  lemma {:induction false} LexTotal(a: string, b: string)
    ensures Lex(a, b) || Lex(b, a)
  {
    if a != "" && b != "" {
      LexTotal(a[1..], b[1..]);
    }
  }

  lemma {:induction false} LexTransitive(a: string, b: string, c: string)
    requires Lex(a, b) && Lex(b, c)
    ensures Lex(a, c)
  {
    if a != "" && a[0] == b[0] == c[0] {
      LexTransitive(a[1..], b[1..], c[1..]);
    }
  }

  /** Strings that agree up to `d` are ordered by what follows. */
  lemma {:induction false} LexAfterPrefix(a: string, b: string, u: string)
    requires u <= a && u <= b && Lex(a, b) && |a| > |u|
    ensures |b| > |u| && a[|u|] <= b[|u|]
  {
    if u != "" {
      assert u[1..] <= a[1..] && u[1..] <= b[1..];
      LexAfterPrefix(a[1..], b[1..], u[1..]);
    }
  }

  lemma InsertedSorted(s: seq<string>, k: nat, x: string)
    requires Sorted(s) && k <= |s| && (forall j :: 0 <= j < k ==> Lex(s[j], x)) && (k < |s| ==> !Lex(s[k], x))
    ensures Sorted(s[..k] + [x] + s[k..])
  {
    forall j | k <= j < |s|
      ensures Lex(x, s[j])
    {
      LexTotal(s[k], x);
      if k < j {
        LexTransitive(x, s[k], s[j]);
      }
    }
    LexTotal(x, x);
    hide Lex;
    var r := s[..k] + [x] + s[k..];
    forall i, j | 0 <= i < j < |r|
      ensures Lex(r[i], r[j])
    {
      assert r[i] == (if i < k then s[i] else if i == k then x else s[i - 1]);
      assert r[j] == (if j < k then s[j] else if j == k then x else s[j - 1]);
    }
  }

  lemma InsertedMultiset(s: seq<string>, k: nat, x: string)
    requires k <= |s|
    ensures multiset(s[..k] + [x] + s[k..]) == multiset(s) + multiset{x}
  {
    assert s == s[..k] + s[k..];
  }

  method SortStrings(f: seq<string>) returns (s: seq<string>)
    ensures Sorted(s) && multiset(s) == multiset(f)
  {
    s := [];
    assert Sorted(s);
    hide Lex, Sorted;
    for i := 0 to |f|
      invariant Sorted(s) && multiset(s) == multiset(f[..i])
    {
      var k := 0;
      while k < |s| && Lex(s[k], f[i])
        invariant 0 <= k <= |s|
        invariant forall j :: 0 <= j < k ==> Lex(s[j], f[i])
      {
        k := k + 1;
      }
      InsertedSorted(s, k, f[i]);
      InsertedMultiset(s, k, f[i]);
      assert f[..i + 1] == f[..i] + [f[i]];
      s := s[..k] + [f[i]] + s[k..];
    }
    assert f[..|f|] == f;
  }

  // --- The scanner the grammar is measured against --------------------------------------------------

  /** Some forbidden string starts with `u`. */
  ghost predicate Touches(f: seq<string>, u: string) {
    exists s :: s in f && u <= s
  }

  /** Some forbidden string starts with `u` and goes on. */
  ghost predicate Live(f: seq<string>, u: string) {
    exists s :: s in f && u < s
  }

  /** Follow the trie of forbidden strings, restart at the root after every character that does
      not fit, and stop dead when a forbidden string that no other one continues is complete. */
  ghost function Scan(f: seq<string>, u: string, w: string): Option<string>
    decreases |w|
  {
    if w == "" then Some(u)
    else
      var v := u + [w[0]];
      if !Touches(f, v) then Scan(f, "", w[1..])
      else if Live(f, v) then Scan(f, v, w[1..])
      else None
  }

  ghost predicate Accepts(f: seq<string>, w: string) {
    Scan(f, "", w) == Some("")
  }

  /** From the state `u`, the scanner is back at the root exactly when `w` ends. */
  ghost predicate Chunk(f: seq<string>, u: string, w: string)
    decreases |w|
  {
    w != "" &&
    var v := u + [w[0]];
    if !Touches(f, v) then |w| == 1
    else Live(f, v) && Chunk(f, v, w[1..])
  }

  // --- build_expr ------------------------------------------------------------------------------

  /** The range `lo..hi` of the sorted list continues with `c`. */
  datatype Child = Child(c: char, lo: nat, hi: nat)

  predicate LongEnough(f: seq<string>, l: nat, r: nat, depth: nat) {
    l <= r <= |f| && forall i :: l <= i < r ==> |f[i]| >= depth
  }

  function RunEnd(f: seq<string>, j: nat, r: nat, depth: nat, c: char): (e: nat)
    requires j <= r <= |f|
    ensures j <= e <= r
    ensures forall i :: j <= i < e ==> |f[i]| > depth && f[i][depth] == c
    ensures e < r ==> !(|f[e]| > depth && f[e][depth] == c)
    decreases r - j
  {
    if j < r && |f[j]| > depth && f[j][depth] == c then RunEnd(f, j + 1, r, depth, c) else j
  }

  function Children(f: seq<string>, i: nat, r: nat, depth: nat): (cs: seq<Child>)
    requires LongEnough(f, i, r, depth)
    ensures forall ch :: ch in cs ==>
      i <= ch.lo < ch.hi <= r && (forall k :: ch.lo <= k < ch.hi ==> |f[k]| > depth && f[k][depth] == ch.c)
    decreases r - i
  {
    if i == r then []
    else if |f[i]| == depth then Children(f, i + 1, r, depth)
    else
      var j := RunEnd(f, i, r, depth, f[i][depth]);
      [Child(f[i][depth], i, j)] + Children(f, j, r, depth)
  }

  lemma ChildrenStep(f: seq<string>, i: nat, r: nat, depth: nat)
    requires LongEnough(f, i, r, depth) && i < r
    ensures |f[i]| == depth ==> LongEnough(f, i + 1, r, depth) && Children(f, i, r, depth) == Children(f, i + 1, r, depth)
    ensures |f[i]| > depth ==>
      var j := RunEnd(f, i, r, depth, f[i][depth]);
      i < j <= r && LongEnough(f, j, r, depth) && Children(f, i, r, depth) == [Child(f[i][depth], i, j)] + Children(f, j, r, depth)
  {
  }

  /** One run of strings that continue with the same character. */
  method ScanRun(f: seq<string>, i: nat, r: nat, depth: nat, c: char) returns (j: nat)
    requires i <= r <= |f|
    ensures j == RunEnd(f, i, r, depth, c)
  {
    j := i;
    while j < r && |f[j]| > depth && f[j][depth] == c
      invariant i <= j <= r
      invariant RunEnd(f, j, r, depth, c) == RunEnd(f, i, r, depth, c)
    {
      j := j + 1;
    }
  }

  method ScanChildren(f: seq<string>, l: nat, r: nat, depth: nat) returns (children: seq<Child>)
    requires LongEnough(f, l, r, depth)
    ensures children == Children(f, l, r, depth)
  {
    children := [];
    var i := l;
    hide Children, RunEnd;
    while i < r
      invariant l <= i <= r && LongEnough(f, i, r, depth)
      invariant Children(f, l, r, depth) == children + Children(f, i, r, depth)
    {
      ChildrenStep(f, i, r, depth);
      if |f[i]| == depth {
        i := i + 1;
        continue;
      }
      var c := f[i][depth];
      var j := ScanRun(f, i, r, depth, c);
      assert children + ([Child(c, i, j)] + Children(f, j, r, depth)) == children + [Child(c, i, j)] + Children(f, j, r, depth);
      children := children + [Child(c, i, j)];
      i := j;
    }
    NoChildren(f, r, depth);
  }

  lemma NoChildren(f: seq<string>, r: nat, depth: nat)
    requires LongEnough(f, r, r, depth)
    ensures Children(f, r, r, depth) == []
  {
  }

  function MaxLen(f: seq<string>): (n: nat)
    ensures forall s :: s in f ==> |s| <= n
  {
    if f == [] then 0
    else if |f[0]| > MaxLen(f[1..]) then |f[0]| else MaxLen(f[1..])
  }

  /** The expression for a node of the trie; `None` is the empty text of a node without children. */
  function Expr(f: seq<string>, l: nat, r: nat, depth: nat): Option<Rx<char>>
    requires LongEnough(f, l, r, depth)
    decreases MaxLen(f) - depth, 1, 0
  {
    var children := Children(f, l, r, depth);
    if children == [] then None
    else
      assert |f[children[0].lo]| > depth && f[children[0].lo] in f;
      Some(OneOf([NotIn(set ch | ch in children :: ch.c)] + Branches(f, depth, children)))
  }

  predicate GoodChild(f: seq<string>, depth: nat, ch: Child) {
    ch.lo < ch.hi <= |f| && forall k :: ch.lo <= k < ch.hi ==> |f[k]| > depth
  }

  /** The alternative for one child, unless its expression is the empty text. */
  function Branch(f: seq<string>, depth: nat, ch: Child): seq<Rx<char>>
    requires GoodChild(f, depth, ch)
    decreases MaxLen(f) - depth, 0, 0
  {
    assert |f[ch.lo]| > depth && f[ch.lo] in f;
    match Expr(f, ch.lo, ch.hi, depth + 1)
    case None => []
    case Some(below) => [Cat(Literal(ch.c), below)]
  }

  function Branches(f: seq<string>, depth: nat, children: seq<Child>): seq<Rx<char>>
    requires forall ch :: ch in children ==> GoodChild(f, depth, ch)
    decreases MaxLen(f) - depth, 0, |children| + 1
  {
    if children == [] then []
    else Branch(f, depth, children[0]) + Branches(f, depth, children[1..])
  }

  method BuildExpr(f: seq<string>, l: nat, r: nat, depth: nat) returns (e: Option<Rx<char>>)
    requires LongEnough(f, l, r, depth)
    ensures e == Expr(f, l, r, depth)
    decreases MaxLen(f) - depth, 1
  {
    hide RunEnd, MaxLen;
    var children := ScanChildren(f, l, r, depth);
    if children == [] {
      return None;
    }
    assert |f[children[0].lo]| > depth && f[children[0].lo] in f;
    var branches := BuildBranches(f, depth, children);
    e := Some(OneOf([NotIn(set ch | ch in children :: ch.c)] + branches));
  }

  method BuildBranches(f: seq<string>, depth: nat, children: seq<Child>) returns (alts: seq<Rx<char>>)
    requires forall ch :: ch in children ==> GoodChild(f, depth, ch)
    requires depth < MaxLen(f)
    ensures alts == Branches(f, depth, children)
    decreases MaxLen(f) - depth, 0
  {
    hide RunEnd, MaxLen, Children, Expr, LongEnough;
    alts := [];
    var i := 0;
    assert children[0..] == children;
    while i < |children|
      invariant 0 <= i <= |children|
      invariant alts + Branches(f, depth, children[i..]) == Branches(f, depth, children)
    {
      var branch := BuildBranch(f, depth, children[i]);
      assert children[i..][0] == children[i] && children[i..][1..] == children[i + 1..];
      assert alts + Branches(f, depth, children[i..]) == (alts + branch) + Branches(f, depth, children[i + 1..]);
      alts := alts + branch;
      i := i + 1;
    }
  }

  method BuildBranch(f: seq<string>, depth: nat, ch: Child) returns (alts: seq<Rx<char>>)
    requires GoodChild(f, depth, ch) && depth < MaxLen(f)
    ensures alts == Branch(f, depth, ch)
    decreases MaxLen(f) - depth, 0, 0
  {
    var below := BuildExpr(f, ch.lo, ch.hi, depth + 1);
    alts := if below.None? then [] else [Cat(Literal(ch.c), below.value)];
  }

  // --- The children partition a range by the next character --------------------------------------

  /** The range `l..r` holds exactly the strings that start with `u`. */
  ghost predicate Exact(f: seq<string>, l: nat, r: nat, u: string) {
    l <= r <= |f| && forall k :: 0 <= k < |f| ==> (l <= k < r <==> u <= f[k])
  }

  /** The strings before `i` continue with smaller characters than those from `i` on. */
  ghost predicate Boundary(f: seq<string>, l: nat, i: nat, r: nat, depth: nat)
    requires r <= |f|
  {
    forall a, b :: l <= a < i <= b < r && |f[a]| > depth && |f[b]| > depth ==> f[a][depth] < f[b][depth]
  }

  ghost predicate Covers(children: seq<Child>, c: char) {
    exists ch :: ch in children && ch.c == c
  }

  lemma NextCharOrdered(f: seq<string>, l: nat, r: nat, u: string, a: nat, b: nat)
    requires Sorted(f) && Exact(f, l, r, u) && l <= a <= b < r && |f[a]| > |u|
    ensures |f[b]| > |u| && f[a][|u|] <= f[b][|u|]
  {
    if a < b {
      LexAfterPrefix(f[a], f[b], u);
    }
  }

  lemma StartsWith(u: string, c: char, s: string)
    ensures u + [c] <= s <==> u <= s && |s| > |u| && s[|u|] == c
  {
    if u <= s && |s| > |u| && s[|u|] == c {
      assert s[..|u| + 1] == u + [c];
    }
    if u + [c] <= s {
      assert (u + [c])[|u|] == s[|u|] && s[..|u|] == (u + [c])[..|u|];
    }
  }

  /** The run that starts at `i` is one whole child, and the rest starts behind a boundary. */
  lemma RunIsChild(f: seq<string>, l: nat, r: nat, u: string, i: nat)
    requires Sorted(f) && Exact(f, l, r, u) && l <= i < r && Boundary(f, l, i, r, |u|) && |f[i]| > |u|
    ensures var c := f[i][|u|]; var j := RunEnd(f, i, r, |u|, c);
            i < j && Exact(f, i, j, u + [c]) && Boundary(f, l, j, r, |u|)
  {
    var d := |u|;
    var c := f[i][d];
    var j := RunEnd(f, i, r, d, c);
    forall b | j <= b < r
      ensures |f[b]| > d && f[b][d] > c
    {
      NextCharOrdered(f, l, r, u, i, j);
      NextCharOrdered(f, l, r, u, j, b);
    }
    forall k | 0 <= k < |f|
      ensures i <= k < j <==> u + [c] <= f[k]
    {
      StartsWith(u, c, f[k]);
    }
  }

  lemma ExactLong(f: seq<string>, l: nat, r: nat, u: string, i: nat)
    requires Exact(f, l, r, u) && l <= i <= r
    ensures LongEnough(f, i, r, |u|)
  {
  }

  /** Every next character of the range from `i` on is covered. */
  ghost predicate CoveredFrom(f: seq<string>, i: nat, r: nat, d: nat, children: seq<Child>)
    requires r <= |f|
  {
    forall k :: i <= k < r && |f[k]| > d ==> Covers(children, f[k][d])
  }

  ghost predicate ExactChildren(f: seq<string>, u: string, children: seq<Child>) {
    forall ch :: ch in children ==> Exact(f, ch.lo, ch.hi, u + [ch.c])
  }

  lemma CoverRun(f: seq<string>, i: nat, r: nat, d: nat, rest: seq<Child>)
    requires i < r <= |f| && |f[i]| > d
    requires var j := RunEnd(f, i, r, d, f[i][d]); CoveredFrom(f, j, r, d, rest)
    ensures CoveredFrom(f, i, r, d, [Child(f[i][d], i, RunEnd(f, i, r, d, f[i][d]))] + rest)
  {
    var j := RunEnd(f, i, r, d, f[i][d]);
    var all := [Child(f[i][d], i, j)] + rest;
    hide RunEnd;
    forall k | i <= k < r && |f[k]| > d
      ensures Covers(all, f[k][d])
    {
      if k < j {
        assert all[0].c == f[k][d];
      } else {
        var ch :| ch in rest && ch.c == f[k][d];
        assert ch in all;
      }
    }
  }

  lemma ExactFirst(f: seq<string>, u: string, ch: Child, rest: seq<Child>)
    requires Exact(f, ch.lo, ch.hi, u + [ch.c]) && ExactChildren(f, u, rest)
    ensures ExactChildren(f, u, [ch] + rest)
  {
    hide Exact;
  }

  lemma LongAt(f: seq<string>, i: nat, r: nat, d: nat)
    requires LongEnough(f, i, r, d) && i < r
    ensures r <= |f| && |f[i]| >= d
  {
  }

  lemma NothingCovered(f: seq<string>, r: nat, u: string)
    requires LongEnough(f, r, r, |u|)
    ensures ExactChildren(f, u, Children(f, r, r, |u|)) && CoveredFrom(f, r, r, |u|, Children(f, r, r, |u|))
  {
  }

  lemma CoverSkipped(f: seq<string>, i: nat, r: nat, d: nat, children: seq<Child>)
    requires i < r <= |f| && |f[i]| == d && CoveredFrom(f, i + 1, r, d, children)
    ensures CoveredFrom(f, i, r, d, children)
  {
    hide Covers;
  }

  lemma {:induction false} ChildrenPartition(f: seq<string>, l: nat, r: nat, u: string, i: nat)
    requires Sorted(f) && Exact(f, l, r, u) && l <= i <= r && Boundary(f, l, i, r, |u|)
    ensures LongEnough(f, i, r, |u|)
    ensures ExactChildren(f, u, Children(f, i, r, |u|)) && CoveredFrom(f, i, r, |u|, Children(f, i, r, |u|))
    decreases r - i
  {
    hide Exact, Sorted, ExactChildren, CoveredFrom, LongEnough, Children;
    ExactLong(f, l, r, u, i);
    if i == r {
      NothingCovered(f, r, u);
    } else {
      LongAt(f, i, r, |u|);
      ChildrenStep(f, i, r, |u|);
      if |f[i]| == |u| {
        ChildrenPartition(f, l, r, u, i + 1);
        CoverSkipped(f, i, r, |u|, Children(f, i + 1, r, |u|));
      } else {
        var c := f[i][|u|];
        var j := RunEnd(f, i, r, |u|, c);
        RunIsChild(f, l, r, u, i);
        hide *;
        ChildrenPartition(f, l, r, u, j);
        CoverRun(f, i, r, |u|, Children(f, j, r, |u|));
        ExactFirst(f, u, Child(c, i, j), Children(f, j, r, |u|));
      }
    }
  }

  /** The class of the first alternative excludes exactly the characters that stay in the trie. */
  lemma {:induction false} ClassIsNextChars(f: seq<string>, l: nat, r: nat, u: string, c: char)
    requires Sorted(f) && Exact(f, l, r, u)
    ensures LongEnough(f, l, r, |u|)
    ensures Covers(Children(f, l, r, |u|), c) <==> Touches(f, u + [c])
    ensures Children(f, l, r, |u|) != [] <==> Live(f, u)
  {
    ChildrenPartition(f, l, r, u, l);
    var children := Children(f, l, r, |u|);
    if Covers(children, c) {
      var ch :| ch in children && ch.c == c;
      assert f[ch.lo] in f && u + [c] <= f[ch.lo];
    }
    if Touches(f, u + [c]) {
      var s :| s in f && u + [c] <= s;
      var k :| 0 <= k < |f| && f[k] == s;
      StartsWith(u, c, s);
    }
    if children != [] {
      var ch := children[0];
      assert u + [ch.c] <= f[ch.lo] && f[ch.lo] in f;
      StartsWith(u, ch.c, f[ch.lo]);
      assert u < f[ch.lo];
    }
    if Live(f, u) {
      var s :| s in f && u < s;
      var k :| 0 <= k < |f| && f[k] == s;
      assert Covers(children, f[k][|u|]);
    }
  }

  // --- What the expression of a node generates -----------------------------------------------------

  lemma {:induction false} NodeLanguage(f: seq<string>, l: nat, r: nat, u: string, w: string)
    requires Sorted(f) && Exact(f, l, r, u)
    ensures LongEnough(f, l, r, |u|)
    ensures Expr(f, l, r, |u|).Some? <==> Live(f, u)
    ensures Live(f, u) ==> (In(w, Expr(f, l, r, |u|).value) <==> Chunk(f, u, w))
    decreases |w|, 2, 0
  {
    hide Children, In, Lex, Touches, Exact, Covers;
    ClassIsNextChars(f, l, r, u, if w == "" then 'x' else w[0]);
    ChildrenPartition(f, l, r, u, l);
    var children := Children(f, l, r, |u|);
    if children != [] {
      var cls: Rx<char> := NotIn(set ch | ch in children :: ch.c);
      var branches := Branches(f, |u|, children);
      InOneOfConcat(w, [cls], branches);
      InOneOfSingle(w, cls);
      BranchesLanguage(f, u, children, w);
      ClassLanguage(children, w);
    }
  }

  lemma ClassLanguage(children: seq<Child>, w: string)
    ensures In(w, NotIn(set ch | ch in children :: ch.c)) <==> |w| == 1 && !Covers(children, w[0])
  {
  }

  lemma {:induction false} BranchesLanguage(f: seq<string>, u: string, children: seq<Child>, w: string)
    requires Sorted(f) && forall ch :: ch in children ==> Exact(f, ch.lo, ch.hi, u + [ch.c]) && GoodChild(f, |u|, ch)
    ensures In(w, OneOf(Branches(f, |u|, children)))
       <==> w != "" && Covers(children, w[0]) && Live(f, u + [w[0]]) && Chunk(f, u + [w[0]], w[1..])
    decreases |w|, 1, |children|
  {
    if children != [] {
      hide In, Lex, Exact, Chunk, Live, Branch;
      BranchLanguage(f, u, children[0], w);
      BranchesLanguage(f, u, children[1..], w);
      InOneOfConcat(w, Branch(f, |u|, children[0]), Branches(f, |u|, children[1..]));
      assert children == [children[0]] + children[1..];
    }
  }

  lemma BranchLanguage(f: seq<string>, u: string, ch: Child, w: string)
    requires Sorted(f) && Exact(f, ch.lo, ch.hi, u + [ch.c]) && GoodChild(f, |u|, ch)
    ensures In(w, OneOf(Branch(f, |u|, ch)))
       <==> w != "" && ch.c == w[0] && Live(f, u + [w[0]]) && Chunk(f, u + [w[0]], w[1..])
    decreases |w|, 0, 0
  {
    hide Lex, Exact, Chunk, Live;
    if w != "" {
      NodeLanguage(f, ch.lo, ch.hi, u + [ch.c], w[1..]);
      match Expr(f, ch.lo, ch.hi, |u| + 1)
      case None =>
      case Some(below) =>
        InOneOfSingle(w, Cat(Literal(ch.c), below));
        InLiteralCat(w, ch.c, below);
    } else {
      match Expr(f, ch.lo, ch.hi, |u| + 1)
      case None =>
      case Some(below) =>
        InOneOfSingle(w, Cat(Literal(ch.c), below));
        InLiteralCat(w, ch.c, below);
    }
  }

  // --- Repetition: chunks make up what the scanner accepts -----------------------------------------

  lemma {:induction false} ChunkThenRest(f: seq<string>, u: string, a: string, b: string)
    requires Chunk(f, u, a)
    ensures Scan(f, u, a + b) == Scan(f, "", b)
    decreases |a|
  {
    hide Touches, Live;
    var v := u + [a[0]];
    assert (a + b)[1..] == a[1..] + b;
    if Touches(f, v) {
      ChunkThenRest(f, v, a[1..], b);
    } else {
      assert a[1..] + b == b;
    }
  }

  /** A scan from `u` that ends at the root first returns to the root after some chunk. */
  lemma {:induction false} FirstReturn(f: seq<string>, u: string, w: string) returns (k: nat)
    requires Scan(f, u, w) == Some("") && w != ""
    ensures 0 < k <= |w| && Chunk(f, u, w[..k]) && Scan(f, "", w[k..]) == Some("")
    decreases |w|
  {
    hide Touches, Live;
    var v := u + [w[0]];
    if Touches(f, v) {
      var k' := FirstReturn(f, v, w[1..]);
      k := k' + 1;
      assert w[..k][1..] == w[1..][..k'] && w[1..][k'..] == w[k..];
    } else {
      k := 1;
    }
  }

  lemma {:induction false} StarLanguage(f: seq<string>, e: Rx<char>, w: string)
    requires forall v :: In(v, e) <==> Chunk(f, "", v)
    ensures In(w, Star(e)) <==> Accepts(f, w)
    decreases |w|
  {
    hide *;
    if w == "" {
      NothingAccepted(f);
      StarOfNothing(e);
    } else {
      if In(w, Star(e)) {
        var k := StarFirst(e, w);
        StarLanguage(f, e, w[k..]);
        AcceptsJoin(f, w[..k], w[k..]);
        assert w[..k] + w[k..] == w;
      }
      if Accepts(f, w) {
        var k := FirstChunk(f, w);
        StarLanguage(f, e, w[k..]);
        StarJoin(e, w, k);
      }
    }
  }

  lemma AcceptsJoin(f: seq<string>, chunk: string, rest: string)
    requires Chunk(f, "", chunk) && Accepts(f, rest)
    ensures Accepts(f, chunk + rest)
  {
    ChunkThenRest(f, "", chunk, rest);
  }

  lemma NothingAccepted(f: seq<string>)
    ensures Accepts(f, "")
  {
  }

  lemma FirstChunk(f: seq<string>, w: string) returns (k: nat)
    requires w != "" && Accepts(f, w)
    ensures 0 < k <= |w| && Chunk(f, "", w[..k]) && Accepts(f, w[k..])
  {
    k := FirstReturn(f, "", w);
  }

  ghost predicate SomeNonEmpty(f: seq<string>) {
    exists s :: s in f && s != ""
  }

  /** The scanner only asks which strings are forbidden, not how often or in which order. */
  lemma {:induction false} ScanOfMembers(f: seq<string>, g: seq<string>, u: string, w: string)
    requires forall s :: s in f <==> s in g
    ensures Scan(f, u, w) == Scan(g, u, w)
    decreases |w|
  {
    if w != "" {
      var v := u + [w[0]];
      assert Touches(f, v) == Touches(g, v) && Live(f, v) == Live(g, v);
      ScanOfMembers(f, g, v, w[1..]);
      ScanOfMembers(f, g, "", w[1..]);
    }
  }

  /** `make_gbnf_excluding`: the grammar generates exactly what the scanner accepts, for any list
      with a non-empty string in it, whatever prefixes and duplicates it holds. */
  method MakeGbnfExcluding(forbids: seq<string>) returns (rx: Rx<char>)
    ensures forbids == [] ==> forall w :: In(w, rx)
    ensures SomeNonEmpty(forbids) ==> forall w :: In(w, rx) <==> Accepts(forbids, w)
  {
    if forbids == [] {
      rx := Star(NotIn({}));
      forall w: string
        ensures In(w, rx)
      {
        AnyString(w);
      }
      return;
    }
    var sorted := SortStrings(forbids);
    var expr := BuildExpr(sorted, 0, |sorted|, 0);
    if expr.None? {
      expr := Some(NotIn(set s | s in sorted && s != "" :: s[0]));
    }
    rx := Star(expr.value);
    if SomeNonEmpty(forbids) {
      SameMembers(forbids, sorted);
      assert Live(sorted, "") by {
        var s :| s in forbids && s != "";
        assert s in sorted && "" < s;
      }
      forall v
        ensures In(v, expr.value) <==> Chunk(sorted, "", v)
      {
        NodeLanguage(sorted, 0, |sorted|, "", v);
      }
      forall w
        ensures In(w, rx) <==> Accepts(forbids, w)
      {
        StarLanguage(sorted, expr.value, w);
        ScanOfMembers(forbids, sorted, "", w);
      }
    }
  }

  lemma SameMembers(f: seq<string>, g: seq<string>)
    requires multiset(f) == multiset(g)
    ensures forall s :: s in f <==> s in g
  {
    forall s
      ensures s in f <==> s in g
    {
      assert s in f <==> s in multiset(f);
      assert s in g <==> s in multiset(g);
    }
  }

  lemma {:induction false} AnyString(w: string)
    ensures In(w, Star(NotIn({})))
    decreases |w|
  {
    if w != "" {
      var any: Rx<char> := NotIn({});
      AnyString(w[1..]);
      assert In(w[..1], any) && In(w[1..], Star(any));
    }
  }
}
