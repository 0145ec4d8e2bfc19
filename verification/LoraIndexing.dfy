/** Indexing low-rank tensors, against the same on dense products. */
module LoraIndexing {
  import opened Wrappers
  import opened Tensors
  import opened Lora

  // --- Indexing a dense tensor -----------------------------------------------------------------------------

  /** An integer, which drops its dimension, or a slice with step one. */
  datatype Sel = Pick(i: int) | Slice(lo: nat, hi: nat) | Full

  predicate InRange(sel: Sel, d: nat) {
    sel.Pick? ==> 0 <= sel.i + d && sel.i < d
  }

  /** Where a slice begins in a dimension of size `d`. */
  function First(sel: Sel, d: nat): nat {
    match sel
    case Pick(i) => if i < 0 && i + d >= 0 then i + d else if i < 0 then 0 else i
    case Slice(lo, _) => if lo < d then lo else d
    case Full => 0
  }

  function Count(sel: Sel, d: nat): nat
    requires !sel.Pick?
  {
    match sel
    case Slice(lo, hi) => var end := if hi < d then hi else d; if First(sel, d) < end then end - First(sel, d) else 0
    case Full => d
  }

  function SelShape(sels: seq<Sel>, shape: Shape): Shape
    requires |sels| == |shape|
  {
    if sels == [] then []
    else
      var n := |sels| - 1;
      SelShape(sels[..n], shape[..n]) + if sels[n].Pick? then [] else [Count(sels[n], shape[n])]
  }

  /** The index before the selection, from the index behind it. */
  function Source(sels: seq<Sel>, shape: Shape, idx: Index): (src: Index)
    requires |sels| == |shape|
    ensures |src| == |sels|
  {
    if sels == [] then []
    else
      var n := |sels| - 1;
      if sels[n].Pick? then Source(sels[..n], shape[..n], idx) + [First(sels[n], shape[n])]
      else if idx == [] then Source(sels[..n], shape[..n], []) + [0]
      else Source(sels[..n], shape[..n], idx[..|idx| - 1]) + [First(sels[n], shape[n]) + idx[|idx| - 1]]
  }

  predicate AllInRange(sels: seq<Sel>, shape: Shape)
    requires |sels| <= |shape|
  {
    forall i :: 0 <= i < |sels| ==> InRange(sels[i], shape[i])
  }

  function Padded(sels: seq<Sel>, n: nat): (r: seq<Sel>)
    requires |sels| <= n
    ensures |r| == n && r[..|sels|] == sels && forall i :: |sels| <= i < n ==> r[i] == Full
  {
    sels + seq(n - |sels|, _ => Full)
  }

  /** `t[sels]` with missing selections taken as full slices. */
  function Indexed(t: Tensor, sels: seq<Sel>): Result<Tensor, Error> {
    if |sels| > |t.shape| then Err(IndexOutOfRange)
    else
      var all := Padded(sels, |t.shape|);
      if !AllInRange(all, t.shape) then Err(IndexOutOfRange)
      else Ok(Selected(t, all))
  }

  function Selected(t: Tensor, sels: seq<Sel>): Tensor
    requires |sels| == |t.shape|
  {
    Tensor(SelShape(sels, t.shape), idx => t.at(Source(sels, t.shape, idx)))
  }

  lemma {:induction false} ShapeAppend(sels: seq<Sel>, shape: Shape, sel: Sel, d: nat)
    requires |sels| == |shape| && !sel.Pick?
    ensures SelShape(sels + [sel], shape + [d]) == SelShape(sels, shape) + [Count(sel, d)]
  {
    hide Count;
    FrontOf(sels, sel);
    FrontOf(shape, d);
  }

  lemma {:induction false} SourceAppend(sels: seq<Sel>, shape: Shape, sel: Sel, d: nat, idx: Index, i: nat)
    requires |sels| == |shape| && !sel.Pick?
    ensures Source(sels + [sel], shape + [d], idx + [i]) == Source(sels, shape, idx) + [First(sel, d) + i]
  {
    hide First;
    FrontOf(sels, sel);
    FrontOf(shape, d);
    FrontOf(idx, i);
  }

  lemma SelAppend(sels: seq<Sel>, shape: Shape, sel: Sel, d: nat, idx: Index, i: nat)
    requires |sels| == |shape| && !sel.Pick?
    ensures SelShape(sels + [sel], shape + [d]) == SelShape(sels, shape) + [Count(sel, d)]
    ensures Source(sels + [sel], shape + [d], idx + [i]) == Source(sels, shape, idx) + [First(sel, d) + i]
  {
    hide *;
    ShapeAppend(sels, shape, sel, d);
    SourceAppend(sels, shape, sel, d, idx, i);
  }

  lemma FrontOf<T>(s: seq<T>, x: T)
    ensures (s + [x])[..|s|] == s && (s + [x])[|s|] == x && s + [x] != []
  {
  }

  // --- __getitem__ -------------------------------------------------------------------------------------------

  datatype Indices = Bare(sel: Sel) | Tuple(sels: seq<Sel>)

  /** The selections a tuple applies to the leading dimensions of A. */
  function LeadSels(sels: seq<Sel>, lead: Shape): Result<seq<Sel>, Error>
    requires |sels| == |lead|
  {
    if exists i :: 0 <= i < |sels| && sels[i].Pick? && lead[i] == 0 then Err(ZeroDivision)
    else Ok(seq(|sels|, i requires 0 <= i < |sels| =>
      if sels[i].Pick? then Pick(if lead[i] == 0 then 0 else sels[i].i % lead[i]) else Full))
  }

  function GetItem(l: Lora, indices: Indices): Result<Lora, Error>
    requires Formed(l)
  {
    var n := Dims(l);
    match indices
    case Bare(sel) =>
      if n > 2 then
        var a :- Indexed(l.a, [sel]);
        var b :- Indexed(l.b, [sel]);
        Init(a, b)
      else if sel.Pick? then Err(NotImplemented)
      else
        var b :- Indexed(l.b, [sel]);
        Init(l.a, b)
    case Tuple(sels) =>
      if sels == [] then Err(AssertionFailed)
      else if |sels| > n then Err(IndexOutOfRange)
      else
        var all := Padded(sels, n);
        var leadA :- LeadSels(all[..n - 2], Lead(l));
        var a :- Indexed(l.a, leadA + [Full, all[n - 1]]);
        var b :- Indexed(l.b, all[..n - 1]);
        Init(a, b)
  }

  // --- Why indexing the factors is indexing the product ---------------------------------------------------------

  /** Where a slice of A reads after broadcasting. */
  function ReadAt(sel: Sel, d: nat, i: nat): nat
    requires !sel.Pick?
  {
    First(sel, d) + if Count(sel, d) == 1 then 0 else i
  }

  /** A selection on a leading dimension of A does what the one on B does after broadcasting. */
  ghost predicate Matches(sa: Sel, a: nat, sb: Sel, b: nat) {
    InRange(sa, a) && InRange(sb, b) &&
    (sa.Pick? <==> sb.Pick?) &&
    if sb.Pick? then First(sa, a) == if a == 1 then 0 else First(sb, b)
    else
      (Count(sa, a) == 1 || Count(sa, a) == Count(sb, b)) &&
      forall i: nat :: i < Count(sb, b) ==> ReadAt(sa, a, i) == if a == 1 then 0 else First(sb, b) + i
  }

  ghost predicate AllMatch(sa: seq<Sel>, a: Shape, sb: seq<Sel>, b: Shape) {
    |sa| == |a| == |sb| == |b| && forall i :: 0 <= i < |a| ==> Matches(sa[i], a[i], sb[i], b[i])
  }

  ghost predicate SourcesAgree(sa: seq<Sel>, a: Shape, sb: seq<Sel>, b: Shape, idx: Index)
    requires |sa| == |a| == |sb| == |b|
  {
    var shapeA, shapeB := SelShape(sa, a), SelShape(sb, b);
    |shapeA| == |shapeB| == |idx| &&
    (forall i :: 0 <= i < |idx| ==> shapeA[i] == 1 || shapeA[i] == shapeB[i]) &&
    Source(sa, a, Align(shapeA, idx)) == Align(a, Source(sb, b, idx))
  }

  lemma PickAppend(sels: seq<Sel>, shape: Shape, sel: Sel, d: nat, idx: Index)
    requires |sels| == |shape| && sel.Pick?
    ensures SelShape(sels + [sel], shape + [d]) == SelShape(sels, shape)
    ensures Source(sels + [sel], shape + [d], idx) == Source(sels, shape, idx) + [First(sel, d)]
  {
    assert (sels + [sel])[..|sels|] == sels && (shape + [d])[..|shape|] == shape;
  }

  lemma PickStep(sa: seq<Sel>, a: Shape, sb: seq<Sel>, b: Shape, idx: Index, x: Sel, da: nat, y: Sel, db: nat)
    requires |sa| == |a| == |sb| == |b| && SourcesAgree(sa, a, sb, b, idx)
    requires Matches(x, da, y, db) && y.Pick?
    ensures SourcesAgree(sa + [x], a + [da], sb + [y], b + [db], idx)
  {
    hide SelShape, Source, First;
    PickAppend(sb, b, y, db, idx);
    PickAppend(sa, a, x, da, Align(SelShape(sa, a), idx));
    AlignAppend(a, da, Source(sb, b, idx), First(y, db));
  }

  lemma SliceStep(sa: seq<Sel>, a: Shape, sb: seq<Sel>, b: Shape, front: Index, i: nat, x: Sel, da: nat, y: Sel, db: nat)
    requires |sa| == |a| == |sb| == |b| && SourcesAgree(sa, a, sb, b, front)
    requires Matches(x, da, y, db) && !y.Pick? && i < Count(y, db)
    ensures SourcesAgree(sa + [x], a + [da], sb + [y], b + [db], front + [i])
  {
    hide SelShape, Source, First, Count;
    var shapeA := SelShape(sa, a);
    SelAppend(sb, b, y, db, front, i);
    SelAppend(sa, a, x, da, Align(shapeA, front), if Count(x, da) == 1 then 0 else i);
    AlignAppend(shapeA, Count(x, da), front, i);
    AlignAppend(a, da, Source(sb, b, front), First(y, db) + i);
    assert ReadAt(x, da, i) == if da == 1 then 0 else First(y, db) + i;
  }

  lemma MatchSplit(sa: seq<Sel>, a: Shape, sb: seq<Sel>, b: Shape)
    requires AllMatch(sa, a, sb, b) && a != []
    ensures var n := |a| - 1;
            AllMatch(sa[..n], a[..n], sb[..n], b[..n]) && Matches(sa[n], a[n], sb[n], b[n]) &&
            sa == sa[..n] + [sa[n]] && sb == sb[..n] + [sb[n]] && a == a[..n] + [a[n]] && b == b[..n] + [b[n]]
  {
    hide Matches;
    FrontAndLast(sa);
    FrontAndLast(sb);
    FrontAndLast(a);
    FrontAndLast(b);
  }

  lemma FrontAndLast<T>(s: seq<T>)
    requires s != []
    ensures s == s[..|s| - 1] + [s[|s| - 1]]
  {
  }

  /** An index behind a slice, split at the slice. */
  lemma SliceIndex(sels: seq<Sel>, shape: Shape, sel: Sel, d: nat, idx: Index) returns (front: Index, i: nat)
    requires |sels| == |shape| && !sel.Pick? && Inside(idx, SelShape(sels + [sel], shape + [d]))
    ensures idx == front + [i] && Inside(front, SelShape(sels, shape)) && i < Count(sel, d)
  {
    hide SelShape, Count, First, Source;
    SelAppend(sels, shape, sel, d, [], 0);
    var m := |idx| - 1;
    front, i := idx[..m], idx[m];
    InsideAppend(front, i, SelShape(sels, shape), Count(sel, d));
  }

  /** Aligning behind the selection reads A where selecting and then aligning would. */
  lemma {:induction false} SourcesAlign(sa: seq<Sel>, a: Shape, sb: seq<Sel>, b: Shape, idx: Index)
    requires AllMatch(sa, a, sb, b) && Inside(idx, SelShape(sb, b))
    ensures SourcesAgree(sa, a, sb, b, idx)
    decreases |a|
  {
    if a != [] {
      hide *;
      MatchSplit(sa, a, sb, b);
      var n := |a| - 1;
      var x, y, da, db := sa[n], sb[n], a[n], b[n];
      if y.Pick? {
        PickAppend(sb[..n], b[..n], y, db, idx);
        SourcesAlign(sa[..n], a[..n], sb[..n], b[..n], idx);
        PickStep(sa[..n], a[..n], sb[..n], b[..n], idx, x, da, y, db);
      } else {
        var front, i := SliceIndex(sb[..n], b[..n], y, db, idx);
        SourcesAlign(sa[..n], a[..n], sb[..n], b[..n], front);
        SliceStep(sa[..n], a[..n], sb[..n], b[..n], front, i, x, da, y, db);
      }
    }
  }

  lemma AlignAppend(lead: Shape, d: nat, idx: Index, i: nat)
    requires |lead| == |idx|
    ensures Align(lead + [d], idx + [i]) == Align(lead, idx) + [if d == 1 then 0 else i]
  {
  }

  /** The factors after a selection that treats the leading dimensions alike. */
  function Both(l: Lora, sa: seq<Sel>, sb: seq<Sel>, row: Sel, col: Sel): Lora
    requires Formed(l) && |sa| == |sb| == Dims(l) - 2
  {
    Lora(Selected(l.a, sa + [Full] + [col]), Selected(l.b, sb + [row] + [Full]))
  }

  lemma {:induction false} BothShapes(l: Lora, sa: seq<Sel>, sb: seq<Sel>, row: Sel, col: Sel)
    requires Formed(l) && AllMatch(sa, Lead(l), sb, l.b.shape[..Dims(l) - 2]) && !row.Pick? && !col.Pick?
    ensures var l' := Both(l, sa, sb, row, col); var n := Dims(l);
            var leadA, leadB := SelShape(sa, Lead(l)), SelShape(sb, l.b.shape[..n - 2]);
            l'.a.shape == leadA + [Rank(l)] + [Count(col, Columns(l))] &&
            l'.b.shape == leadB + [Count(row, l.b.shape[n - 2])] + [Rank(l)] &&
            |leadA| == |leadB| && Formed(l') && Lead(l') == leadA && Rank(l') == Rank(l)
    ensures Selected(Dense(l), sb + [row] + [col]).shape == ShapeOf(Both(l, sa, sb, row, col))
  {
    hide SelShape, Source, Matches, First;
    var n := Dims(l);
    var lead, leadB, r := Lead(l), l.b.shape[..n - 2], l.b.shape[n - 2];
    assert l.a.shape == lead + [Rank(l)] + [Columns(l)] && l.b.shape == leadB + [r] + [Rank(l)];
    assert ShapeOf(l) == leadB + [r] + [Columns(l)];
    SelAppend(sa, lead, Full, Rank(l), [], 0);
    SelAppend(sa + [Full], lead + [Rank(l)], col, Columns(l), [], 0);
    SelAppend(sb, leadB, row, r, [], 0);
    SelAppend(sb + [row], leadB + [r], Full, Rank(l), [], 0);
    SelAppend(sb + [row], leadB + [r], col, Columns(l), [], 0);
    PicksAgree(sa, lead, sb, leadB);
    SameLength(sa, lead, sb, leadB);
  }

  lemma PicksAgree(sa: seq<Sel>, a: Shape, sb: seq<Sel>, b: Shape)
    requires AllMatch(sa, a, sb, b)
    ensures forall i :: 0 <= i < |sa| ==> sa[i].Pick? == sb[i].Pick?
  {
    forall i | 0 <= i < |sa|
      ensures sa[i].Pick? == sb[i].Pick?
    {
      assert Matches(sa[i], a[i], sb[i], b[i]);
    }
  }

  lemma {:induction false} SameLength(sa: seq<Sel>, a: Shape, sb: seq<Sel>, b: Shape)
    requires |sa| == |a| == |sb| == |b| && forall i :: 0 <= i < |sa| ==> sa[i].Pick? == sb[i].Pick?
    ensures |SelShape(sa, a)| == |SelShape(sb, b)|
  {
    if a != [] {
      var n := |a| - 1;
      SameLength(sa[..n], a[..n], sb[..n], b[..n]);
    }
  }

  lemma ShapesSplit(l: Lora)
    requires Formed(l)
    ensures var n := Dims(l); l.b.shape == l.b.shape[..n - 2] + [l.b.shape[n - 2]] + [Rank(l)]
    ensures l.a.shape == Lead(l) + [Rank(l)] + [Columns(l)] && |Lead(l)| == Dims(l) - 2
  {
  }

  lemma FullKeeps(d: nat, i: nat)
    ensures !Full.Pick? && First(Full, d) + i == i
  {
  }

  lemma BothB(l: Lora, sa: seq<Sel>, sb: seq<Sel>, row: Sel, col: Sel, lead: Index, i: nat, k: nat)
    requires Formed(l) && |sa| == |sb| == Dims(l) - 2 && !row.Pick?
    ensures var leadB, r := l.b.shape[..Dims(l) - 2], l.b.shape[Dims(l) - 2];
            Both(l, sa, sb, row, col).b.at(lead + [i] + [k]) == l.b.at(Source(sb, leadB, lead) + [First(row, r) + i] + [k])
  {
    hide Source, SelShape, First;
    var leadB, r := l.b.shape[..Dims(l) - 2], l.b.shape[Dims(l) - 2];
    ShapesSplit(l);
    FullKeeps(Rank(l), k);
    SelAppend(sb, leadB, row, r, lead, i);
    SelAppend(sb + [row], leadB + [r], Full, Rank(l), lead + [i], k);
  }

  lemma BothA(l: Lora, sa: seq<Sel>, sb: seq<Sel>, row: Sel, col: Sel, aligned: Index, k: nat, j: nat)
    requires Formed(l) && |sa| == |sb| == Dims(l) - 2 && !col.Pick?
    ensures Both(l, sa, sb, row, col).a.at(aligned + [k] + [j])
         == l.a.at(Source(sa, Lead(l), aligned) + [k] + [First(col, Columns(l)) + j])
  {
    hide Source, SelShape, First;
    ShapesSplit(l);
    FullKeeps(Rank(l), k);
    SelAppend(sa, Lead(l), Full, Rank(l), aligned, k);
    SelAppend(sa + [Full], Lead(l) + [Rank(l)], col, Columns(l), aligned + [k], j);
  }

  lemma BothAligned(l: Lora, sa: seq<Sel>, sb: seq<Sel>, row: Sel, col: Sel, lead: Index, i: nat, i': nat)
    requires Formed(l) && AllMatch(sa, Lead(l), sb, l.b.shape[..Dims(l) - 2]) && !row.Pick? && !col.Pick?
    requires Formed(Both(l, sa, sb, row, col)) && |lead| == Dims(Both(l, sa, sb, row, col)) - 2
    requires Inside(lead, SelShape(sb, l.b.shape[..Dims(l) - 2]))
    ensures var l' := Both(l, sa, sb, row, col);
            Source(sa, Lead(l), Align(Lead(l'), lead + [i])) == Align(Lead(l), Source(sb, l.b.shape[..Dims(l) - 2], lead) + [i'])
  {
    var l' := Both(l, sa, sb, row, col);
    var leadB := l.b.shape[..Dims(l) - 2];
    BothShapes(l, sa, sb, row, col);
    ShapesSplit(l);
    ShapesSplit(l');
    hide Source, SelShape, Both, Align, Inside, Lead, First, Count, Matches;
    SourcesAlign(sa, Lead(l), sb, leadB, lead);
    AlignFront(Lead(l'), lead, i);
    AlignFront(Lead(l), Source(sb, leadB, lead), i');
  }

  lemma {:induction false} BothTerm(l: Lora, sa: seq<Sel>, sb: seq<Sel>, row: Sel, col: Sel, lead: Index, i: nat, j: nat, k: nat)
    requires Formed(l) && AllMatch(sa, Lead(l), sb, l.b.shape[..Dims(l) - 2]) && !row.Pick? && !col.Pick?
    requires Formed(Both(l, sa, sb, row, col)) && |lead| == Dims(Both(l, sa, sb, row, col)) - 2
    requires Inside(lead, SelShape(sb, l.b.shape[..Dims(l) - 2]))
    ensures var rows := Source(sb, l.b.shape[..Dims(l) - 2], lead) + [First(row, l.b.shape[Dims(l) - 2]) + i];
            Term(Both(l, sa, sb, row, col), lead + [i], j, k) == Term(l, rows, First(col, Columns(l)) + j, k)
  {
    hide Source, SelShape, Inside, First, Count, Matches, Both, Term, Align, Lead;
    var l' := Both(l, sa, sb, row, col);
    var leadB, r := l.b.shape[..Dims(l) - 2], l.b.shape[Dims(l) - 2];
    var rows := Source(sb, leadB, lead) + [First(row, r) + i];
    ShapesSplit(l');
    TermIs(l', lead + [i], j, k);
    TermIs(l, rows, First(col, Columns(l)) + j, k);
    BothB(l, sa, sb, row, col, lead, i, k);
    BothA(l, sa, sb, row, col, Align(Lead(l'), lead + [i]), k, j);
    BothAligned(l, sa, sb, row, col, lead, i, First(row, r) + i);
  }

  /** The row does not take part in broadcasting. */
  lemma AlignFront(lead: Shape, idx: Index, i: nat)
    requires |lead| == |idx|
    ensures Align(lead, idx + [i]) == Align(lead, idx)
  {
  }

  /** The selection of the dense product, at one index. */
  lemma {:induction false} SelectedAt(l: Lora, sb: seq<Sel>, row: Sel, col: Sel, lead: Index, i: nat, j: nat)
    requires Formed(l) && |sb| == Dims(l) - 2 && !row.Pick? && !col.Pick?
    ensures var rows := Source(sb, l.b.shape[..Dims(l) - 2], lead) + [First(row, l.b.shape[Dims(l) - 2]) + i];
            Selected(Dense(l), sb + [row] + [col]).at(lead + [i] + [j]) == Dense(l).at(rows + [First(col, Columns(l)) + j])
  {
    hide Source, SelShape, First;
    var leadB, r := l.b.shape[..Dims(l) - 2], l.b.shape[Dims(l) - 2];
    ShapesSplit(l);
    assert ShapeOf(l) == leadB + [r] + [Columns(l)];
    SelAppend(sb, leadB, row, r, lead, i);
    SelAppend(sb + [row], leadB + [r], col, Columns(l), lead + [i], j);
  }

  /** Splitting an index of the selected product. */
  lemma InsideLength(idx: Index, shape: Shape)
    requires Inside(idx, shape)
    ensures |idx| == |shape|
  {
  }

  lemma BothIndex(l: Lora, sa: seq<Sel>, sb: seq<Sel>, row: Sel, col: Sel, idx: Index) returns (lead: Index, i: nat, j: nat)
    requires Formed(l) && AllMatch(sa, Lead(l), sb, l.b.shape[..Dims(l) - 2]) && !row.Pick? && !col.Pick?
    requires Formed(Both(l, sa, sb, row, col)) && Inside(idx, ShapeOf(Both(l, sa, sb, row, col)))
    ensures idx == lead + [i] + [j] && |lead| == Dims(Both(l, sa, sb, row, col)) - 2
    ensures Inside(lead, SelShape(sb, l.b.shape[..Dims(l) - 2]))
  {
    hide SelShape, Both, Count, First, Source, Matches, Inside;
    var l' := Both(l, sa, sb, row, col);
    BothShapes(l, sa, sb, row, col);
    InsideLength(idx, ShapeOf(l'));
    var m := |idx| - 2;
    lead, i, j := idx[..m], idx[m], idx[m + 1];
    assert idx == lead + [i] + [j] && ShapeOf(l') == l'.b.shape[..m] + [l'.b.shape[m]] + [Columns(l')];
    InsideAppend(lead + [i], j, l'.b.shape[..m] + [l'.b.shape[m]], Columns(l'));
    InsideAppend(lead, i, l'.b.shape[..m], l'.b.shape[m]);
    assert l'.b.shape[..m] == SelShape(sb, l.b.shape[..Dims(l) - 2]);
  }

  lemma BothAt(l: Lora, sa: seq<Sel>, sb: seq<Sel>, row: Sel, col: Sel, lead: Index, i: nat, j: nat)
    requires Formed(l) && AllMatch(sa, Lead(l), sb, l.b.shape[..Dims(l) - 2]) && !row.Pick? && !col.Pick?
    requires Formed(Both(l, sa, sb, row, col)) && |lead| == Dims(Both(l, sa, sb, row, col)) - 2
    requires Rank(Both(l, sa, sb, row, col)) == Rank(l) && Inside(lead, SelShape(sb, l.b.shape[..Dims(l) - 2]))
    ensures Dense(Both(l, sa, sb, row, col)).at(lead + [i] + [j]) == Selected(Dense(l), sb + [row] + [col]).at(lead + [i] + [j])
  {
    hide Source, SelShape, Inside, First, Count, Matches, Both, Term, Entry, Align, Lead, Dense, Selected;
    var l' := Both(l, sa, sb, row, col);
    var leadB, r := l.b.shape[..Dims(l) - 2], l.b.shape[Dims(l) - 2];
    var rows, col' := Source(sb, leadB, lead) + [First(row, r) + i], First(col, Columns(l)) + j;
    forall k: nat | k < Rank(l)
      ensures Term(l', lead + [i], j, k) == Term(l, rows, col', k)
    {
      BothTerm(l, sa, sb, row, col, lead, i, j, k);
    }
    EntriesAgree(l', lead + [i], j, l, rows, col');
    DenseAt(l', lead + [i], j);
    DenseAt(l, rows, col');
    SelectedAt(l, sb, row, col, lead, i, j);
  }

  /** Selecting in both factors selects in the dense product. */
  lemma BothCommute(l: Lora, sa: seq<Sel>, sb: seq<Sel>, row: Sel, col: Sel)
    requires Formed(l) && AllMatch(sa, Lead(l), sb, l.b.shape[..Dims(l) - 2]) && !row.Pick? && !col.Pick?
    ensures var l' := Both(l, sa, sb, row, col);
            Formed(l') && Same(Dense(l'), Selected(Dense(l), sb + [row] + [col]))
  {
    hide Term, Entry, Source, SelShape, Matches, Both, Selected, Inside, First, Count;
    BothShapes(l, sa, sb, row, col);
    var l' := Both(l, sa, sb, row, col);
    forall idx | Inside(idx, ShapeOf(l'))
      ensures Dense(l').at(idx) == Selected(Dense(l), sb + [row] + [col]).at(idx)
    {
      var lead, i, j := BothIndex(l, sa, sb, row, col, idx);
      BothAt(l, sa, sb, row, col, lead, i, j);
    }
  }

  // --- Tuples ---------------------------------------------------------------------------------------------------

  /** The tuples under which the factors stay factors of the indexed product: rows and columns
      are sliced, and a proper slice of a leading dimension meets a dimension A broadcasts. */
  predicate Safe(l: Lora, all: seq<Sel>)
    requires Formed(l) && |all| == Dims(l)
  {
    var n := Dims(l);
    !all[n - 2].Pick? && !all[n - 1].Pick? &&
    forall i :: 0 <= i < n - 2 && !all[i].Pick? ==> l.a.shape[i] == 1 || Count(all[i], l.b.shape[i]) == l.b.shape[i]
  }

  lemma ModWraps(i: int, d: nat)
    requires 0 <= i + d && i < d
    ensures i % d == if i < 0 then i + d else i
  {
    if i < 0 {
      DivMod(0, d, i + d);
      assert (i + d) % d == i % d by {
        var q := i / d;
        assert i == q * d + i % d;
        assert (q + 1) * d == q * d + d;
        SmallMultiple(q + 1, d);
      }
    } else {
      DivMod(0, d, i);
    }
  }

  lemma FullMatches(a: nat, sb: Sel, b: nat)
    requires !sb.Pick? && (a == 1 || (a == b && Count(sb, b) == b))
    ensures Matches(Full, a, sb, b)
  {
  }

  lemma PickMatches(i: int, a: nat, b: nat)
    requires 0 <= i + b && i < b && (a == 1 || a == b)
    ensures a != 0 && Matches(Pick(i % a), a, Pick(i), b)
  {
    if a == 1 {
      DivMod(i + b, 1, 0);
    } else {
      ModWraps(i, b);
    }
  }

  lemma LeadMatches(sel: Sel, a: nat, b: nat)
    requires InRange(sel, b) && (a == 1 || a == b) && (sel.Pick? || a == 1 || Count(sel, b) == b)
    ensures sel.Pick? ==> a != 0 && Matches(Pick(sel.i % a), a, sel, b)
    ensures !sel.Pick? ==> Matches(Full, a, sel, b)
  {
    hide Matches, Count;
    if sel.Pick? {
      PickMatches(sel.i, a, b);
    } else {
      FullMatches(a, sel, b);
    }
  }

  /** The leading selections of a safe tuple match in both factors. */
  lemma LeadsMatch(l: Lora, all: seq<Sel>) returns (leadA: seq<Sel>)
    requires Broadcasts(l) && |all| == Dims(l) && Safe(l, all) && AllInRange(all, ShapeOf(l))
    ensures var n := Dims(l);
            |leadA| == n - 2 && LeadSels(all[..n - 2], Lead(l)) == Ok(leadA) && AllMatch(leadA, Lead(l), all[..n - 2], l.b.shape[..n - 2])
  {
    hide Matches, Count, First;
    var n := Dims(l);
    assert ShapeOf(l)[..n - 1] == l.b.shape[..n - 1];
    forall i | 0 <= i < n - 2
      ensures all[i].Pick? ==> l.a.shape[i] != 0 && Matches(Pick(all[i].i % l.a.shape[i]), l.a.shape[i], all[i], l.b.shape[i])
      ensures !all[i].Pick? ==> Matches(Full, l.a.shape[i], all[i], l.b.shape[i])
    {
      assert InRange(all[i], ShapeOf(l)[i]);
      LeadMatches(all[i], l.a.shape[i], l.b.shape[i]);
    }
    leadA := LeadSels(all[..n - 2], Lead(l)).value;
  }

  /** What the tuple case builds when its leading integers are in range. */
  lemma TupleIsBoth(l: Lora, sels: seq<Sel>) returns (leadA: seq<Sel>)
    requires Broadcasts(l) && sels != [] && |sels| <= Dims(l) && Safe(l, Padded(sels, Dims(l)))
    requires Indexed(Dense(l), sels).Ok?
    ensures var n := Dims(l); var all := Padded(sels, n);
            AllMatch(leadA, Lead(l), all[..n - 2], l.b.shape[..n - 2]) &&
            GetItem(l, Tuple(sels)) == Init(Both(l, leadA, all[..n - 2], all[n - 2], all[n - 1]).a,
                                            Both(l, leadA, all[..n - 2], all[n - 2], all[n - 1]).b)
  {
    hide *;
    var n := Dims(l);
    var all := Padded(sels, n);
    SafeTuple(l, sels);
    leadA := LeadsMatch(l, all);
    TupleA(l, leadA, all, all[n - 1]);
    TupleB(l, all);
    BothIs(l, leadA, all[..n - 2], all[n - 2], all[n - 1]);
    TupleTaken(l, sels, leadA, Selected(l.a, leadA + [Full] + [all[n - 1]]),
      Selected(l.b, all[..n - 2] + [all[n - 2]] + [Full]));
  }

  lemma SafeTuple(l: Lora, sels: seq<Sel>)
    requires Broadcasts(l) && |sels| <= Dims(l) && Safe(l, Padded(sels, Dims(l))) && Indexed(Dense(l), sels).Ok?
    ensures Formed(l) && Dims(l) >= 2 && AllInRange(Padded(sels, Dims(l)), ShapeOf(l))
    ensures !Padded(sels, Dims(l))[Dims(l) - 2].Pick? && !Padded(sels, Dims(l))[Dims(l) - 1].Pick?
  {
    hide Selected, Padded, AllInRange;
  }

  lemma BothIs(l: Lora, sa: seq<Sel>, sb: seq<Sel>, row: Sel, col: Sel)
    requires Formed(l) && |sa| == |sb| == Dims(l) - 2
    ensures |l.a.shape| == |sa + [Full] + [col]| && |l.b.shape| == |sb + [row] + [Full]|
    ensures Both(l, sa, sb, row, col) == Lora(Selected(l.a, sa + [Full] + [col]), Selected(l.b, sb + [row] + [Full]))
  {
    hide Selected;
  }

  lemma TupleTaken(l: Lora, sels: seq<Sel>, leadA: seq<Sel>, a: Tensor, b: Tensor)
    requires Formed(l) && sels != [] && |sels| <= Dims(l)
    requires var n := Dims(l); var all := Padded(sels, n);
             LeadSels(all[..n - 2], Lead(l)) == Ok(leadA) && Indexed(l.a, leadA + [Full, all[n - 1]]) == Ok(a) &&
             Indexed(l.b, all[..n - 1]) == Ok(b)
    ensures GetItem(l, Tuple(sels)) == Init(a, b)
  {
    hide LeadSels, Indexed, Padded, Init;
  }

  lemma TupleA(l: Lora, leadA: seq<Sel>, all: seq<Sel>, col: Sel)
    requires Formed(l) && |all| == Dims(l) && !col.Pick?
    requires AllMatch(leadA, Lead(l), all[..Dims(l) - 2], l.b.shape[..Dims(l) - 2])
    ensures Indexed(l.a, leadA + [Full, col]) == Ok(Selected(l.a, leadA + [Full] + [col]))
  {
    hide Selected;
    var n := Dims(l);
    var sels := leadA + [Full, col];
    assert Padded(sels, n) == sels == leadA + [Full] + [col];
    forall i | 0 <= i < n
      ensures InRange(sels[i], l.a.shape[i])
    {
      if i < n - 2 {
        assert Matches(leadA[i], Lead(l)[i], all[..n - 2][i], l.b.shape[..n - 2][i]);
      }
    }
  }

  lemma TupleB(l: Lora, all: seq<Sel>)
    requires Formed(l) && |all| == Dims(l) && AllInRange(all, ShapeOf(l)) && !all[Dims(l) - 2].Pick?
    ensures Indexed(l.b, all[..Dims(l) - 1]) == Ok(Selected(l.b, all[..Dims(l) - 2] + [all[Dims(l) - 2]] + [Full]))
  {
    hide Selected;
    var n := Dims(l);
    var sels := all[..n - 1];
    assert Padded(sels, n) == all[..n - 2] + [all[n - 2]] + [Full];
    forall i | 0 <= i < n
      ensures InRange(Padded(sels, n)[i], l.b.shape[i])
    {
      if i < n - 1 {
        assert InRange(all[i], ShapeOf(l)[i]);
      }
    }
  }

  lemma BothBroadcasts(l: Lora, sa: seq<Sel>, sb: seq<Sel>, row: Sel, col: Sel)
    requires Formed(l) && AllMatch(sa, Lead(l), sb, l.b.shape[..Dims(l) - 2]) && !row.Pick? && !col.Pick?
    ensures Broadcasts(Both(l, sa, sb, row, col))
  {
    hide Matches, Selected;
    BothShapes(l, sa, sb, row, col);
    var leadB := l.b.shape[..Dims(l) - 2];
    ShapesBroadcast(sa, Lead(l), sb, leadB);
    var l' := Both(l, sa, sb, row, col);
    assert forall i :: 0 <= i < Dims(l') - 2 ==>
      l'.a.shape[i] == SelShape(sa, Lead(l))[i] && l'.b.shape[i] == SelShape(sb, leadB)[i];
  }

  lemma {:induction false} ShapesBroadcast(sa: seq<Sel>, a: Shape, sb: seq<Sel>, b: Shape)
    requires AllMatch(sa, a, sb, b)
    ensures var shapeA, shapeB := SelShape(sa, a), SelShape(sb, b);
            |shapeA| == |shapeB| && forall i :: 0 <= i < |shapeA| ==> shapeA[i] == 1 || shapeA[i] == shapeB[i]
  {
    if a != [] {
      hide Count, First;
      MatchSplit(sa, a, sb, b);
      var n := |a| - 1;
      ShapesBroadcast(sa[..n], a[..n], sb[..n], b[..n]);
    }
  }

  /** Safe tuples: indexing the factors indexes the dense product. */
  lemma TupleCommutes(l: Lora, sels: seq<Sel>)
    requires Broadcasts(l) && sels != [] && |sels| <= Dims(l) && Safe(l, Padded(sels, Dims(l)))
    requires Indexed(Dense(l), sels).Ok?
    ensures GetItem(l, Tuple(sels)).Ok?
    ensures Broadcasts(GetItem(l, Tuple(sels)).value)
    ensures Same(Dense(GetItem(l, Tuple(sels)).value), Indexed(Dense(l), sels).value)
  {
    hide GetItem, Dense, Same, Both, Selected, Matches;
    var n := Dims(l);
    var all := Padded(sels, n);
    var leadA := TupleIsBoth(l, sels);
    BothCommute(l, leadA, all[..n - 2], all[n - 2], all[n - 1]);
    BothBroadcasts(l, leadA, all[..n - 2], all[n - 2], all[n - 1]);
    assert all == all[..n - 2] + [all[n - 2]] + [all[n - 1]];
  }

  /** How many dimensions survive a selection. */
  lemma {:induction false} KeptDims(sels: seq<Sel>, shape: Shape, sel: Sel, d: nat)
    requires |sels| == |shape|
    ensures |SelShape(sels + [sel], shape + [d])| == |SelShape(sels, shape)| + if sel.Pick? then 0 else 1
  {
    assert (sels + [sel])[..|sels|] == sels && (shape + [d])[..|shape|] == shape;
  }

  /** If the leading dimensions broadcast behind the selection, every slice was harmless. */
  lemma {:induction false} SlicesHarmless(sa: seq<Sel>, a: Shape, sb: seq<Sel>, b: Shape, i: nat)
    requires |sa| == |a| == |sb| == |b| && i < |a| && !sb[i].Pick?
    requires forall k :: 0 <= k < |a| ==> (sb[k].Pick? ==> sa[k].Pick?) && (!sb[k].Pick? ==> sa[k] == Full)
    requires var shapeA, shapeB := SelShape(sa, a), SelShape(sb, b);
             |shapeA| == |shapeB| && forall k :: 0 <= k < |shapeA| ==> shapeA[k] == 1 || shapeA[k] == shapeB[k]
    ensures a[i] == 1 || a[i] == Count(sb[i], b[i])
  {
    var n := |a| - 1;
    var shapeA, shapeB := SelShape(sa, a), SelShape(sb, b);
    SameLength(sa[..n], a[..n], sb[..n], b[..n]);
    if i == n {
      assert shapeA[|shapeA| - 1] == a[n] && shapeB[|shapeB| - 1] == Count(sb[n], b[n]);
    } else {
      var frontA, frontB := SelShape(sa[..n], a[..n]), SelShape(sb[..n], b[..n]);
      assert forall k :: 0 <= k < |frontA| ==> frontA[k] == shapeA[k] && frontB[k] == shapeB[k];
      SlicesHarmless(sa[..n], a[..n], sb[..n], b[..n], i);
    }
  }

  /** The shapes behind a tuple. */
  lemma {:induction false} TupleFactors(l: Lora, sels: seq<Sel>, leadA: seq<Sel>)
    requires Formed(l) && sels != [] && |sels| <= Dims(l) && GetItem(l, Tuple(sels)).Ok?
    requires LeadSels(Padded(sels, Dims(l))[..Dims(l) - 2], Lead(l)) == Ok(leadA)
    ensures var n := Dims(l); var all := Padded(sels, n); var l' := GetItem(l, Tuple(sels)).value;
            l'.a.shape == SelShape(leadA + [Full] + [all[n - 1]], Lead(l) + [Rank(l)] + [Columns(l)]) &&
            l'.b.shape == SelShape(all[..n - 2] + [all[n - 2]] + [Full], l.b.shape[..n - 2] + [l.b.shape[n - 2]] + [Rank(l)])
  {
    hide Source, SelShape, Count, First, AllInRange;
    var n := Dims(l);
    var all := Padded(sels, n);
    assert l.a.shape == Lead(l) + [Rank(l)] + [Columns(l)];
    assert l.b.shape == l.b.shape[..n - 2] + [l.b.shape[n - 2]] + [Rank(l)];
    assert Padded(leadA + [Full, all[n - 1]], n) == leadA + [Full] + [all[n - 1]];
    assert Padded(all[..n - 1], n) == all[..n - 2] + [all[n - 2]] + [Full];
  }

  lemma TupleProduct(l: Lora, sels: seq<Sel>)
    requires Formed(l) && |sels| <= Dims(l) && Indexed(Dense(l), sels).Ok?
    ensures var n := Dims(l); var all := Padded(sels, n);
            Indexed(Dense(l), sels).value.shape
              == SelShape(all[..n - 2] + [all[n - 2]] + [all[n - 1]], l.b.shape[..n - 2] + [l.b.shape[n - 2]] + [Columns(l)])
  {
    hide Source, SelShape, Count, First, AllInRange;
    var n := Dims(l);
    var all := Padded(sels, n);
    assert ShapeOf(l) == l.b.shape[..n - 2] + [l.b.shape[n - 2]] + [Columns(l)];
    assert all == all[..n - 2] + [all[n - 2]] + [all[n - 1]];
  }

  lemma ThreeKept(sels: seq<Sel>, shape: Shape, x: Sel, dx: nat, y: Sel, dy: nat)
    requires |sels| == |shape|
    ensures |SelShape(sels + [x] + [y], shape + [dx] + [dy])|
         == |SelShape(sels, shape)| + (if x.Pick? then 0 else 1) + (if y.Pick? then 0 else 1)
    ensures !x.Pick? && !y.Pick? ==>
      SelShape(sels + [x] + [y], shape + [dx] + [dy]) == SelShape(sels, shape) + [Count(x, dx)] + [Count(y, dy)]
  {
    hide SelShape, Count, Source;
    KeptDims(sels, shape, x, dx);
    KeptDims(sels + [x], shape + [dx], y, dy);
    if !x.Pick? && !y.Pick? {
      SelAppend(sels, shape, x, dx, [], 0);
      SelAppend(sels + [x], shape + [dx], y, dy, [], 0);
    }
  }

  /** Only safe tuples do: if the indexed factors broadcast and have the shape of the indexed
      product, the tuple was safe. */
  lemma OnlySafeTuples(l: Lora, sels: seq<Sel>)
    requires Broadcasts(l) && sels != [] && |sels| <= Dims(l)
    requires Indexed(Dense(l), sels).Ok? && GetItem(l, Tuple(sels)).Ok?
    requires Broadcasts(GetItem(l, Tuple(sels)).value)
    requires ShapeOf(GetItem(l, Tuple(sels)).value) == Indexed(Dense(l), sels).value.shape
    ensures Safe(l, Padded(sels, Dims(l)))
  {
    var n := Dims(l);
    var all := Padded(sels, n);
    var leadA := LeadSels(all[..n - 2], Lead(l)).value;
    var l' := GetItem(l, Tuple(sels)).value;
    hide Source, SelShape, Count, First, GetItem, Indexed, Dense;
    TupleFactors(l, sels, leadA);
    TupleProduct(l, sels);
    SafeFromShapes(l, all, leadA, l');
  }

  lemma {:induction false} SafeFromShapes(l: Lora, all: seq<Sel>, leadA: seq<Sel>, l': Lora)
    requires Broadcasts(l) && |all| == Dims(l) && Broadcasts(l')
    requires LeadSels(all[..Dims(l) - 2], Lead(l)) == Ok(leadA)
    requires var n := Dims(l); var leadB := l.b.shape[..n - 2];
      l'.a.shape == SelShape(leadA + [Full] + [all[n - 1]], Lead(l) + [Rank(l)] + [Columns(l)]) &&
      l'.b.shape == SelShape(all[..n - 2] + [all[n - 2]] + [Full], leadB + [l.b.shape[n - 2]] + [Rank(l)]) &&
      ShapeOf(l') == SelShape(all[..n - 2] + [all[n - 2]] + [all[n - 1]], leadB + [l.b.shape[n - 2]] + [Columns(l)])
    ensures Safe(l, all)
  {
    hide Source, SelShape, Count, First;
    var n := Dims(l);
    var row, col := all[n - 2], all[n - 1];
    var lead, leadB, r := Lead(l), l.b.shape[..n - 2], l.b.shape[n - 2];
    assert forall k :: 0 <= k < n - 2 ==> leadA[k].Pick? == all[k].Pick?;
    SameLength(leadA, lead, all[..n - 2], leadB);
    ThreeKept(leadA, lead, Full, Rank(l), col, Columns(l));
    ThreeKept(all[..n - 2], leadB, row, r, Full, Rank(l));
    ThreeKept(all[..n - 2], leadB, row, r, col, Columns(l));
    assert !row.Pick? && !col.Pick?;
    var shapeA, shapeB := SelShape(leadA, lead), SelShape(all[..n - 2], leadB);
    assert forall k :: 0 <= k < |shapeA| ==> shapeA[k] == l'.a.shape[k] && shapeB[k] == l'.b.shape[k];
    forall i | 0 <= i < n - 2 && !all[i].Pick?
      ensures l.a.shape[i] == 1 || Count(all[i], l.b.shape[i]) == l.b.shape[i]
    {
      SlicesHarmless(leadA, lead, all[..n - 2], leadB, i);
    }
  }

  /** A tuple indexes the dense product exactly when it is safe. */
  lemma TupleCommutesIff(l: Lora, sels: seq<Sel>)
    requires Broadcasts(l) && sels != [] && |sels| <= Dims(l) && Indexed(Dense(l), sels).Ok?
    ensures Safe(l, Padded(sels, Dims(l)))
       <==> GetItem(l, Tuple(sels)).Ok? && Broadcasts(GetItem(l, Tuple(sels)).value)
            && Same(Dense(GetItem(l, Tuple(sels)).value), Indexed(Dense(l), sels).value)
  {
    hide Safe, GetItem, Indexed, Dense, Padded;
    if Safe(l, Padded(sels, Dims(l))) {
      TupleCommutes(l, sels);
    } else if GetItem(l, Tuple(sels)).Ok? && Broadcasts(GetItem(l, Tuple(sels)).value)
            && Same(Dense(GetItem(l, Tuple(sels)).value), Indexed(Dense(l), sels).value) {
      OnlySafeTuples(l, sels);
    }
  }

  function TwoOfEach(): Lora {
    Lora(Tensor([2, 1, 1], _ => 1.0), Tensor([2, 1, 1], _ => 1.0))
  }

  lemma ShapeOfThree(sel: Sel, d: nat)
    requires !sel.Pick?
    ensures SelShape([sel, Full, Full], [d, 1, 1]) == [Count(sel, d), 1, 1]
  {
    hide *;
    ShapeAppend([], [], sel, d);
    ShapeAppend([sel], [d], Full, 1);
    ShapeAppend([sel, Full], [d, 1], Full, 1);
    EmptyShape();
    FullCount(1);
    assert [] + [sel] == [sel] && [] + [d] == [d] && [] + [Count(sel, d)] == [Count(sel, d)];
    assert [sel] + [Full] == [sel, Full] && [sel, Full] + [Full] == [sel, Full, Full];
    assert [d] + [1] == [d, 1] && [d, 1] + [1] == [d, 1, 1];
  }

  lemma EmptyShape()
    ensures SelShape([], []) == []
  {
  }

  lemma SelectedOfThree(t: Tensor, sels: seq<Sel>, sel: Sel)
    requires t.shape == [2, 1, 1]
    requires !sel.Pick? && (sels == [sel, Full] || sels == [sel, Full, Full])
    ensures Indexed(t, sels) == Ok(Selected(t, [sel, Full, Full]))
    ensures Selected(t, [sel, Full, Full]).shape == [Count(sel, 2), 1, 1]
  {
    hide Source, SelShape, Count;
    assert Padded(sels, 3) == [sel, Full, Full];
    ShapeOfThree(sel, 2);
  }

  lemma LeadingSliceLead()
    ensures Padded([Slice(0, 1)], 3) == [Slice(0, 1), Full, Full]
    ensures [Slice(0, 1), Full, Full][..1] == [Slice(0, 1)] && [Slice(0, 1), Full, Full][..2] == [Slice(0, 1), Full]
    ensures LeadSels([Slice(0, 1)], [2]) == Ok([Full])
  {
    assert LeadSels([Slice(0, 1)], [2]).value == [Full];
  }

  /** All of A and one of B, which is what the tuple gives. */
  lemma LeadingSliceTaken()
    ensures GetItem(TwoOfEach(), Tuple([Slice(0, 1)])).Ok?
  {
    hide Indexed, Selected, Padded, LeadSels, Source, SelShape, Count;
    var l := TwoOfEach();
    LeadingSliceLead();
    SelectedOfThree(l.a, [Full, Full, Full], Full);
    SelectedOfThree(l.b, [Slice(0, 1), Full], Slice(0, 1));
    assert [Full] + [Full, Full] == [Full, Full, Full] && Lead(l) == [2];
  }

  /** One of two matrices, as a slice of the first dimension: A keeps both of them, and is not paired with the one of B. */
  lemma LeadingSliceExample()
    ensures var l := TwoOfEach(); var sels := [Slice(0, 1)];
            Broadcasts(l) && Indexed(Dense(l), sels).Ok? && GetItem(l, Tuple(sels)).Ok? &&
            !(Broadcasts(GetItem(l, Tuple(sels)).value)
              && Same(Dense(GetItem(l, Tuple(sels)).value), Indexed(Dense(l), sels).value))
  {
    var l := TwoOfEach();
    var sels := [Slice(0, 1)];
    var all := Padded(sels, 3);
    assert all == [Slice(0, 1), Full, Full] && Count(all[0], 2) == 1;
    assert !Safe(l, all);
    assert Broadcasts(l) && Indexed(Dense(l), sels).Ok?;
    LeadingSliceTaken();
    hide *;
    TupleCommutesIff(l, sels);
  }

  // --- Bare integers and slices -----------------------------------------------------------------------------------

  /** Slicing the rows of a matrix slices B alone. */
  lemma BareRowsCommute(l: Lora, sel: Sel)
    requires Formed(l) && Dims(l) == 2 && !sel.Pick?
    ensures GetItem(l, Bare(sel)) == Ok(Lora(l.a, Selected(l.b, [sel] + [Full])))
    ensures Indexed(Dense(l), [sel]) == Ok(Selected(Dense(l), [sel] + [Full]))
    ensures var l' := Lora(l.a, Selected(l.b, [sel] + [Full]));
            Broadcasts(l') && Same(Dense(l'), Selected(Dense(l), [sel] + [Full]))
  {
    hide Term, Entry, Source, SelShape, First, Count, Dense, Inside;
    var l' := Lora(l.a, Selected(l.b, [sel] + [Full]));
    var r, c := l.b.shape[0], Columns(l);
    assert l.b.shape == [r] + [Rank(l)] && ShapeOf(l) == [r] + [c];
    assert Padded([sel], 2) == [sel] + [Full];
    SelShapesOfTwo(sel, r, Rank(l));
    SelShapesOfTwo(sel, r, c);
    forall idx | Inside(idx, ShapeOf(l'))
      ensures Dense(l').at(idx) == Selected(Dense(l), [sel] + [Full]).at(idx)
    {
      InsideLength(idx, ShapeOf(l'));
      assert idx == [idx[0]] + [idx[1]];
      BareRowsAt(l, sel, idx[0], idx[1]);
    }
  }

  lemma BareRowsAt(l: Lora, sel: Sel, i: nat, j: nat)
    requires Formed(l) && Dims(l) == 2 && !sel.Pick?
    requires Formed(Lora(l.a, Selected(l.b, [sel] + [Full])))
    requires Dims(Lora(l.a, Selected(l.b, [sel] + [Full]))) == 2 && Rank(Lora(l.a, Selected(l.b, [sel] + [Full]))) == Rank(l)
    ensures Dense(Lora(l.a, Selected(l.b, [sel] + [Full]))).at([i] + [j]) == Selected(Dense(l), [sel] + [Full]).at([i] + [j])
  {
    hide Term, Entry, Source, SelShape, First, Count, Dense;
    var l' := Lora(l.a, Selected(l.b, [sel] + [Full]));
    var r, c := l.b.shape[0], Columns(l);
    SourceOfTwo(sel, r, c, i, j);
    assert ShapeOf(l) == [r] + [c];
    forall k: nat | k < Rank(l)
      ensures Term(l', [i], j, k) == Term(l, [First(sel, r) + i], j, k)
    {
      RowsTerm(l, sel, i, j, k);
    }
    EntriesAgree(l', [i], j, l, [First(sel, r) + i], j);
    DenseAt(l', [i], j);
    DenseAt(l, [First(sel, r) + i], j);
  }

  lemma SelShapesOfTwo(sel: Sel, r: nat, c: nat)
    requires !sel.Pick?
    ensures SelShape([sel] + [Full], [r] + [c]) == [Count(sel, r), c]
    ensures [r] + [c] == [r, c]
  {
    SelAppend([sel], [r], Full, c, [], 0);
    SelAppend([], [], sel, r, [], 0);
    assert [] + [sel] == [sel] && [] + [r] == [r];
  }

  lemma SourceOfTwo(sel: Sel, r: nat, c: nat, i: nat, j: nat)
    requires !sel.Pick?
    ensures Source([sel] + [Full], [r] + [c], [i] + [j]) == [First(sel, r) + i] + [j]
  {
    SelAppend([sel], [r], Full, c, [i], j);
    SelAppend([], [], sel, r, [], i);
    assert [] + [sel] == [sel] && [] + [r] == [r] && [] + [i] == [i];
  }

  lemma RowsTerm(l: Lora, sel: Sel, i: nat, j: nat, k: nat)
    requires Formed(l) && Dims(l) == 2 && !sel.Pick? && Formed(Lora(l.a, Selected(l.b, [sel] + [Full])))
    ensures Term(Lora(l.a, Selected(l.b, [sel] + [Full])), [i], j, k) == Term(l, [First(sel, l.b.shape[0]) + i], j, k)
  {
    assert l.b.shape == [l.b.shape[0]] + [l.b.shape[1]];
    SourceOfTwo(sel, l.b.shape[0], l.b.shape[1], i, k);
    assert Align(Lead(l), [i]) == Align(Lead(l), [First(sel, l.b.shape[0]) + i]) == [];
  }

  function Fulls(n: nat): (r: seq<Sel>)
    ensures |r| == n && forall i :: 0 <= i < n ==> r[i] == Full
  {
    seq(n, _ => Full)
  }

  lemma {:induction false} SelShapeHead(sel: Sel, d: nat, rest: Shape)
    requires !sel.Pick?
    ensures var shape := SelShape([sel] + Fulls(|rest|), [d] + rest); shape != [] && shape[0] == Count(sel, d)
  {
    if rest == [] {
      assert [sel] + Fulls(0) == [] + [sel] && [d] + rest == [] + [d];
      SelAppend([], [], sel, d, [], 0);
    } else {
      var n := |rest| - 1;
      SelShapeHead(sel, d, rest[..n]);
      assert [sel] + Fulls(|rest|) == ([sel] + Fulls(n)) + [Full] && [d] + rest == ([d] + rest[..n]) + [rest[n]];
      SelAppend([sel] + Fulls(n), [d] + rest[..n], Full, rest[n], [], 0);
    }
  }

  lemma BarePadded(sel: Sel, n: nat)
    requires n > 2
    ensures Padded([sel], n) == [sel] + Fulls(n - 3) + [Full] + [Full]
  {
  }

  lemma BareInRange(sel: Sel, shape: Shape)
    requires |shape| > 2
    ensures AllInRange(Padded([sel], |shape|), shape) <==> InRange(sel, shape[0])
  {
    var all := Padded([sel], |shape|);
    assert all[0] == sel;
  }

  lemma BareIndexed(t: Tensor, sel: Sel)
    requires |t.shape| > 2
    ensures Indexed(t, [sel]).Ok? <==> InRange(sel, t.shape[0])
    ensures Indexed(t, [sel]).Ok? ==> Indexed(t, [sel]).value == Selected(t, [sel] + Fulls(|t.shape| - 3) + [Full] + [Full])
  {
    hide Selected, Padded, AllInRange, Fulls;
    BarePadded(sel, |t.shape|);
    BareInRange(sel, t.shape);
  }

  /** Above two dimensions both factors are selected in their first dimension. */
  lemma BareIsBoth(l: Lora, sel: Sel)
    requires Formed(l) && Dims(l) > 2 && GetItem(l, Bare(sel)).Ok?
    ensures var sels := [sel] + Fulls(Dims(l) - 3);
            GetItem(l, Bare(sel)).value == Both(l, sels, sels, Full, Full) &&
            Indexed(Dense(l), [sel]) == Ok(Selected(Dense(l), sels + [Full] + [Full])) &&
            InRange(sel, l.a.shape[0]) && InRange(sel, l.b.shape[0])
  {
    hide Selected, Indexed, InRange, Fulls, Padded;
    BareIndexed(l.a, sel);
    BareIndexed(l.b, sel);
    BareIndexed(Dense(l), sel);
    assert ShapeOf(l)[0] == l.b.shape[0];
  }

  /** The rows a bare index selects in A serve those it selects in B: A was not broadcast there, or one row is selected, or
      equally many. */
  predicate SameRows(sel: Sel, a: nat, b: nat) {
    a == b || sel.Pick? || Count(sel, a) == 1 || Count(sel, a) == Count(sel, b)
  }

  lemma FirstMatches(sel: Sel, a: nat, b: nat)
    requires InRange(sel, a) && InRange(sel, b) && (a == 1 || a == b) && SameRows(sel, a, b)
    ensures Matches(sel, a, sel, b)
  {
  }

  lemma BareMatches(l: Lora, sel: Sel)
    requires Broadcasts(l) && Dims(l) > 2 && InRange(sel, l.a.shape[0]) && InRange(sel, l.b.shape[0])
    requires SameRows(sel, l.a.shape[0], l.b.shape[0])
    ensures var sels := [sel] + Fulls(Dims(l) - 3); AllMatch(sels, Lead(l), sels, l.b.shape[..Dims(l) - 2])
  {
    hide Count, First, SelShape, Source, SameRows;
    var n := Dims(l);
    var a, b := l.a.shape, l.b.shape;
    FirstMatches(sel, a[0], b[0]);
    forall i | 0 < i < n - 2
      ensures Matches(Full, a[i], Full, b[i])
    {
      FullCount(b[i]);
      FullMatches(a[i], Full, b[i]);
    }
  }

  /** If the result broadcasts, the rows fit. */
  lemma BareNeedsRows(l: Lora, sel: Sel)
    requires Broadcasts(l) && Dims(l) > 2 && GetItem(l, Bare(sel)).Ok? && Broadcasts(GetItem(l, Bare(sel)).value)
    ensures SameRows(sel, l.a.shape[0], l.b.shape[0])
  {
    hide Count, First, SelShape, Source, Dense, GetItem;
    var n := Dims(l);
    var a, b := l.a.shape, l.b.shape;
    var sels := [sel] + Fulls(n - 3);
    BareIsBoth(l, sel);
    if !sel.Pick? {
      assert sels + [Full] + [Full] == [sel] + Fulls(n - 1);
      assert a == [a[0]] + a[1..] && b == [b[0]] + b[1..];
      SelShapeHead(sel, a[0], a[1..]);
      SelShapeHead(sel, b[0], b[1..]);
      BareDims(l, sel);
    }
  }

  lemma BareFormed(l: Lora, sel: Sel)
    requires Formed(l) && Dims(l) > 2
    ensures var sels := [sel] + Fulls(Dims(l) - 3); Formed(Both(l, sels, sels, Full, Full))
  {
    hide SelShape, Source, First, Count, Fulls;
    var sels, leadB, r := [sel] + Fulls(Dims(l) - 3), l.b.shape[..Dims(l) - 2], l.b.shape[Dims(l) - 2];
    ShapesSplit(l);
    FullCount(Rank(l));
    SelAppend(sels, Lead(l), Full, Rank(l), [], 0);
    SelAppend(sels + [Full], Lead(l) + [Rank(l)], Full, Columns(l), [], 0);
    SelAppend(sels, leadB, Full, r, [], 0);
    SelAppend(sels + [Full], leadB + [r], Full, Rank(l), [], 0);
    SameLength(sels, Lead(l), sels, leadB);
  }

  /** A bare index is accepted if it is in range in both factors; an integer is not accepted on a matrix. */
  lemma BareAccepted(l: Lora, sel: Sel)
    requires Formed(l)
    ensures GetItem(l, Bare(sel)).Ok? <==>
      if Dims(l) > 2 then InRange(sel, l.a.shape[0]) && InRange(sel, l.b.shape[0]) else !sel.Pick?
  {
    if Dims(l) > 2 {
      BareIndexed(l.a, sel);
      BareIndexed(l.b, sel);
      BareFormed(l, sel);
      hide Indexed, Selected, InRange, Fulls;
    } else if !sel.Pick? {
      BareRowsCommute(l, sel);
    }
  }

  lemma FullCount(d: nat)
    ensures Count(Full, d) == d
  {
  }

  /** A slice keeps every dimension. */
  lemma BareDims(l: Lora, sel: Sel)
    requires Formed(l) && Dims(l) > 2 && !sel.Pick?
    ensures Dims(Both(l, [sel] + Fulls(Dims(l) - 3), [sel] + Fulls(Dims(l) - 3), Full, Full)) == Dims(l)
  {
    NoPicks([sel] + Fulls(Dims(l) - 3) + [Full] + [Full], l.b.shape);
  }

  lemma {:induction false} NoPicks(sels: seq<Sel>, shape: Shape)
    requires |sels| == |shape| && forall i :: 0 <= i < |sels| ==> !sels[i].Pick?
    ensures |SelShape(sels, shape)| == |shape|
  {
    if sels != [] {
      NoPicks(sels[..|sels| - 1], shape[..|shape| - 1]);
    }
  }

  /** A bare index that is accepted is the index of the dense product exactly if it slices a matrix or the rows fit. */
  lemma BareCommutesIff(l: Lora, sel: Sel)
    requires Broadcasts(l) && GetItem(l, Bare(sel)).Ok?
    ensures Formed(GetItem(l, Bare(sel)).value) && Indexed(Dense(l), [sel]).Ok?
    ensures Dims(l) == 2 || SameRows(sel, l.a.shape[0], l.b.shape[0]) <==>
            Broadcasts(GetItem(l, Bare(sel)).value) && Same(Dense(GetItem(l, Bare(sel)).value), Indexed(Dense(l), [sel]).value)
  {
    if Dims(l) == 2 {
      BareRowsCommute(l, sel);
    } else {
      hide Dense, Same, Both, AllMatch, SameRows, Broadcasts;
      var sels := [sel] + Fulls(Dims(l) - 3);
      BareIsBoth(l, sel);
      if SameRows(sel, l.a.shape[0], l.b.shape[0]) {
        BareMatches(l, sel);
        BothCommute(l, sels, sels, Full, Full);
        BothBroadcasts(l, sels, sels, Full, Full);
      } else if Broadcasts(GetItem(l, Bare(sel)).value) {
        BareNeedsRows(l, sel);
      }
    }
  }

  /** Three rows over which A is broadcast: the second one is refused as an integer, and a slice that starts there is accepted
      but no longer broadcasts. */
  lemma BareExamples()
    ensures var l := Lora(Tensor([1, 1, 1], _ => 1.0), Tensor([3, 1, 1], _ => 1.0));
            Broadcasts(l) && GetItem(l, Bare(Pick(1))).Err? && GetItem(l, Bare(Slice(1, 3))).Ok? &&
            !Broadcasts(GetItem(l, Bare(Slice(1, 3))).value)
  {
    var l := Lora(Tensor([1, 1, 1], _ => 1.0), Tensor([3, 1, 1], _ => 1.0));
    BareAccepted(l, Pick(1));
    BareAccepted(l, Slice(1, 3));
    assert !SameRows(Slice(1, 3), 1, 3);
    hide GetItem;
    if Broadcasts(GetItem(l, Bare(Slice(1, 3))).value) {
      BareNeedsRows(l, Slice(1, 3));
    }
  }
}
