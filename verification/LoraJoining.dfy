/** `torch.stack` and `torch.cat` along the first dimension, on low-rank tensors. */
module LoraJoining {
  import opened Wrappers
  import opened Tensors
  import opened Lora

  function As(ls: seq<Lora>): (r: seq<Tensor>)
    ensures |r| == |ls|
  {
    seq(|ls|, i requires 0 <= i < |ls| => ls[i].a)
  }

  function Bs(ls: seq<Lora>): (r: seq<Tensor>)
    ensures |r| == |ls|
  {
    seq(|ls|, i requires 0 <= i < |ls| => ls[i].b)
  }

  ghost predicate AllFormed(ls: seq<Lora>) {
    forall i :: 0 <= i < |ls| ==> Formed(ls[i])
  }

  function Products(ls: seq<Lora>): (r: seq<Tensor>)
    requires forall i :: 0 <= i < |ls| ==> Formed(ls[i])
    ensures |r| == |ls|
  {
    seq(|ls|, i requires 0 <= i < |ls| => Dense(ls[i]))
  }

  // --- stack ---------------------------------------------------------------------------------------------------

  function Stack(ts: seq<Tensor>): Result<Tensor, Error> {
    if ts == [] then Err(TorchError)
    else if exists i :: 0 <= i < |ts| && ts[i].shape != ts[0].shape then Err(TorchError)
    else Ok(Stacked(ts))
  }

  function Stacked(ts: seq<Tensor>): Tensor
    requires ts != []
  {
    Tensor([|ts|] + ts[0].shape, idx => if idx != [] && idx[0] < |ts| then ts[idx[0]].at(idx[1..]) else 0.0)
  }

  function LoraStack(ls: seq<Lora>): Result<Lora, Error> {
    var a :- Stack(As(ls));
    var b :- Stack(Bs(ls));
    Init(a, b)
  }

  lemma AlignHead(d: nat, lead: Shape, x: nat, idx: Index)
    requires |lead| <= |idx| && x < d
    ensures Align([d] + lead, [x] + idx) == [x] + Align(lead, idx)
  {
  }

  lemma AlignFirst(d: nat, lead: Shape, x: nat, idx: Index)
    requires |lead| <= |idx|
    ensures Align([d] + lead, [x] + idx) == [if d == 1 then 0 else x] + Align(lead, idx)
  {
  }

  /** What a successful stack of the factors is. */
  lemma StackFactors(ls: seq<Lora>)
    requires AllFormed(ls) && LoraStack(ls).Ok?
    ensures ls != [] && LoraStack(ls).value == Lora(Stacked(As(ls)), Stacked(Bs(ls)))
    ensures forall i :: 0 <= i < |ls| ==> ls[i].a.shape == ls[0].a.shape && ls[i].b.shape == ls[0].b.shape
    ensures LoraStack(ls).value.a.shape == [|ls|] + ls[0].a.shape && LoraStack(ls).value.b.shape == [|ls|] + ls[0].b.shape
  {
    forall i | 0 <= i < |ls|
      ensures ls[i].a.shape == ls[0].a.shape && ls[i].b.shape == ls[0].b.shape
    {
      assert As(ls)[i].shape == As(ls)[0].shape && Bs(ls)[i].shape == Bs(ls)[0].shape;
    }
  }

  lemma StackTerm(ls: seq<Lora>, i: nat, rows: Index, j: nat, k: nat)
    requires AllFormed(ls) && LoraStack(ls).Ok? && i < |ls| && |rows| == Dims(ls[i]) - 1
    ensures Dims(LoraStack(ls).value) == Dims(ls[i]) + 1
    ensures Term(LoraStack(ls).value, [i] + rows, j, k) == Term(ls[i], rows, j, k)
  {
    StackFactors(ls);
    hide LoraStack, Stack, AllFormed;
    var l := LoraStack(ls).value;
    assert Formed(ls[i]);
    assert Lead(l) == [|ls|] + Lead(ls[i]);
    AlignHead(|ls|, Lead(ls[i]), i, rows);
    var aligned := Align(Lead(ls[i]), rows);
    assert ([i] + rows + [k])[1..] == rows + [k];
    assert [i] + aligned + [k] + [j] == [i] + (aligned + [k] + [j]);
  }

  lemma StackBroadcasts(ls: seq<Lora>)
    requires AllFormed(ls) && LoraStack(ls).Ok? && (forall i :: 0 <= i < |ls| ==> Broadcasts(ls[i]))
    ensures ls != [] && Broadcasts(LoraStack(ls).value) && Rank(LoraStack(ls).value) == Rank(ls[0])
  {
    StackFactors(ls);
    hide LoraStack, Dense, Stack, Stacked;
    var l := LoraStack(ls).value;
    assert Broadcasts(ls[0]);
    assert forall i :: 0 < i < Dims(l) ==> l.a.shape[i] == ls[0].a.shape[i - 1] && l.b.shape[i] == ls[0].b.shape[i - 1];
  }

  lemma StackProducts(ls: seq<Lora>)
    requires AllFormed(ls) && LoraStack(ls).Ok?
    ensures ls != [] && Stack(Products(ls)) == Ok(Stacked(Products(ls)))
    ensures Stacked(Products(ls)).shape == [|ls|] + ShapeOf(ls[0])
  {
    hide LoraStack, Dense, Stacked;
    StackFactors(ls);
    var ts := Products(ls);
    assert forall i :: 0 <= i < |ts| ==> ts[i].shape == ShapeOf(ls[i]);
    forall i | 0 <= i < |ts|
      ensures ts[i].shape == ts[0].shape == ShapeOf(ls[0])
    {
      assert ls[i].a.shape == ls[0].a.shape && ls[i].b.shape == ls[0].b.shape;
    }
    StackOfAlike(ts);
  }

  lemma StackOfAlike(ts: seq<Tensor>)
    requires ts != [] && forall i :: 0 <= i < |ts| ==> ts[i].shape == ts[0].shape
    ensures Stack(ts) == Ok(Stacked(ts)) && Stacked(ts).shape == [|ts|] + ts[0].shape
  {
  }

  lemma StackShapes(ls: seq<Lora>)
    requires AllFormed(ls) && LoraStack(ls).Ok? && (forall i :: 0 <= i < |ls| ==> Broadcasts(ls[i]))
    ensures ls != [] && Broadcasts(LoraStack(ls).value) && Rank(LoraStack(ls).value) == Rank(ls[0])
    ensures ShapeOf(LoraStack(ls).value) == [|ls|] + ShapeOf(ls[0])
    ensures Stack(Products(ls)) == Ok(Stacked(Products(ls)))
    ensures Stacked(Products(ls)).shape == [|ls|] + ShapeOf(ls[0])
  {
    StackFactors(ls);
    StackBroadcasts(ls);
    StackProducts(ls);
    hide LoraStack, Dense, Stack, Stacked, Broadcasts;
  }

  lemma StackEntry(ls: seq<Lora>, i: nat, rows: Index, j: nat)
    requires AllFormed(ls) && LoraStack(ls).Ok? && (forall i :: 0 <= i < |ls| ==> Broadcasts(ls[i]))
    requires i < |ls| && |rows| == Dims(ls[i]) - 1
    ensures Dense(LoraStack(ls).value).at([i] + rows + [j]) == Dense(ls[i]).at(rows + [j])
  {
    hide Term, Entry, LoraStack, Stack, Dense;
    var l := LoraStack(ls).value;
    StackFactors(ls);
    StackShapes(ls);
    StackTerm(ls, i, rows, j, 0);
    forall k: nat | k < Rank(l)
      ensures Term(l, [i] + rows, j, k) == Term(ls[i], rows, j, k)
    {
      StackTerm(ls, i, rows, j, k);
    }
    EntriesAgree(l, [i] + rows, j, ls[i], rows, j);
    DenseAt(l, [i] + rows, j);
    DenseAt(ls[i], rows, j);
  }

  /** Stacking the factors stacks the dense products. */
  lemma StackCommutes(ls: seq<Lora>)
    requires AllFormed(ls) && (forall i :: 0 <= i < |ls| ==> Broadcasts(ls[i])) && LoraStack(ls).Ok?
    ensures Broadcasts(LoraStack(ls).value) && Stack(Products(ls)).Ok?
    ensures Same(Dense(LoraStack(ls).value), Stack(Products(ls)).value)
  {
    StackShapes(ls);
    hide LoraStack, Stack, Dense, Broadcasts, AllFormed, Stacked, ShapeOf, Inside;
    forall idx | Inside(idx, ShapeOf(LoraStack(ls).value))
      ensures Dense(LoraStack(ls).value).at(idx) == Stacked(Products(ls)).at(idx)
    {
      StackAt(ls, idx);
    }
  }

  lemma StackedAt(ts: seq<Tensor>, i: nat, idx: Index)
    requires ts != [] && i < |ts|
    ensures Stacked(ts).at([i] + idx) == ts[i].at(idx)
  {
    assert ([i] + idx)[1..] == idx;
  }

  lemma StackIndex(ls: seq<Lora>, idx: Index)
    requires AllFormed(ls) && (forall i :: 0 <= i < |ls| ==> Broadcasts(ls[i])) && LoraStack(ls).Ok?
    requires Inside(idx, ShapeOf(LoraStack(ls).value))
    ensures ls != [] && |idx| == Dims(ls[0]) + 1 && Dims(ls[0]) >= 1 && idx[0] < |ls| && Dims(ls[idx[0]]) == Dims(ls[0])
  {
    StackFactors(ls);
    StackShapes(ls);
    hide LoraStack, Stack, Stacked, Dense, Broadcasts;
  }

  lemma StackAt(ls: seq<Lora>, idx: Index)
    requires AllFormed(ls) && (forall i :: 0 <= i < |ls| ==> Broadcasts(ls[i])) && LoraStack(ls).Ok?
    requires Inside(idx, ShapeOf(LoraStack(ls).value))
    ensures ls != [] && Dense(LoraStack(ls).value).at(idx) == Stacked(Products(ls)).at(idx)
  {
    hide *;
    StackIndex(ls, idx);
    var n := Dims(ls[0]);
    var i, rows, j := idx[0], idx[1..n], idx[n];
    assert idx == [i] + rows + [j] == [i] + (rows + [j]);
    ProductAt(ls, i);
    StackedAt(Products(ls), i, rows + [j]);
    StackEntry(ls, i, rows, j);
  }

  // --- cat -------------------------------------------------------------------------------------------------------

  function Heights(ts: seq<Tensor>): (r: seq<nat>)
    requires forall i :: 0 <= i < |ts| ==> ts[i].shape != []
    ensures |r| == |ts|
  {
    seq(|ts|, i requires 0 <= i < |ts| => ts[i].shape[0])
  }

  function Total(sizes: seq<nat>): nat {
    if sizes == [] then 0 else sizes[0] + Total(sizes[1..])
  }

  /** Which part a position falls into, and where in it. */
  function Locate(sizes: seq<nat>, x: nat): (r: (nat, nat))
    requires x < Total(sizes)
    ensures r.0 < |sizes| && r.1 < sizes[r.0]
  {
    if x < sizes[0] then (0, x)
    else var (w, y) := Locate(sizes[1..], x - sizes[0]); (w + 1, y)
  }

  function Cat(ts: seq<Tensor>): Result<Tensor, Error> {
    if ts == [] || ts[0].shape == [] then Err(TorchError)
    else if exists i :: 0 <= i < |ts| && (ts[i].shape == [] || ts[i].shape[1..] != ts[0].shape[1..]) then Err(TorchError)
    else Ok(Joined(ts))
  }

  function Joined(ts: seq<Tensor>): Tensor
    requires ts != [] && forall i :: 0 <= i < |ts| ==> ts[i].shape != []
  {
    var sizes := Heights(ts);
    Tensor([Total(sizes)] + ts[0].shape[1..],
      idx => if idx != [] && idx[0] < Total(sizes)
             then ts[Locate(sizes, idx[0]).0].at([Locate(sizes, idx[0]).1] + idx[1..]) else 0.0)
  }

  ghost function LoraCat(ls: seq<Lora>): Result<Lora, Error> {
    if ls == [] then Err(IndexOutOfRange)
    else if Dims(ls[0]) > 2 then
      var a :- Cat(As(ls));
      var b :- Cat(Bs(ls));
      Init(a, b)
    else if forall i :: 0 < i < |ls| ==> Same(ls[0].a, ls[i].a) then
      var b :- Cat(Bs(ls));
      Init(ls[0].a, b)
    else Err(NotImplemented)
  }

  /** Every part has the shape of the first, up to the first dimension. */
  ghost predicate Stackable(ls: seq<Lora>) {
    ls != [] && AllFormed(ls) &&
    forall i :: 0 <= i < |ls| ==>
      Broadcasts(ls[i]) && Dims(ls[i]) == Dims(ls[0]) &&
      ls[i].a.shape[1..] == ls[0].a.shape[1..] && ls[i].b.shape[1..] == ls[0].b.shape[1..]
  }

  /** No part broadcasts A in the dimension that is joined. */
  ghost predicate OwnHeights(ls: seq<Lora>)
    requires AllFormed(ls)
  {
    forall i :: 0 <= i < |ls| ==> ls[i].a.shape[0] == ls[i].b.shape[0]
  }

  /** The rows of the joined A belong to those of the joined B: no part broadcasts A, or there is one row of A in all. */
  ghost predicate LinedUp(ls: seq<Lora>)
    requires AllFormed(ls)
  {
    OwnHeights(ls) || Total(Heights(As(ls))) == 1
  }

  /** What a successful join of factors above two dimensions is. */
  lemma CatFactors(ls: seq<Lora>)
    requires AllFormed(ls) && ls != [] && Dims(ls[0]) > 2 && LoraCat(ls).Ok?
    ensures LoraCat(ls).value == Lora(Joined(As(ls)), Joined(Bs(ls)))
    ensures forall i :: 0 <= i < |ls| ==>
      Dims(ls[i]) == Dims(ls[0]) && ls[i].a.shape[1..] == ls[0].a.shape[1..] && ls[i].b.shape[1..] == ls[0].b.shape[1..]
  {
    hide Joined, Same;
    forall i | 0 <= i < |ls|
      ensures Dims(ls[i]) == Dims(ls[0])
      ensures ls[i].a.shape[1..] == ls[0].a.shape[1..] && ls[i].b.shape[1..] == ls[0].b.shape[1..]
    {
      assert As(ls)[i].shape[1..] == As(ls)[0].shape[1..] && Bs(ls)[i].shape[1..] == Bs(ls)[0].shape[1..];
      assert |Bs(ls)[i].shape[1..]| == |Bs(ls)[0].shape[1..]|;
    }
  }

  lemma {:induction false} CatHeights(ls: seq<Lora>)
    requires AllFormed(ls)
    ensures Heights(Bs(ls)) == Heights(Products(ls))
    ensures OwnHeights(ls) ==> Heights(As(ls)) == Heights(Bs(ls))
  {
    hide Dense, ShapeOf, OwnHeights;
    var n := |ls|;
    assert |As(ls)| == |Bs(ls)| == |Products(ls)| == n;
    forall i | 0 <= i < n
      ensures Products(ls)[i].shape != [] && Products(ls)[i].shape[0] == Bs(ls)[i].shape[0]
    {
      FirstRow(ls[i]);
    }
    if OwnHeights(ls) {
      OwnIsSameHeights(ls);
    }
  }

  lemma FirstRow(l: Lora)
    requires Formed(l)
    ensures Dense(l).shape != [] && Dense(l).shape[0] == l.b.shape[0]
  {
  }

  lemma TailOfProduct(l: Lora)
    requires Formed(l) && Dims(l) > 2
    ensures Dense(l).shape[1..] == l.b.shape[1..][..Dims(l) - 2] + [l.a.shape[1..][Dims(l) - 2]]
  {
    assert Rows(l)[1..] == l.b.shape[1..][..Dims(l) - 2];
  }

  lemma CatFactorShapes(ls: seq<Lora>)
    requires AllFormed(ls) && ls != [] && Dims(ls[0]) > 2 && LoraCat(ls).Ok?
    ensures var l := LoraCat(ls).value;
            l.a.shape == [Total(Heights(As(ls)))] + ls[0].a.shape[1..] && l.b.shape == [Total(Heights(Bs(ls)))] + ls[0].b.shape[1..]
  {
    hide LoraCat, Total;
    CatFactors(ls);
  }

  lemma CatTails(ls: seq<Lora>)
    requires AllFormed(ls) && ls != [] && Dims(ls[0]) > 2 && LoraCat(ls).Ok?
    ensures forall i :: 0 <= i < |ls| ==> Products(ls)[i].shape != [] && Products(ls)[i].shape[1..] == ShapeOf(ls[0])[1..]
  {
    hide LoraCat, Dense;
    CatFactors(ls);
    forall i | 0 <= i < |ls|
      ensures Products(ls)[i].shape != [] && Products(ls)[i].shape[1..] == ShapeOf(ls[0])[1..]
    {
      TailOfProduct(ls[i]);
      TailOfProduct(ls[0]);
    }
  }

  lemma CatProducts(ls: seq<Lora>)
    requires AllFormed(ls) && ls != [] && Dims(ls[0]) > 2 && LoraCat(ls).Ok?
    ensures Cat(Products(ls)) == Ok(Joined(Products(ls)))
    ensures Joined(Products(ls)).shape == [Total(Heights(Bs(ls)))] + ShapeOf(ls[0])[1..]
  {
    hide LoraCat, Total, OwnHeights, Products, Dense, Rows, AllFormed, Formed;
    CatTails(ls);
    CatHeights(ls);
  }

  /** The joined factors broadcast exactly if there is one row of A or as many as of B. */
  lemma CatBroadcastsIff(ls: seq<Lora>)
    requires AllFormed(ls) && ls != [] && Dims(ls[0]) > 2 && LoraCat(ls).Ok? && Broadcasts(ls[0])
    ensures Broadcasts(LoraCat(ls).value)
       <==> Total(Heights(As(ls))) == 1 || Total(Heights(As(ls))) == Total(Heights(Bs(ls)))
  {
    hide LoraCat, Total, Broadcasts;
    CatFactors(ls);
    CatFactorShapes(ls);
    ShapesFollow(LoraCat(ls).value, ls[0], Total(Heights(As(ls))), Total(Heights(Bs(ls))));
  }

  lemma CatShapes(ls: seq<Lora>)
    requires AllFormed(ls) && ls != [] && Dims(ls[0]) > 2 && LoraCat(ls).Ok?
    requires LinedUp(ls) && forall i :: 0 <= i < |ls| ==> Broadcasts(ls[i])
    ensures var l := LoraCat(ls).value;
            Broadcasts(l) && Rank(l) == Rank(ls[0]) && Dims(l) == Dims(ls[0]) && Stackable(ls) &&
            ShapeOf(l) == [Total(Heights(Bs(ls)))] + ShapeOf(ls[0])[1..]
  {
    hide LoraCat, Total, Dense, OwnHeights, Broadcasts, ShapeOf;
    CatFactors(ls);
    CatFactorShapes(ls);
    CatHeights(ls);
    ShapesFollow(LoraCat(ls).value, ls[0], Total(Heights(As(ls))), Total(Heights(Bs(ls))));
  }

  /** Factors that differ from broadcasting ones in the first dimension only. */
  lemma ShapesFollow(l: Lora, first: Lora, ha: nat, hb: nat)
    requires Formed(l) && Broadcasts(first) && Dims(first) > 2
    requires l.a.shape == [ha] + first.a.shape[1..] && l.b.shape == [hb] + first.b.shape[1..]
    ensures Broadcasts(l) <==> ha == 1 || ha == hb
    ensures Rank(l) == Rank(first) && Dims(l) == Dims(first) && ShapeOf(l) == [hb] + ShapeOf(first)[1..]
  {
    var n := Dims(first);
    assert l.a.shape[0] == ha && l.b.shape[0] == hb;
    assert forall i :: 0 < i < n ==> l.a.shape[i] == first.a.shape[i] && l.b.shape[i] == first.b.shape[i];
  }

  lemma JoinedAt(ts: seq<Tensor>, x: nat, idx: Index)
    requires ts != [] && (forall i :: 0 <= i < |ts| ==> ts[i].shape != []) && x < Total(Heights(ts))
    ensures Joined(ts).at([x] + idx) == ts[Locate(Heights(ts), x).0].at([Locate(Heights(ts), x).1] + idx)
  {
    assert ([x] + idx)[1..] == idx;
  }

  lemma CatPart(ts: seq<Tensor>, x: nat, idx: Index, more: Index, w: nat, y: nat)
    requires ts != [] && (forall i :: 0 <= i < |ts| ==> ts[i].shape != []) && x < Total(Heights(ts))
    requires (w, y) == Locate(Heights(ts), x)
    ensures Joined(ts).at([x] + idx + more) == ts[w].at([y] + idx + more)
  {
    JoinedAt(ts, x, idx + more);
    hide *;
    assert [x] + idx + more == [x] + (idx + more) && [y] + idx + more == [y] + (idx + more);
  }

  lemma PartsHaveHeights(ls: seq<Lora>)
    requires AllFormed(ls)
    ensures forall i :: 0 <= i < |ls| ==> As(ls)[i].shape != [] && Bs(ls)[i].shape != [] && As(ls)[i] == ls[i].a && Bs(ls)[i] == ls[i].b
  {
  }

  /** With one row in all, it is the one of the only part that has any. */
  lemma {:induction false} LocateOnly(sizes: seq<nat>, w: nat)
    requires Total(sizes) == 1 && w < |sizes| && sizes[w] > 0
    ensures sizes[w] == 1 && Locate(sizes, 0) == (w, 0)
    decreases w
  {
    if w > 0 {
      PartOfTotal(sizes[1..], w - 1);
      LocateOnly(sizes[1..], w - 1);
    } else {
      assert sizes[0] + Total(sizes[1..]) == 1;
    }
  }

  lemma {:induction false} PartOfTotal(sizes: seq<nat>, w: nat)
    requires w < |sizes|
    ensures sizes[w] <= Total(sizes)
    decreases w
  {
    if w > 0 {
      PartOfTotal(sizes[1..], w - 1);
    }
  }

  /** Which row of the joined A is read for the row `x` of the joined B. */
  lemma {:induction false} CatWhere(ls: seq<Lora>, x: nat, w: nat, y: nat)
    requires Stackable(ls) && LinedUp(ls) && Dims(ls[0]) > 2
    requires x < Total(Heights(Bs(ls))) && (w, y) == Locate(Heights(Bs(ls)), x)
    ensures w < |ls| && y < ls[w].b.shape[0]
    ensures var h := Total(Heights(As(ls))); var x' := if h == 1 then 0 else x;
            x' < h && Locate(Heights(As(ls)), x') == (w, if ls[w].a.shape[0] == 1 then 0 else y)
  {
    hide Locate, Total, Products;
    CatHeights(ls);
    assert Heights(As(ls))[w] == ls[w].a.shape[0] && Heights(Bs(ls))[w] == ls[w].b.shape[0];
    assert ls[w].a.shape[0] == 1 || ls[w].a.shape[0] == ls[w].b.shape[0];
    if Total(Heights(As(ls))) == 1 {
      LocateOnly(Heights(As(ls)), w);
    }
  }

  lemma CatTerm(ls: seq<Lora>, x: nat, rest: Index, j: nat, k: nat, w: nat, y: nat)
    requires Stackable(ls) && Dims(ls[0]) > 2 && LinedUp(ls) && |rest| == Dims(ls[0]) - 2
    requires x < Total(Heights(Bs(ls))) && (w, y) == Locate(Heights(Bs(ls)), x)
    requires Formed(Lora(Joined(As(ls)), Joined(Bs(ls))))
    ensures Term(Lora(Joined(As(ls)), Joined(Bs(ls))), [x] + rest, j, k) == Term(ls[w], [y] + rest, j, k)
  {
    hide *;
    var l := CatLead(ls, w);
    CatWhere(ls, x, w, y);
    var lead := Lead(l)[1..];
    PartsHaveHeights(ls);
    AlignFirst(l.a.shape[0], lead, x, rest);
    AlignFirst(ls[w].a.shape[0], lead, y, rest);
    var x', y' := if l.a.shape[0] == 1 then 0 else x, if ls[w].a.shape[0] == 1 then 0 else y;
    CatPart(Bs(ls), x, rest, [k], w, y);
    CatPart(As(ls), x', Align(lead, rest), [k] + [j], w, y');
    TermIs(l, [x] + rest, j, k);
    TermIs(ls[w], [y] + rest, j, k);
    Reassociated(x', Align(lead, rest), k, j);
    Reassociated(y', Align(lead, rest), k, j);
  }

  lemma Reassociated(x: nat, idx: Index, k: nat, j: nat)
    ensures [x] + idx + ([k] + [j]) == [x] + idx + [k] + [j]
  {
  }

  lemma CatLead(ls: seq<Lora>, w: nat) returns (l: Lora)
    requires Stackable(ls) && Dims(ls[0]) > 2 && Formed(Lora(Joined(As(ls)), Joined(Bs(ls)))) && w < |ls|
    ensures ls != [] && AllFormed(ls) && Formed(ls[w]) && Formed(l) && |As(ls)| == |Bs(ls)| == |ls|
    ensures forall i :: 0 <= i < |ls| ==> As(ls)[i].shape != [] && Bs(ls)[i].shape != []
    ensures l == Lora(Joined(As(ls)), Joined(Bs(ls))) && Dims(l) == Dims(ls[w]) == Dims(ls[0])
    ensures |Lead(l)| == Dims(ls[0]) - 2 && l.a.shape != [] && ls[w].a.shape != [] && l.a.shape[0] == Total(Heights(As(ls)))
    ensures Lead(l) == [l.a.shape[0]] + Lead(l)[1..] && Lead(ls[w]) == [ls[w].a.shape[0]] + Lead(l)[1..]
  {
    hide Total, Heights, Joined;
    l := Lora(Joined(As(ls)), Joined(Bs(ls)));
    CatLeads(ls, w);
  }

  lemma CatLeads(ls: seq<Lora>, w: nat)
    requires Stackable(ls) && Dims(ls[0]) > 2 && Formed(Lora(Joined(As(ls)), Joined(Bs(ls)))) && w < |ls|
    ensures var l := Lora(Joined(As(ls)), Joined(Bs(ls))); var n := Dims(ls[0]);
            Dims(l) == Dims(ls[w]) == n && Formed(ls[w]) && AllFormed(ls) && |Lead(l)| == n - 2 &&
            l.a.shape[0] == Total(Heights(As(ls))) &&
            Lead(l) == [l.a.shape[0]] + Lead(l)[1..] && Lead(ls[w]) == [ls[w].a.shape[0]] + Lead(l)[1..]
  {
    hide Total, Products;
    var l := Lora(Joined(As(ls)), Joined(Bs(ls)));
    var n := Dims(ls[0]);
    assert l.a.shape[1..] == ls[0].a.shape[1..] == ls[w].a.shape[1..];
    assert Lead(l)[1..] == l.a.shape[1..][..n - 3] && Lead(ls[w])[1..] == ls[w].a.shape[1..][..n - 3];
  }

  lemma CatEntry(ls: seq<Lora>, x: nat, rest: Index, j: nat)
    requires AllFormed(ls) && ls != [] && Dims(ls[0]) > 2 && LoraCat(ls).Ok?
    requires LinedUp(ls) && forall i :: 0 <= i < |ls| ==> Broadcasts(ls[i])
    requires x < Total(Heights(Bs(ls))) && |rest| == Dims(ls[0]) - 2
    ensures var (w, y) := Locate(Heights(Bs(ls)), x);
            Formed(LoraCat(ls).value) &&
            Dense(LoraCat(ls).value).at([x] + rest + [j]) == Dense(ls[w]).at([y] + rest + [j])
  {
    hide Term, Entry, Total, LoraCat, Cat, LinedUp, Joined, Dense;
    CatFactors(ls);
    CatShapes(ls);
    var l := LoraCat(ls).value;
    var (w, y) := Locate(Heights(Bs(ls)), x);
    var n := Dims(ls[0]);
    assert ls[w].b.shape[1..][n - 2] == ls[0].b.shape[1..][n - 2];
    forall k: nat | k < Rank(l)
      ensures Term(l, [x] + rest, j, k) == Term(ls[w], [y] + rest, j, k)
    {
      CatTerm(ls, x, rest, j, k, w, y);
    }
    EntriesAgree(l, [x] + rest, j, ls[w], [y] + rest, j);
    DenseAt(l, [x] + rest, j);
    DenseAt(ls[w], [y] + rest, j);
  }

  /** Above two dimensions, joining the factors joins the dense products. */
  lemma CatCommutes(ls: seq<Lora>)
    requires AllFormed(ls) && ls != [] && Dims(ls[0]) > 2 && LoraCat(ls).Ok?
    requires LinedUp(ls) && forall i :: 0 <= i < |ls| ==> Broadcasts(ls[i])
    ensures Broadcasts(LoraCat(ls).value) && Cat(Products(ls)).Ok?
    ensures Same(Dense(LoraCat(ls).value), Cat(Products(ls)).value)
  {
    CatShapes(ls);
    CatProducts(ls);
    hide LoraCat, Cat, LinedUp, Dense, Joined, AllFormed, Broadcasts, Inside, ShapeOf, Stackable;
    forall idx | Inside(idx, ShapeOf(LoraCat(ls).value))
      ensures Dense(LoraCat(ls).value).at(idx) == Joined(Products(ls)).at(idx)
    {
      CatAt(ls, idx);
    }
  }

  lemma CatIndex(ls: seq<Lora>, idx: Index)
    requires AllFormed(ls) && ls != [] && Dims(ls[0]) > 2 && LoraCat(ls).Ok?
    requires LinedUp(ls) && forall i :: 0 <= i < |ls| ==> Broadcasts(ls[i])
    requires Formed(LoraCat(ls).value) && Inside(idx, ShapeOf(LoraCat(ls).value))
    ensures |idx| == Dims(ls[0]) && idx[0] < Total(Heights(Bs(ls))) && Heights(Products(ls)) == Heights(Bs(ls))
  {
    CatShapes(ls);
    CatHeights(ls);
    hide LoraCat, Total, LinedUp, Stackable, Broadcasts, Products;
  }

  lemma FactorsHaveRows(ls: seq<Lora>)
    requires AllFormed(ls)
    ensures |Bs(ls)| == |ls| && forall i :: 0 <= i < |Bs(ls)| ==> Bs(ls)[i].shape != []
  {
  }

  lemma CatAt(ls: seq<Lora>, idx: Index)
    requires AllFormed(ls) && ls != [] && Dims(ls[0]) > 2 && LoraCat(ls).Ok?
    requires LinedUp(ls) && forall i :: 0 <= i < |ls| ==> Broadcasts(ls[i])
    requires Formed(LoraCat(ls).value) && Inside(idx, ShapeOf(LoraCat(ls).value))
    ensures Dense(LoraCat(ls).value).at(idx) == Joined(Products(ls)).at(idx)
  {
    hide *;
    CatIndex(ls, idx);
    FactorsHaveRows(ls);
    var n, x := Dims(ls[0]), idx[0];
    var rest, j := idx[1..n - 1], idx[n - 1];
    SplitIndex(idx, n);
    CatEntry(ls, x, rest, j);
    ProductsHaveRows(ls);
    JoinedAt(Products(ls), x, rest + [j]);
    var (w, y) := Locate(Heights(Bs(ls)), x);
    assert [y] + (rest + [j]) == [y] + rest + [j];
    assert Products(ls)[w] == Dense(ls[w]) by {
      ProductAt(ls, w);
    }
  }

  lemma SplitIndex(idx: Index, n: nat)
    requires |idx| == n > 2
    ensures idx == [idx[0]] + idx[1..n - 1] + [idx[n - 1]] == [idx[0]] + (idx[1..n - 1] + [idx[n - 1]])
  {
  }

  lemma ProductsHaveRows(ls: seq<Lora>)
    requires AllFormed(ls)
    ensures forall i :: 0 <= i < |ls| ==> Formed(ls[i]) && Products(ls)[i].shape != []
  {
  }

  lemma ProductAt(ls: seq<Lora>, w: nat)
    requires AllFormed(ls) && w < |ls|
    ensures (forall i :: 0 <= i < |ls| ==> Formed(ls[i])) && Products(ls)[w] == Dense(ls[w])
  {
  }

  // --- Parts whose A is broadcast ---------------------------------------------------------------------------------

  lemma {:induction false} TotalsCompare(a: seq<nat>, b: seq<nat>)
    requires |a| == |b| && forall i :: 0 <= i < |a| ==> a[i] <= b[i]
    ensures Total(a) <= Total(b)
    ensures Total(a) == Total(b) ==> a == b
  {
    if a != [] {
      TotalsCompare(a[1..], b[1..]);
      assert a == [a[0]] + a[1..] && b == [b[0]] + b[1..];
    }
  }

  /** No part broadcasts A over no row at all. */
  ghost predicate NoneOverNothing(ls: seq<Lora>)
    requires AllFormed(ls)
  {
    forall i :: 0 <= i < |ls| && ls[i].b.shape[0] == 0 ==> ls[i].a.shape[0] == 0
  }

  lemma OwnIsSameHeights(ls: seq<Lora>)
    requires AllFormed(ls)
    ensures OwnHeights(ls) <==> Heights(As(ls)) == Heights(Bs(ls))
  {
    if Heights(As(ls)) == Heights(Bs(ls)) {
      forall i | 0 <= i < |ls|
        ensures ls[i].a.shape[0] == ls[i].b.shape[0]
      {
        assert Heights(As(ls))[i] == Heights(Bs(ls))[i];
      }
    }
  }

  /** Parts that do not line up: the joined A is too short. */
  lemma CatTooShort(ls: seq<Lora>)
    requires AllFormed(ls) && ls != [] && Dims(ls[0]) > 2 && LoraCat(ls).Ok? && NoneOverNothing(ls)
    requires !LinedUp(ls) && forall i :: 0 <= i < |ls| ==> Broadcasts(ls[i])
    ensures !Broadcasts(LoraCat(ls).value)
  {
    hide LoraCat, Total, OwnHeights;
    CatFactors(ls);
    CatBroadcastsIff(ls);
    OwnIsSameHeights(ls);
    PartHeights(ls);
    TotalsCompare(Heights(As(ls)), Heights(Bs(ls)));
  }

  lemma PartHeights(ls: seq<Lora>)
    requires AllFormed(ls) && NoneOverNothing(ls) && (forall i :: 0 <= i < |ls| ==> Broadcasts(ls[i]) && Dims(ls[i]) > 2)
    ensures forall i :: 0 <= i < |ls| ==> Heights(As(ls))[i] <= Heights(Bs(ls))[i]
  {
  }

  /** Above two dimensions, parts none of which broadcasts A over nothing are joined correctly exactly if none broadcasts A in the
      joined dimension, or there is one row of A in all, as in a single part. */
  lemma CatCommutesIff(ls: seq<Lora>)
    requires AllFormed(ls) && ls != [] && Dims(ls[0]) > 2 && LoraCat(ls).Ok? && NoneOverNothing(ls)
    requires forall i :: 0 <= i < |ls| ==> Broadcasts(ls[i])
    ensures Broadcasts(LoraCat(ls).value) && Cat(Products(ls)).Ok? && Same(Dense(LoraCat(ls).value), Cat(Products(ls)).value)
       <==> OwnHeights(ls) || Total(Heights(As(ls))) == 1
  {
    hide LoraCat, Cat, Same, Broadcasts, OwnHeights, NoneOverNothing, Products, Dense, Total;
    if LinedUp(ls) {
      CatCommutes(ls);
    } else {
      CatTooShort(ls);
    }
  }

  /** A column of ones whose A is broadcast over its rows. */
  function Over(rows: nat, factor: real): Lora {
    Lora(Tensor([1, 1, 1], _ => factor), Tensor([rows, 1, 1], _ => 1.0))
  }

  lemma TwoJoined(rows: nat, factor: real, rows': nat, factor': real)
    ensures var ls := [Over(rows, factor), Over(rows', factor')];
            AllFormed(ls) && LoraCat(ls).Ok? && (forall i :: 0 <= i < |ls| ==> Broadcasts(ls[i]))
    ensures var ls := [Over(rows, factor), Over(rows', factor')];
            Heights(As(ls)) == [1, 1] && Total([1, 1]) == 2 && Heights(Bs(ls)) == [rows, rows'] && Total([rows, rows']) == rows + rows'
  {
    hide Total, Over, Broadcasts;
    var ls := [Over(rows, factor), Over(rows', factor')];
    OverShape(rows, factor);
    OverShape(rows', factor');
    TotalOfTwo(1, 1);
    TotalOfTwo(rows, rows');
    CatOfTwo(As(ls), 1, 1);
    CatOfTwo(Bs(ls), rows, rows');
  }

  lemma CatOfTwo(ts: seq<Tensor>, a: nat, b: nat)
    requires |ts| == 2 && ts[0].shape == [a, 1, 1] && ts[1].shape == [b, 1, 1]
    ensures Cat(ts).Ok? && Cat(ts).value.shape == [Total([a, b]), 1, 1] && Heights(ts) == [a, b]
  {
    hide Total;
    assert ts[0].shape[1..] == [1, 1] == ts[1].shape[1..];
    assert Heights(ts) == [a, b];
  }

  lemma TotalOfTwo(a: nat, b: nat)
    ensures Total([a, b]) == a + b
  {
    assert [a, b][1..] == [b] && [b][1..] == [];
    assert Total([b]) == b + Total([]);
  }

  /** Two parts of three rows each, over which A is broadcast, are accepted, and no longer broadcast. */
  lemma JoinedTooShort()
    ensures var ls := [Over(3, 1.0), Over(3, 1.0)];
            AllFormed(ls) && NoneOverNothing(ls) && (forall i :: 0 <= i < |ls| ==> Broadcasts(ls[i])) && LoraCat(ls).Ok? &&
            !Broadcasts(LoraCat(ls).value)
  {
    var ls := [Over(3, 1.0), Over(3, 1.0)];
    TwoJoined(3, 1.0, 3, 1.0);
    hide LoraCat, Broadcasts, Total, Heights, As, Bs;
    CatBroadcastsIff(ls);
  }

  /** The first entry of three-dimensional factors of rank one. */
  lemma FirstEntry(l: Lora, a: real, b: real)
    requires Formed(l) && Dims(l) == 3 && Rank(l) == 1 && l.a.at([0, 0, 0]) == a && l.b.at([0, 0, 0]) == b
    ensures Dense(l).at([0, 0, 0]) == b * a
  {
    assert [0, 0] + [0] == [0, 0, 0] && [0] + [0] + [0] == [0, 0, 0];
    assert Align(Lead(l), [0, 0]) == [0];
    TermIs(l, [0, 0], 0, 0);
    DenseAt(l, [0, 0], 0);
    assert Entry(l, [0, 0], 0) == Sum(1, (k: nat) => Term(l, [0, 0], 0, k));
  }

  /** A part that broadcasts A over no row at all: its row of A is paired with the first row of the next part. The joined factors
      broadcast, and have the wrong product. */
  lemma JoinedOverNothing()
    ensures var ls := [Over(0, 2.0), Over(2, 1.0)];
            AllFormed(ls) && (forall i :: 0 <= i < |ls| ==> Broadcasts(ls[i])) && LoraCat(ls).Ok? &&
            Broadcasts(LoraCat(ls).value) && Cat(Products(ls)).Ok? && !Same(Dense(LoraCat(ls).value), Cat(Products(ls)).value)
  {
    hide *;
    var ls := [Over(0, 2.0), Over(2, 1.0)];
    TwoJoined(0, 2.0, 2, 1.0);
    OverShape(0, 2.0);
    OverShape(2, 1.0);
    CatBroadcastsIff(ls);
    CatFactors(ls);
    CatFactorShapes(ls);
    CatProducts(ls);
    var l := LoraCat(ls).value;
    TwoFirst(ls);
    CubeShape(l, 2, 2);
    FirstEntry(l, 2.0, 1.0);
    FirstEntry(ls[1], 1.0, 1.0);
    NotSame(Dense(l), Cat(Products(ls)).value, [0, 0, 0]);
  }

  lemma OverShape(rows: nat, factor: real)
    ensures var l := Over(rows, factor);
            l.a.shape == [1, 1, 1] && l.b.shape == [rows, 1, 1] && Formed(l) && Dims(l) == 3 && Rank(l) == 1 && Broadcasts(l) &&
            l.a.at([0, 0, 0]) == factor && l.b.at([0, 0, 0]) == 1.0
    ensures [1, 1, 1][1..] == [1, 1] == [rows, 1, 1][1..]
  {
  }

  lemma CubeShape(l: Lora, ha: nat, hb: nat)
    requires Broadcasts(l) && l.a.shape == [ha] + [1, 1] && l.b.shape == [hb] + [1, 1] && hb > 0
    ensures Formed(l) && Dims(l) == 3 && Rank(l) == 1 && Inside([0, 0, 0], Dense(l).shape)
  {
  }

  lemma NotSame(a: Tensor, b: Tensor, idx: Index)
    requires Inside(idx, a.shape) && a.at(idx) != b.at(idx)
    ensures !Same(a, b)
  {
  }

  /** What the joined tensors hold first. */
  lemma TwoFirst(ls: seq<Lora>)
    requires ls == [Over(0, 2.0), Over(2, 1.0)] && AllFormed(ls)
    ensures As(ls) != [] && Bs(ls) != [] && Products(ls) != []
    ensures forall i :: 0 <= i < |ls| ==> As(ls)[i].shape != [] && Bs(ls)[i].shape != [] && Products(ls)[i].shape != []
    ensures Joined(As(ls)).at([0, 0, 0]) == 2.0 && Joined(Bs(ls)).at([0, 0, 0]) == 1.0
    ensures Joined(Products(ls)).at([0, 0, 0]) == Dense(ls[1]).at([0, 0, 0])
  {
    hide Joined, Dense, Total;
    TwoJoined(0, 2.0, 2, 1.0);
    CatHeights(ls);
    assert [0] + [0, 0] == [0, 0, 0];
    FirstOfTwo([1, 1]);
    FirstOfTwo([0, 2]);
    JoinedAt(As(ls), 0, [0, 0]);
    JoinedAt(Bs(ls), 0, [0, 0]);
    JoinedAt(Products(ls), 0, [0, 0]);
  }

  lemma FirstOfTwo(sizes: seq<nat>)
    requires |sizes| == 2 && sizes[0] + sizes[1] > 0
    ensures 0 < Total(sizes) && Locate(sizes, 0) == if sizes[0] > 0 then (0, 0) else (1, 0)
  {
    assert sizes[1..] == [sizes[1]];
    TotalOfTwo(sizes[0], sizes[1]);
    assert sizes == [sizes[0], sizes[1]];
  }

  lemma {:induction false} CatRowsTerm(ls: seq<Lora>, x: nat, j: nat, k: nat)
    requires ls != [] && AllFormed(ls) && (forall i :: 0 <= i < |ls| ==> Dims(ls[i]) == 2 && Same(ls[0].a, ls[i].a))
    requires x < Total(Heights(Bs(ls))) && Formed(Lora(ls[0].a, Joined(Bs(ls))))
    requires k < Rank(ls[0]) && j < Columns(ls[0])
    ensures var (w, y) := Locate(Heights(Bs(ls)), x);
            Term(Lora(ls[0].a, Joined(Bs(ls))), [x], j, k) == Term(ls[w], [y], j, k)
  {
    hide Locate, Total, Term, Joined, Dense;
    var l := Lora(ls[0].a, Joined(Bs(ls)));
    var (w, y) := Locate(Heights(Bs(ls)), x);
    JoinedAt(Bs(ls), x, [k]);
    assert Align(Lead(l), [x]) == [] && Align(Lead(ls[w]), [y]) == [];
    assert Inside([] + [k] + [j], ls[0].a.shape);
    TermIs(l, [x], j, k);
    TermIs(ls[w], [y], j, k);
  }

  /** What a successful join of matrices is. */
  lemma CatRowsFactors(ls: seq<Lora>)
    requires AllFormed(ls) && ls != [] && (forall i :: 0 <= i < |ls| ==> Dims(ls[i]) == 2) && LoraCat(ls).Ok?
    ensures var l := LoraCat(ls).value;
            l == Lora(ls[0].a, Joined(Bs(ls))) && Broadcasts(l) && Rank(l) == Rank(ls[0]) &&
            ShapeOf(l) == [Total(Heights(Bs(ls))), Columns(ls[0])]
    ensures forall i :: 0 <= i < |ls| ==> Same(ls[0].a, ls[i].a)
    ensures Heights(Products(ls)) == Heights(Bs(ls)) && Cat(Products(ls)) == Ok(Joined(Products(ls)))
    ensures Joined(Products(ls)).shape == [Total(Heights(Bs(ls))), Columns(ls[0])]
  {
    hide Total, Dense;
    assert Heights(Products(ls)) == Heights(Bs(ls));
    forall i | 0 <= i < |ls|
      ensures Same(ls[0].a, ls[i].a) && Products(ls)[i].shape[1..] == [Columns(ls[0])]
    {
      assert ls[i].a.shape == ls[0].a.shape;
    }
    assert Joined(Bs(ls)).shape == [Total(Heights(Bs(ls)))] + ls[0].b.shape[1..];
  }

  /** Matrices with equal A are joined by joining B. */
  lemma CatRowsCommutes(ls: seq<Lora>)
    requires AllFormed(ls) && ls != [] && (forall i :: 0 <= i < |ls| ==> Dims(ls[i]) == 2) && LoraCat(ls).Ok?
    ensures Broadcasts(LoraCat(ls).value) && Cat(Products(ls)).Ok?
    ensures Same(Dense(LoraCat(ls).value), Cat(Products(ls)).value)
  {
    CatRowsFactors(ls);
    hide Term, Entry, Locate, Total, LoraCat, Cat, Dense, Joined, Broadcasts, AllFormed;
    forall idx | Inside(idx, ShapeOf(LoraCat(ls).value))
      ensures Dense(LoraCat(ls).value).at(idx) == Joined(Products(ls)).at(idx)
    {
      CatRowsAt(ls, idx);
    }
  }

  lemma CatRowsIndex(ls: seq<Lora>, idx: Index)
    requires AllFormed(ls) && ls != [] && (forall i :: 0 <= i < |ls| ==> Dims(ls[i]) == 2) && LoraCat(ls).Ok?
    requires Formed(LoraCat(ls).value) && Inside(idx, ShapeOf(LoraCat(ls).value))
    ensures |idx| == 2 && idx[0] < Total(Heights(Bs(ls))) && idx[1] < Columns(ls[0]) && idx == [idx[0]] + [idx[1]]
    ensures Heights(Products(ls)) == Heights(Bs(ls))
  {
    hide *;
    CatRowsFactors(ls);
    FactorsHaveRows(ls);
    ProductsHaveRows(ls);
    InsideTwo(idx, Total(Heights(Bs(ls))), Columns(ls[0]));
  }

  lemma InsideTwo(idx: Index, r: nat, c: nat)
    requires Inside(idx, [r, c])
    ensures |idx| == 2 && idx[0] < r && idx[1] < c && idx == [idx[0]] + [idx[1]]
  {
  }

  lemma CatRowsAt(ls: seq<Lora>, idx: Index)
    requires AllFormed(ls) && ls != [] && (forall i :: 0 <= i < |ls| ==> Dims(ls[i]) == 2) && LoraCat(ls).Ok?
    requires Formed(LoraCat(ls).value) && Inside(idx, ShapeOf(LoraCat(ls).value))
    ensures Dense(LoraCat(ls).value).at(idx) == Joined(Products(ls)).at(idx)
  {
    CatRowsIndex(ls, idx);
    hide *;
    var x, j := idx[0], idx[1];
    CatRowsEntry(ls, x, j);
    ProductsHaveRows(ls);
    JoinedAt(Products(ls), x, [j]);
    ProductAt(ls, Locate(Heights(Bs(ls)), x).0);
  }

  lemma CatRowsAlike(ls: seq<Lora>, w: nat)
    requires AllFormed(ls) && ls != [] && (forall i :: 0 <= i < |ls| ==> Dims(ls[i]) == 2) && LoraCat(ls).Ok? && w < |ls|
    ensures Formed(ls[w]) && Formed(LoraCat(ls).value) && Dims(LoraCat(ls).value) == Dims(ls[w]) == 2
    ensures Rank(LoraCat(ls).value) == Rank(ls[0]) == Rank(ls[w])
  {
    hide Locate, Total, Dense, LoraCat, Cat, Joined;
    CatRowsFactors(ls);
    assert Same(ls[0].a, ls[w].a);
  }

  lemma CatRowsEntry(ls: seq<Lora>, x: nat, j: nat)
    requires AllFormed(ls) && ls != [] && (forall i :: 0 <= i < |ls| ==> Dims(ls[i]) == 2) && LoraCat(ls).Ok?
    requires x < Total(Heights(Bs(ls))) && j < Columns(ls[0])
    ensures var (w, y) := Locate(Heights(Bs(ls)), x);
            Formed(LoraCat(ls).value) && Dense(LoraCat(ls).value).at([x] + [j]) == Dense(ls[w]).at([y] + [j])
  {
    hide Locate, Total, Dense, LoraCat, Cat, Joined, Term, Entry, Rank, Columns, ShapeOf;
    CatRowsFactors(ls);
    var l := LoraCat(ls).value;
    var (w, y) := Locate(Heights(Bs(ls)), x);
    CatRowsAlike(ls, w);
    forall k: nat | k < Rank(l)
      ensures Term(l, [x], j, k) == Term(ls[w], [y], j, k)
    {
      CatRowsTerm(ls, x, j, k);
    }
    EntriesAgree(l, [x], j, ls[w], [y], j);
    DenseAt(l, [x], j);
    DenseAt(ls[w], [y], j);
  }
}
