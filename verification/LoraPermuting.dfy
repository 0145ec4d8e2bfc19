/** Permuting the dimensions of a low-rank tensor permutes its dense product. */
module LoraPermuting {
  import opened Wrappers
  import opened Tensors
  import opened Lora

  lemma FindIn(p: seq<int>, i: nat)
    requires IsPermutation(p, |p|) && i < |p|
    ensures Find(p, p[i]) == i
  {
    var f := Find(p, p[i]);
    assert f <= i;
  }

  /** Counting elements: a permutation reaches every dimension. */
  lemma {:induction false} PermutationOnto(p: seq<int>, n: nat, x: nat)
    requires IsPermutation(p, n) && x < n
    ensures Find(p, x) < n
  {
    if Find(p, x) == n {
      AsMany(p, n);
      forall y | y in Values(p, n)
        ensures y in Below(n) - {x}
      {
        InValues(p, n, y);
      }
      Smaller(Values(p, n), Below(n) - {x});
    }
  }

  lemma Smaller(s: set<int>, t: set<int>)
    requires s <= t
    ensures |s| <= |t|
  {
    assert t == s + (t - s);
  }

  function Below(n: nat): (s: set<int>)
    ensures forall x :: x in s <==> 0 <= x < n
    ensures |s| == n
  {
    if n == 0 then {} else Below(n - 1) + {n - 1}
  }

  /** The first `n` values of `p`. */
  function Values(p: seq<int>, n: nat): set<int>
    requires n <= |p|
  {
    if n == 0 then {} else Values(p, n - 1) + {p[n - 1]}
  }

  lemma {:induction false} InValues(p: seq<int>, n: nat, x: int)
    requires n <= |p|
    ensures x in Values(p, n) <==> exists i :: 0 <= i < n && p[i] == x
  {
    if n > 0 {
      InValues(p, n - 1, x);
    }
  }

  lemma {:induction false} AsMany(p: seq<int>, n: nat)
    requires n <= |p| && forall i, j :: 0 <= i < j < n ==> p[i] != p[j]
    ensures |Values(p, n)| == n
  {
    if n > 0 {
      AsMany(p, n - 1);
      InValues(p, n - 1, p[n - 1]);
    }
  }

  /** With the last dimension in place, the source of an index is the source of its front. */
  lemma ScatterLast(p: seq<int>, n: nat, rows: Index, i: nat)
    requires IsPermutation(p, n + 1) && p[n] == n && |rows| == n
    ensures IsPermutation(p[..n], n)
    ensures Scatter(p, rows + [i]) == Scatter(p[..n], rows) + [i]
  {
    forall k | 0 <= k < n
      ensures p[k] < n
    {
      assert p[k] != p[n];
    }
    FindIn(p, n);
    forall j | 0 <= j < n
      ensures Find(p, j) == Find(p[..n], j) < n
    {
      PermutationOnto(p[..n], n, j);
      FindIn(p, Find(p[..n], j));
    }
  }

  lemma KeepLastTerm(l: Lora, p: seq<int>, rows: Index, j: nat, k: nat)
    requires Formed(l) && IsPermutation(p, Dims(l)) && p[Dims(l) - 1] == Dims(l) - 1 && AllOnes(Lead(l))
    requires Formed(Lora(l.a, Permuted(l.b, p))) && |rows| == Dims(l) - 1
    ensures Term(Lora(l.a, Permuted(l.b, p)), rows, j, k) == Term(l, Scatter(p[..Dims(l) - 1], rows), j, k)
  {
    var n := Dims(l) - 1;
    var source := Scatter(p[..n], rows);
    ScatterLast(p, n, rows, k);
    AlignOnes(Lead(l), rows);
    AlignOnes(Lead(l), source);
  }

  /** Permutations that keep the columns last. */
  lemma KeepLastCommutes(l: Lora, p: seq<int>)
    requires Formed(l) && IsPermutation(p, Dims(l)) && p[Dims(l) - 1] == Dims(l) - 1 && AllOnes(Lead(l))
    ensures var l' := Lora(l.a, Permuted(l.b, p));
            Broadcasts(l') && Same(Dense(l'), Permuted(Dense(l), p))
  {
    hide Term, Entry, Scatter, Find, Dense, Inside, Permuted, IsPermutation, AllOnes, Broadcasts;
    PermutedShape(l, p);
    forall idx | Inside(idx, ShapeOf(Lora(l.a, Permuted(l.b, p))))
      ensures Dense(Lora(l.a, Permuted(l.b, p))).at(idx) == Permuted(Dense(l), p).at(idx)
    {
      KeepLastAt(l, p, idx);
    }
  }

  lemma KeepLastAt(l: Lora, p: seq<int>, idx: Index)
    requires Formed(l) && IsPermutation(p, Dims(l)) && p[Dims(l) - 1] == Dims(l) - 1 && AllOnes(Lead(l))
    requires Formed(Lora(l.a, Permuted(l.b, p))) && Inside(idx, ShapeOf(Lora(l.a, Permuted(l.b, p))))
    ensures Dense(Lora(l.a, Permuted(l.b, p))).at(idx) == Permuted(Dense(l), p).at(idx)
  {
    hide Term, Entry, Scatter, Find, Dense, AllOnes;
    var l' := Lora(l.a, Permuted(l.b, p));
    var n := Dims(l) - 1;
    PermutedShape(l, p);
    var rows, j := idx[..n], idx[n];
    assert idx == rows + [j];
    ScatterLast(p, n, rows, j);
    var source := Scatter(p[..n], rows);
    forall k: nat | k < Rank(l)
      ensures Term(l', rows, j, k) == Term(l, source, j, k)
    {
      KeepLastTerm(l, p, rows, j, k);
    }
    EntriesAgree(l', rows, j, l, source, j);
    DenseAt(l', rows, j);
    DenseAt(l, source, j);
  }

  lemma PermutedShape(l: Lora, p: seq<int>)
    requires Formed(l) && IsPermutation(p, Dims(l)) && p[Dims(l) - 1] == Dims(l) - 1 && AllOnes(Lead(l))
    ensures var l' := Lora(l.a, Permuted(l.b, p));
            Formed(l') && Broadcasts(l') && Rank(l') == Rank(l) && ShapeOf(l') == Permuted(Dense(l), p).shape
  {
    hide Scatter, AllOnes, Dense;
    var l', n := Lora(l.a, Permuted(l.b, p)), Dims(l) - 1;
    assert l'.b.shape[n] == l.b.shape[n] && ShapeOf(l') == l'.b.shape[..n] + [Columns(l)];
    OnesBroadcast(l', Lead(l));
    assert forall i :: 0 <= i < n ==> p[i] != p[n] && p[i] < n;
  }

  lemma OnesBroadcast(l: Lora, lead: Shape)
    requires Formed(l) && lead == Lead(l) && AllOnes(lead)
    ensures Broadcasts(l)
  {
    assert forall i :: 0 <= i < Dims(l) - 2 ==> l.a.shape[i] == lead[i];
  }

  /** The transpose of a matrix swaps the factors. */
  lemma SwapTerm(l: Lora, i: nat, j: nat, k: nat)
    requires Formed(l) && Dims(l) == 2 && Formed(Lora(Permuted(l.b, [1, 0]), Permuted(l.a, [1, 0])))
    ensures Term(Lora(Permuted(l.b, [1, 0]), Permuted(l.a, [1, 0])), [j], i, k) == Term(l, [i], j, k)
  {
    var l' := Lora(Permuted(l.b, [1, 0]), Permuted(l.a, [1, 0]));
    SwapSource(j, k);
    SwapSource(k, i);
    assert Align(Lead(l), [i]) == [] && Align(Lead(l'), [j]) == [];
    assert [j] + [k] == [j, k] && [i] + [k] == [i, k] && [] + [k] + [i] == [k, i] && [] + [k] + [j] == [k, j];
  }

  lemma SwapSource(x: nat, y: nat)
    ensures Scatter([1, 0], [x, y]) == [y, x]
  {
    assert Find([1, 0], 1) == 0;
    assert [1, 0][1..] == [0] && Find([0], 0) == 0 && Find([1, 0], 0) == 1;
  }

  lemma SwapCommutes(l: Lora)
    requires Formed(l) && Dims(l) == 2
    ensures var l' := Lora(Permuted(l.b, [1, 0]), Permuted(l.a, [1, 0]));
            Broadcasts(l') && Same(Dense(l'), Permuted(Dense(l), [1, 0]))
  {
    var l' := Lora(Permuted(l.b, [1, 0]), Permuted(l.a, [1, 0]));
    hide Term, Entry, Scatter, Find;
    forall idx | Inside(idx, ShapeOf(l'))
      ensures Dense(l').at(idx) == Permuted(Dense(l), [1, 0]).at(idx)
    {
      var j, i := idx[0], idx[1];
      assert idx == [j, i] == [j] + [i] && [i, j] == [i] + [j];
      SwapSource(j, i);
      forall k: nat | k < Rank(l)
        ensures Term(l', [j], i, k) == Term(l, [i], j, k)
      {
        SwapTerm(l, i, j, k);
      }
      EntriesAgree(l', [j], i, l, [i], j);
      DenseAt(l', [j], i);
      DenseAt(l, [i], j);
    }
  }

  lemma PermuteInRange(l: Lora, dims: seq<int>)
    requires Formed(l) && LoraPermute(l, dims).Ok?
    requires forall i :: 0 <= i < |dims| ==> dims[i] < Dims(l)
    ensures var l' := LoraPermute(l, dims).value;
            Broadcasts(l') && Permute(Dense(l), dims).Ok? && Same(Dense(l'), Permute(Dense(l), dims).value)
  {
    hide Dense, Permuted, Same, Broadcasts;
    var n := Dims(l);
    var ds := FromEnd(dims, n);
    var p := seq(|dims|, i requires 0 <= i < |dims| => Normal(dims[i], n));
    var q := seq(|ds|, i requires 0 <= i < |ds| => Normal(ds[i], n));
    assert p == q;
    if ds[|ds| - 1] == -1 {
      KeepLastCommutes(l, p);
    } else {
      assert p == [1, 0];
      SwapCommutes(l);
    }
  }

  lemma PermuteOutOfRange(t: Tensor, dims: seq<int>, i: nat)
    requires i < |dims| && dims[i] >= |t.shape|
    ensures Permute(t, dims).Err?
  {
    var p := seq(|dims|, i requires 0 <= i < |dims| => Normal(dims[i], |t.shape|));
    assert p[i] == dims[i];
  }

  /** Whatever dimensions the low-rank tensor agrees to permute, the dense product is permuted, exactly if every dimension
      is one it has: the low-rank tensor also takes a dimension counted from the end that was written too high. */
  lemma PermuteCommutesIff(l: Lora, dims: seq<int>)
    requires Formed(l) && LoraPermute(l, dims).Ok?
    ensures var l' := LoraPermute(l, dims).value;
            (forall i :: 0 <= i < |dims| ==> dims[i] < Dims(l)) <==>
            Permute(Dense(l), dims).Ok? && Broadcasts(l') && Same(Dense(l'), Permute(Dense(l), dims).value)
  {
    hide LoraPermute, Permute, Same, Broadcasts;
    if forall i :: 0 <= i < |dims| ==> dims[i] < Dims(l) {
      PermuteInRange(l, dims);
    } else {
      var i :| 0 <= i < |dims| && dims[i] >= Dims(l);
      PermuteOutOfRange(Dense(l), dims, i);
    }
  }

  /** The rows of a matrix, written as dimension two: the low-rank tensor takes it, the dense product does not. */
  lemma DimensionTooHigh()
    ensures var l := Lora(Tensor([1, 1], _ => 1.0), Tensor([1, 1], _ => 1.0));
            Formed(l) && LoraPermute(l, [2, 1]).Ok? && Permute(Dense(l), [2, 1]).Err?
  {
    var l := Lora(Tensor([1, 1], _ => 1.0), Tensor([1, 1], _ => 1.0));
    PermuteOutOfRange(Dense(l), [2, 1], 0);
    hide Dense;
    var ds := FromEnd([2, 1], 2);
    assert ds == [0, -1];
    var p := seq(|ds|, i requires 0 <= i < |ds| => Normal(ds[i], 2));
    assert p == [0, 1] && IsPermutation(p, 2);
  }

  lemma SwappedPermutes(n: nat, x: nat, y: nat)
    requires x < n && y < n
    ensures IsPermutation(Swapped(n, x, y), n)
  {
  }

  /** `transpose` and `swapaxes`: exchanging two dimensions of the factors exchanges them in the
      dense product; it is refused only when the columns of a tensor above two dimensions would
      move, or when A has a leading dimension that is not one. */
  lemma TransposeCommutes(l: Lora, dim0: int, dim1: int)
    requires Formed(l)
    ensures var n := Dims(l); var x, y := Normal(dim0, n), Normal(dim1, n);
            LoraTranspose(l, dim0, dim1).Ok? <==>
              0 <= dim0 + n && dim0 < n && 0 <= dim1 + n && dim1 < n &&
              (x == y || (x != n - 1 && y != n - 1) ==> AllOnes(Lead(l))) &&
              (x == y || (x != n - 1 && y != n - 1) || n == 2)
    ensures LoraTranspose(l, dim0, dim1).Ok? ==>
            var n := Dims(l); var l' := LoraTranspose(l, dim0, dim1).value;
            var dims := Swapped(n, Normal(dim0, n), Normal(dim1, n));
            Broadcasts(l') && Permute(Dense(l), dims).Ok? && Same(Dense(l'), Permute(Dense(l), dims).value)
  {
    hide Dense, Permuted, Same, Broadcasts;
    var n := Dims(l);
    if 0 <= dim0 + n && dim0 < n && 0 <= dim1 + n && dim1 < n {
      var dims := Swapped(n, Normal(dim0, n), Normal(dim1, n));
      TransposeAccepts(l, Normal(dim0, n), Normal(dim1, n));
      if LoraPermute(l, dims).Ok? {
        PermuteInRange(l, dims);
      }
    }
  }

  lemma TransposeAccepts(l: Lora, x: nat, y: nat)
    requires Formed(l) && x < Dims(l) && y < Dims(l)
    ensures LoraPermute(l, Swapped(Dims(l), x, y)).Ok? <==>
              (x == y || (x != Dims(l) - 1 && y != Dims(l) - 1) ==> AllOnes(Lead(l))) &&
              (x == y || (x != Dims(l) - 1 && y != Dims(l) - 1) || Dims(l) == 2)
  {
    hide LoraPermute, Swapped, AllOnes, IsPermutation;
    SwappedPermutes(Dims(l), x, y);
    SwappedLast(Dims(l), x, y);
    PermutationAccepted(l, Swapped(Dims(l), x, y));
  }

  lemma SwappedLast(n: nat, x: nat, y: nat)
    requires x < n && y < n
    ensures |Swapped(n, x, y)| == n && (Swapped(n, x, y)[n - 1] == n - 1 <==> x == y || (x != n - 1 && y != n - 1))
  {
  }

  /** Counted from the end, the dimensions mean the same. */
  lemma FromEndPermutes(t: Tensor, p: seq<int>)
    requires IsPermutation(p, |t.shape|)
    ensures Permute(t, FromEnd(p, |t.shape|)) == Ok(Permuted(t, p))
  {
    hide Permuted, IsPermutation;
    var n, ds := |t.shape|, FromEnd(p, |t.shape|);
    NormalFromEnd(p, n);
    assert seq(|ds|, i requires 0 <= i < |ds| => Normal(ds[i], n)) == p;
  }

  lemma NormalFromEnd(p: seq<int>, n: nat)
    requires IsPermutation(p, n)
    ensures |p| == n && forall i :: 0 <= i < n ==> FromEnd(p, n)[i] == p[i] - n && Normal(FromEnd(p, n)[i], n) == p[i]
  {
  }

  /** A permutation is accepted that keeps the columns last, if A has no leading dimensions, or that exchanges a matrix. */
  lemma PermutationAccepted(l: Lora, p: seq<int>)
    requires Formed(l) && IsPermutation(p, Dims(l))
    ensures LoraPermute(l, p).Ok? <==> if p[Dims(l) - 1] == Dims(l) - 1 then AllOnes(Lead(l)) else Dims(l) == 2
  {
    hide Permuted, Permute, AllOnes, IsPermutation, FromEnd, Normal;
    NormalFromEnd(p, Dims(l));
    FromEndPermutes(l.a, p);
    FromEndPermutes(l.b, p);
    if p[Dims(l) - 1] == Dims(l) - 1 {
      if AllOnes(Lead(l)) {
        PermutedShape(l, p);
      }
    } else if Dims(l) == 2 {
      OnlyExchange(p);
      SwapShapes(l);
    }
  }

  lemma OnlyExchange(p: seq<int>)
    requires IsPermutation(p, 2) && p[1] != 1
    ensures p == [1, 0]
  {
  }

  lemma SwapShapes(l: Lora)
    requires Formed(l) && Dims(l) == 2
    ensures Formed(Lora(Permuted(l.b, [1, 0]), Permuted(l.a, [1, 0])))
  {
  }
}
