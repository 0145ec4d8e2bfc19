/** Low-rank tensors: `LoraTorchTensor` keeps the factors A and B of a product and performs
    shape operations on the factors alone. */
module Lora {
  import opened Wrappers
  import opened Tensors

  datatype Lora = Lora(a: Tensor, b: Tensor)

  /** What the constructor asserts. */
  predicate Formed(l: Lora) {
    |l.a.shape| == |l.b.shape| >= 2 && l.a.shape[|l.a.shape| - 2] == l.b.shape[|l.b.shape| - 1]
  }

  function Init(a: Tensor, b: Tensor): (r: Result<Lora, Error>)
    ensures r.Ok? <==> Formed(Lora(a, b))
    ensures r.Ok? ==> r.value == Lora(a, b)
  {
    if |a.shape| != |b.shape| then Err(AssertionFailed)
    else if |a.shape| < 2 then Err(IndexOutOfRange)
    else if a.shape[|a.shape| - 2] != b.shape[|b.shape| - 1] then Err(AssertionFailed)
    else Ok(Lora(a, b))
  }

  function Dims(l: Lora): nat {
    |l.b.shape|
  }

  function Rank(l: Lora): nat
    requires Formed(l)
  {
    l.b.shape[Dims(l) - 1]
  }

  /** The leading dimensions and the rows of the product. */
  function Rows(l: Lora): Shape
    requires Formed(l)
  {
    l.b.shape[..Dims(l) - 1]
  }

  function Columns(l: Lora): nat
    requires Formed(l)
  {
    l.a.shape[Dims(l) - 1]
  }

  function ShapeOf(l: Lora): Shape
    requires Formed(l)
  {
    Rows(l) + [Columns(l)]
  }

  /** The leading dimensions of A, which a product may broadcast. */
  function Lead(l: Lora): Shape
    requires Formed(l)
  {
    l.a.shape[..Dims(l) - 2]
  }

  ghost predicate Broadcasts(l: Lora) {
    Formed(l) && forall i :: 0 <= i < Dims(l) - 2 ==> l.a.shape[i] == 1 || l.a.shape[i] == l.b.shape[i]
  }

  predicate AllOnes(shape: Shape) {
    forall i :: 0 <= i < |shape| ==> shape[i] == 1
  }

  // --- The dense product ------------------------------------------------------------------------------------

  /** Broadcasting: dimensions of size one are always read at zero. */
  function Align(lead: Shape, idx: Index): (r: Index)
    requires |lead| <= |idx|
    ensures |r| == |lead|
  {
    seq(|lead|, i requires 0 <= i < |lead| => if lead[i] == 1 then 0 else idx[i])
  }

  function Term(l: Lora, rows: Index, j: nat, k: nat): real
    requires Formed(l) && |rows| == Dims(l) - 1
  {
    l.b.at(rows + [k]) * l.a.at(Align(Lead(l), rows) + [k] + [j])
  }

  function Entry(l: Lora, rows: Index, j: nat): real
    requires Formed(l) && |rows| == Dims(l) - 1
  {
    Sum(Rank(l), (k: nat) => Term(l, rows, j, k))
  }

  /** The product B.A, batched and broadcast as torch multiplies matrices. */
  function Dense(l: Lora): (t: Tensor)
    requires Formed(l)
    ensures t.shape == ShapeOf(l)
  {
    Tensor(ShapeOf(l), idx => if |idx| == Dims(l) then Entry(l, idx[..|idx| - 1], idx[|idx| - 1]) else 0.0)
  }

  lemma DenseAt(l: Lora, rows: Index, j: nat)
    requires Formed(l) && |rows| == Dims(l) - 1
    ensures Dense(l).at(rows + [j]) == Entry(l, rows, j)
  {
    assert (rows + [j])[..|rows|] == rows;
  }

  lemma TermIs(l: Lora, rows: Index, j: nat, k: nat)
    requires Formed(l) && |rows| == Dims(l) - 1
    ensures Term(l, rows, j, k) == l.b.at(rows + [k]) * l.a.at(Align(Lead(l), rows) + [k] + [j])
  {
    hide Align;
  }

  /** Entries agree when their terms do. */
  lemma EntriesAgree(l: Lora, rows: Index, j: nat, l': Lora, rows': Index, j': nat)
    requires Formed(l) && Formed(l') && Rank(l) == Rank(l')
    requires |rows| == Dims(l) - 1 && |rows'| == Dims(l') - 1
    requires forall k: nat :: k < Rank(l) ==> Term(l, rows, j, k) == Term(l', rows', j', k)
    ensures Entry(l, rows, j) == Entry(l', rows', j')
  {
    SumSame(Rank(l), (k: nat) => Term(l, rows, j, k), (k: nat) => Term(l', rows', j', k));
  }

  // --- reshape ------------------------------------------------------------------------------------------------

  function FillIn(shape: seq<int>, fill: int): (r: seq<int>)
    ensures |r| == |shape|
  {
    seq(|shape|, i requires 0 <= i < |shape| => if shape[i] == -1 then fill else shape[i])
  }

  /** The shape with every -1 replaced by what is left of the number of elements. */
  function Expand(orig: Shape, shape: seq<int>): (r: Result<seq<int>, Error>)
    ensures r.Ok? ==> |r.value| == |shape|
  {
    if -1 in shape then
      var elems, known := Prod(orig), Prod(FillIn(shape, 1));
      if known == 0 then Err(ZeroDivision)
      else if elems % known != 0 then Err(AssertionFailed)
      else Ok(FillIn(shape, elems / known))
    else Ok(shape)
  }

  function Ones(n: nat): (r: Shape)
    ensures |r| == n && AllOnes(r)
  {
    seq(n, _ => 1)
  }

  function LoraReshape(l: Lora, shape: seq<int>): Result<Lora, Error>
    requires Formed(l)
  {
    if |shape| < 2 then Err(NotImplemented)
    else
      var newShape :- Expand(ShapeOf(l), shape);
      var m := |newShape|;
      if newShape[m - 1] != Columns(l) then Err(NotImplemented)
      else
        var a :- Reshape(l.a, Ones(m - 2) + [Rank(l), Columns(l)]);
        var b :- Reshape(l.b, newShape[..m - 1] + [Rank(l)]);
        Init(a, b)
  }

  // --- permute, transpose, swapaxes ---------------------------------------------------------------------------

  /** Dimensions counted from the end. */
  function FromEnd(dims: seq<int>, n: nat): (r: seq<int>)
    ensures |r| == |dims|
  {
    seq(|dims|, i requires 0 <= i < |dims| => if dims[i] >= 0 then dims[i] - n else dims[i])
  }

  function LoraPermute(l: Lora, dims: seq<int>): Result<Lora, Error>
    requires Formed(l)
  {
    if dims == [] then Err(IndexOutOfRange)
    else
      var ds := FromEnd(dims, Dims(l));
      if ds[|ds| - 1] == -1 then
        if !AllOnes(Lead(l)) then Err(AssertionFailed)
        else
          var b :- Permute(l.b, ds);
          Init(l.a, b)
      else if Dims(l) == 2 && |ds| >= 2 && ds[|ds| - 1] == -2 && ds[|ds| - 2] == -1 then
        var b :- Permute(l.b, ds);
        var a :- Permute(l.a, ds);
        Init(b, a)
      else Err(NotImplemented)
  }

  function Range(n: nat): (r: seq<int>)
    ensures |r| == n && forall i :: 0 <= i < n ==> r[i] == i
  {
    seq(n, i requires 0 <= i < n => i)
  }

  function Swapped(n: nat, dim0: nat, dim1: nat): seq<int>
    requires dim0 < n && dim1 < n
  {
    Range(n)[dim0 := dim1][dim1 := dim0]
  }

  function LoraTranspose(l: Lora, dim0: int, dim1: int): Result<Lora, Error>
    requires Formed(l)
  {
    var n := Dims(l);
    if !(0 <= dim0 + n && dim0 < n) || !(0 <= dim1 + n && dim1 < n) then Err(IndexOutOfRange)
    else LoraPermute(l, Swapped(n, Normal(dim0, n), Normal(dim1, n)))
  }

  // --- Reshaping commutes with the product ------------------------------------------------------------------------

  lemma {:induction false} ProdOfOnes(shape: Shape)
    requires AllOnes(shape)
    ensures Prod(shape) == 1
  {
    if shape != [] {
      ProdOfOnes(shape[..|shape| - 1]);
    }
  }

  lemma {:induction false} OnesOfProd(shape: Shape)
    requires Prod(shape) == 1
    ensures AllOnes(shape)
  {
    if shape != [] {
      var k := |shape| - 1;
      var p, d := Prod(shape[..k]), shape[k];
      ProdNonNegative(shape[..k]);
      FactorsOfOne(p, d);
      OnesOfProd(shape[..k]);
      assert shape == shape[..k] + [d];
    }
  }

  lemma FactorsOfOne(p: nat, d: nat)
    requires p * d == 1
    ensures p == 1 && d == 1
  {
    assert p >= 2 && d >= 1 ==> p * d >= 2 * d;
    assert d >= 2 && p >= 1 ==> p * d >= p * 2;
  }

  function Zeros(n: nat): (r: Index)
    ensures |r| == n
  {
    seq(n, _ => 0)
  }

  lemma {:induction false} RavelZeros(shape: Shape)
    ensures Ravel(shape, Zeros(|shape|)) == 0
  {
    if shape != [] {
      RavelZeros(shape[..|shape| - 1]);
      assert Zeros(|shape|)[..|shape| - 1] == Zeros(|shape| - 1);
    }
  }

  lemma {:induction false} UnravelZero(shape: Shape)
    ensures Unravel(shape, 0) == Zeros(|shape|)
  {
    if shape != [] {
      UnravelZero(shape[..|shape| - 1]);
      assert Zeros(|shape| - 1) + [0] == Zeros(|shape|);
    }
  }

  lemma AlignOnes(lead: Shape, idx: Index)
    requires AllOnes(lead) && |lead| <= |idx|
    ensures Align(lead, idx) == Zeros(|lead|)
  {
  }

  /** Reading a reshaped factor at a row and one more coordinate. */
  lemma {:induction false} ReshapedAt(t: Tensor, head: Shape, newHead: Shape, d: nat, rows: Index, i: nat)
    requires t.shape == head + [d] && |rows| == |newHead| && i < d
    ensures Reshaped(t, newHead + [d]).at(rows + [i]) == t.at(Unravel(head, Ravel(newHead, rows)) + [i])
  {
    RavelAppend(newHead, d, rows, i);
    UnravelAppend(head, d, Ravel(newHead, rows), i);
  }

  /** Reading the reshaped A, whose leading dimensions were and are one. */
  lemma ReshapedAAt(a: Tensor, lead: Shape, m: nat, r: nat, c: nat, k: nat, j: nat)
    requires a.shape == lead + [r] + [c] && AllOnes(lead) && k < r && j < c
    ensures Reshaped(a, Ones(m) + [r] + [c]).at(Zeros(m) + [k] + [j]) == a.at(Zeros(|lead|) + [k] + [j])
  {
    ReshapedAt(a, lead + [r], Ones(m) + [r], c, Zeros(m) + [k], j);
    RavelAppend(Ones(m), r, Zeros(m), k);
    RavelZeros(Ones(m));
    UnravelAppend(lead, r, 0, k);
    UnravelZero(lead);
  }

  lemma ReshapeOk(t: Tensor, shape: seq<int>)
    requires Reshape(t, shape).Ok?
    ensures (forall i :: 0 <= i < |shape| ==> shape[i] >= 0) && Prod(NonNegative(shape)) == Prod(t.shape)
    ensures Reshape(t, shape).value == Reshaped(t, NonNegative(shape))
  {
    assert NonNegative(shape) == shape;
  }

  lemma LeadIsOnes(l: Lora, m: nat)
    requires Formed(l) && Rank(l) > 0 && Columns(l) > 0
    requires Prod(Ones(m) + [Rank(l), Columns(l)]) == Prod(l.a.shape)
    ensures AllOnes(Lead(l))
  {
    var r, c, lead := Rank(l), Columns(l), Lead(l);
    assert l.a.shape == lead + [r] + [c] && Ones(m) + [r, c] == Ones(m) + [r] + [c];
    ProdAppend(lead + [r], c);
    ProdAppend(lead, r);
    ProdAppend(Ones(m) + [r], c);
    ProdAppend(Ones(m), r);
    ProdOfOnes(Ones(m));
    Cancel(Prod(lead) * r, r, c);
    Cancel(Prod(lead), 1, r);
    OnesOfProd(lead);
  }

  lemma Cancel(x: int, y: int, d: int)
    requires x * d == y * d && d != 0
    ensures x == y
  {
    var e := if d > 0 then d else -d;
    assert x * e == y * e by {
      assert x * -d == -(x * d) && y * -d == -(y * d);
    }
    if x < y {
      OneStepMore(x, y, e);
    } else if y < x {
      OneStepMore(y, x, e);
    }
  }

  lemma ReshapeTerm(l: Lora, l': Lora, rows: Shape, idx: Index, j: nat, k: nat)
    requires Formed(l) && Formed(l') && |rows| == |idx| == Dims(l') - 1
    requires l'.a == Reshaped(l.a, Ones(|rows| - 1) + [Rank(l)] + [Columns(l)])
    requires l'.b == Reshaped(l.b, rows + [Rank(l)])
    requires Prod(Ones(|rows| - 1) + [Rank(l), Columns(l)]) == Prod(l.a.shape)
    requires k < Rank(l) && j < Columns(l)
    ensures Term(l', idx, j, k) == Term(l, Unravel(Rows(l), Ravel(rows, idx)), j, k)
  {
    hide Reshaped, Prod, Ravel, Unravel;
    var r, c := Rank(l), Columns(l);
    var source := Unravel(Rows(l), Ravel(rows, idx));
    assert l.b.shape == Rows(l) + [r] && l.a.shape == Lead(l) + [r] + [c];
    ReshapedAt(l.b, Rows(l), rows, r, idx, k);
    LeadIsOnes(l, |rows| - 1);
    AlignOnes(Lead(l), source);
    ReshapedShape(l.a, Ones(|rows| - 1) + [r] + [c]);
    assert Lead(l') == Ones(|rows| - 1);
    AlignOnes(Lead(l'), idx);
    ReshapedAAt(l.a, Lead(l), |rows| - 1, r, c, k, j);
  }

  lemma ReshapeEntry(l: Lora, l': Lora, rows: Shape, idx: Index, j: nat)
    requires Formed(l) && Formed(l') && |rows| == |idx| == Dims(l') - 1
    requires l'.a == Reshaped(l.a, Ones(|rows| - 1) + [Rank(l)] + [Columns(l)])
    requires l'.b == Reshaped(l.b, rows + [Rank(l)])
    requires Prod(Ones(|rows| - 1) + [Rank(l), Columns(l)]) == Prod(l.a.shape)
    requires j < Columns(l)
    ensures Dense(l').at(idx + [j]) == Reshaped(Dense(l), rows + [Columns(l)]).at(idx + [j])
  {
    hide Term, Unravel, Ravel, Prod;
    var source := Unravel(Rows(l), Ravel(rows, idx));
    forall k: nat | k < Rank(l)
      ensures Term(l', idx, j, k) == Term(l, source, j, k)
    {
      ReshapeTerm(l, l', rows, idx, j, k);
    }
    EntriesAgree(l', idx, j, l, source, j);
    DenseAt(l', idx, j);
    DenseAt(l, source, j);
    ReshapedAt(Dense(l), Rows(l), rows, Columns(l), idx, j);
  }

  function WithRows(l: Lora, rows: Shape): Lora
    requires Formed(l) && rows != []
  {
    Lora(Reshaped(l.a, Ones(|rows| - 1) + [Rank(l)] + [Columns(l)]), Reshaped(l.b, rows + [Rank(l)]))
  }

  lemma RowsCommute(l: Lora, rows: Shape)
    requires Formed(l) && rows != []
    requires Prod(Ones(|rows| - 1) + [Rank(l), Columns(l)]) == Prod(l.a.shape)
    ensures var l' := WithRows(l, rows);
            Broadcasts(l') && Same(Dense(l'), Reshaped(Dense(l), rows + [Columns(l)]))
  {
    hide Term, Unravel, Ravel, Prod, Entry;
    var l', c := WithRows(l, rows), Columns(l);
    assert Rows(l') == rows && Columns(l') == c;
    forall idx | Inside(idx, rows + [c])
      ensures Dense(l').at(idx) == Reshaped(Dense(l), rows + [c]).at(idx)
    {
      var m := |rows|;
      assert idx == idx[..m] + [idx[m]] && (rows + [c])[m] == c;
      ReshapeEntry(l, l', rows, idx[..m], idx[m]);
    }
  }

  /** What a successful reshape of the factors is. */
  lemma LoraReshapeOk(l: Lora, shape: seq<int>) returns (rows: Shape)
    requires Formed(l) && LoraReshape(l, shape).Ok?
    ensures rows != [] && Expand(ShapeOf(l), shape) == Ok(rows + [Columns(l)])
    ensures LoraReshape(l, shape) == Ok(WithRows(l, rows))
    ensures Prod(Ones(|rows| - 1) + [Rank(l), Columns(l)]) == Prod(l.a.shape)
    ensures Prod(rows + [Rank(l)]) == Prod(l.b.shape)
  {
    hide Prod, Reshaped;
    var full := Expand(ShapeOf(l), shape).value;
    var m := |full|;
    var r, c := Rank(l), Columns(l);
    ReshapeOk(l.a, Ones(m - 2) + [r, c]);
    ReshapeOk(l.b, full[..m - 1] + [r]);
    assert forall i :: 0 <= i < m - 1 ==> full[i] == (full[..m - 1] + [r])[i];
    rows := NonNegative(full[..m - 1]);
    assert NonNegative(Ones(m - 2) + [r, c]) == Ones(m - 2) + [r] + [c] == Ones(m - 2) + [r, c];
    assert NonNegative(full[..m - 1] + [r]) == rows + [r];
    assert full == rows + [c];
  }

  /** A reshape the factors admit is the reshape of the dense product, if and only if the number
      of elements is right; with a positive rank it always is. */
  lemma ReshapeCommutesIff(l: Lora, shape: seq<int>)
    requires Formed(l) && LoraReshape(l, shape).Ok?
    ensures var l' := LoraReshape(l, shape).value; var full := Expand(ShapeOf(l), shape).value;
            Broadcasts(l') &&
            (Reshape(Dense(l), full).Ok? && Same(Dense(l'), Reshape(Dense(l), full).value)
             <==> Prod(full) == Prod(ShapeOf(l))) &&
            (Rank(l) > 0 ==> Prod(full) == Prod(ShapeOf(l)))
  {
    hide Prod, Reshaped, WithRows, LoraReshape, Expand, Same, Dense;
    var rows := LoraReshapeOk(l, shape);
    RowsCommute(l, rows);
    assert NonNegative(rows + [Columns(l)]) == rows + [Columns(l)];
    if Rank(l) > 0 {
      SizesAgree(l, rows);
    }
  }

  lemma ReshapedShape(t: Tensor, shape: Shape)
    ensures Reshaped(t, shape).shape == shape
  {
  }

  lemma SizesAgree(l: Lora, rows: Shape)
    requires Formed(l) && Prod(rows + [Rank(l)]) == Prod(l.b.shape) && Rank(l) > 0
    ensures Prod(rows + [Columns(l)]) == Prod(ShapeOf(l))
  {
    assert l.b.shape == Rows(l) + [Rank(l)] && ShapeOf(l) == Rows(l) + [Columns(l)];
    hide *;
    ProdAppend(rows, Rank(l));
    ProdAppend(Rows(l), Rank(l));
    ProdAppend(rows, Columns(l));
    ProdAppend(Rows(l), Columns(l));
    Cancel(Prod(rows), Prod(Rows(l)), Rank(l));
  }

  lemma ProdOfThree(lead: Shape, r: nat, c: nat)
    ensures Prod(lead + [r, c]) == Prod(lead) * r * c
  {
    assert lead + [r, c] == lead + [r] + [c];
    ProdAppend(lead + [r], c);
    ProdAppend(lead, r);
  }

  lemma TimesOne(x: nat, r: nat, c: nat)
    ensures x * r * c == r * c <==> x == 1 || r == 0 || c == 0
  {
    assert x * r * c == x * (r * c);
    if r > 0 && c > 0 && x * r * c == r * c {
      assert r * c > 0;
      Cancel(x, 1, r * c);
    }
  }

  /** A keeps its number of elements under the reshape exactly if its leading dimensions are one, or it has none. */
  lemma AKeepsCount(l: Lora, n: nat)
    requires Formed(l)
    ensures Prod(Ones(n) + [Rank(l), Columns(l)]) == Prod(l.a.shape) <==> AllOnes(Lead(l)) || Rank(l) == 0 || Columns(l) == 0
  {
    var r, c := Rank(l), Columns(l);
    assert l.a.shape == Lead(l) + [r, c];
    ProdOfThree(Ones(n), r, c);
    ProdOfThree(Lead(l), r, c);
    ProdOfOnes(Ones(n));
    ProdNonNegative(Lead(l));
    TimesOne(Prod(Lead(l)), r, c);
    if AllOnes(Lead(l)) {
      ProdOfOnes(Lead(l));
    } else if Prod(Lead(l)) == 1 {
      OnesOfProd(Lead(l));
    }
  }

  lemma BKeepsCount(l: Lora, front: seq<int>)
    requires Formed(l)
    ensures Prod(front + [Rank(l)]) == Prod(l.b.shape) <==> Rank(l) == 0 || Prod(front) == Prod(Rows(l))
  {
    hide *;
    ShapeOfB(l);
    ProdAppend(front, Rank(l));
    ProdAppend(Rows(l), Rank(l));
    SameMultiples(Prod(front), Prod(Rows(l)), Rank(l));
  }

  lemma ShapeOfB(l: Lora)
    requires Formed(l)
    ensures l.b.shape == Rows(l) + [Rank(l)]
  {
  }

  lemma SameMultiples(x: int, y: int, d: nat)
    ensures x * d == y * d <==> d == 0 || x == y
  {
    if d != 0 && x * d == y * d {
      Cancel(x, y, d);
    }
  }

  predicate AllNonNegative(shape: seq<int>) {
    forall i :: 0 <= i < |shape| ==> shape[i] >= 0
  }

  lemma ReshapeOkIff(t: Tensor, shape: seq<int>)
    ensures Reshape(t, shape).Ok? <==> AllNonNegative(shape) && Prod(shape) == Prod(t.shape)
    ensures Reshape(t, shape).Ok? ==> |Reshape(t, shape).value.shape| == |shape| &&
                                      forall i :: 0 <= i < |shape| ==> Reshape(t, shape).value.shape[i] == shape[i]
  {
    hide Prod;
  }

  /** Which reshapes are accepted: at least two dimensions, the columns kept, the leading dimensions of A one, and as many rows
      as before; with rank zero or no columns the counts agree in any case. */
  lemma ReshapeAccepted(l: Lora, shape: seq<int>)
    requires Formed(l)
    ensures LoraReshape(l, shape).Ok? <==>
      |shape| >= 2 && Expand(ShapeOf(l), shape).Ok? &&
      var full := Expand(ShapeOf(l), shape).value; var m := |full|;
      AllNonNegative(full) && full[m - 1] == Columns(l) &&
      (AllOnes(Lead(l)) || Rank(l) == 0 || Columns(l) == 0) && (Rank(l) == 0 || Prod(full[..m - 1]) == Prod(Rows(l)))
  {
    hide Prod, Reshape, Expand, AllOnes, Ones;
    if |shape| >= 2 && Expand(ShapeOf(l), shape).Ok? {
      var full := Expand(ShapeOf(l), shape).value;
      var m := |full|;
      if full[m - 1] == Columns(l) {
        AKeepsCount(l, m - 2);
        BKeepsCount(l, full[..m - 1]);
        ReshapeOkIff(l.a, Ones(m - 2) + [Rank(l), Columns(l)]);
        ReshapeOkIff(l.b, full[..m - 1] + [Rank(l)]);
        NonNegativeFront(full, Rank(l));
      }
    }
  }

  lemma NonNegativeFront(full: seq<int>, r: nat)
    requires full != [] && full[|full| - 1] >= 0
    ensures AllNonNegative(full) <==> AllNonNegative(full[..|full| - 1] + [r])
  {
    var front := full[..|full| - 1] + [r];
    if AllNonNegative(front) {
      forall i | 0 <= i < |full|
        ensures full[i] >= 0
      {
        assert i < |full| - 1 ==> full[i] == front[i];
      }
    }
  }

  /** With rank zero a matrix of two rows is accepted as one of three, which its dense product is not. */
  lemma RankZeroReshape()
    ensures var l := Lora(Tensor([0, 1], _ => 0.0), Tensor([2, 0], _ => 0.0));
            Formed(l) && LoraReshape(l, [3, 1]).Ok? && Reshape(Dense(l), [3, 1]).Err?
  {
    var l := Lora(Tensor([0, 1], _ => 0.0), Tensor([2, 0], _ => 0.0));
    hide Prod, LoraReshape;
    ReshapeAccepted(l, [3, 1]);
    assert ShapeOf(l) == [2, 1];
    ProdOfTwo(2, 1);
    ProdOfTwo(3, 1);
  }

  lemma ProdOfTwo(a: int, b: int)
    ensures Prod([a, b]) == a * b
  {
    assert [a, b] == [] + [a] + [b];
    ProdAppend([] + [a], b);
    ProdAppend([], a);
  }
}
