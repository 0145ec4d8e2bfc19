/** Dense tensors of real numbers and the torch operations the low-rank tensors build on. */
module Tensors {
  import opened Wrappers

  type Shape = seq<nat>
  type Index = seq<nat>

  /** The entries are the values of `at` on the indices inside `shape`. */
  datatype Tensor = Tensor(shape: Shape, at: Index -> real)

  datatype Error = NotImplemented | AssertionFailed | ZeroDivision | IndexOutOfRange | TorchError

  predicate Inside(idx: Index, shape: Shape) {
    |idx| == |shape| && forall i :: 0 <= i < |idx| ==> idx[i] < shape[i]
  }

  /** `torch.equal`. */
  ghost predicate Same(a: Tensor, b: Tensor) {
    a.shape == b.shape && forall idx :: Inside(idx, a.shape) ==> a.at(idx) == b.at(idx)
  }

  lemma InsideAppend(idx: Index, i: nat, shape: Shape, d: nat)
    ensures Inside(idx + [i], shape + [d]) <==> Inside(idx, shape) && i < d
  {
    var a, b := idx + [i], shape + [d];
    if Inside(a, b) {
      assert forall k :: 0 <= k < |idx| ==> a[k] == idx[k] && b[k] == shape[k];
      assert a[|idx|] == i && b[|shape|] == d;
    }
  }

  // --- Row-major order -----------------------------------------------------------------------------------

  function Prod(shape: seq<int>): int {
    if shape == [] then 1 else Prod(shape[..|shape| - 1]) * shape[|shape| - 1]
  }

  function Ravel(shape: Shape, idx: Index): nat
    requires |idx| == |shape|
  {
    if shape == [] then 0
    else Ravel(shape[..|shape| - 1], idx[..|idx| - 1]) * shape[|shape| - 1] + idx[|idx| - 1]
  }

  function Unravel(shape: Shape, n: nat): (idx: Index)
    ensures |idx| == |shape|
  {
    if shape == [] then []
    else
      var d := shape[|shape| - 1];
      Unravel(shape[..|shape| - 1], if d == 0 then 0 else n / d) + [if d == 0 then 0 else n % d]
  }

  lemma ProdAppend(shape: seq<int>, d: int)
    ensures Prod(shape + [d]) == Prod(shape) * d
  {
    assert (shape + [d])[..|shape|] == shape;
  }

  lemma RavelAppend(shape: Shape, d: nat, idx: Index, i: nat)
    requires |idx| == |shape|
    ensures Ravel(shape + [d], idx + [i]) == Ravel(shape, idx) * d + i
  {
    assert (shape + [d])[..|shape|] == shape && (idx + [i])[..|idx|] == idx;
  }

  lemma SmallMultiple(k: int, d: int)
    requires 0 < d && 0 - d < k * d < d
    ensures k == 0
  {
    if k >= 1 {
      OneStepMore(0, k, d);
    } else if k <= -1 {
      OneStepMore(k, 0, d);
    }
  }

  lemma DivMod(x: nat, d: nat, i: nat)
    requires i < d
    ensures (x * d + i) / d == x && (x * d + i) % d == i
  {
    var n := x * d + i;
    var q, r := n / d, n % d;
    assert n == q * d + r;
    assert (q - x) * d == q * d - x * d;
    SmallMultiple(q - x, d);
  }

  lemma UnravelAppend(shape: Shape, d: nat, x: nat, i: nat)
    requires i < d
    ensures Unravel(shape + [d], x * d + i) == Unravel(shape, x) + [i]
  {
    assert (shape + [d])[..|shape|] == shape;
    DivMod(x, d, i);
  }

  lemma QuotientBelow(n: nat, d: nat, p: nat)
    requires n < p * d
    ensures d > 0 && n / d < p
  {
    assert d == 0 ==> p * d == 0;
    var q := n / d;
    assert n == q * d + n % d;
    if q > p {
      OneStepMore(p, q, d);
    }
  }

  lemma {:induction false} UnravelInside(shape: Shape, n: nat)
    requires n < Prod(shape)
    ensures Inside(Unravel(shape, n), shape)
  {
    if shape != [] {
      var k := |shape| - 1;
      var d := shape[k];
      ProdNonNegative(shape[..k]);
      assert d > 0 && n / d < Prod(shape[..k]) by {
        QuotientBelow(n, d, Prod(shape[..k]));
      }
      UnravelInside(shape[..k], n / d);
      InsideAppend(Unravel(shape[..k], n / d), n % d, shape[..k], d);
      assert shape == shape[..k] + [d];
    }
  }

  lemma ProdNonNegative(shape: Shape)
    ensures Prod(shape) >= 0
  {
  }

  lemma {:induction false} RavelInside(shape: Shape, idx: Index)
    requires Inside(idx, shape)
    ensures Ravel(shape, idx) < Prod(shape)
  {
    if shape != [] {
      var k := |shape| - 1;
      RavelInside(shape[..k], idx[..k]);
      var x, p, d := Ravel(shape[..k], idx[..k]), Prod(shape[..k]), shape[k];
      OneStepMore(x, p, d);
    }
  }

  // --- Operations ------------------------------------------------------------------------------------------

  function NonNegative(shape: seq<int>): (r: Shape)
    requires forall i :: 0 <= i < |shape| ==> shape[i] >= 0
    ensures |r| == |shape| && forall i :: 0 <= i < |shape| ==> r[i] == shape[i]
  {
    seq(|shape|, i requires 0 <= i < |shape| => shape[i])
  }

  /** `t.reshape(shape)`: the same entries in row-major order. */
  function Reshape(t: Tensor, shape: seq<int>): Result<Tensor, Error> {
    if exists i :: 0 <= i < |shape| && shape[i] < 0 then Err(TorchError)
    else if Prod(shape) != Prod(t.shape) then Err(TorchError)
    else Ok(Reshaped(t, NonNegative(shape)))
  }

  function Reshaped(t: Tensor, shape: Shape): Tensor {
    Tensor(shape, idx => if |idx| == |shape| then t.at(Unravel(t.shape, Ravel(shape, idx))) else 0.0)
  }

  /** Torch counts dimensions from the end when they are negative. */
  function Normal(dim: int, n: nat): int {
    if dim < 0 then dim + n else dim
  }

  predicate IsPermutation(p: seq<int>, n: nat) {
    |p| == n &&
    (forall i :: 0 <= i < n ==> 0 <= p[i] < n) &&
    (forall i, j :: 0 <= i < j < n ==> p[i] != p[j])
  }

  function Find(p: seq<int>, x: int): (i: nat)
    ensures i < |p| ==> p[i] == x
    ensures forall j :: 0 <= j < i && j < |p| ==> p[j] != x
    ensures i <= |p|
  {
    if p == [] then 0 else if p[0] == x then 0 else 1 + Find(p[1..], x)
  }

  /** The index before a permutation of dimensions, from the index behind it. */
  function Scatter(p: seq<int>, idx: Index): (src: Index)
    requires |p| == |idx|
    ensures |src| == |idx|
  {
    seq(|idx|, j requires 0 <= j < |idx| => if Find(p, j) < |idx| then idx[Find(p, j)] else 0)
  }

  function Permute(t: Tensor, dims: seq<int>): Result<Tensor, Error> {
    var n := |t.shape|;
    var p := seq(|dims|, i requires 0 <= i < |dims| => Normal(dims[i], n));
    if !IsPermutation(p, n) then Err(TorchError) else Ok(Permuted(t, p))
  }

  function Permuted(t: Tensor, p: seq<int>): Tensor
    requires IsPermutation(p, |t.shape|)
  {
    Tensor(seq(|p|, i requires 0 <= i < |p| => t.shape[p[i]]),
      idx => if |idx| == |p| then t.at(Scatter(p, idx)) else 0.0)
  }

  // --- Sums --------------------------------------------------------------------------------------------------

  function Sum(n: nat, f: nat -> real): real {
    if n == 0 then 0.0 else Sum(n - 1, f) + f(n - 1)
  }

  lemma {:induction false} SumSame(n: nat, f: nat -> real, g: nat -> real)
    requires forall k :: 0 <= k < n ==> f(k) == g(k)
    ensures Sum(n, f) == Sum(n, g)
  {
    if n > 0 {
      SumSame(n - 1, f, g);
    }
  }
}
