/** The n-gram hash cache: a table without collision handling that refines the history of its adds. */
module NgramCache {
  import opened Wrappers

  type Token = x: int | -0x8000_0000 <= x < 0x8000_0000

  const EMPTY: Token := -1
  const MULTIPLIER := 6364136223846793005
  const WORD := 0x1_0000_0000_0000_0000

  // --- The hash ----------------------------------------------------------------------------------------------------------

  /** The hash in 64-bit arithmetic, one token at a time. */
  function Hash(tokens: seq<Token>): (h: int)
    ensures 0 <= h < WORD
  {
    if tokens == [] then 0
    else (Hash(tokens[..|tokens| - 1]) * MULTIPLIER + tokens[|tokens| - 1]) % WORD
  }

  /** The same polynomial without any wrap-around. */
  function Polynomial(tokens: seq<Token>): int {
    if tokens == [] then 0
    else Polynomial(tokens[..|tokens| - 1]) * MULTIPLIER + tokens[|tokens| - 1]
  }

  lemma ReduceInside(a: int, b: int, c: int, m: int)
    requires m > 0
    ensures ((a % m) * b + c) % m == (a * b + c) % m
  {
    var q := a / m;
    assert a == q * m + a % m;
    assert a * b + c == (a % m) * b + c + (q * b) * m by {
      assert (q * m) * b == (q * b) * m;
      assert (q * m + a % m) * b == (q * m) * b + (a % m) * b;
    }
    AddMultiple((a % m) * b + c, q * b, m);
  }

  lemma AddMultiple(x: int, k: int, m: int)
    requires m > 0
    ensures (x + k * m) % m == x % m
  {
    var d := (x + k * m) / m - (x / m + k);
    assert (x + k * m) % m - x % m == -d * m by {
      assert x + k * m == ((x + k * m) / m) * m + (x + k * m) % m;
      assert x == (x / m) * m + x % m;
      assert (x / m + k + d) * m == (x / m) * m + k * m + d * m;
    }
    Within(d, m, (x + k * m) % m - x % m);
  }

  lemma Within(d: int, m: int, diff: int)
    requires m > 0 && diff == -d * m && -m < diff < m
    ensures d == 0
  {
    assert -d * m == -(d * m);
    if d >= 1 {
      OneStepMore(0, d, m);
    } else if d <= -1 {
      OneStepMore(d, 0, m);
    }
  }

  /** Wrapping at every step is wrapping once at the end, negative tokens included. */
  lemma {:induction false} HashIsPolynomial(tokens: seq<Token>)
    ensures Hash(tokens) == Polynomial(tokens) % WORD
  {
    if tokens != [] {
      var front := tokens[..|tokens| - 1];
      HashIsPolynomial(front);
      ReduceInside(Polynomial(front), MULTIPLIER, tokens[|tokens| - 1], WORD);
    }
  }

  // --- The table a history of adds leaves ----------------------------------------------------------------------------------

  /** A window of `n` tokens and the token that followed. */
  type Window = seq<Token>

  function Slot(w: Window, n: nat, size: nat): (i: int)
    requires size > 0 && |w| >= n
    ensures 0 <= i < size
  {
    Hash(w[..n]) % size
  }

  predicate Windows(history: seq<Window>, n: nat) {
    forall k :: 0 <= k < |history| ==> |history[k]| > n
  }

  function Table(history: seq<Window>, n: nat, size: nat): (t: seq<Token>)
    requires size > 0 && Windows(history, n)
    ensures |t| == size
  {
    if history == [] then seq(size, i => EMPTY)
    else
      var w := history[|history| - 1];
      Table(history[..|history| - 1], n, size)[Slot(w, n, size) := w[n]]
  }

  /** `k` is the last add whose window falls into slot `i`. */
  ghost predicate LastInto(history: seq<Window>, n: nat, size: nat, i: int, k: int)
    requires size > 0 && Windows(history, n)
  {
    && 0 <= k < |history| && Slot(history[k], n, size) == i
    && forall l :: k < l < |history| ==> Slot(history[l], n, size) != i
  }

  lemma TableStep(history: seq<Window>, n: nat, size: nat, i: nat)
    requires size > 0 && Windows(history, n) && i < size && history != []
    ensures var front, w := history[..|history| - 1], history[|history| - 1];
            Windows(front, n) &&
            Table(history, n, size)[i] == if Slot(w, n, size) == i then w[n] else Table(front, n, size)[i]
  {
    hide Slot;
  }

  ghost predicate NoneInto(history: seq<Window>, n: nat, size: nat, i: int)
    requires size > 0 && Windows(history, n)
  {
    forall k :: 0 <= k < |history| ==> Slot(history[k], n, size) != i
  }

  lemma LastIntoFront(history: seq<Window>, n: nat, size: nat, i: nat, k: int)
    requires size > 0 && Windows(history, n) && history != [] && LastInto(history, n, size, i, k)
    requires Slot(history[|history| - 1], n, size) != i
    ensures Windows(history[..|history| - 1], n) && LastInto(history[..|history| - 1], n, size, i, k)
  {
    hide Slot;
  }

  /** A slot holds what followed the last window that fell into it, and nothing if there was none. */
  lemma {:induction false} SlotHoldsLast(history: seq<Window>, n: nat, size: nat, i: nat)
    requires size > 0 && Windows(history, n) && i < size
    ensures forall k :: LastInto(history, n, size, i, k) ==> Table(history, n, size)[i] == history[k][n]
    ensures NoneInto(history, n, size, i) ==> Table(history, n, size)[i] == EMPTY
  {
    hide Slot, Table;
    if history == [] {
      EmptyTable(n, size);
    } else {
      var front := history[..|history| - 1];
      TableStep(history, n, size, i);
      SlotHoldsLast(front, n, size, i);
      if Slot(history[|history| - 1], n, size) != i {
        assert forall k :: 0 <= k < |front| ==> front[k] == history[k];
        forall k | LastInto(history, n, size, i, k)
          ensures Table(history, n, size)[i] == history[k][n]
        {
          LastIntoFront(history, n, size, i, k);
        }
      }
    }
  }

  lemma EmptyTable(n: nat, size: nat)
    requires size > 0
    ensures forall i :: 0 <= i < size ==> Table([], n, size)[i] == EMPTY
  {
  }

  function NonEmpty(t: seq<Token>): nat {
    if t == [] then 0 else NonEmpty(t[..|t| - 1]) + if t[|t| - 1] == EMPTY then 0 else 1
  }

  lemma {:induction false} NonEmptyUpdate(t: seq<Token>, i: nat, x: Token)
    requires i < |t|
    ensures NonEmpty(t[i := x]) == NonEmpty(t) - (if t[i] == EMPTY then 0 else 1) + (if x == EMPTY then 0 else 1)
  {
    var n := |t| - 1;
    if i < n {
      assert t[i := x][..n] == t[..n][i := x];
      NonEmptyUpdate(t[..n], i, x);
    } else {
      assert t[i := x][..n] == t[..n];
    }
  }

  lemma {:induction false} NothingNonEmpty(t: seq<Token>)
    requires forall i :: 0 <= i < |t| ==> t[i] == EMPTY
    ensures NonEmpty(t) == 0
  {
    if t != [] {
      NothingNonEmpty(t[..|t| - 1]);
    }
  }

  /** How often the marker for an empty slot itself was added. */
  function EmptyAdds(history: seq<Window>, n: nat): nat
    requires Windows(history, n)
  {
    if history == [] then 0
    else EmptyAdds(history[..|history| - 1], n) + if history[|history| - 1][n] == EMPTY then 1 else 0
  }

  /** How often an add met an empty slot. */
  function Fills(history: seq<Window>, n: nat, size: nat): nat
    requires size > 0 && Windows(history, n)
  {
    if history == [] then 0
    else
      var front, w := history[..|history| - 1], history[|history| - 1];
      Fills(front, n, size) + if Table(front, n, size)[Slot(w, n, size)] == EMPTY then 1 else 0
  }

  /** What an add does to the table and the fill count. */
  lemma OneMoreAdd(history: seq<Window>, w: Window, tokens: seq<Token>, n: nat, size: nat)
    requires size > 0 && Windows(history, n) && |tokens| > n && w == tokens[..n + 1]
    ensures var i := Slot(tokens, n, size);
            Windows(history + [w], n) && 0 <= i < size &&
            Table(history + [w], n, size) == Table(history, n, size)[i := tokens[n]] &&
            Fills(history + [w], n, size) == Fills(history, n, size) + if Table(history, n, size)[i] == EMPTY then 1 else 0
  {
    assert w[..n] == tokens[..n] && Slot(w, n, size) == Slot(tokens, n, size);
    assert (history + [w])[..|history|] == history;
  }

  /** The fill count is the number of slots in use, exactly if the empty marker was never added. */
  lemma {:induction false} FillsCountSlots(history: seq<Window>, n: nat, size: nat)
    requires size > 0 && Windows(history, n)
    ensures Fills(history, n, size) == NonEmpty(Table(history, n, size)) + EmptyAdds(history, n)
    ensures Fills(history, n, size) == NonEmpty(Table(history, n, size)) <==> forall k :: 0 <= k < |history| ==> history[k][n] != EMPTY
  {
    hide Slot;
    NoEmptyAdds(history, n);
    if history == [] {
      NothingNonEmpty(Table(history, n, size));
    } else {
      var front, w := history[..|history| - 1], history[|history| - 1];
      FillsCountSlots(front, n, size);
      NonEmptyUpdate(Table(front, n, size), Slot(w, n, size), w[n]);
    }
  }

  /** One add of the marker counts a slot that is not in use. */
  lemma MarkerCounts()
    ensures var history: seq<Window> := [[EMPTY]];
            Windows(history, 0) && Fills(history, 0, 1) == 1 && NonEmpty(Table(history, 0, 1)) == 0
  {
    var history: seq<Window> := [[EMPTY]];
    assert history[..0] == [];
    assert Table([], 0, 1)[0] == EMPTY;
    NothingNonEmpty(Table(history, 0, 1));
  }

  lemma {:induction false} NoEmptyAdds(history: seq<Window>, n: nat)
    requires Windows(history, n)
    ensures EmptyAdds(history, n) == 0 <==> forall k :: 0 <= k < |history| ==> history[k][n] != EMPTY
  {
    if history != [] {
      var front := history[..|history| - 1];
      NoEmptyAdds(front, n);
      assert forall k :: 0 <= k < |front| ==> front[k] == history[k];
    }
  }

  // --- The class -------------------------------------------------------------------------------------------------------------

  class NgramMod {
    const n: nat
    var used: int
    var entries: array<Token>
    /** The adds since the last reset. */
    ghost var history: seq<Window>

    ghost predicate Valid()
      reads this, entries
    {
      && entries.Length > 0 && Windows(history, n)
      && entries[..] == Table(history, n, entries.Length)
      && used == Fills(history, n, entries.Length) % WORD
    }

    constructor (n: nat, size: nat)
      requires size > 0
      ensures Valid() && history == [] && this.n == n && entries.Length == size && fresh(entries)
    {
      this.n := n;
      used := 0;
      entries := new Token[size];
      history := [];
      new;
      Reset();
    }

    method Idx(tokens: seq<Token>) returns (res: int)
      requires entries.Length > 0 && |tokens| >= n
      ensures res == Slot(tokens, n, entries.Length)
    {
      res := 0;
      var i := 0;
      while i < n
        invariant 0 <= i <= n
        invariant res == Hash(tokens[..i])
      {
        assert tokens[..i + 1][..i] == tokens[..i];
        res := (res * MULTIPLIER + tokens[i]) % WORD;
        i := i + 1;
      }
      res := res % entries.Length;
    }

    method Add(tokens: seq<Token>)
      requires Valid() && |tokens| > n
      modifies this`used, this`history, entries
      ensures Valid() && history == old(history) + [tokens[..n + 1]] && entries == old(entries)
    {
      hide Table, Fills, Slot;
      var i := Idx(tokens);
      ghost var w := tokens[..n + 1];
      OneMoreAdd(history, w, tokens, n, entries.Length);
      var was := entries[i];
      assert entries[..][i] == was;
      if was == EMPTY {
        used := (used + 1) % WORD;
      }
      entries[i] := tokens[n];
      ReduceInside(Fills(history, n, entries.Length), 1, 1, WORD);
      history := history + [w];
    }

    /** The continuation of the most recent add since the last reset with the same index, or the empty marker. */
    method Get(tokens: seq<Token>) returns (r: Token)
      requires Valid() && |tokens| >= n
      ensures forall k :: LastInto(history, n, entries.Length, Slot(tokens, n, entries.Length), k) ==> r == history[k][n]
      ensures NoneInto(history, n, entries.Length, Slot(tokens, n, entries.Length)) ==> r == EMPTY
    {
      var i := Idx(tokens);
      r := entries[i];
      SlotHoldsLast(history, n, entries.Length, i);
      assert entries[..][i] == r;
    }

    /** `used` counts the slots in use as long as the empty marker was never added. */
    method GetUsed() returns (r: int)
      requires Valid()
      ensures (forall k :: 0 <= k < |history| ==> history[k][n] != EMPTY) ==> r == NonEmpty(entries[..]) % WORD
    {
      FillsCountSlots(history, n, entries.Length);
      r := used;
    }

    method Reset()
      requires entries.Length > 0
      modifies this`used, this`history, entries
      ensures Valid() && history == [] && entries == old(entries)
    {
      var i := 0;
      while i < entries.Length
        invariant 0 <= i <= entries.Length
        invariant forall k :: 0 <= k < i ==> entries[k] == EMPTY
      {
        entries[i] := EMPTY;
        i := i + 1;
      }
      used := 0;
      history := [];
    }
  }
}
