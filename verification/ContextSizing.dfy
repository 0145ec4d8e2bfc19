/** The context size a host can serve, and that weights and cache then fit the memory pool. */
module ContextSizing {
  import opened Wrappers
  import opened ModelMatcher

  /** The fields of a model file that decide its cache size. */
  datatype Footprint = Footprint(layers: int, kvHeads: int, headDim: int)

  const MIB: real := 1048576.0

  /** Cache bytes for one token, given the bytes of one key and one value element. */
  function KvBytesPerToken(meta: Footprint, keyBytes: real, valueBytes: real): real {
    var perLayer := (meta.layers * meta.kvHeads * meta.headDim) as real;
    perLayer * keyBytes + perLayer * valueBytes
  }

  /** Conversion to an integer rounds toward zero. */
  function Truncated(x: real): int {
    if x >= 0.0 then x.Floor else -((-x).Floor)
  }

  /** `max_ctx_for_budget`. */
  function MaxCtx(freeMb: real, perToken: real, minCtx: int, ctxDefault: int, step: int): int
    requires step > 0
  {
    if perToken <= 0.0 then ctxDefault
    else Clamped(Stepped(Truncated(freeMb * MIB / perToken), step), minCtx, ctxDefault)
  }

  function Stepped(raw: int, step: int): int
    requires step > 0
  {
    raw / step * step
  }

  function Clamped(x: int, low: int, high: int): int {
    var capped := if x < high then x else high;
    if capped > low then capped else low
  }

  predicate FitsIn(tokens: int, perToken: real, freeMb: real) {
    tokens as real * perToken <= freeMb * MIB
  }

  lemma Scaled(a: real, b: real, x: real)
    requires a <= b && x > 0.0
    ensures a * x <= b * x
  {
  }

  lemma FewerFit(a: int, b: int, perToken: real, freeMb: real)
    requires a <= b && perToken > 0.0 && FitsIn(b, perToken, freeMb)
    ensures FitsIn(a, perToken, freeMb)
  {
    Scaled(a as real, b as real, perToken);
  }

  lemma DivideBack(bytes: real, perToken: real)
    requires perToken > 0.0
    ensures (bytes / perToken) * perToken == bytes
  {
  }

  /** The unclamped number of tokens is exactly how many fit. */
  lemma RawIsExact(freeMb: real, perToken: real, c: int)
    requires freeMb >= 0.0 && perToken > 0.0
    ensures FitsIn(c, perToken, freeMb) <==> c <= Truncated(freeMb * MIB / perToken)
  {
    var bytes := freeMb * MIB;
    var x := bytes / perToken;
    DivideBack(bytes, perToken);
    assert x >= 0.0 by {
      if x < 0.0 {
        Scaled(x, 0.0, perToken);
        NegativeTimes(x, perToken);
      }
    }
    if c <= x.Floor {
      Scaled(c as real, x, perToken);
    } else {
      assert c as real > x;
      StrictlyScaled(x, c as real, perToken);
    }
  }

  lemma StrictlyScaled(a: real, b: real, x: real)
    requires a < b && x > 0.0
    ensures a * x < b * x
  {
  }

  lemma NegativeTimes(a: real, x: real)
    requires a < 0.0 && x > 0.0
    ensures a * x < 0.0
  {
  }

  lemma SteppedIsLargest(raw: int, step: int, c: int)
    requires step > 0
    ensures Stepped(raw, step) <= raw && Stepped(raw, step) % step == 0
    ensures c % step == 0 && c <= raw ==> c <= Stepped(raw, step)
  {
    var q := raw / step;
    assert raw == q * step + raw % step;
    MultipleMod(q, step);
    if c % step == 0 && c <= raw {
      var d := c / step;
      assert c == d * step;
      if d > q {
        OneStepMore(q, d, step);
      }
    }
  }

  lemma {:induction false} MultipleMod(q: int, step: int)
    requires step > 0
    ensures (q * step) % step == 0
  {
    assert (q * step + 0) / step == q by {
      var d, m := (q * step) / step, (q * step) % step;
      assert q * step == d * step + m;
      if d < q {
        OneStepMore(d, q, step);
      } else if d > q {
        OneStepMore(q, d, step);
      }
    }
  }

  /** The context is within its bounds, fits unless it is the smallest allowed one, and is the largest such step. */
  lemma LargestStepThatFits(freeMb: real, perToken: real, minCtx: int, ctxDefault: int, step: int, c: int)
    requires step > 0 && freeMb >= 0.0 && perToken > 0.0
    ensures var ctx := MaxCtx(freeMb, perToken, minCtx, ctxDefault, step);
            && minCtx <= ctx && (minCtx <= ctxDefault ==> ctx <= ctxDefault)
            && (ctx % step == 0 || ctx == minCtx || ctx == ctxDefault)
            && (ctx != minCtx ==> FitsIn(ctx, perToken, freeMb))
            && (FitsIn(ctx, perToken, freeMb) <==> FitsIn(minCtx, perToken, freeMb))
            && (c % step == 0 && c <= ctxDefault && FitsIn(c, perToken, freeMb) ==> c <= ctx)
  {
    var raw := Truncated(freeMb * MIB / perToken);
    var ctx := MaxCtx(freeMb, perToken, minCtx, ctxDefault, step);
    RawIsExact(freeMb, perToken, c);
    RawIsExact(freeMb, perToken, ctx);
    RawIsExact(freeMb, perToken, minCtx);
    SteppedIsLargest(raw, step, c);
    hide FitsIn, Truncated, Stepped;
  }

  /** More free memory never gives a smaller context, a larger cost per token never a larger one. */
  lemma ContextMonotone(freeA: real, freeB: real, costA: real, costB: real, minCtx: int, ctxDefault: int, step: int)
    requires step > 0 && 0.0 <= freeA <= freeB && 0.0 < costB <= costA
    ensures MaxCtx(freeA, costA, minCtx, ctxDefault, step) <= MaxCtx(freeB, costB, minCtx, ctxDefault, step)
  {
    var rawA, rawB := Truncated(freeA * MIB / costA), Truncated(freeB * MIB / costB);
    RawIsExact(freeA, costA, rawA);
    RawNonNegative(freeA, costA);
    Scaled(costB, costA, 1.0);
    assert FitsIn(rawA, costB, freeB) by {
      CheaperFits(rawA, costA, costB, freeA, freeB);
    }
    RawIsExact(freeB, costB, rawA);
    SteppedIsLargest(rawA, step, 0);
    SteppedIsLargest(rawB, step, Stepped(rawA, step));
    hide Truncated, Stepped, FitsIn;
  }

  lemma RawNonNegative(freeMb: real, perToken: real)
    requires freeMb >= 0.0 && perToken > 0.0
    ensures Truncated(freeMb * MIB / perToken) >= 0
  {
    RawIsExact(freeMb, perToken, 0);
  }

  lemma ProductNotNegative(x: real, y: real)
    requires x >= 0.0 && y >= 0.0
    ensures x * y >= 0.0
  {
  }

  lemma CheaperFits(tokens: int, costA: real, costB: real, freeA: real, freeB: real)
    requires tokens >= 0 && costB <= costA && freeA <= freeB && FitsIn(tokens, costA, freeA)
    ensures FitsIn(tokens, costB, freeB)
  {
    var t := tokens as real;
    ProductNotNegative(t, costA - costB);
    assert t * costA - t * costB == t * (costA - costB);
  }

  // --- From the pick to the served context ---------------------------------------------------------------------------

  function Pool(pick: Pick): real {
    if pick.fullOffload then pick.vramBudget else pick.budget
  }

  function FreeForKv(pick: Pick): real {
    Max(0.0, Pool(pick) - pick.size)
  }

  /** `_gguf_ctx_for`, given what the metadata reader answered. */
  function GgufCtx(pick: Pick, meta: Option<Footprint>, keyBytes: real, valueBytes: real): Option<int> {
    match meta
    case None => None
    case Some(m) =>
      Some(MaxCtx(FreeForKv(pick), KvBytesPerToken(m, keyBytes, valueBytes), pick.minCtx, pick.ctxDefault, 1024))
  }

  /** `resolve_ctx`; an existing value that is no number counts as absent. */
  function ResolvedCtx(pickCtx: int, existing: Option<int>, ggufCtx: Option<int>): int {
    match existing
    case Some(e) => if ggufCtx.Some? && ggufCtx.value != 0 then (if e < ggufCtx.value then e else ggufCtx.value) else e
    case None => if ggufCtx.Some? && ggufCtx.value != 0 then ggufCtx.value else pickCtx
  }

  /** Weights and a cache of `tokens` tokens together stay within the pool. */
  predicate Serves(pick: Pick, tokens: int, perToken: real) {
    pick.size * MIB + tokens as real * perToken <= Pool(pick) * MIB
  }

  lemma ServesIsFits(pick: Pick, tokens: int, perToken: real)
    requires pick.size <= Pool(pick)
    ensures Serves(pick, tokens, perToken) <==> FitsIn(tokens, perToken, FreeForKv(pick))
  {
    assert FreeForKv(pick) == Pool(pick) - pick.size;
  }

  /** The resolved context never exceeds a context derived from the model file, except that a derived zero is ignored. */
  lemma ResolvedNeverExceedsIff(pickCtx: int, existing: Option<int>, derived: int)
    ensures ResolvedCtx(pickCtx, existing, Some(derived)) <= derived <==> derived != 0 || Or(existing, pickCtx) <= 0
  {
  }

  /** A model whose smallest context is zero and whose weights take the whole budget: the derived context is zero, and the
      configured one is used although no token of it fits. */
  lemma ZeroIgnored()
    ensures var host := Host(12288.0, 0.0, true, false, true);
            var meta := Meta(None, None, None, None, None);
            var quant := Quant("q", "f", Some(8192.0));
            var model := Model("m", 1, false, [quant], None, Some(0));
            var best := Candidate(1, 8192.0, model, quant);
            var pick, derived := PickOf(best, host, meta), GgufCtx(PickOf(best, host, meta), Some(Footprint(1, 1, 1)), 1.0, 1.0);
            BestAt([model], host, meta, 0, best) && derived == Some(0) &&
            ResolvedCtx(pick.ctx, Some(4096), derived) == 4096 && !Serves(pick, 1, KvBytesPerToken(Footprint(1, 1, 1), 1.0, 1.0))
  {
    var host := Host(12288.0, 0.0, true, false, true);
    var meta := Meta(None, None, None, None, None);
    var quant := Quant("q", "f", Some(8192.0));
    var model := Model("m", 1, false, [quant], None, Some(0));
    var best := Candidate(1, 8192.0, model, quant);
    assert FirstLargestAt([quant], LimitOf(host, meta), 0);
    assert Enters(model, host, meta, best);
    OnlyModel(model, host, meta, best);
    hide BestAt, Enters;
    var pick := PickOf(best, host, meta);
    assert FreeForKv(pick) == 0.0 && pick.minCtx == 0 && pick.ctxDefault == 8192;
    assert KvBytesPerToken(Footprint(1, 1, 1), 1.0, 1.0) == 2.0;
    assert MaxCtx(0.0, 2.0, 0, 8192, 1024) == 0;
  }

  /** From the host to the served context: with the context derived from the model file, weights and cache fit the pool
      the pick was matched against unless it is the smallest context, and exactly if they fit at that one. Whatever context is
      configured then fits as well. */
  lemma MemoryBound(models: seq<Model>, host: Host, meta: Meta, i: int, best: Candidate, footprint: Footprint,
                    keyBytes: real, valueBytes: real, existing: Option<int>)
    requires BestAt(models, host, meta, i, best) && KvBytesPerToken(footprint, keyBytes, valueBytes) > 0.0
    ensures var pick := PickOf(best, host, meta); var cost := KvBytesPerToken(footprint, keyBytes, valueBytes);
            var derived := GgufCtx(pick, Some(footprint), keyBytes, valueBytes);
            (derived.value != pick.minCtx ==> Serves(pick, derived.value, cost)) &&
            (Serves(pick, derived.value, cost) <==> Serves(pick, pick.minCtx, cost)) &&
            (Serves(pick, pick.minCtx, cost) && derived.value != 0 ==> Serves(pick, ResolvedCtx(pick.ctx, existing, derived), cost))
  {
    var pick, cost := PickOf(best, host, meta), KvBytesPerToken(footprint, keyBytes, valueBytes);
    PickFitsItsPool(models, host, meta, i, best);
    var derived := GgufCtx(pick, Some(footprint), keyBytes, valueBytes).value;
    var resolved := ResolvedCtx(pick.ctx, existing, Some(derived));
    LargestStepThatFits(FreeForKv(pick), cost, pick.minCtx, pick.ctxDefault, 1024, 0);
    ServesIsFits(pick, derived, cost);
    ServesIsFits(pick, pick.minCtx, cost);
    ServesIsFits(pick, resolved, cost);
    ResolvedNeverExceedsIff(pick.ctx, existing, derived);
    hide PickOf, KvBytesPerToken, MaxCtx, FitsIn, Serves, FreeForKv, BestAt;
    if FitsIn(derived, cost, FreeForKv(pick)) && derived != 0 {
      FewerFit(resolved, derived, cost, FreeForKv(pick));
    }
  }
}
