/** The choice of a model and a quantization for a host. */
module ModelMatcher {
  import opened Wrappers

  datatype Quant = Quant(name: string, file: string, size: Option<real>)

  datatype Model = Model(id: string, rank: int, vision: bool, quants: seq<Quant>, ctxDefault: Option<int>, minCtx: Option<int>)

  datatype Host = Host(ram: real, vram: real, unified: bool, camera: bool, gpu: bool)

  datatype Meta = Meta(reserve: Option<real>, vramReserve: Option<real>, cpuMaxFile: Option<real>, visionBoost: Option<int>,
                       visionSoftBoost: Option<int>)

  datatype Pick = Pick(model: Model, quant: Quant, size: real, visionEnabled: bool, ctx: int, ctxDefault: int, minCtx: int,
                       fullOffload: bool, budget: real, vramBudget: real, score: int)

  function Or<T>(o: Option<T>, default: T): T {
    match o
    case None => default
    case Some(v) => v
  }

  function Max(a: real, b: real): real {
    if a >= b then a else b
  }

  // --- Budget --------------------------------------------------------------------------------------------------------

  function RamBudget(host: Host, meta: Meta): real {
    Max(0.0, host.ram - Or(meta.reserve, 4096.0))
  }

  function VramBudget(host: Host, meta: Meta): real {
    Max(0.0, host.vram - Or(meta.vramReserve, 1024.0))
  }

  function Budget(host: Host, meta: Meta): real {
    if host.unified then RamBudget(host, meta) else Max(RamBudget(host, meta), VramBudget(host, meta))
  }

  // --- Quants --------------------------------------------------------------------------------------------------------

  datatype Limit = Limit(budget: real, cpuOnly: bool, cpuMax: real)

  function LimitOf(host: Host, meta: Meta): Limit {
    Limit(Budget(host, meta), !host.gpu, Or(meta.cpuMaxFile, 9000.0))
  }

  predicate Fits(q: Quant, limit: Limit) {
    q.size.Some? && q.size.value <= limit.budget && (limit.cpuOnly ==> q.size.value <= limit.cpuMax)
  }

  /** `best` is the first of the largest fitting quants, or absent if none fits. */
  ghost predicate FirstLargest(quants: seq<Quant>, limit: Limit, best: Option<Quant>) {
    match best
    case None => forall k :: 0 <= k < |quants| ==> !Fits(quants[k], limit)
    case Some(b) => exists k :: FirstLargestAt(quants, limit, k) && quants[k] == b
  }

  ghost predicate FirstLargestAt(quants: seq<Quant>, limit: Limit, k: int) {
    && 0 <= k < |quants| && Fits(quants[k], limit)
    && (forall j :: 0 <= j < |quants| && Fits(quants[j], limit) ==> quants[j].size.value <= quants[k].size.value)
    && (forall j :: 0 <= j < k && Fits(quants[j], limit) ==> quants[j].size.value < quants[k].size.value)
  }

  method LargestFittingQuant(model: Model, limit: Limit) returns (best: Option<Quant>)
    ensures FirstLargest(model.quants, limit, best)
    ensures best.Some? ==> Fits(best.value, limit)
  {
    best := None;
    var i := 0;
    ghost var at := 0;
    while i < |model.quants|
      invariant 0 <= i <= |model.quants|
      invariant best.None? ==> forall k :: 0 <= k < i ==> !Fits(model.quants[k], limit)
      invariant best.Some? ==> FirstLargestAt(model.quants[..i], limit, at) && model.quants[at] == best.value
    {
      var q := model.quants[i];
      assert model.quants[..i + 1] == model.quants[..i] + [q];
      if q.size.None? || q.size.value > limit.budget {
        i := i + 1;
        continue;
      }
      if limit.cpuOnly && q.size.value > limit.cpuMax {
        i := i + 1;
        continue;
      }
      if best.None? || q.size.value > best.value.size.value {
        best := Some(q);
        at := i;
      }
      i := i + 1;
    }
    assert model.quants[..i] == model.quants;
  }

  // --- Ranking -------------------------------------------------------------------------------------------------------

  datatype Candidate = Candidate(score: int, size: real, model: Model, quant: Quant)

  /** Python's order on strings. */
  predicate StringLess(a: string, b: string) {
    if b == "" then false
    else if a == "" then true
    else a[0] < b[0] || (a[0] == b[0] && StringLess(a[1..], b[1..]))
  }

  lemma {:induction false} StringOrder(a: string, b: string)
    ensures StringLess(a, b) || a == b || StringLess(b, a)
    ensures !(StringLess(a, b) && StringLess(b, a))
  {
    if a != "" && b != "" {
      StringOrder(a[1..], b[1..]);
      assert a == [a[0]] + a[1..] && b == [b[0]] + b[1..];
    }
  }

  lemma {:induction false} StringTransitive(a: string, b: string, c: string)
    requires StringLess(a, b) && StringLess(b, c)
    ensures StringLess(a, c)
  {
    if a != "" && a[0] == b[0] && b[0] == c[0] {
      StringTransitive(a[1..], b[1..], c[1..]);
    }
  }

  /** Lexicographic on score, size and identifier. */
  predicate Below(a: Candidate, b: Candidate) {
    || a.score < b.score
    || (a.score == b.score && (a.size < b.size || (a.size == b.size && StringLess(a.model.id, b.model.id))))
  }

  lemma BelowOrder(a: Candidate, b: Candidate, c: Candidate)
    ensures !(Below(a, b) && Below(b, a))
    ensures !Below(b, a) && !Below(c, b) ==> !Below(c, a)
    ensures Below(a, b) && !Below(c, b) ==> Below(a, c)
    ensures !Below(b, a) && Below(b, c) ==> Below(a, c)
  {
    var x, y, z := a.model.id, b.model.id, c.model.id;
    StringOrder(x, y);
    StringOrder(y, z);
    StringOrder(x, z);
    if StringLess(x, y) && StringLess(y, z) {
      StringTransitive(x, y, z);
    }
    if StringLess(z, x) && StringLess(x, y) {
      StringTransitive(z, x, y);
    }
    if StringLess(y, z) && StringLess(z, x) {
      StringTransitive(y, z, x);
    }
  }

  function Inserted(c: Candidate, sorted: seq<Candidate>): (r: seq<Candidate>)
    ensures multiset(r) == multiset(sorted) + multiset{c}
  {
    if sorted == [] || !Below(c, sorted[0]) then
      assert multiset([c] + sorted) == multiset{c} + multiset(sorted);
      [c] + sorted
    else
      assert sorted == [sorted[0]] + sorted[1..];
      [sorted[0]] + Inserted(c, sorted[1..])
  }

  /** The stable descending sort. */
  function SortedDescending(s: seq<Candidate>): (r: seq<Candidate>)
    ensures multiset(r) == multiset(s)
  {
    if s == [] then [] else
      assert s == [s[0]] + s[1..];
      Inserted(s[0], SortedDescending(s[1..]))
  }

  /** Position `k` holds the first of the largest candidates. */
  ghost predicate FirstTop(s: seq<Candidate>, k: int) {
    && 0 <= k < |s|
    && (forall j :: 0 <= j < |s| ==> !Below(s[k], s[j]))
    && (forall j :: 0 <= j < k ==> Below(s[j], s[k]))
  }

  lemma {:induction false} SortedHead(s: seq<Candidate>) returns (k: nat)
    requires s != []
    ensures FirstTop(s, k) && SortedDescending(s) != [] && SortedDescending(s)[0] == s[k]
  {
    hide Below;
    if |s| == 1 {
      assert SortedDescending(s[1..]) == [];
      BelowOrder(s[0], s[0], s[0]);
      k := 0;
    } else {
      var k' := SortedHead(s[1..]);
      var top := s[1..][k'];
      BelowOrder(s[0], s[0], s[0]);
      forall j | 0 <= j < |s[1..]|
        ensures s[1..][j] == s[j + 1]
        ensures !Below(s[0], top) ==> !Below(s[0], s[1..][j])
      {
        BelowOrder(s[1..][j], top, s[0]);
      }
      k := if Below(s[0], top) then k' + 1 else 0;
      TopOfTail(s, k, k');
    }
  }

  lemma TopOfTail(s: seq<Candidate>, k: nat, k': nat)
    requires |s| > 1 && FirstTop(s[1..], k') && !Below(s[0], s[0])
    requires k == if Below(s[0], s[1..][k']) then k' + 1 else 0
    requires !Below(s[0], s[1..][k']) ==> forall j :: 0 <= j < |s[1..]| ==> !Below(s[0], s[1..][j])
    ensures FirstTop(s, k)
  {
    BelowOrder(s[0], s[1..][k'], s[0]);
    hide Below;
    forall j | 0 <= j < |s|
      ensures !Below(s[k], s[j])
      ensures j < k ==> Below(s[j], s[k])
    {
      assert j > 0 ==> s[j] == s[1..][j - 1];
      assert k > 0 ==> s[k] == s[1..][k - 1];
    }
  }

  // --- The match -----------------------------------------------------------------------------------------------------

  function Score(model: Model, host: Host, meta: Meta): int {
    model.rank
    + (if model.vision then Or(meta.visionSoftBoost, 2) + (if host.camera then Or(meta.visionBoost, 5) else 0) else 0)
  }

  /** `c` enters `model` with its largest fitting quant. */
  ghost predicate Enters(model: Model, host: Host, meta: Meta, c: Candidate) {
    && FirstLargest(model.quants, LimitOf(host, meta), Some(c.quant)) && Fits(c.quant, LimitOf(host, meta))
    && c == Candidate(Score(model, host, meta), c.quant.size.value, model, c.quant)
  }

  predicate SomeFits(model: Model, limit: Limit) {
    exists k :: 0 <= k < |model.quants| && Fits(model.quants[k], limit)
  }

  /** `best` enters the model at `i`; no fitting quant of any model ranks above it, and none of an earlier model ranks with it. */
  ghost predicate BestAt(models: seq<Model>, host: Host, meta: Meta, i: int, best: Candidate) {
    && 0 <= i < |models| && Enters(models[i], host, meta, best)
    && (forall j, c :: 0 <= j < |models| && Enters(models[j], host, meta, c) ==> !Below(best, c))
    && (forall j, c :: 0 <= j < i && Enters(models[j], host, meta, c) ==> Below(c, best))
  }

  function PickOf(c: Candidate, host: Host, meta: Meta): Pick {
    var ctxDefault := Or(c.model.ctxDefault, 8192);
    var budget := Budget(host, meta);
    Pick(c.model, c.quant, c.size, c.model.vision && host.camera,
         if c.size > budget * 0.85 then Or(c.model.minCtx, ctxDefault) else ctxDefault,
         ctxDefault, Or(c.model.minCtx, ctxDefault), host.gpu && c.size <= VramBudget(host, meta),
         budget, VramBudget(host, meta), c.score)
  }

  lemma EntersUnique(model: Model, host: Host, meta: Meta, a: Candidate, b: Candidate)
    requires Enters(model, host, meta, a) && Enters(model, host, meta, b)
    ensures a == b
  {
    var limit := LimitOf(host, meta);
    var i :| FirstLargestAt(model.quants, limit, i) && model.quants[i] == a.quant;
    var j :| FirstLargestAt(model.quants, limit, j) && model.quants[j] == b.quant;
    assert i == j;
  }

  /** The candidates gathered from the first `n` models; `from` says which model each one is for. */
  ghost predicate Gathered(models: seq<Model>, host: Host, meta: Meta, n: nat, candidates: seq<Candidate>, from: seq<nat>) {
    && n <= |models| && |from| == |candidates|
    && (forall k :: 0 <= k < |from| ==> from[k] < n && Enters(models[from[k]], host, meta, candidates[k]))
    && (forall k, l :: 0 <= k < l < |from| ==> from[k] < from[l])
    && (forall j :: 0 <= j < n && SomeFits(models[j], LimitOf(host, meta)) ==> j in from)
  }

  lemma NoneGathered(models: seq<Model>, host: Host, meta: Meta, from: seq<nat>)
    requires Gathered(models, host, meta, |models|, [], from)
    ensures forall j :: 0 <= j < |models| ==> !SomeFits(models[j], LimitOf(host, meta))
  {
    hide SomeFits;
  }

  lemma GatheredAt(models: seq<Model>, host: Host, meta: Meta, candidates: seq<Candidate>, from: seq<nat>, k: nat)
    requires Gathered(models, host, meta, |models|, candidates, from) && k < |candidates|
    ensures |from| == |candidates| && from[k] < |models| && Enters(models[from[k]], host, meta, candidates[k])
  {
    hide Enters, SomeFits;
  }

  lemma NothingGathered(models: seq<Model>, host: Host, meta: Meta)
    ensures Gathered(models, host, meta, 0, [], [])
  {
  }

  lemma GatheredMore(models: seq<Model>, host: Host, meta: Meta, n: nat, candidates: seq<Candidate>, from: seq<nat>, c: Candidate)
    requires Gathered(models, host, meta, n, candidates, from) && n < |models| && Enters(models[n], host, meta, c)
    ensures Gathered(models, host, meta, n + 1, candidates + [c], from + [n])
  {
    hide Enters, SomeFits;
    var from' := from + [n];
    forall j | 0 <= j < n + 1 && SomeFits(models[j], LimitOf(host, meta))
      ensures j in from'
    {
      assert from'[|from|] == n;
    }
  }

  lemma GatheredNone(models: seq<Model>, host: Host, meta: Meta, n: nat, candidates: seq<Candidate>, from: seq<nat>)
    requires Gathered(models, host, meta, n, candidates, from) && n < |models| && !SomeFits(models[n], LimitOf(host, meta))
    ensures Gathered(models, host, meta, n + 1, candidates, from)
  {
    hide Enters;
  }

  lemma EntersFits(model: Model, host: Host, meta: Meta, c: Candidate)
    requires Enters(model, host, meta, c)
    ensures SomeFits(model, LimitOf(host, meta))
  {
  }

  lemma TopIsBest(models: seq<Model>, host: Host, meta: Meta, candidates: seq<Candidate>, from: seq<nat>, k: nat)
    requires Gathered(models, host, meta, |models|, candidates, from) && FirstTop(candidates, k)
    ensures BestAt(models, host, meta, from[k], candidates[k])
  {
    hide Below, Enters, SomeFits;
    forall j, c | 0 <= j < |models| && Enters(models[j], host, meta, c)
      ensures !Below(candidates[k], c) && (j < from[k] ==> Below(c, candidates[k]))
    {
      EntersFits(models[j], host, meta, c);
      var l :| 0 <= l < |from| && from[l] == j;
      EntersUnique(models[j], host, meta, c, candidates[l]);
      assert j < from[k] ==> l < k;
    }
  }

  /** `match`. */
  method Match(host: Host, meta: Meta, models: seq<Model>) returns (pick: Option<Pick>)
    ensures pick.None? <==> forall j :: 0 <= j < |models| ==> !SomeFits(models[j], LimitOf(host, meta))
    ensures pick.Some? ==> exists i, c :: BestAt(models, host, meta, i, c) && pick.value == PickOf(c, host, meta)
  {
    hide Gathered, BestAt, Below, PickOf, LimitOf, Fits;
    var limit := LimitOf(host, meta);
    var candidates: seq<Candidate> := [];
    NothingGathered(models, host, meta);
    ghost var from: seq<nat> := [];
    var i := 0;
    while i < |models|
      invariant 0 <= i <= |models|
      invariant Gathered(models, host, meta, i, candidates, from)
    {
      var quant := LargestFittingQuant(models[i], limit);
      if quant.None? {
        GatheredNone(models, host, meta, i, candidates, from);
        i := i + 1;
        continue;
      }
      var score := models[i].rank;
      if models[i].vision {
        score := score + Or(meta.visionSoftBoost, 2);
        if host.camera {
          score := score + Or(meta.visionBoost, 5);
        }
      }
      var c := Candidate(score, quant.value.size.value, models[i], quant.value);
      GatheredMore(models, host, meta, i, candidates, from, c);
      candidates := candidates + [c];
      from := from + [i];
      i := i + 1;
    }
    if candidates == [] {
      NoneGathered(models, host, meta, from);
      return None;
    }
    ghost var k := SortedHead(candidates);
    GatheredAt(models, host, meta, candidates, from, k);
    TopIsBest(models, host, meta, candidates, from, k);
    EntersFits(models[from[k]], host, meta, candidates[k]);
    candidates := SortedDescending(candidates);
    pick := Some(PickOf(candidates[0], host, meta));
  }

  /** Ranked by score, then size, then identifier: nothing that fits this host beats the pick. */
  lemma NothingBeatsThePick(models: seq<Model>, host: Host, meta: Meta, i: int, best: Candidate, j: int, q: Quant)
    requires BestAt(models, host, meta, i, best) && 0 <= j < |models| && q in models[j].quants && Fits(q, LimitOf(host, meta))
    ensures !Below(best, Candidate(Score(models[j], host, meta), q.size.value, models[j], q))
  {
    var limit := LimitOf(host, meta);
    var k :| 0 <= k < |models[j].quants| && models[j].quants[k] == q;
    var l := LargestAt(models[j].quants, limit, k);
    var c := Candidate(Score(models[j], host, meta), models[j].quants[l].size.value, models[j], models[j].quants[l]);
    assert FirstLargest(models[j].quants, limit, Some(c.quant));
    assert Enters(models[j], host, meta, c);
    assert !Below(best, c);
    StringOrder(best.model.id, c.model.id);
  }

  lemma {:induction false} LargestAt(quants: seq<Quant>, limit: Limit, k: nat) returns (l: nat)
    requires k < |quants| && Fits(quants[k], limit)
    ensures FirstLargestAt(quants, limit, l)
    decreases |quants|
  {
    var n := |quants| - 1;
    var front := quants[..n];
    if j :| 0 <= j < n && Fits(quants[j], limit) {
      assert front[j] == quants[j];
      l := LargestAt(front, limit, j);
      assert forall m :: 0 <= m < n ==> front[m] == quants[m];
      if Fits(quants[n], limit) && quants[n].size.value > quants[l].size.value {
        l := n;
      }
    } else {
      l := k;
    }
  }

  /** The weights always fit the pool they are counted against. */
  lemma PickFitsItsPool(models: seq<Model>, host: Host, meta: Meta, i: int, best: Candidate)
    requires BestAt(models, host, meta, i, best)
    ensures var p := PickOf(best, host, meta); p.size <= if p.fullOffload then p.vramBudget else p.budget
  {
  }

  /** A host without a usable accelerator whose video memory is larger: the cache of the pick, which runs in main memory, is
      counted against 8192, while main memory has nothing to give. */
  lemma PoolBeyondMainMemory()
    ensures var host := Host(4096.0, 9216.0, false, false, false);
            var meta := Meta(None, None, None, None, None);
            var quant := Quant("q", "f", Some(5000.0));
            var model := Model("m", 1, false, [quant], None, None);
            var best := Candidate(1, 5000.0, model, quant);
            BestAt([model], host, meta, 0, best) && !PickOf(best, host, meta).fullOffload &&
            PickOf(best, host, meta).budget == 8192.0 && RamBudget(host, meta) == 0.0
  {
    var host := Host(4096.0, 9216.0, false, false, false);
    var meta := Meta(None, None, None, None, None);
    var quant := Quant("q", "f", Some(5000.0));
    var model := Model("m", 1, false, [quant], None, None);
    var best := Candidate(1, 5000.0, model, quant);
    assert FirstLargestAt([quant], LimitOf(host, meta), 0);
    assert Enters(model, host, meta, best);
    OnlyModel(model, host, meta, best);
  }

  /** The candidate of the only model is the best. */
  lemma OnlyModel(model: Model, host: Host, meta: Meta, best: Candidate)
    requires Enters(model, host, meta, best)
    ensures BestAt([model], host, meta, 0, best)
  {
    hide Enters, Below;
    forall c | Enters(model, host, meta, c)
      ensures !Below(best, c)
    {
      EntersUnique(model, host, meta, best, c);
      BelowOrder(best, best, best);
    }
  }

  /** The pool of a pick that is not fully offloaded is the main memory, exactly if the host has a usable accelerator,
      shares its memory, or has no more video than main memory to give. */
  lemma PoolIsMainMemoryIff(models: seq<Model>, host: Host, meta: Meta, i: int, best: Candidate)
    requires BestAt(models, host, meta, i, best) && !PickOf(best, host, meta).fullOffload
    ensures PickOf(best, host, meta).budget == RamBudget(host, meta)
            <==> host.gpu || host.unified || VramBudget(host, meta) <= RamBudget(host, meta)
  {
    PickFitsItsPool(models, host, meta, i, best);
  }
}
