/** The scanner of the old formats GGML, GGMF and GGJT. */
module LegacyScan {
  import opened Wrappers
  import opened Gguf

  datatype Format = GGML | GGMF | GGJT

  datatype Failure =
    | AlreadyGguf | BadMagic | BadVersion(version: nat) | TooShort | BadFtype(code: nat) | NotEligible
    | AbsurdLength | BadDimensions | NoSuchType(code: nat) | NoFeedForward | FlatFeedForward

  datatype Header = Header(format: Format, version: nat)

  datatype Hyper = Hyper(nVocab: nat, nEmbd: nat, nMult: nat, nHead: nat, nLayer: nat, nRot: nat, ftype: nat)

  /** A vocabulary item; the score keeps its bytes and is empty where the format has none. */
  datatype Item = Item(text: seq<Byte>, score: seq<Byte>)

  datatype Tensor = Tensor(name: seq<Byte>, dims: seq<nat>, dtype: nat, start: int, len: int)

  /** What was read, and the next offset. */
  type Scanned<T> = Result<(T, nat), Failure>

  /** A scan whose next offset may lie anywhere, even before the file. */
  type Passed<T> = Result<(T, int), Failure>

  function LMGG(): seq<Byte> {
    [108, 109, 103, 103]
  }

  function FMGG(): seq<Byte> {
    [102, 109, 103, 103]
  }

  function TJGG(): seq<Byte> {
    [116, 106, 103, 103]
  }

  /** layers.0.feed_forward.w1.weight */
  function FEED_FORWARD(): seq<Byte> {
    [108, 97, 121, 101, 114, 115, 46, 48, 46, 102, 101, 101, 100, 95, 102, 111, 114, 119, 97, 114, 100, 46, 119, 49, 46, 119, 101, 105,
     103, 104, 116]
  }

  // --- Reading ---------------------------------------------------------------------------------------------------------------

  /** Where a slice bound falls: a negative one counts from the end, and none leaves the data. */
  function Bound(i: int, n: nat): (b: nat)
    ensures b <= n
  {
    if i + n < 0 then 0 else if i < 0 then i + n else if i < n then i else n
  }

  /** `data[lo:hi]`. */
  function Slice(data: seq<Byte>, lo: int, hi: int): seq<Byte> {
    var from, to := Bound(lo, |data|), Bound(hi, |data|);
    if from <= to then data[from..to] else []
  }

  function U32(data: seq<Byte>, at: nat): (r: Scanned<nat>)
    ensures r.Ok? ==> r.value.1 == at + 4 <= |data|
  {
    if at + 4 <= |data| then Ok((FromLE(data[at..at + 4]), at + 4)) else Err(TooShort)
  }

  function Numbers(bytes: seq<Byte>): (ns: seq<nat>)
    requires |bytes| % 4 == 0
    ensures 4 * |ns| == |bytes|
  {
    if bytes == [] then [] else [FromLE(bytes[..4])] + Numbers(bytes[4..])
  }

  /** `struct.unpack` of several numbers at once. */
  function U32s(data: seq<Byte>, at: int, n: nat): (r: Passed<seq<nat>>)
    ensures r.Ok? ==> r.value.1 == at + 4 * n && |r.value.0| == n
  {
    var block := Slice(data, at, at + 4 * n);
    if |block| == 4 * n then Ok((Numbers(block), at + 4 * n)) else Err(TooShort)
  }

  // --- Header and hyperparameters ----------------------------------------------------------------------------------------------

  /** `validate_header`. */
  function ScanHeader(data: seq<Byte>, at: nat): Scanned<Header> {
    var magic := Slice(data, at, at + 4);
    if magic == MAGIC then Err(AlreadyGguf)
    else if magic == LMGG() then Ok((Header(GGML, 1), at + 4))
    else
      var (version, next) :- U32(data, at + 4);
      if magic == FMGG() then (if version != 1 then Err(BadVersion(version)) else Ok((Header(GGMF, version), next)))
      else if magic == TJGG() then (if version < 1 || version > 3 then Err(BadVersion(version)) else Ok((Header(GGJT, version), next)))
      else Err(BadMagic)
  }

  predicate IsFtype(code: nat) {
    code <= 4 || 7 <= code <= 18
  }

  function ScanHyper(data: seq<Byte>, at: nat): Scanned<Hyper> {
    var (f, next) :- U32s(data, at, 7);
    if IsFtype(f[6]) then Ok((Hyper(f[0], f[1], f[2], f[3], f[4], f[5], f[6]), next)) else Err(BadFtype(f[6]))
  }

  /** `validate_conversion`. */
  predicate Eligible(h: Header, ftype: nat) {
    if h.format != GGJT || h.version < 2 then ftype <= 1
    else h.version != 2 || !(ftype == 2 || ftype == 3 || ftype == 4 || ftype == 7)
  }

  // --- Vocabulary --------------------------------------------------------------------------------------------------------------

  function ScanItem(data: seq<Byte>, at: nat, scores: bool): (r: Scanned<Item>)
    ensures r.Ok? ==> r.value.1 >= at + 4
  {
    var (n, next) :- U32(data, at);
    if n >= 4096 then Err(AbsurdLength)
    else
      var text := Slice(data, next, next + n);
      if !scores then Ok((Item(text, []), next + n))
      else
        var (_, end) :- U32(data, next + n);
        Ok((Item(text, data[next + n..end]), end))
  }

  function ScanItems(data: seq<Byte>, at: nat, n: nat, scores: bool): (r: Scanned<seq<Item>>)
    ensures r.Ok? ==> |r.value.0| == n
    decreases n
  {
    if n == 0 then Ok(([], at))
    else
      var (first, next) :- ScanItem(data, at, scores);
      var (rest, end) :- ScanItems(data, next, n - 1, scores);
      Ok(([first] + rest, end))
  }

  /** What a loop has gathered, in front of what it is still to find. */
  function Behind<T, P>(done: seq<T>, r: Result<(seq<T>, P), Failure>): Result<(seq<T>, P), Failure> {
    match r
    case Ok(v) => Ok((done + v.0, v.1))
    case Err(e) => Err(e)
  }

  lemma BehindOne<T, P>(done: seq<T>, x: T, r: Result<(seq<T>, P), Failure>)
    ensures Behind(done, Behind([x], r)) == Behind(done + [x], r)
  {
    if r.Ok? {
      assert done + ([x] + r.value.0) == done + [x] + r.value.0;
    }
  }

  lemma BehindAll<T, P>(done: seq<T>, end: P)
    ensures Behind(done, Ok(([], end))) == Ok((done, end)) && Behind([], Ok((done, end))) == Ok((done, end))
  {
    assert done + [] == done == [] + done;
  }

  lemma BehindNothing<T, P>(r: Result<(seq<T>, P), Failure>)
    ensures Behind([], r) == r
  {
    if r.Ok? {
      assert [] + r.value.0 == r.value.0;
    }
  }

  lemma ItemsStep(data: seq<Byte>, at: nat, n: nat, scores: bool)
    requires n > 0
    ensures var first := ScanItem(data, at, scores);
            ScanItems(data, at, n, scores) ==
            if first.Err? then Err(first.error) else Behind([first.value.0], ScanItems(data, first.value.1, n - 1, scores))
  {
  }

  lemma NoItemsLeft(data: seq<Byte>, at: nat, scores: bool)
    ensures ScanItems(data, at, 0, scores) == Ok(([], at))
  {
  }

  /** The loop at `at` has gathered `done`, has `left` items to go and comes to `result`. */
  ghost predicate ItemsGathered(data: seq<Byte>, at: nat, left: nat, scores: bool, done: seq<Item>, result: Scanned<seq<Item>>) {
    result == Behind(done, ScanItems(data, at, left, scores))
  }

  lemma ItemGathers(data: seq<Byte>, at: nat, left: nat, scores: bool, done: seq<Item>, result: Scanned<seq<Item>>)
    requires left > 0 && ItemsGathered(data, at, left, scores, done, result)
    ensures ScanItem(data, at, scores).Err? ==> result == Err(ScanItem(data, at, scores).error)
    ensures ScanItem(data, at, scores).Ok? ==>
      ItemsGathered(data, ScanItem(data, at, scores).value.1, left - 1, scores, done + [ScanItem(data, at, scores).value.0], result)
  {
    ItemsStep(data, at, left, scores);
    hide ScanItem, ScanItems;
    var first := ScanItem(data, at, scores);
    if first.Ok? {
      BehindOne(done, first.value.0, ScanItems(data, first.value.1, left - 1, scores));
    }
  }

  lemma ItemsBegin(data: seq<Byte>, at: nat, n: nat, scores: bool)
    ensures ItemsGathered(data, at, n, scores, [], ScanItems(data, at, n, scores))
  {
    BehindNothing(ScanItems(data, at, n, scores));
    hide ScanItems;
  }

  lemma ItemsOver(data: seq<Byte>, at: nat, scores: bool, done: seq<Item>, result: Scanned<seq<Item>>)
    requires ItemsGathered(data, at, 0, scores, done, result)
    ensures result == Ok((done, at))
  {
    NoItemsLeft(data, at, scores);
    BehindAll(done, at);
  }

  /** The reads of one round of the loop over the items. */
  method LoadItem(data: seq<Byte>, orig: nat, loadScores: bool) returns (r: Scanned<Item>)
    ensures r == ScanItem(data, orig, loadScores)
  {
    hide FromLE, Slice;
    var offset: nat := orig;
    var counted :- U32(data, offset);
    var itemLen := counted.0;
    if itemLen >= 4096 {
      return Err(AbsurdLength);
    }
    offset := offset + 4;
    var text := Slice(data, offset, offset + itemLen);
    offset := offset + itemLen;
    var score: seq<Byte> := [];
    if loadScores {
      var _ :- U32(data, offset);
      score := data[offset..offset + 4];
      offset := offset + 4;
    }
    r := Ok((Item(text, score), offset));
  }

  /** One round of the loop over the items. */
  method AppendItem(data: seq<Byte>, offset: nat, loadScores: bool, items: seq<Item>, ghost left: nat, ghost result: Scanned<seq<Item>>)
      returns (failure: Option<Failure>, items': seq<Item>, next: nat)
    requires left > 0 && ItemsGathered(data, offset, left, loadScores, items, result)
    ensures failure.Some? ==> result == Err(failure.value)
    ensures failure.None? ==> ItemsGathered(data, next, left - 1, loadScores, items', result)
  {
    ItemGathers(data, offset, left, loadScores, items, result);
    hide *;
    failure, items', next := None, items, offset;
    var scanned := LoadItem(data, offset, loadScores);
    if scanned.Err? {
      failure := Some(scanned.error);
      return;
    }
    items' := items + [scanned.value.0];
    next := scanned.value.1;
  }

  /** `Vocab.load`. */
  method LoadVocab(data: seq<Byte>, orig: nat, n: nat, loadScores: bool) returns (r: Scanned<seq<Item>>)
    ensures r == ScanItems(data, orig, n, loadScores)
  {
    var items: seq<Item>, offset: nat, i: nat := [], orig, 0;
    ghost var result := ScanItems(data, orig, n, loadScores);
    ItemsBegin(data, orig, n, loadScores);
    hide *;
    while i < n
      invariant 0 <= i <= n
      invariant ItemsGathered(data, offset, n - i, loadScores, items, result)
    {
      var failure;
      failure, items, offset := AppendItem(data, offset, loadScores, items, n - i, result);
      if failure.Some? {
        return Err(failure.value);
      }
      i := i + 1;
    }
    ItemsOver(data, offset, loadScores, items, result);
    r := Ok((items, offset));
  }

  // --- Tensors -----------------------------------------------------------------------------------------------------------------

  /** Block size and bytes per block of a tensor type. */
  function QuantSize(dtype: nat): (r: Option<(nat, nat)>)
    ensures r.Some? ==> r.value.0 > 0 && r.value.1 > 0
  {
    if dtype == 0 || dtype == 26 then Some((1, 4))
    else if dtype == 1 || dtype == 25 || dtype == 30 then Some((1, 2))
    else if dtype == 24 then Some((1, 1))
    else if dtype == 27 || dtype == 28 then Some((1, 8))
    else if dtype == 2 || dtype == 20 then Some((32, 18))
    else if dtype == 3 then Some((32, 20))
    else if dtype == 6 then Some((32, 22))
    else if dtype == 7 then Some((32, 24))
    else if dtype == 8 then Some((32, 34))
    else if dtype == 9 then Some((32, 40))
    else if dtype == 39 then Some((32, 17))
    else QuantSize256(dtype)
  }

  lemma QuantBlocks(dtype: nat)
    ensures QuantSize(dtype).Some? ==> 0 < QuantSize(dtype).value.0 <= 256
  {
  }

  function QuantSize256(dtype: nat): (r: Option<(nat, nat)>)
    ensures r.Some? ==> r.value.0 == 256 && r.value.1 > 0
  {
    if dtype == 10 then Some((256, 84))
    else if dtype == 11 || dtype == 21 then Some((256, 110))
    else if dtype == 12 then Some((256, 144))
    else if dtype == 13 then Some((256, 176))
    else if dtype == 14 then Some((256, 210))
    else if dtype == 15 then Some((256, 292))
    else if dtype == 16 || dtype == 35 then Some((256, 66))
    else if dtype == 17 then Some((256, 74))
    else if dtype == 18 then Some((256, 98))
    else if dtype == 19 then Some((256, 50))
    else if dtype == 22 then Some((256, 82))
    else if dtype == 23 then Some((256, 136))
    else if dtype == 29 then Some((256, 56))
    else if dtype == 34 then Some((256, 54))
    else None
  }

  function TWO63(): int {
    0x8000_0000_0000_0000
  }

  function TWO64(): int {
    0x1_0000_0000_0000_0000
  }

  /** 64-bit signed arithmetic. */
  function Wrap64(x: int): int {
    (x + TWO63()) % TWO64() - TWO63()
  }

  function Prod(dims: seq<nat>): nat {
    if dims == [] then 1 else dims[0] * Prod(dims[1..])
  }

  function LenBytes(dims: seq<nat>, blockSize: nat, typeSize: nat): int
    requires blockSize > 0
  {
    Wrap64(Wrap64(Prod(dims)) * typeSize) / blockSize
  }

  lemma WrapOnce(p: nat, t: nat)
    ensures Wrap64(Wrap64(p) * t) == Wrap64(p * t)
  {
    var q := (p + TWO63()) / TWO64();
    assert Wrap64(p) == p - q * TWO64();
    assert (p - q * TWO64()) * t == p * t - (q * t) * TWO64();
    WrapShift(p * t, q * t);
  }

  lemma WrapShift(x: int, k: int)
    ensures Wrap64(x - k * TWO64()) == Wrap64(x)
  {
  }

  /** The length is negative exactly when the number of bytes of the blocks lies in the upper half modulo 2^64. */
  lemma LengthSignIff(dims: seq<nat>, blockSize: nat, typeSize: nat)
    requires blockSize > 0
    ensures LenBytes(dims, blockSize, typeSize) >= 0 <==> Prod(dims) * typeSize % TWO64() < TWO63()
  {
    WrapOnce(Prod(dims), typeSize);
    WrapSign(Prod(dims) * typeSize);
    DivideSign(Wrap64(Prod(dims) * typeSize), blockSize);
    hide Wrap64, Prod;
  }

  lemma WrapSign(x: nat)
    ensures Wrap64(x) >= 0 <==> x % TWO64() < TWO63()
  {
  }

  lemma DivideSign(x: int, d: nat)
    requires d > 0
    ensures x / d >= 0 <==> x >= 0
  {
  }

  /** The length is the true one exactly below 2^63; no block has more than 256 elements. */
  lemma LengthIsExactIff(dims: seq<nat>, blockSize: nat, typeSize: nat)
    requires 0 < blockSize <= 256 && typeSize > 0
    ensures LenBytes(dims, blockSize, typeSize) == Prod(dims) * typeSize / blockSize <==> Prod(dims) * typeSize < TWO63()
  {
    var x := Prod(dims) * typeSize;
    WrapOnce(Prod(dims), typeSize);
    WrapLow(x);
    if x >= TWO63() {
      FarApart(Wrap64(x), x, blockSize);
    }
    hide Wrap64, Prod;
  }

  lemma WrapLow(x: nat)
    ensures x < TWO63() ==> Wrap64(x) == x
    ensures x >= TWO63() ==> Wrap64(x) + TWO64() <= x
  {
  }

  lemma FarApart(x: int, y: int, d: nat)
    requires 0 < d <= 256 && x + TWO64() <= y
    ensures x / d != y / d
  {
    assert x == d * (x / d) + x % d && y == d * (y / d) + y % d;
  }

  /** The distance to the next multiple of 32. */
  function Padding(at: int): (p: nat)
    ensures p < 32 && (at + p) % 32 == 0
  {
    (at + 31) / 32 * 32 - at
  }

  /** `Tensor.load`: the offset behind a tensor is computed in 64 bits. */
  function ScanTensor(data: seq<Byte>, at: int, padded: bool): Passed<Tensor> {
    var (h, next) :- U32s(data, at, 3);
    if h[0] > 4 then Err(BadDimensions)
    else if h[1] >= 4096 then Err(AbsurdLength)
    else if QuantSize(h[2]).None? then Err(NoSuchType(h[2]))
    else
      var (dims, afterDims) :- U32s(data, next, h[0]);
      var name := Slice(data, afterDims, afterDims + h[1]);
      var unpadded := afterDims + h[1];
      var start := unpadded + if padded then Padding(unpadded) else 0;
      var len := LenBytes(dims, QuantSize(h[2]).value.0, QuantSize(h[2]).value.1);
      Ok((Tensor(name, dims, h[2], start, len), Wrap64(start + len)))
  }

  /** At most `rounds` rounds of the scan loop; absent while it still runs. */
  function ScanFor(data: seq<Byte>, at: int, padded: bool, rounds: nat): Option<Passed<seq<Tensor>>>
    decreases rounds
  {
    if at >= |data| then Some(Ok(([], at)))
    else if rounds == 0 then None
    else
      match ScanTensor(data, at, padded)
      case Err(e) => Some(Err(e))
      case Ok(v) =>
        match ScanFor(data, v.1, padded, rounds - 1)
        case None => None
        case Some(r) => Some(Behind([v.0], r))
  }

  /** The scan loop ends, in success or failure. */
  ghost predicate Ends(data: seq<Byte>, at: int, padded: bool) {
    exists rounds: nat :: ScanFor(data, at, padded, rounds).Some?
  }

  /** What a scan that ends has found. */
  ghost function ScanTensors(data: seq<Byte>, at: int, padded: bool): Passed<seq<Tensor>>
    requires Ends(data, at, padded)
  {
    var rounds: nat :| ScanFor(data, at, padded, rounds).Some?;
    ScanFor(data, at, padded, rounds).value
  }

  lemma {:induction false} MoreRounds(data: seq<Byte>, at: int, padded: bool, k: nat, l: nat)
    requires k <= l && ScanFor(data, at, padded, k).Some?
    ensures ScanFor(data, at, padded, l) == ScanFor(data, at, padded, k)
    decreases k
  {
    hide ScanTensor;
    if at < |data| && ScanTensor(data, at, padded).Ok? {
      MoreRounds(data, ScanTensor(data, at, padded).value.1, padded, k - 1, l - 1);
    }
  }

  /** However many rounds are allowed, a scan that ends has found the same. */
  lemma ScanTensorsIs(data: seq<Byte>, at: int, padded: bool, rounds: nat)
    requires ScanFor(data, at, padded, rounds).Some?
    ensures Ends(data, at, padded) && ScanTensors(data, at, padded) == ScanFor(data, at, padded, rounds).value
  {
    hide ScanFor;
    assert Ends(data, at, padded);
    forall k: nat | ScanFor(data, at, padded, k).Some?
      ensures ScanFor(data, at, padded, k) == ScanFor(data, at, padded, rounds)
    {
      if k <= rounds {
        MoreRounds(data, at, padded, k, rounds);
      } else {
        MoreRounds(data, at, padded, rounds, k);
      }
    }
  }

  lemma RoundsStep(data: seq<Byte>, at: int, padded: bool, rounds: nat)
    requires at < |data| && ScanFor(data, at, padded, rounds).Some?
    ensures rounds > 0
    ensures var first := ScanTensor(data, at, padded);
            if first.Err? then ScanFor(data, at, padded, rounds) == Some(Err(first.error))
            else
              var rest := ScanFor(data, first.value.1, padded, rounds - 1);
              rest.Some? && ScanFor(data, at, padded, rounds) == Some(Behind([first.value.0], rest.value))
  {
    hide ScanTensor;
  }

  /** The loop at `at` has gathered `done` and within `rounds` rounds comes to `result`. */
  ghost predicate Gathered(data: seq<Byte>, at: int, padded: bool, rounds: nat, done: seq<Tensor>, result: Passed<seq<Tensor>>) {
    ScanFor(data, at, padded, rounds).Some? && result == Behind(done, ScanFor(data, at, padded, rounds).value)
  }

  lemma RoundsBegin(data: seq<Byte>, at: int, padded: bool) returns (rounds: nat)
    requires Ends(data, at, padded)
    ensures Gathered(data, at, padded, rounds, [], ScanTensors(data, at, padded))
  {
    hide ScanFor;
    rounds :| ScanFor(data, at, padded, rounds).Some?;
    ScanTensorsIs(data, at, padded, rounds);
    BehindNothing(ScanFor(data, at, padded, rounds).value);
  }

  /** One round of the loop moves a tensor from what is still to be found to what was gathered. */
  lemma RoundGathers(data: seq<Byte>, at: int, padded: bool, rounds: nat, done: seq<Tensor>, result: Passed<seq<Tensor>>)
    requires at < |data| && Gathered(data, at, padded, rounds, done, result)
    ensures rounds > 0
    ensures ScanTensor(data, at, padded).Err? ==> result == Err(ScanTensor(data, at, padded).error)
    ensures ScanTensor(data, at, padded).Ok? ==>
      Gathered(data, ScanTensor(data, at, padded).value.1, padded, rounds - 1, done + [ScanTensor(data, at, padded).value.0], result)
  {
    RoundsStep(data, at, padded, rounds);
    hide ScanTensor, ScanFor;
    var first := ScanTensor(data, at, padded);
    if first.Ok? {
      BehindOne(done, first.value.0, ScanFor(data, first.value.1, padded, rounds - 1).value);
    }
  }

  lemma RoundsOver(data: seq<Byte>, at: int, padded: bool, rounds: nat, done: seq<Tensor>, result: Passed<seq<Tensor>>)
    requires at >= |data| && Gathered(data, at, padded, rounds, done, result)
    ensures result == Ok((done, at))
  {
    NoRoundsLeft(data, at, padded, rounds);
    BehindAll(done, at);
  }

  lemma NoRoundsLeft(data: seq<Byte>, at: int, padded: bool, rounds: nat)
    requires at >= |data|
    ensures ScanFor(data, at, padded, rounds) == Some(Ok(([], at)))
  {
  }

  // --- When the scan ends --------------------------------------------------------------------------------------------------------

  /** The offset after `k` rounds, if there are that many. */
  function Visited(data: seq<Byte>, at: int, padded: bool, k: nat): Option<int>
    decreases k
  {
    if k == 0 then Some(at)
    else if at >= |data| || ScanTensor(data, at, padded).Err? then None
    else Visited(data, ScanTensor(data, at, padded).value.1, padded, k - 1)
  }

  predicate Running(data: seq<Byte>, at: int, padded: bool, k: nat) {
    Visited(data, at, padded, k).Some? && Visited(data, at, padded, k).value < |data|
  }

  lemma {:induction false} RunningIff(data: seq<Byte>, at: int, padded: bool, k: nat)
    ensures ScanFor(data, at, padded, k).None? <==> Running(data, at, padded, k)
    decreases k
  {
    hide ScanTensor;
    if k > 0 && at < |data| && ScanTensor(data, at, padded).Ok? {
      RunningIff(data, ScanTensor(data, at, padded).value.1, padded, k - 1);
    }
  }

  lemma {:induction false} VisitedOn(data: seq<Byte>, at: int, padded: bool, i: nat, k: nat)
    ensures Visited(data, at, padded, i + k) ==
            if Visited(data, at, padded, i).None? then None else Visited(data, Visited(data, at, padded, i).value, padded, k)
    decreases i
  {
    hide ScanTensor;
    if i > 0 && at < |data| && ScanTensor(data, at, padded).Ok? {
      VisitedOn(data, ScanTensor(data, at, padded).value.1, padded, i - 1, k);
    }
  }

  /** The loop comes back to an offset while it is running. */
  ghost predicate ComesBack(data: seq<Byte>, at: int, padded: bool) {
    exists i: nat, j: nat :: i < j && Running(data, at, padded, j) && Visited(data, at, padded, i) == Visited(data, at, padded, j)
  }

  /** Behind an offset it comes back to, the loop repeats itself. */
  lemma {:induction false} RunsOn(data: seq<Byte>, at: int, padded: bool, i: nat, j: nat, k: nat)
    requires i < j && Running(data, at, padded, j) && Visited(data, at, padded, i) == Visited(data, at, padded, j)
    ensures Running(data, at, padded, k)
    decreases k
  {
    hide Running, Visited;
    if k <= j {
      EarlierRuns(data, at, padded, k, j);
    } else {
      RunsOn(data, at, padded, i, j, k - (j - i));
      VisitedOn(data, at, padded, i, k - j);
      VisitedOn(data, at, padded, j, k - j);
      SameRuns(data, at, padded, i + (k - j), j + (k - j));
    }
  }

  lemma SameRuns(data: seq<Byte>, at: int, padded: bool, k: nat, l: nat)
    requires Visited(data, at, padded, k) == Visited(data, at, padded, l) && Running(data, at, padded, k)
    ensures Running(data, at, padded, l)
  {
    hide Visited;
  }

  lemma {:induction false} EarlierRuns(data: seq<Byte>, at: int, padded: bool, k: nat, l: nat)
    requires k <= l && Running(data, at, padded, l)
    ensures Running(data, at, padded, k)
    ensures k < l ==> ScanTensor(data, Visited(data, at, padded, k).value, padded).Ok?
    decreases k
  {
    hide ScanTensor;
    if k > 0 {
      EarlierRuns(data, ScanTensor(data, at, padded).value.1, padded, k - 1, l - 1);
    }
  }

  /** A header can only be read at an offset that is near the file. */
  lemma ReadsInside(data: seq<Byte>, at: int, padded: bool)
    requires at < |data| && ScanTensor(data, at, padded).Ok?
    ensures -|data| <= at && (at >= 0 ==> at + 12 <= |data|)
  {
    assert |Slice(data, at, at + 12)| == 12;
  }

  /** More numbers than there is room for: two are equal. */
  lemma {:induction false} Pigeonhole(s: seq<int>, lo: int, hi: int) returns (i: nat, j: nat)
    requires lo <= hi && |s| > hi - lo && forall k :: 0 <= k < |s| ==> lo <= s[k] < hi
    ensures i < j < |s| && s[i] == s[j]
    decreases hi - lo
  {
    var n := |s| - 1;
    if k :| 0 <= k < n && s[k] == s[n] {
      i, j := k, n;
    } else {
      var t := seq(n, k requires 0 <= k < n => if s[k] == hi - 1 then s[n] else s[k]);
      assert s[n] == hi - 1 ==> forall k :: 0 <= k < n ==> t[k] < hi - 1;
      i, j := Pigeonhole(t, lo, hi - 1);
    }
  }

  /** The scan ends exactly when it never comes back to an offset. */
  lemma EndsIff(data: seq<Byte>, at: int, padded: bool)
    ensures Ends(data, at, padded) <==> !ComesBack(data, at, padded)
  {
    hide Running, Visited, ScanFor;
    if ComesBack(data, at, padded) {
      var i: nat, j: nat :| i < j && Running(data, at, padded, j) && Visited(data, at, padded, i) == Visited(data, at, padded, j);
      forall k: nat
        ensures ScanFor(data, at, padded, k).None?
      {
        RunsOn(data, at, padded, i, j, k);
        RunningIff(data, at, padded, k);
      }
    } else {
      RunningIff(data, at, padded, 2 * |data| + 1);
      if Running(data, at, padded, 2 * |data| + 1) {
        LongRunComesBack(data, at, padded);
      }
    }
  }

  /** Whether the scan ends is decided after two rounds for every byte and one more. */
  lemma EndsWithinIff(data: seq<Byte>, at: int, padded: bool)
    ensures Ends(data, at, padded) <==> ScanFor(data, at, padded, 2 * |data| + 1).Some?
  {
    hide Running, Visited, ScanFor, ComesBack;
    RunningIff(data, at, padded, 2 * |data| + 1);
    if Running(data, at, padded, 2 * |data| + 1) {
      LongRunComesBack(data, at, padded);
      EndsIff(data, at, padded);
    }
  }

  lemma LongRunComesBack(data: seq<Byte>, at: int, padded: bool)
    requires Running(data, at, padded, 2 * |data| + 1)
    ensures ComesBack(data, at, padded)
  {
    hide Visited, ScanTensor;
    var n := 2 * |data| + 1;
    forall k: nat | k < n
      ensures Running(data, at, padded, k) && -|data| <= Visited(data, at, padded, k).value < |data|
    {
      EarlierRuns(data, at, padded, k, n);
      ReadsInside(data, Visited(data, at, padded, k).value, padded);
    }
    var offsets := seq(n, k requires 0 <= k < n => Visited(data, at, padded, k).value);
    var i, j := Pigeonhole(offsets, -|data|, |data|);
    assert offsets[i] == Visited(data, at, padded, i).value && offsets[j] == Visited(data, at, padded, j).value;
  }

  /** The guard on one tensor: its bytes do not reach the upper half modulo 2^64, and its end is below 2^63. */
  predicate Forward(t: Tensor) {
    QuantSize(t.dtype).Some? && Prod(t.dims) * QuantSize(t.dtype).value.1 % TWO64() < TWO63() && t.start + t.len < TWO63()
  }

  lemma TensorLength(data: seq<Byte>, at: int, padded: bool)
    requires ScanTensor(data, at, padded).Ok?
    ensures var t := ScanTensor(data, at, padded).value.0;
            QuantSize(t.dtype).Some? && t.len == LenBytes(t.dims, QuantSize(t.dtype).value.0, QuantSize(t.dtype).value.1)
  {
    hide LenBytes, QuantSize, Padding, Slice;
  }

  lemma LengthBounds(dims: seq<nat>, blockSize: nat, typeSize: nat)
    requires blockSize > 0
    ensures -TWO63() <= LenBytes(dims, blockSize, typeSize) < TWO63()
  {
    var x := Wrap64(Wrap64(Prod(dims)) * typeSize);
    assert -TWO63() <= x < TWO63();
    DivideBounds(x, blockSize);
  }

  lemma DivideBounds(x: int, d: nat)
    requires d > 0
    ensures x >= 0 ==> 0 <= x / d <= x
    ensures x < 0 ==> x <= x / d < 0
  {
    var q, m := x / d, x % d;
    assert x == d * q + m && 0 <= m < d;
    NotAbove(d, q);
  }

  lemma NotAbove(d: nat, q: int)
    requires d > 0
    ensures q >= 0 ==> q <= d * q
    ensures q < 0 ==> d * q <= q - (d - 1)
  {
    if q >= 0 {
      TimesNotNegative(d - 1, q);
      assert (d - 1) * q == d * q - q;
    } else {
      TimesNotNegative(d - 1, -q - 1);
      assert (d - 1) * (-q - 1) == -(d * q) - d + q + 1;
    }
  }

  lemma WrapNext(start: int, len: int)
    requires 0 <= start < 0x2000_0000_0000_0000 && -TWO63() <= len < TWO63()
    ensures Wrap64(start + len) >= start <==> len >= 0 && start + len < TWO63()
    ensures len >= 0 && start + len < TWO63() ==> Wrap64(start + len) == start + len
  {
  }

  /** The scan steps forward over a tensor exactly if its header meets the guard. */
  lemma StepsForwardIff(data: seq<Byte>, at: nat, padded: bool)
    requires at < |data| < 0x1000_0000_0000_0000 && ScanTensor(data, at, padded).Ok?
    ensures var (t, next) := ScanTensor(data, at, padded).value; next >= t.start <==> Forward(t)
    ensures var (t, next) := ScanTensor(data, at, padded).value; Forward(t) ==> t.len >= 0 && next == t.start + t.len
  {
    hide *;
    var (t, next) := ScanTensor(data, at, padded).value;
    ForwardIs(t);
    TensorLength(data, at, padded);
    ReadsInside(data, at, padded);
    TensorPlace(data, at, padded);
    LengthSignIff(t.dims, QuantSize(t.dtype).value.0, QuantSize(t.dtype).value.1);
    LengthBounds(t.dims, QuantSize(t.dtype).value.0, QuantSize(t.dtype).value.1);
    WrapNext(t.start, t.len);
  }

  lemma TensorPlace(data: seq<Byte>, at: int, padded: bool)
    requires ScanTensor(data, at, padded).Ok?
    ensures var (t, next) := ScanTensor(data, at, padded).value;
            at + 12 <= t.start < at + 5000 && next == Wrap64(t.start + t.len) && (padded ==> t.start % 32 == 0)
  {
    hide LenBytes, QuantSize, Slice, Wrap64, Padding, Numbers;
  }

  lemma ForwardIs(t: Tensor)
    ensures Forward(t) <==> QuantSize(t.dtype).Some? && Prod(t.dims) * QuantSize(t.dtype).value.1 % TWO64() < TWO63() && t.start + t.len < TWO63()
  {
  }

  /** Every header the loop meets meets the guard. */
  ghost predicate AllForward(data: seq<Byte>, at: int, padded: bool) {
    forall k: nat :: Running(data, at, padded, k) ==> ForwardAt(data, Visited(data, at, padded, k).value, padded)
  }

  predicate ForwardAt(data: seq<Byte>, at: int, padded: bool) {
    ScanTensor(data, at, padded).Ok? ==> Forward(ScanTensor(data, at, padded).value.0)
  }

  lemma {:induction false} OffsetsGrow(data: seq<Byte>, at: nat, padded: bool, k: nat)
    requires |data| < 0x1000_0000_0000_0000 && AllForward(data, at, padded) && Running(data, at, padded, k)
    ensures Visited(data, at, padded, k).value >= at + 12 * k
  {
    hide ScanTensor, Visited, Forward;
    if k == 0 {
      VisitedStep(data, at, padded, 0);
    } else {
      EarlierRuns(data, at, padded, k - 1, k);
      OffsetsGrow(data, at, padded, k - 1);
      var o := Visited(data, at, padded, k - 1).value;
      VisitedStep(data, at, padded, k - 1);
      assert ForwardAt(data, o, padded);
      StepsForwardIff(data, o, padded);
      TensorPlace(data, o, padded);
    }
  }

  lemma VisitedStep(data: seq<Byte>, at: int, padded: bool, k: nat)
    ensures Visited(data, at, padded, 0) == Some(at)
    ensures Running(data, at, padded, k + 1) ==>
      Running(data, at, padded, k) && ScanTensor(data, Visited(data, at, padded, k).value, padded).Ok? &&
      Visited(data, at, padded, k + 1).value == ScanTensor(data, Visited(data, at, padded, k).value, padded).value.1
  {
    hide ScanTensor;
    VisitedOn(data, at, padded, k, 1);
  }

  /** If every header the loop meets meets the guard, it ends: every tensor takes at least twelve bytes. */
  lemma ForwardEnds(data: seq<Byte>, at: nat, padded: bool)
    requires |data| < 0x1000_0000_0000_0000 && AllForward(data, at, padded)
    ensures Ends(data, at, padded) && ScanFor(data, at, padded, |data| / 12 + 1).Some?
  {
    hide Visited, AllForward;
    var k := |data| / 12 + 1;
    RunningIff(data, at, padded, k);
    if Running(data, at, padded, k) {
      OffsetsGrow(data, at, padded, k);
    }
    hide ScanFor;
  }

  /** The data ranges are in order and pairwise disjoint, with at least twelve bytes in front of each, start at multiples of 32
      where the format pads, and the last one ends where the scan ends. */
  ghost predicate InOrder(ts: seq<Tensor>, at: int, end: int, padded: bool) {
    && (forall i :: 0 <= i < |ts| ==> at + 12 <= ts[i].start <= ts[i].start + ts[i].len <= end && (padded ==> ts[i].start % 32 == 0))
    && (forall i, j :: 0 <= i < j < |ts| ==> ts[i].start + ts[i].len + 12 <= ts[j].start)
    && (if ts == [] then end == at else end == ts[|ts| - 1].start + ts[|ts| - 1].len)
  }

  lemma NothingInOrder(at: int, padded: bool)
    ensures InOrder([], at, at, padded)
  {
  }

  lemma InOrderStep(first: Tensor, rest: seq<Tensor>, at: int, next: int, end: int, padded: bool)
    requires InOrder(rest, next, end, padded) && at + 12 <= first.start <= first.start + first.len == next
    requires padded ==> first.start % 32 == 0
    ensures InOrder([first] + rest, at, end, padded)
  {
    var ts := [first] + rest;
    assert rest != [] ==> rest[0].start >= next + 12;
    assert forall i :: 0 < i < |ts| ==> ts[i] == rest[i - 1];
  }

  predicate AllMeet(ts: seq<Tensor>) {
    forall t :: t in ts ==> Forward(t)
  }

  lemma AllMeetSplit(first: Tensor, rest: seq<Tensor>)
    requires AllMeet([first] + rest)
    ensures Forward(first) && AllMeet(rest)
  {
    hide Forward;
    assert ([first] + rest)[0] == first;
  }

  lemma OneMore(data: seq<Byte>, at: int, padded: bool, rounds: nat) returns (first: Tensor, next: int, rest: seq<Tensor>)
    requires at < |data| && ScanFor(data, at, padded, rounds).Some? && ScanFor(data, at, padded, rounds).value.Ok?
    ensures rounds > 0 && ScanTensor(data, at, padded) == Ok((first, next))
    ensures var all := ScanFor(data, at, padded, rounds).value.value;
            ScanFor(data, next, padded, rounds - 1) == Some(Ok((rest, all.1))) && all.0 == [first] + rest
  {
    hide ScanTensor;
    first, next := ScanTensor(data, at, padded).value.0, ScanTensor(data, at, padded).value.1;
    rest := ScanFor(data, next, padded, rounds - 1).value.value.0;
  }

  lemma {:induction false} RangesInOrderFor(data: seq<Byte>, at: nat, padded: bool, rounds: nat, ts: seq<Tensor>, end: int)
    requires |data| < 0x1000_0000_0000_0000 && ScanFor(data, at, padded, rounds) == Some(Ok((ts, end))) && AllMeet(ts)
    ensures InOrder(ts, at, end, padded)
    decreases rounds
  {
    hide *;
    if at >= |data| {
      NoRoundsLeft(data, at, padded, rounds);
      NothingInOrder(at, padded);
    } else {
      var first, next, rest := OneMore(data, at, padded, rounds);
      AllMeetSplit(first, rest);
      StepsForwardIff(data, at, padded);
      TensorPlace(data, at, padded);
      RangesInOrderFor(data, next, padded, rounds - 1, rest, end);
      InOrderStep(first, rest, at, next, end, padded);
    }
  }

  lemma InOrderAt(ts: seq<Tensor>, at: int, end: int, padded: bool, i: nat, j: nat)
    requires InOrder(ts, at, end, padded) && i <= j < |ts|
    ensures ts[i].start <= ts[i].start + ts[i].len <= end && (padded ==> ts[i].start % 32 == 0)
    ensures i < j ==> ts[i].start + ts[i].len + 12 <= ts[j].start
    ensures j == |ts| - 1 ==> end == ts[j].start + ts[j].len
  {
  }

  lemma IsInOrder(ts: seq<Tensor>, at: int, end: int, padded: bool)
    requires forall i :: 0 <= i < |ts| ==>
      at + 12 <= ts[i].start <= ts[i].start + ts[i].len <= end && (padded ==> ts[i].start % 32 == 0)
    requires forall i, j :: 0 <= i < j < |ts| ==> ts[i].start + ts[i].len + 12 <= ts[j].start
    requires end == if ts == [] then at else ts[|ts| - 1].start + ts[|ts| - 1].len
    ensures InOrder(ts, at, end, padded)
  {
  }

  lemma InOrderTail(first: Tensor, rest: seq<Tensor>, at: int, end: int, padded: bool)
    requires InOrder([first] + rest, at, end, padded)
    ensures first.len >= 0 && InOrder(rest, first.start + first.len, end, padded)
    ensures if rest == [] then end == first.start + first.len else first.start + first.len <= rest[0].start
  {
    hide InOrder;
    var ts := [first] + rest;
    InOrderAt(ts, at, end, padded, 0, |ts| - 1);
    InOrderAt(ts, at, end, padded, |ts| - 1, |ts| - 1);
    forall i | 0 <= i < |rest|
      ensures first.start + first.len + 12 <= rest[i].start <= rest[i].start + rest[i].len <= end
      ensures padded ==> rest[i].start % 32 == 0
    {
      InOrderAt(ts, at, end, padded, 0, i + 1);
      InOrderAt(ts, at, end, padded, i + 1, i + 1);
    }
    forall i, j | 0 <= i < j < |rest|
      ensures rest[i].start + rest[i].len + 12 <= rest[j].start
    {
      InOrderAt(ts, at, end, padded, i + 1, j + 1);
    }
    IsInOrder(rest, first.start + first.len, end, padded);
  }

  /** A scan that finds nothing stands at the end; otherwise the first tensor is the one at its offset. */
  lemma FirstFound(data: seq<Byte>, at: int, padded: bool, rounds: nat, ts: seq<Tensor>, end: int)
    requires ScanFor(data, at, padded, rounds) == Some(Ok((ts, end)))
    ensures ts == [] ==> end == at
    ensures ts != [] ==> at < |data| && ScanTensor(data, at, padded).Ok? && ScanTensor(data, at, padded).value.0 == ts[0]
  {
    hide ScanTensor;
  }

  lemma FarBelow()
    ensures 0x1000_0000_0000_0000 + 5000 < TWO63()
  {
  }

  lemma WrapBounds(x: int)
    ensures -TWO63() <= Wrap64(x) < TWO63()
  {
  }

  /** A tensor that is not negative and ends in front of what follows meets the guard. */
  lemma FirstMeets(data: seq<Byte>, at: nat, padded: bool, rounds: nat, first: Tensor, next: int, rest: seq<Tensor>, end: int)
    requires at < |data| < 0x1000_0000_0000_0000 && ScanTensor(data, at, padded) == Ok((first, next))
    requires ScanFor(data, next, padded, rounds) == Some(Ok((rest, end)))
    requires first.len >= 0
    requires if rest == [] then end == first.start + first.len else first.start + first.len <= rest[0].start
    ensures Forward(first)
  {
    hide *;
    ForwardIs(first);
    TensorLength(data, at, padded);
    TensorPlace(data, at, padded);
    WrapBounds(first.start + first.len);
    LengthSignIff(first.dims, QuantSize(first.dtype).value.0, QuantSize(first.dtype).value.1);
    FirstFound(data, next, padded, rounds, rest, end);
    if rest != [] {
      TensorPlace(data, next, padded);
      FarBelow();
    }
  }

  lemma AllMeetJoin(first: Tensor, rest: seq<Tensor>)
    requires Forward(first) && AllMeet(rest)
    ensures AllMeet([first] + rest)
  {
    hide Forward;
  }

  lemma NothingMeets()
    ensures AllMeet([])
  {
  }

  lemma {:induction false} OnlyInOrder(data: seq<Byte>, at: nat, padded: bool, rounds: nat, ts: seq<Tensor>, end: int)
    requires |data| < 0x1000_0000_0000_0000 && ScanFor(data, at, padded, rounds) == Some(Ok((ts, end)))
    requires InOrder(ts, at, end, padded)
    ensures AllMeet(ts)
    decreases rounds
  {
    hide *;
    if at >= |data| {
      NoRoundsLeft(data, at, padded, rounds);
      NothingMeets();
    } else {
      var first, next, rest := OneMore(data, at, padded, rounds);
      InOrderTail(first, rest, at, end, padded);
      FirstMeets(data, at, padded, rounds - 1, first, next, rest, end);
      StepsForwardIff(data, at, padded);
      TensorPlace(data, at, padded);
      OnlyInOrder(data, next, padded, rounds - 1, rest, end);
      AllMeetJoin(first, rest);
    }
  }

  /** In an accepted file, the data ranges are in order and disjoint exactly if every header meets the guard. */
  lemma RangesInOrderIff(data: seq<Byte>, at: nat, padded: bool)
    requires |data| < 0x1000_0000_0000_0000 && Ends(data, at, padded) && ScanTensors(data, at, padded).Ok?
    ensures var (ts, end) := ScanTensors(data, at, padded).value; InOrder(ts, at, end, padded) <==> AllMeet(ts)
  {
    var rounds: nat :| ScanFor(data, at, padded, rounds).Some?;
    hide *;
    ScanTensorsIs(data, at, padded, rounds);
    var (ts, end) := ScanTensors(data, at, padded).value;
    if AllMeet(ts) {
      RangesInOrderFor(data, at, padded, rounds, ts, end);
    }
    if InOrder(ts, at, end, padded) {
      OnlyInOrder(data, at, padded, rounds, ts, end);
    }
  }

  // --- The model ---------------------------------------------------------------------------------------------------------------

  datatype Loaded = Loaded(header: Header, hyper: Hyper, vocab: seq<Item>, tensors: seq<Tensor>)

  datatype Head = Head(header: Header, hyper: Hyper, vocab: seq<Item>)

  /** Everything in front of the tensors. */
  function ScanHead(data: seq<Byte>, at: nat): Scanned<Head> {
    var (header, afterHeader) :- ScanHeader(data, at);
    var (hyper, afterHyper) :- ScanHyper(data, afterHeader);
    if !Eligible(header, hyper.ftype) then Err(NotEligible)
    else
      var (vocab, afterVocab) :- ScanItems(data, afterHyper, hyper.nVocab, header.format != GGML);
      Ok((Head(header, hyper, vocab), afterVocab))
  }

  /** Loading ends: it fails in front of the tensors, or their scan ends. */
  ghost predicate LoadEnds(data: seq<Byte>, at: nat) {
    ScanHead(data, at).Ok? ==> Ends(data, ScanHead(data, at).value.1, ScanHead(data, at).value.0.header.format == GGJT)
  }

  ghost function Scan(data: seq<Byte>, at: nat): Passed<Loaded>
    requires LoadEnds(data, at)
  {
    var (head, afterVocab) :- ScanHead(data, at);
    var (tensors, end) :- ScanTensors(data, afterVocab, head.header.format == GGJT);
    Ok((Loaded(head.header, head.hyper, head.vocab, tensors), end))
  }

  /** The position of the last tensor of a name. */
  function LastNamed(tensors: seq<Tensor>, name: seq<Byte>): (r: Option<nat>)
    ensures r.Some? ==> r.value < |tensors| && tensors[r.value].name == name
    ensures r.Some? ==> forall j :: r.value < j < |tensors| ==> tensors[j].name != name
    ensures r.None? ==> forall j :: 0 <= j < |tensors| ==> tensors[j].name != name
  {
    if tensors == [] then None
    else if tensors[|tensors| - 1].name == name then Some(|tensors| - 1)
    else LastNamed(tensors[..|tensors| - 1], name)
  }

  /** The feed-forward size, taken from a tensor of the first layer. */
  function FeedForward(tensors: seq<Tensor>): Result<nat, Failure> {
    match LastNamed(tensors, FEED_FORWARD())
    case None => Err(NoFeedForward)
    case Some(i) => if |tensors[i].dims| < 2 then Err(FlatFeedForward) else Ok(tensors[i].dims[1])
  }

  ghost predicate MapsToLast(m: map<seq<Byte>, nat>, tensors: seq<Tensor>) {
    forall name :: if name in m then LastNamed(tensors, name) == Some(m[name]) else LastNamed(tensors, name) == None
  }

  lemma MapsToLastStep(m: map<seq<Byte>, nat>, tensors: seq<Tensor>, t: Tensor)
    requires MapsToLast(m, tensors)
    ensures MapsToLast(m[t.name := |tensors|], tensors + [t])
  {
    assert (tensors + [t])[..|tensors|] == tensors;
  }

  lemma NoneMapped()
    ensures MapsToLast(map[], [])
  {
  }

  class GgmlModel {
    var header: Option<Header>
    var hyper: Option<Hyper>
    var nFf: nat
    var vocab: seq<Item>
    var tensors: seq<Tensor>
    var tensorMap: map<seq<Byte>, nat>

    constructor ()
      ensures header == None && hyper == None && nFf == 0 && vocab == [] && tensors == [] && tensorMap == map[]
    {
      header, hyper, nFf, vocab, tensors, tensorMap := None, None, 0, [], [], map[];
    }

    /** One round of the loop. */
    method LoadTensor(data: seq<Byte>, offset: int, padded: bool, tensors: seq<Tensor>, tensorMap: map<seq<Byte>, nat>,
                      ghost left: nat, ghost result: Passed<seq<Tensor>>)
        returns (failure: Option<Failure>, tensors': seq<Tensor>, tensorMap': map<seq<Byte>, nat>, next: int)
      requires offset < |data| && Gathered(data, offset, padded, left, tensors, result) && MapsToLast(tensorMap, tensors)
      ensures left > 0 && MapsToLast(tensorMap', tensors')
      ensures failure.Some? ==> result == Err(failure.value)
      ensures failure.None? ==> Gathered(data, next, padded, left - 1, tensors', result)
    {
      RoundGathers(data, offset, padded, left, tensors, result);
      hide *;
      failure, tensors', tensorMap', next := None, tensors, tensorMap, offset;
      var scanned := ScanTensor(data, offset, padded);
      if scanned.Err? {
        failure := Some(scanned.error);
        return;
      }
      var tensor := scanned.value.0;
      MapsToLastStep(tensorMap, tensors, tensor);
      tensorMap' := tensorMap[tensor.name := |tensors|];
      tensors' := tensors + [tensor];
      next := scanned.value.1;
    }

    /** The loop over the rest of the file, where it ends. */
    method LoadTensors(data: seq<Byte>, orig: int, padded: bool)
        returns (failure: Option<Failure>, tensors: seq<Tensor>, tensorMap: map<seq<Byte>, nat>, offset: int)
      requires Ends(data, orig, padded)
      ensures failure.None? ==> ScanTensors(data, orig, padded) == Ok((tensors, offset))
      ensures failure.Some? ==> ScanTensors(data, orig, padded) == Err(failure.value)
      ensures MapsToLast(tensorMap, tensors)
    {
      hide *;
      failure, tensors, tensorMap, offset := None, [], map[], orig;
      ghost var result := ScanTensors(data, orig, padded);
      ghost var left := RoundsBegin(data, orig, padded);
      NoneMapped();
      while offset < |data|
        invariant failure.None? && Gathered(data, offset, padded, left, tensors, result)
        invariant MapsToLast(tensorMap, tensors)
        decreases left
      {
        failure, tensors, tensorMap, offset := LoadTensor(data, offset, padded, tensors, tensorMap, left, result);
        left := left - 1;
        if failure.Some? {
          return;
        }
      }
      RoundsOver(data, offset, padded, left, tensors, result);
    }

    /** `GGMLModel.load`, up to and including the feed-forward size, where it ends. */
    method Load(data: seq<Byte>, orig: nat) returns (r: Result<int, Failure>)
      requires LoadEnds(data, orig)
      modifies this
      ensures header == if ScanHeader(data, orig).Ok? then Some(ScanHeader(data, orig).value.0) else old(header)
      ensures match Scan(data, orig)
              case Err(e) => r == Err(e) && hyper == old(hyper) && vocab == old(vocab) && tensors == old(tensors)
                             && tensorMap == old(tensorMap) && nFf == old(nFf)
              case Ok((loaded, end)) =>
                header == Some(loaded.header) && hyper == Some(loaded.hyper) && vocab == loaded.vocab && tensors == loaded.tensors
                && MapsToLast(tensorMap, tensors)
                && match FeedForward(tensors)
                   case Ok(n) => r == Ok(end) && nFf == n
                   case Err(e) => r == Err(e) && nFf == old(nFf)
    {
      hide ScanHeader, ScanHyper, ScanItems, ScanTensors, Ends, Eligible, MapsToLast;
      var headed :- ScanHeader(data, orig);
      var (header', afterHeader) := headed;
      header := Some(header');
      var scanned' :- ScanHyper(data, afterHeader);
      var (hyper', afterHyper) := scanned';
      if !Eligible(header', hyper'.ftype) {
        return Err(NotEligible);
      }
      var vocabulary :- LoadVocab(data, afterHyper, hyper'.nVocab, header'.format != GGML);
      var (vocab', afterVocab) := vocabulary;
      var failure, tensors', map', end := LoadTensors(data, afterVocab, header'.format == GGJT);
      if failure.Some? {
        return Err(failure.value);
      }
      hyper, vocab, tensors, tensorMap := Some(hyper'), vocab', tensors', map';
      MapLookup(tensorMap, tensors, FEED_FORWARD());
      if FEED_FORWARD() !in tensorMap {
        return Err(NoFeedForward);
      }
      var tensor := tensors[tensorMap[FEED_FORWARD()]];
      if |tensor.dims| < 2 {
        return Err(FlatFeedForward);
      }
      nFf := tensor.dims[1];
      r := Ok(end);
    }
  }

  lemma MapLookup(m: map<seq<Byte>, nat>, tensors: seq<Tensor>, name: seq<Byte>)
    requires MapsToLast(m, tensors)
    ensures LastNamed(tensors, name) == if name in m then Some(m[name]) else None
  {
  }
}
