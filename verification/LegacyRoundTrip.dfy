/** The old model files as they are laid out, and that scanning inverts the layout. */
module LegacyRoundTrip {
  import opened Wrappers
  import opened Gguf
  import opened LegacyScan

  const WORD32: int := 0x1_0000_0000

  // --- The layout ----------------------------------------------------------------------------------------------------------------

  function Words(ns: seq<nat>): (bytes: seq<Byte>)
    ensures |bytes| == 4 * |ns|
  {
    if ns == [] then [] else ToLE(ns[0], 4) + Words(ns[1..])
  }

  predicate Narrow(ns: seq<nat>) {
    forall i :: 0 <= i < |ns| ==> ns[i] < WORD32
  }

  function HeaderBytes(h: Header): seq<Byte> {
    match h.format
    case GGML => LMGG()
    case GGMF => FMGG() + ToLE(h.version, 4)
    case GGJT => TJGG() + ToLE(h.version, 4)
  }

  predicate GoodHeader(h: Header) {
    match h.format
    case GGML => h.version == 1
    case GGMF => h.version == 1
    case GGJT => 1 <= h.version <= 3
  }

  function HyperWords(p: Hyper): seq<nat> {
    [p.nVocab, p.nEmbd, p.nMult, p.nHead, p.nLayer, p.nRot, p.ftype]
  }

  function ItemBytes(item: Item): seq<Byte> {
    ToLE(|item.text|, 4) + item.text + item.score
  }

  predicate GoodItem(item: Item, scores: bool) {
    |item.text| < 4096 && |item.score| == if scores then 4 else 0
  }

  function ItemsBytes(items: seq<Item>): seq<Byte> {
    if items == [] then [] else ItemBytes(items[0]) + ItemsBytes(items[1..])
  }

  predicate GoodItems(items: seq<Item>, scores: bool) {
    forall i :: 0 <= i < |items| ==> GoodItem(items[i], scores)
  }

  /** A tensor in the file: the padding may hold any bytes. */
  datatype LaidTensor = LaidTensor(name: seq<Byte>, dims: seq<nat>, dtype: nat, pad: seq<Byte>, data: seq<Byte>)

  function TensorHead(t: LaidTensor): (bytes: seq<Byte>)
    ensures |bytes| == 12 + 4 * |t.dims| + |t.name|
  {
    Words([|t.dims|, |t.name|, t.dtype]) + Words(t.dims) + t.name
  }

  function TensorBytes(t: LaidTensor): (bytes: seq<Byte>)
    ensures |bytes| == 12 + 4 * |t.dims| + |t.name| + |t.pad| + |t.data|
  {
    TensorHead(t) + t.pad + t.data
  }

  predicate GoodTensor(t: LaidTensor, at: nat, padded: bool) {
    && |t.dims| <= 4 && Narrow(t.dims) && |t.name| < 4096 && t.dtype < WORD32 && QuantSize(t.dtype).Some?
    && |t.pad| == (if padded then Padding(at + |TensorHead(t)|) else 0)
    && var (blockSize, typeSize) := QuantSize(t.dtype).value;
    Prod(t.dims) * typeSize < TWO63() && |t.data| == Prod(t.dims) * typeSize / blockSize
  }

  function TensorsBytes(ts: seq<LaidTensor>): seq<Byte> {
    if ts == [] then [] else TensorBytes(ts[0]) + TensorsBytes(ts[1..])
  }

  predicate GoodTensors(ts: seq<LaidTensor>, at: nat, padded: bool) {
    ts != [] ==> GoodTensor(ts[0], at, padded) && GoodTensors(ts[1..], at + |TensorBytes(ts[0])|, padded)
  }

  /** Where the scan should find a tensor that is laid out at `at`. */
  function Found(t: LaidTensor, at: nat): Tensor {
    Tensor(t.name, t.dims, t.dtype, at + |TensorHead(t)| + |t.pad|, |t.data|)
  }

  function AllFound(ts: seq<LaidTensor>, at: nat): (r: seq<Tensor>)
    ensures |r| == |ts| && forall i :: 0 <= i < |r| ==> r[i].start >= at
  {
    if ts == [] then [] else [Found(ts[0], at)] + AllFound(ts[1..], at + |TensorBytes(ts[0])|)
  }

  datatype File = File(header: Header, hyper: Hyper, items: seq<Item>, tensors: seq<LaidTensor>)

  function Front(f: File): seq<Byte> {
    HeaderBytes(f.header) + Words(HyperWords(f.hyper)) + ItemsBytes(f.items)
  }

  function FileBytes(f: File): seq<Byte> {
    Front(f) + TensorsBytes(f.tensors)
  }

  predicate GoodFile(f: File) {
    && GoodHeader(f.header) && Narrow(HyperWords(f.hyper)) && IsFtype(f.hyper.ftype) && Eligible(f.header, f.hyper.ftype)
    && |f.items| == f.hyper.nVocab && GoodItems(f.items, f.header.format != GGML)
    && GoodTensors(f.tensors, |Front(f)|, f.header.format == GGJT) && |FileBytes(f)| < TWO63()
  }

  // --- Scanning the pieces -----------------------------------------------------------------------------------------------------------

  lemma SliceFinds(data: seq<Byte>, at: nat, bytes: seq<Byte>)
    requires At(data, at, bytes)
    ensures Slice(data, at, at + |bytes|) == bytes
  {
  }

  lemma Pow256Four()
    ensures Pow256(4) == WORD32
  {
    assert Pow256(0) == 1;
    assert Pow256(1) == 256;
    assert Pow256(2) == 65536;
    assert Pow256(3) == 16777216;
  }

  lemma U32Finds(data: seq<Byte>, at: nat, n: nat)
    requires n < WORD32 && At(data, at, ToLE(n, 4))
    ensures U32(data, at) == Ok((n, at + 4))
  {
    Pow256Four();
    LERoundTrip(n, 4);
  }

  lemma {:induction false} NumbersOfWords(ns: seq<nat>)
    requires Narrow(ns)
    ensures Numbers(Words(ns)) == ns
  {
    if ns != [] {
      Pow256Four();
      LERoundTrip(ns[0], 4);
      NumbersOfWords(ns[1..]);
      hide ToLE, FromLE;
      assert Words(ns)[..4] == ToLE(ns[0], 4) && Words(ns)[4..] == Words(ns[1..]);
      assert [ns[0]] + ns[1..] == ns;
    }
  }

  lemma U32sFind(data: seq<Byte>, at: nat, ns: seq<nat>)
    requires Narrow(ns) && At(data, at, Words(ns))
    ensures U32s(data, at, |ns|) == Ok((ns, at + 4 * |ns|))
  {
    hide *;
    NumbersOfWords(ns);
    SliceFinds(data, at, Words(ns));
    U32sOf(data, at, |ns|, Words(ns));
  }

  lemma U32sOf(data: seq<Byte>, at: nat, n: nat, block: seq<Byte>)
    requires |block| == 4 * n && Slice(data, at, at + 4 * n) == block
    ensures U32s(data, at, n) == Ok((Numbers(block), at + 4 * n))
  {
    hide Slice, Numbers;
  }

  lemma HeaderFound(data: seq<Byte>, at: nat, h: Header)
    requires GoodHeader(h) && At(data, at, HeaderBytes(h))
    ensures ScanHeader(data, at) == Ok((h, at + |HeaderBytes(h)|))
  {
    hide At, ToLE, Slice, U32, LMGG, FMGG, TJGG;
    Magics();
    if h.format == GGML {
      SliceFinds(data, at, LMGG());
    } else {
      var magic := if h.format == GGMF then FMGG() else TJGG();
      AtSplit(data, at, magic, ToLE(h.version, 4));
      SliceFinds(data, at, magic);
      SmallVersion(h);
      U32Finds(data, at + 4, h.version);
    }
  }

  lemma Magics()
    ensures |LMGG()| == |FMGG()| == |TJGG()| == 4 && MAGIC != LMGG() && MAGIC != FMGG() && MAGIC != TJGG()
    ensures LMGG() != FMGG() && LMGG() != TJGG() && FMGG() != TJGG()
  {
    assert MAGIC[0] == 0x47 && LMGG()[0] == 108 && FMGG()[0] == 102 && TJGG()[0] == 116;
  }

  lemma SmallVersion(h: Header)
    requires GoodHeader(h)
    ensures h.version < WORD32 && |ToLE(h.version, 4)| == 4
  {
  }

  lemma HyperFound(data: seq<Byte>, at: nat, p: Hyper)
    requires Narrow(HyperWords(p)) && IsFtype(p.ftype) && At(data, at, Words(HyperWords(p)))
    ensures ScanHyper(data, at) == Ok((p, at + 28))
  {
    U32sFind(data, at, HyperWords(p));
  }

  lemma ItemParts(data: seq<Byte>, at: nat, item: Item)
    requires At(data, at, ItemBytes(item))
    ensures At(data, at, ToLE(|item.text|, 4)) && At(data, at + 4, item.text) && At(data, at + 4 + |item.text|, item.score)
    ensures |ItemBytes(item)| == 4 + |item.text| + |item.score|
  {
    hide At, ToLE;
    AtSplit(data, at, ToLE(|item.text|, 4) + item.text, item.score);
    AtSplit(data, at, ToLE(|item.text|, 4), item.text);
  }

  lemma ItemFound(data: seq<Byte>, at: nat, item: Item, scores: bool)
    requires GoodItem(item, scores) && At(data, at, ItemBytes(item))
    ensures ScanItem(data, at, scores) == Ok((item, at + |ItemBytes(item)|))
  {
    ItemParts(data, at, item);
    U32Finds(data, at, |item.text|);
    SliceFinds(data, at + 4, item.text);
    hide ToLE, FromLE, ItemBytes, Slice;
  }

  lemma ItemsSplit(data: seq<Byte>, at: nat, items: seq<Item>, scores: bool)
    requires items != [] && GoodItems(items, scores) && At(data, at, ItemsBytes(items))
    ensures GoodItem(items[0], scores) && GoodItems(items[1..], scores)
    ensures At(data, at, ItemBytes(items[0])) && At(data, at + |ItemBytes(items[0])|, ItemsBytes(items[1..]))
    ensures |ItemsBytes(items)| == |ItemBytes(items[0])| + |ItemsBytes(items[1..])|
  {
    hide At, GoodItem, ItemBytes;
    AtSplit(data, at, ItemBytes(items[0]), ItemsBytes(items[1..]));
  }

  lemma ItemsCombine(data: seq<Byte>, at: nat, items: seq<Item>, scores: bool, mid: nat, end: nat)
    requires items != [] && ScanItem(data, at, scores) == Ok((items[0], mid))
    requires ScanItems(data, mid, |items[1..]|, scores) == Ok((items[1..], end))
    ensures ScanItems(data, at, |items|, scores) == Ok((items, end))
  {
    hide ScanItem;
    assert [items[0]] + items[1..] == items;
  }

  lemma ItemsEnd(data: seq<Byte>, at: nat, scores: bool)
    ensures ScanItems(data, at, 0, scores) == Ok(([], at)) && ItemsBytes([]) == []
  {
  }

  lemma {:induction false} ItemsFound(data: seq<Byte>, at: nat, items: seq<Item>, scores: bool)
    requires GoodItems(items, scores) && At(data, at, ItemsBytes(items))
    ensures ScanItems(data, at, |items|, scores) == Ok((items, at + |ItemsBytes(items)|))
    decreases |items|
  {
    hide *;
    if items == [] {
      ItemsEnd(data, at, scores);
    } else {
      var mid, rest := at + |ItemBytes(items[0])|, items[1..];
      ItemsSplit(data, at, items, scores);
      ItemFound(data, at, items[0], scores);
      ItemsFound(data, mid, rest, scores);
      ItemsCombine(data, at, items, scores, mid, mid + |ItemsBytes(rest)|);
    }
  }

  function Fields(t: LaidTensor): seq<nat> {
    [|t.dims|, |t.name|, t.dtype]
  }

  lemma TensorSplit(data: seq<Byte>, at: nat, t: LaidTensor)
    requires At(data, at, TensorBytes(t))
    ensures At(data, at, Words(Fields(t))) && At(data, at + 12, Words(t.dims)) && At(data, at + 12 + 4 * |t.dims|, t.name)
  {
    hide At, Words;
    AtSplit(data, at, TensorHead(t) + t.pad, t.data);
    AtSplit(data, at, TensorHead(t), t.pad);
    AtSplit(data, at, Words(Fields(t)) + Words(t.dims), t.name);
    AtSplit(data, at, Words(Fields(t)), Words(t.dims));
  }

  lemma TensorRead(data: seq<Byte>, at: nat, t: LaidTensor)
    requires Narrow(Fields(t)) && Narrow(t.dims) && At(data, at, TensorBytes(t))
    ensures U32s(data, at, 3) == Ok((Fields(t), at + 12))
    ensures U32s(data, at + 12, |t.dims|) == Ok((t.dims, at + 12 + 4 * |t.dims|))
    ensures Slice(data, at + 12 + 4 * |t.dims|, at + 12 + 4 * |t.dims| + |t.name|) == t.name
  {
    hide *;
    FoundAndFields(t, at);
    TensorSplit(data, at, t);
    U32sFind(data, at, Fields(t));
    U32sFind(data, at + 12, t.dims);
    SliceFinds(data, at + 12 + 4 * |t.dims|, t.name);
  }

  lemma GoodLength(t: LaidTensor, at: nat, padded: bool)
    requires GoodTensor(t, at, padded)
    ensures QuantSize(t.dtype).Some? && LenBytes(t.dims, QuantSize(t.dtype).value.0, QuantSize(t.dtype).value.1) == |t.data|
    ensures |t.pad| == if padded then Padding(at + 12 + 4 * |t.dims| + |t.name|) else 0
    ensures |t.dims| <= 4 && |t.name| < 4096 && Narrow(t.dims) && Narrow(Fields(t))
  {
    hide QuantSize, LenBytes, Prod, Padding;
    QuantBlocks(t.dtype);
    LengthIsExactIff(t.dims, QuantSize(t.dtype).value.0, QuantSize(t.dtype).value.1);
  }

  lemma TensorSizes(t: LaidTensor)
    ensures |TensorHead(t)| == 12 + 4 * |t.dims| + |t.name| && |TensorBytes(t)| == |TensorHead(t)| + |t.pad| + |t.data|
  {
  }

  lemma FoundAndFields(t: LaidTensor, at: nat)
    ensures Fields(t) == [|t.dims|, |t.name|, t.dtype]
    ensures Found(t, at) == Tensor(t.name, t.dims, t.dtype, at + |TensorHead(t)| + |t.pad|, |t.data|)
  {
    hide TensorHead;
  }

  /** What `ScanTensor` makes of the fields it has read. */
  lemma TensorAssembled(data: seq<Byte>, at: nat, padded: bool, n: nat, nameLen: nat, dtype: nat, dims: seq<nat>, name: seq<Byte>,
                        pad: nat, len: int)
    requires U32s(data, at, 3) == Ok(([n, nameLen, dtype], at + 12)) && U32s(data, at + 12, n) == Ok((dims, at + 12 + 4 * n))
    requires Slice(data, at + 12 + 4 * n, at + 12 + 4 * n + nameLen) == name && n <= 4 && nameLen < 4096 && QuantSize(dtype).Some?
    requires LenBytes(dims, QuantSize(dtype).value.0, QuantSize(dtype).value.1) == len
    requires pad == if padded then Padding(at + 12 + 4 * n + nameLen) else 0
    ensures var start := at + 12 + 4 * n + nameLen + pad;
            ScanTensor(data, at, padded) == Ok((Tensor(name, dims, dtype, start, len), Wrap64(start + len)))
  {
    hide U32s, Slice, LenBytes, QuantSize, Padding, Wrap64;
  }

  lemma TensorFound(data: seq<Byte>, at: nat, t: LaidTensor, padded: bool)
    requires GoodTensor(t, at, padded) && At(data, at, TensorBytes(t)) && at + |TensorBytes(t)| < TWO63()
    ensures ScanTensor(data, at, padded) == Ok((Found(t, at), at + |TensorBytes(t)|))
  {
    hide *;
    FoundAndFields(t, at);
    GoodLength(t, at, padded);
    TensorRead(data, at, t);
    TensorSizes(t);
    TensorAssembled(data, at, padded, |t.dims|, |t.name|, t.dtype, t.dims, t.name, |t.pad|, |t.data|);
    WrapLow(at + |TensorBytes(t)|);
  }

  lemma TensorsSplit(data: seq<Byte>, at: nat, ts: seq<LaidTensor>, padded: bool)
    requires ts != [] && GoodTensors(ts, at, padded) && At(data, at, TensorsBytes(ts))
    ensures var next := at + |TensorBytes(ts[0])|;
            GoodTensor(ts[0], at, padded) && GoodTensors(ts[1..], next, padded) && At(data, at, TensorBytes(ts[0])) &&
            At(data, next, TensorsBytes(ts[1..])) && |TensorsBytes(ts)| == |TensorBytes(ts[0])| + |TensorsBytes(ts[1..])|
  {
    hide At, TensorBytes, GoodTensor;
    AtSplit(data, at, TensorBytes(ts[0]), TensorsBytes(ts[1..]));
  }

  lemma TensorsCombine(data: seq<Byte>, at: nat, ts: seq<LaidTensor>, padded: bool, mid: nat)
    requires ts != [] && at < |data| && mid == at + |TensorBytes(ts[0])|
    requires ScanTensor(data, at, padded) == Ok((Found(ts[0], at), mid))
    requires ScanFor(data, mid, padded, |ts[1..]|) == Some(Ok((AllFound(ts[1..], mid), |data|)))
    ensures ScanFor(data, at, padded, |ts|) == Some(Ok((AllFound(ts, at), |data|)))
  {
    hide ScanTensor, Found, TensorBytes;
  }

  lemma TensorsEnd(data: seq<Byte>, padded: bool)
    ensures ScanFor(data, |data|, padded, 0) == Some(Ok((AllFound([], |data|), |data|))) && TensorsBytes([]) == []
  {
  }

  lemma {:induction false} TensorsFound(data: seq<Byte>, at: nat, ts: seq<LaidTensor>, padded: bool)
    requires GoodTensors(ts, at, padded) && At(data, at, TensorsBytes(ts)) && at + |TensorsBytes(ts)| == |data| < TWO63()
    ensures ScanFor(data, at, padded, |ts|) == Some(Ok((AllFound(ts, at), |data|)))
    decreases |ts|
  {
    hide *;
    TensorsEnd(data, padded);
    if ts != [] {
      var mid := at + |TensorBytes(ts[0])|;
      TensorsSplit(data, at, ts, padded);
      TensorFound(data, at, ts[0], padded);
      TensorsFound(data, mid, ts[1..], padded);
      TensorsCombine(data, at, ts, padded, mid);
    }
  }

  /** The part in front of the tensors. */
  lemma HeadFound(data: seq<Byte>, f: File)
    requires GoodHeader(f.header) && Narrow(HyperWords(f.hyper)) && IsFtype(f.hyper.ftype) && Eligible(f.header, f.hyper.ftype)
    requires |f.items| == f.hyper.nVocab && GoodItems(f.items, f.header.format != GGML) && At(data, 0, Front(f))
    ensures ScanHead(data, 0) == Ok((Head(f.header, f.hyper, f.items), |Front(f)|))
  {
    var h, w, v := HeaderBytes(f.header), Words(HyperWords(f.hyper)), ItemsBytes(f.items);
    hide At, ScanHeader, ScanHyper, ScanItems, Eligible, IsFtype, GoodItems, Narrow, HeaderBytes, ItemsBytes, HyperWords, Words, GoodHeader;
    HyperSize(f.hyper);
    AtSplit(data, 0, h + w, v);
    AtSplit(data, 0, h, w);
    HeaderFound(data, 0, f.header);
    HyperFound(data, |h|, f.hyper);
    ItemsFound(data, |h| + 28, f.items, f.header.format != GGML);
  }

  lemma HyperSize(p: Hyper)
    ensures |Words(HyperWords(p))| == 28
  {
  }

  /** Scanning a file that is laid out in one of the formats ends, recovers its header, hyperparameters, vocabulary and
      tensors, and ends exactly at the end of the file. */
  lemma ScanInvertsLayout(f: File)
    requires GoodFile(f)
    ensures LoadEnds(FileBytes(f), 0)
    ensures Scan(FileBytes(f), 0) == Ok((Loaded(f.header, f.hyper, f.items, AllFound(f.tensors, |Front(f)|)), |FileBytes(f)|))
  {
    hide *;
    var data, padded := FileBytes(f), f.header.format == GGJT;
    FileParts(f);
    HeadFound(data, f);
    TensorsFound(data, |Front(f)|, f.tensors, padded);
    ScanTensorsIs(data, |Front(f)|, padded, |f.tensors|);
    LoadedFrom(data, |Front(f)|, Head(f.header, f.hyper, f.items), AllFound(f.tensors, |Front(f)|), |data|);
  }

  lemma FileParts(f: File)
    requires GoodFile(f)
    ensures var data := FileBytes(f);
            At(data, 0, Front(f)) && At(data, |Front(f)|, TensorsBytes(f.tensors)) && |Front(f)| + |TensorsBytes(f.tensors)| == |data|
    ensures GoodHeader(f.header) && Narrow(HyperWords(f.hyper)) && IsFtype(f.hyper.ftype) && Eligible(f.header, f.hyper.ftype)
    ensures |f.items| == f.hyper.nVocab && GoodItems(f.items, f.header.format != GGML)
    ensures GoodTensors(f.tensors, |Front(f)|, f.header.format == GGJT) && |FileBytes(f)| < TWO63()
  {
    hide GoodHeader, Narrow, HyperWords, IsFtype, Eligible, GoodItems, GoodTensors, Front, TensorsBytes;
    assert At(FileBytes(f), 0, Front(f) + TensorsBytes(f.tensors));
    AtSplit(FileBytes(f), 0, Front(f), TensorsBytes(f.tensors));
  }

  /** What loading makes of what it has scanned. */
  lemma LoadedFrom(data: seq<Byte>, at: nat, head: Head, ts: seq<Tensor>, end: int)
    requires ScanHead(data, 0) == Ok((head, at))
    requires Ends(data, at, head.header.format == GGJT) && ScanTensors(data, at, head.header.format == GGJT) == Ok((ts, end))
    ensures LoadEnds(data, 0) && Scan(data, 0) == Ok((Loaded(head.header, head.hyper, head.vocab, ts), end))
  {
    hide ScanHead, ScanTensors, Ends;
  }

  lemma LaidStart(t: LaidTensor, at: nat, padded: bool)
    requires GoodTensor(t, at, padded)
    ensures var f := Found(t, at);
            at + 12 <= f.start <= f.start + f.len == at + |TensorBytes(t)| && (padded ==> f.start % 32 == 0)
  {
    hide TensorHead, QuantSize, Padding;
    TensorSizes(t);
  }

  lemma {:induction false} LaidFirst(ts: seq<LaidTensor>, at: nat, padded: bool)
    requires GoodTensors(ts, at, padded)
    ensures ts == [] ==> AllFound(ts, at) == [] && TensorsBytes(ts) == []
    ensures ts != [] ==> var next := at + |TensorBytes(ts[0])|;
              GoodTensor(ts[0], at, padded) && GoodTensors(ts[1..], next, padded) &&
              AllFound(ts, at) == [Found(ts[0], at)] + AllFound(ts[1..], next) &&
              |TensorsBytes(ts)| == |TensorBytes(ts[0])| + |TensorsBytes(ts[1..])|
  {
    hide TensorBytes, GoodTensor, Found;
  }

  lemma {:induction false} LaidInOrder(ts: seq<LaidTensor>, at: nat, padded: bool)
    requires GoodTensors(ts, at, padded)
    ensures InOrder(AllFound(ts, at), at, at + |TensorsBytes(ts)|, padded)
    decreases |ts|
  {
    hide *;
    LaidFirst(ts, at, padded);
    if ts == [] {
      NothingInOrder(at, padded);
    } else {
      var next := at + |TensorBytes(ts[0])|;
      LaidStart(ts[0], at, padded);
      LaidInOrder(ts[1..], next, padded);
      InOrderStep(Found(ts[0], at), AllFound(ts[1..], next), at, next, at + |TensorsBytes(ts)|, padded);
    }
  }

  /** In a file that is laid out in one of the formats, the ranges the scan reports are in order, disjoint and aligned. */
  lemma LaidRangesInOrder(f: File)
    requires GoodFile(f)
    ensures InOrder(AllFound(f.tensors, |Front(f)|), |Front(f)|, |FileBytes(f)|, f.header.format == GGJT)
  {
    hide InOrder, Front, AllFound, GoodTensors, TensorsBytes;
    LaidInOrder(f.tensors, |Front(f)|, f.header.format == GGJT);
  }

  // --- A file that is never done -----------------------------------------------------------

  /** A length that wraps to a negative number. */
  lemma LengthCanWrap()
    ensures LenBytes([64, 536870911, 536870913], 1, 1) == -64
  {
    var dims: seq<nat> := [64, 536870911, 536870913];
    assert dims[1..] == [536870911, 536870913] && dims[1..][1..] == [536870913] && dims[1..][1..][1..] == [];
    assert Prod([536870913]) == 536870913;
    assert Prod([536870911, 536870913]) == 0x400_0000_0000_0000 - 1;
    assert Prod(dims) == TWO64() - 64;
  }

  /** A tensor of single bytes with that length. */
  function Backward(name: seq<Byte>): LaidTensor {
    LaidTensor(name, [64, 536870911, 536870913], 24, [], [])
  }

  /** Its header, 64 bytes long. */
  function Treadmill(): LaidTensor {
    Backward(seq(40, _ => 120))
  }

  lemma BackwardFields(name: seq<Byte>)
    requires |name| < 4096
    ensures var t := Backward(name);
            t.dims == [64, 536870911, 536870913] && t.name == name && t.dtype == 24 && t.pad == [] && t.data == [] &&
            QuantSize(24) == Some((1, 1)) && Narrow(Fields(t)) && Narrow(t.dims) && TensorBytes(t) == TensorHead(t)
  {
    hide TensorHead;
    var t := Backward(name);
    assert TensorHead(t) + [] + [] == TensorHead(t);
  }

  lemma AtInside(data: seq<Byte>, at: nat, bytes: seq<Byte>)
    requires At(data, at, bytes)
    ensures at + |bytes| <= |data|
  {
  }

  /** In an unpadded format the scan of this tensor leads back by 64 bytes, from behind its header. */
  lemma StepsBack(data: seq<Byte>, at: nat, name: seq<Byte>)
    requires At(data, at, TensorHead(Backward(name))) && 40 <= |name| < 4096 && |data| < TWO63()
    ensures ScanTensor(data, at, false)
         == Ok((Tensor(name, [64, 536870911, 536870913], 24, at + 24 + |name|, -64), at + |name| - 40))
  {
    hide *;
    var t := Backward(name);
    AtInside(data, at, TensorHead(t));
    LengthCanWrap();
    BackwardFields(name);
    TensorSizes(t);
    TensorRead(data, at, t);
    FoundAndFields(t, at);
    TensorAssembled(data, at, false, |t.dims|, |t.name|, t.dtype, t.dims, t.name, 0, -64);
    WrapLow(at + |name| - 40);
  }

  /** With a name of forty bytes it leads back to its own offset. */
  lemma BackToItself(data: seq<Byte>, at: nat)
    requires At(data, at, TensorHead(Treadmill())) && |data| < TWO63()
    ensures ScanTensor(data, at, false).Ok? && ScanTensor(data, at, false).value.1 == at
  {
    hide At, TensorHead, ScanTensor;
    StepsBack(data, at, seq(40, _ => 120));
  }

  /** A feed-forward tensor of 64 bytes, header and data. */
  function Inner(): LaidTensor {
    LaidTensor(FEED_FORWARD(), [13, 1], 24, [], seq(13, _ => 7))
  }

  lemma {:induction false} InnerIsGood(at: nat)
    ensures GoodTensors([Inner()], at, false) && |TensorBytes(Inner())| == 64 && TensorsBytes([Inner()]) == TensorBytes(Inner())
  {
    var t := Inner();
    assert |FEED_FORWARD()| == 31;
    assert Prod([13, 1]) == 13 by {
      assert [13, 1][1..] == [1] && [1][1..] == [];
      assert Prod([1]) == 1;
    }
    assert [t][1..] == [] && TensorBytes(t) + [] == TensorBytes(t);
    assert GoodTensor(t, at, false);
    hide TensorBytes, GoodTensor;
  }

  /** A whole tensor inside the name of another. */
  function Nested(): seq<Byte> {
    seq(40, _ => 120) + TensorBytes(Inner())
  }

  lemma InnerIsThere(data: seq<Byte>, at: nat)
    requires At(data, at, TensorHead(Backward(Nested())))
    ensures At(data, at + 64, TensorsBytes([Inner()])) && |TensorHead(Backward(Nested()))| == 128 && |Nested()| == 104
  {
    hide At, Words, Inner, TensorBytes;
    var t := Backward(Nested());
    InnerIsGood(at);
    var head := Words(Fields(t)) + Words(t.dims);
    assert TensorHead(t) == head + seq(40, _ => 120) + TensorBytes(Inner()) by {
      assert head + (seq(40, _ => 120) + TensorBytes(Inner())) == head + seq(40, _ => 120) + TensorBytes(Inner());
    }
    AtSplit(data, at, head + seq(40, _ => 120), TensorBytes(Inner()));
  }

  lemma NestedScan(data: seq<Byte>, at: nat)
    requires At(data, at, TensorHead(Backward(Nested()))) && at + |TensorHead(Backward(Nested()))| == |data| < TWO63()
    ensures ScanFor(data, at, false, 2)
         == Some(Ok(([Tensor(Nested(), [64, 536870911, 536870913], 24, at + 128, -64)] + AllFound([Inner()], at + 64), |data|)))
  {
    hide At, TensorHead, Nested, ScanTensor, Inner, TensorsBytes, AllFound, LenBytes, TWO63;
    InnerIsThere(data, at);
    StepsBack(data, at, Nested());
    InnerIsGood(at + 64);
    TensorsFound(data, at + 64, [Inner()], false);
  }

  /** A whole file that is accepted although its ranges are out of order: the second tensor lies inside the name of the first. */
  lemma AcceptedOutOfOrder() returns (data: seq<Byte>)
    ensures LoadEnds(data, 0) && ScanHead(data, 0).Ok? && Scan(data, 0).Ok? && FeedForward(Scan(data, 0).value.0.tensors).Ok?
    ensures !InOrder(Scan(data, 0).value.0.tensors, ScanHead(data, 0).value.1, |data|, false)
  {
    var head, at := TensorHead(Backward(Nested())), 32;
    data := EmptyWith(head);
    hide *;
    InnerIsThere(data, at);
    AtInside(data, at, head);
    FarBelow();
    NestedScan(data, at);
    ScanTensorsIs(data, at, false, 2);
    var first, rest := Tensor(Nested(), [64, 536870911, 536870913], 24, at + 128, -64), AllFound([Inner()], at + 64);
    InnerFound(first, at + 64);
    LoadedFrom(data, at, Head(Empty().header, Empty().hyper, []), [first] + rest, |data|);
    if InOrder([first] + rest, at, |data|, false) {
      InOrderTail(first, rest, at, |data|, false);
    }
  }

  lemma InnerFound(first: Tensor, at: nat)
    ensures FeedForward([first] + AllFound([Inner()], at)) == Ok(1)
  {
    hide FEED_FORWARD, TensorHead, TensorBytes;
    assert [Inner()][1..] == [];
    assert AllFound([Inner()], at) == [Found(Inner(), at)];
    assert ([first] + [Found(Inner(), at)])[1] == Found(Inner(), at);
  }

  /** A file without vocabulary and tensors. */
  function Empty(): File {
    File(Header(GGML, 1), Hyper(0, 0, 0, 0, 0, 0, 0), [], [])
  }

  lemma EmptyWith(rest: seq<Byte>) returns (data: seq<Byte>)
    ensures |Front(Empty())| == 32 && |data| == 32 + |rest| && At(data, 32, rest) && Empty().header.format == GGML
    ensures ScanHead(data, 0) == Ok((Head(Empty().header, Empty().hyper, []), 32))
  {
    var f := Empty();
    data := Front(f) + rest;
    assert At(data, 0, Front(f) + rest);
    AtSplit(data, 0, Front(f), rest);
    HeadFound(data, f);
    HyperSize(f.hyper);
    hide ScanHead;
  }

  /** A whole file whose loading never ends. */
  lemma NeverDone() returns (data: seq<Byte>)
    ensures ScanHead(data, 0).Ok? && !LoadEnds(data, 0)
  {
    data := EmptyWith(TensorHead(Treadmill()));
    hide *;
    TreadmillSize();
    FarBelow();
    BackToItself(data, 32);
    StandsStill(data, 32, false);
    OpenedEnds(data, 32, Empty());
  }

  lemma TreadmillSize()
    ensures |TensorHead(Treadmill())| == 64
  {
    TensorSizes(Treadmill());
  }

  lemma StandsStill(data: seq<Byte>, at: int, padded: bool)
    requires at < |data| && ScanTensor(data, at, padded).Ok? && ScanTensor(data, at, padded).value.1 == at
    ensures !Ends(data, at, padded)
  {
    hide ScanTensor, Ends;
    VisitedOn(data, at, padded, 0, 1);
    assert Visited(data, at, padded, 1) == Some(at) == Visited(data, at, padded, 0);
    assert Running(data, at, padded, 1);
    EndsIff(data, at, padded);
  }

  lemma OpenedEnds(data: seq<Byte>, at: nat, f: File)
    requires ScanHead(data, 0) == Ok((Head(f.header, f.hyper, []), at)) && f.header.format == GGML
    ensures LoadEnds(data, 0) <==> Ends(data, at, false)
  {
    hide ScanHead, Ends;
  }

  lemma {:induction false} TensorDataAt(data: seq<Byte>, at: nat, ts: seq<LaidTensor>, i: nat)
    requires At(data, at, TensorsBytes(ts)) && i < |ts|
    ensures At(data, AllFound(ts, at)[i].start, ts[i].data) && AllFound(ts, at)[i].len == |ts[i].data|
    ensures AllFound(ts, at)[i].name == ts[i].name && AllFound(ts, at)[i].dims == ts[i].dims && AllFound(ts, at)[i].dtype == ts[i].dtype
    decreases |ts|
  {
    hide *;
    FirstOfTensors(data, at, ts);
    if i == 0 {
      FirstData(data, at, ts[0]);
    } else {
      TensorDataAt(data, at + |TensorBytes(ts[0])|, ts[1..], i - 1);
    }
  }

  lemma {:induction false} FirstOfTensors(data: seq<Byte>, at: nat, ts: seq<LaidTensor>)
    requires At(data, at, TensorsBytes(ts)) && ts != []
    ensures At(data, at, TensorBytes(ts[0])) && At(data, at + |TensorBytes(ts[0])|, TensorsBytes(ts[1..]))
    ensures AllFound(ts, at) == [Found(ts[0], at)] + AllFound(ts[1..], at + |TensorBytes(ts[0])|)
  {
    hide At, TensorBytes, Found;
    AtSplit(data, at, TensorBytes(ts[0]), TensorsBytes(ts[1..]));
  }

  lemma FirstData(data: seq<Byte>, at: nat, t: LaidTensor)
    requires At(data, at, TensorBytes(t))
    ensures var f := Found(t, at);
            At(data, f.start, t.data) && f.len == |t.data| && f.name == t.name && f.dims == t.dims && f.dtype == t.dtype
  {
    hide At, TensorHead;
    AtSplit(data, at, TensorHead(t) + t.pad, t.data);
  }

  /** The data range the scan reports for each tensor holds that tensor's bytes. */
  lemma {:induction false} TensorDataFound(f: File, i: nat)
    requires GoodFile(f) && i < |f.tensors|
    ensures var t := AllFound(f.tensors, |Front(f)|)[i];
            At(FileBytes(f), t.start, f.tensors[i].data) && t.len == |f.tensors[i].data| && t.name == f.tensors[i].name
            && t.dims == f.tensors[i].dims && t.dtype == f.tensors[i].dtype
  {
    assert At(FileBytes(f), 0, Front(f) + TensorsBytes(f.tensors));
    AtSplit(FileBytes(f), 0, Front(f), TensorsBytes(f.tensors));
    TensorDataAt(FileBytes(f), |Front(f)|, f.tensors, i);
  }
}
