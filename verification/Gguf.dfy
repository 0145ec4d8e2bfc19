/** The metadata reader for GGUF headers: a recursive parser over a file cursor. */
module Gguf {
  import opened Wrappers

  type Byte = b: int | 0 <= b < 256

  datatype Error = NotGguf | Truncated | UnknownType(code: nat)

  /** A metadata value as the reader returns it. Floats keep their bytes, strings theirs. */
  datatype Value =
    | Int(n: int)
    | Bool(b: bool)
    | Float(bytes: seq<Byte>)
    | Text(chars: seq<Byte>)
    | List(items: seq<Value>)

  const MAGIC: seq<Byte> := [0x47, 0x47, 0x55, 0x46]
  const STRING := 8
  const ARRAY := 9

  /** The width of a scalar type, or zero for a code that is not one. */
  function Width(code: nat): nat {
    if code == 0 || code == 1 || code == 7 then 1
    else if code == 2 || code == 3 then 2
    else if code == 4 || code == 5 || code == 6 then 4
    else if code == 10 || code == 11 || code == 12 then 8
    else 0
  }

  predicate IsSigned(code: nat) {
    code == 1 || code == 3 || code == 5 || code == 11
  }

  predicate IsFloat(code: nat) {
    code == 6 || code == 12
  }

  // --- Little-endian numbers ---------------------------------------------------------------------------

  function Pow256(w: nat): (p: nat)
    ensures p >= 1
  {
    if w == 0 then 1 else 256 * Pow256(w - 1)
  }

  function FromLE(bytes: seq<Byte>): (n: nat)
    ensures n < Pow256(|bytes|)
  {
    if bytes == [] then 0 else bytes[0] + 256 * FromLE(bytes[1..])
  }

  function ToLE(n: nat, w: nat): (bytes: seq<Byte>)
    ensures |bytes| == w
  {
    if w == 0 then [] else [n % 256] + ToLE(n / 256, w - 1)
  }

  lemma {:induction false} LERoundTrip(n: nat, w: nat)
    requires n < Pow256(w)
    ensures FromLE(ToLE(n, w)) == n
  {
    if w > 0 {
      LERoundTrip(n / 256, w - 1);
      assert ToLE(n, w)[1..] == ToLE(n / 256, w - 1);
    }
  }

  /** `struct.unpack` of one scalar. */
  function Unpack(code: nat, bytes: seq<Byte>): Value
    requires |bytes| == Width(code)
  {
    if IsFloat(code) then Float(bytes)
    else if code == 7 then Bool(FromLE(bytes) != 0)
    else if IsSigned(code) && 2 * FromLE(bytes) >= Pow256(|bytes|) then Int(FromLE(bytes) - Pow256(|bytes|))
    else Int(FromLE(bytes))
  }

  // --- What the reader computes ------------------------------------------------------------------------

  type Parsed<T> = Result<(T, nat), Error>

  function Take(data: seq<Byte>, pos: nat, n: nat): (r: Parsed<seq<Byte>>)
    ensures r.Ok? ==> r.value.1 == pos + n <= |data| && |r.value.0| == n
  {
    if pos + n <= |data| then Ok((data[pos..pos + n], pos + n)) else Err(Truncated)
  }

  function ParseInt(data: seq<Byte>, pos: nat, width: nat): (r: Parsed<nat>)
    ensures r.Ok? ==> r.value.1 == pos + width <= |data|
  {
    var (bytes, next) :- Take(data, pos, width);
    Ok((FromLE(bytes), next))
  }

  function ParseString(data: seq<Byte>, pos: nat): (r: Parsed<seq<Byte>>)
    ensures r.Ok? ==> pos + 8 <= r.value.1 <= |data|
  {
    var (n, next) :- ParseInt(data, pos, 8);
    Take(data, next, n)
  }

  function ParseValue(data: seq<Byte>, pos: nat, code: nat): (r: Parsed<Value>)
    ensures r.Ok? ==> pos < r.value.1 <= |data|
    decreases |data| - pos, 0, 0
  {
    if Width(code) > 0 then
      var (bytes, next) :- Take(data, pos, Width(code));
      Ok((Unpack(code, bytes), next))
    else if code == STRING then
      var (chars, next) :- ParseString(data, pos);
      Ok((Text(chars), next))
    else if code == ARRAY then
      var (elemType, next) :- ParseInt(data, pos, 4);
      var (count, first) :- ParseInt(data, next, 8);
      var (items, end) :- ParseItems(data, first, elemType, count);
      Ok((List(items), end))
    else Err(UnknownType(code))
  }

  function ParseItems(data: seq<Byte>, pos: nat, elemType: nat, count: nat): (r: Parsed<seq<Value>>)
    ensures r.Ok? ==> pos <= r.value.1 && (pos <= |data| ==> r.value.1 <= |data|) && |r.value.0| == count
    decreases |data| - pos, 1, count
  {
    if count == 0 then Ok(([], pos))
    else
      var (item, next) :- ParseValue(data, pos, elemType);
      var (items, end) :- ParseItems(data, next, elemType, count - 1);
      Ok(([item] + items, end))
  }

  function ParseEntries(data: seq<Byte>, pos: nat, count: nat, md: map<seq<Byte>, Value>): (r: Parsed<map<seq<Byte>, Value>>)
    decreases count
  {
    if count == 0 then Ok((md, pos))
    else
      var (key, afterKey) :- ParseString(data, pos);
      var (code, afterCode) :- ParseInt(data, afterKey, 4);
      var (value, next) :- ParseValue(data, afterCode, code);
      ParseEntries(data, next, count - 1, md[key := value])
  }

  /** The whole header: magic, version, tensor count, entry count, entries. */
  function ParseHeader(data: seq<Byte>): Parsed<map<seq<Byte>, Value>> {
    if |data| < 4 || data[..4] != MAGIC then Err(NotGguf)
    else
      var (_, afterVersion) :- ParseInt(data, 4, 4);
      var (_, afterTensors) :- ParseInt(data, afterVersion, 8);
      var (count, first) :- ParseInt(data, afterTensors, 8);
      ParseEntries(data, first, count, map[])
  }

  lemma ItemsUnfold(data: seq<Byte>, pos: nat, elemType: nat, count: nat)
    requires count > 0
    ensures var first := ParseValue(data, pos, elemType);
            ParseItems(data, pos, elemType, count) ==
            if first.Err? then Err(first.error) else Prefixed([first.value.0], ParseItems(data, first.value.1, elemType, count - 1))
  {
    hide ParseValue;
  }

  lemma NoItems(data: seq<Byte>, pos: nat, elemType: nat)
    ensures ParseItems(data, pos, elemType, 0) == Ok(([], pos))
  {
  }

  // --- The reader --------------------------------------------------------------------------------------

  class Reader {
    const data: seq<Byte>
    var pos: nat

    constructor (data: seq<Byte>)
      ensures this.data == data && pos == 0
    {
      this.data := data;
      pos := 0;
    }

    /** `f.read(n)`: at most `n` bytes. */
    method Read(n: nat) returns (bytes: seq<Byte>)
      requires pos <= |data|
      modifies this`pos
      ensures pos == (if old(pos) + n <= |data| then old(pos) + n else |data|)
      ensures bytes == data[old(pos)..pos]
    {
      var end := if pos + n <= |data| then pos + n else |data|;
      bytes := data[pos..end];
      pos := end;
    }

    method ReadInt(width: nat) returns (r: Result<nat, Error>)
      requires pos <= |data|
      modifies this`pos
      ensures pos <= |data|
      ensures r.Ok? <==> ParseInt(data, old(pos), width).Ok?
      ensures r.Ok? ==> ParseInt(data, old(pos), width) == Ok((r.value, pos))
      ensures r.Err? ==> ParseInt(data, old(pos), width) == Err(r.error)
    {
      var bytes := Read(width);
      if |bytes| != width {
        return Err(Truncated);
      }
      r := Ok(FromLE(bytes));
    }

    method ReadString() returns (r: Result<seq<Byte>, Error>)
      requires pos <= |data|
      modifies this`pos
      ensures pos <= |data|
      ensures r.Ok? ==> ParseString(data, old(pos)) == Ok((r.value, pos))
      ensures r.Err? ==> ParseString(data, old(pos)) == Err(r.error)
    {
      var n :- ReadInt(8);
      var s := Read(n);
      if |s| != n {
        return Err(Truncated);
      }
      r := Ok(s);
    }

    method ReadValue(code: nat) returns (r: Result<Value, Error>)
      requires pos <= |data|
      modifies this`pos
      ensures pos <= |data|
      ensures r.Ok? ==> ParseValue(data, old(pos), code) == Ok((r.value, pos))
      ensures r.Err? ==> ParseValue(data, old(pos), code) == Err(r.error)
      decreases |data| - pos, 0
    {
      hide FromLE, Pow256, Unpack, ParseItems, ParseInt, ParseString;
      if Width(code) > 0 {
        var bytes := Read(Width(code));
        if |bytes| != Width(code) {
          return Err(Truncated);
        }
        return Ok(Unpack(code, bytes));
      }
      if code == STRING {
        var s :- ReadString();
        return Ok(Text(s));
      }
      if code == ARRAY {
        var elemType :- ReadInt(4);
        var count :- ReadInt(8);
        var items :- ReadItems(elemType, count);
        return Ok(List(items));
      }
      r := Err(UnknownType(code));
    }

    /** The comprehension over the elements of an array. */
    method ReadItems(elemType: nat, count: nat) returns (r: Result<seq<Value>, Error>)
      requires pos <= |data|
      modifies this`pos
      ensures pos <= |data|
      ensures r.Ok? ==> ParseItems(data, old(pos), elemType, count) == Ok((r.value, pos))
      ensures r.Err? ==> ParseItems(data, old(pos), elemType, count) == Err(r.error)
      decreases |data| - pos, 1
    {
      hide ParseItems, ParseValue;
      var items := [];
      var i := 0;
      ghost var whole := ParseItems(data, pos, elemType, count);
      PrefixedNothing(whole);
      while i < count
        invariant 0 <= i <= count && old(pos) <= pos <= |data|
        invariant whole == Prefixed(items, ParseItems(data, pos, elemType, count - i))
      {
        ItemsUnfold(data, pos, elemType, count - i);
        ghost var before := pos;
        var item := ReadValue(elemType);
        if item.Err? {
          PrefixedError(items, item.error);
          return Err(item.error);
        }
        PrefixedItem(items, item.value, ParseItems(data, pos, elemType, count - i - 1));
        hide Prefixed;
        items := items + [item.value];
        i := i + 1;
      }
      NoItems(data, pos, elemType);
      PrefixedOver(items, pos);
      r := Ok(items);
    }

    /** `read_gguf_meta` up to the end of the metadata; every error makes the caller see nothing. */
    method ReadHeader() returns (r: Result<map<seq<Byte>, Value>, Error>)
      requires pos == 0
      modifies this`pos
      ensures r.Ok? ==> ParseHeader(data) == Ok((r.value, pos))
      ensures r.Err? ==> ParseHeader(data) == Err(r.error)
    {
      hide ParseEntries, ParseInt;
      var magic := Read(4);
      if magic != MAGIC {
        return Err(NotGguf);
      }
      var _ :- ReadInt(4);
      var _ :- ReadInt(8);
      var count :- ReadInt(8);
      r := ReadEntries(count);
    }

    /** The loop over the entries. */
    method ReadEntries(count: nat) returns (r: Result<map<seq<Byte>, Value>, Error>)
      requires pos <= |data|
      modifies this`pos
      ensures r.Ok? ==> ParseEntries(data, old(pos), count, map[]) == Ok((r.value, pos))
      ensures r.Err? ==> ParseEntries(data, old(pos), count, map[]) == Err(r.error)
    {
      hide *;
      var md := map[];
      var i := 0;
      while i < count
        invariant 0 <= i <= count && pos <= |data|
        invariant ParseEntries(data, old(pos), count, map[]) == ParseEntries(data, pos, count - i, md)
      {
        EntriesUnfold(data, pos, count - i, md);
        var key := ReadString();
        if key.Err? {
          return Err(key.error);
        }
        var code := ReadInt(4);
        if code.Err? {
          return Err(code.error);
        }
        var value := ReadValue(code.value);
        if value.Err? {
          return Err(value.error);
        }
        md := md[key.value := value.value];
        i := i + 1;
      }
      EntriesUnfold(data, pos, 0, md);
      r := Ok(md);
    }
  }

  function Prefixed(items: seq<Value>, r: Parsed<seq<Value>>): Parsed<seq<Value>> {
    match r
    case Ok(p) => Ok((items + p.0, p.1))
    case Err(e) => Err(e)
  }

  lemma PrefixedNothing(r: Parsed<seq<Value>>)
    ensures Prefixed([], r) == r
  {
    if r.Ok? {
      assert [] + r.value.0 == r.value.0;
    }
  }

  lemma PrefixedError(items: seq<Value>, e: Error)
    ensures Prefixed(items, Err(e)) == Err(e)
  {
  }

  lemma PrefixedOver(items: seq<Value>, pos: nat)
    ensures Prefixed(items, Ok(([], pos))) == Ok((items, pos))
  {
    assert items + [] == items;
  }

  lemma PrefixedItem(items: seq<Value>, item: Value, r: Parsed<seq<Value>>)
    ensures Prefixed(items, Prefixed([item], r)) == Prefixed(items + [item], r)
  {
    if r.Ok? {
      assert items + ([item] + r.value.0) == (items + [item]) + r.value.0;
    }
  }

  // --- The file layout ---------------------------------------------------------------------------------

  /** A metadata value as the GGUF specification writes it: an array carries the type of its
      elements, and an array of arrays carries one type in each of them. */
  datatype Node =
    | Scalar(value: Value)
    | String(chars: seq<Byte>)
    | Array(elemType: nat, items: seq<Node>)

  /** What the reader is meant to return for a node. */
  function Meaning(node: Node): Value {
    match node
    case Scalar(value) => value
    case String(chars) => Text(chars)
    case Array(_, items) => List(Meanings(items))
  }

  function Meanings(nodes: seq<Node>): seq<Value> {
    if nodes == [] then [] else [Meaning(nodes[0])] + Meanings(nodes[1..])
  }

  /** A scalar value fits its type. */
  predicate FitsScalar(code: nat, value: Value) {
    var bound: int := Pow256(Width(code));
    Width(code) > 0 &&
    if IsFloat(code) then value.Float? && |value.bytes| == Width(code)
    else if code == 7 then value.Bool?
    else if IsSigned(code) then value.Int? && -bound <= 2 * value.n < bound
    else value.Int? && 0 <= value.n < bound
  }

  predicate HasType(node: Node, code: nat) {
    match node
    case Scalar(value) => FitsScalar(code, value)
    case String(chars) => code == STRING && |chars| < Pow256(8)
    case Array(elemType, items) =>
      code == ARRAY && elemType < Pow256(4) && |items| < Pow256(8) &&
      forall i :: 0 <= i < |items| ==> HasType(items[i], elemType)
  }

  function LayoutScalar(code: nat, value: Value): (bytes: seq<Byte>)
    requires FitsScalar(code, value)
    ensures |bytes| == Width(code)
  {
    match value
    case Float(bytes) => bytes
    case Bool(b) => ToLE(if b then 1 else 0, 1)
    case Int(n) => ToLE(if n < 0 then n + Pow256(Width(code)) else n, Width(code))
  }

  function LayoutString(chars: seq<Byte>): seq<Byte> {
    ToLE(|chars|, 8) + chars
  }

  function Layout(node: Node, code: nat): seq<Byte>
    requires HasType(node, code)
  {
    match node
    case Scalar(value) => LayoutScalar(code, value)
    case String(chars) => LayoutString(chars)
    case Array(elemType, items) => ToLE(elemType, 4) + ToLE(|items|, 8) + LayoutItems(items, elemType)
  }

  function LayoutItems(nodes: seq<Node>, code: nat): seq<Byte>
    requires forall i :: 0 <= i < |nodes| ==> HasType(nodes[i], code)
  {
    if nodes == [] then [] else Layout(nodes[0], code) + LayoutItems(nodes[1..], code)
  }

  datatype Entry = Entry(key: seq<Byte>, code: nat, node: Node)

  predicate GoodEntry(e: Entry) {
    |e.key| < Pow256(8) && e.code < Pow256(4) && HasType(e.node, e.code)
  }

  predicate GoodEntries(entries: seq<Entry>) {
    forall i :: 0 <= i < |entries| ==> GoodEntry(entries[i])
  }

  function LayoutEntry(e: Entry): seq<Byte>
    requires GoodEntry(e)
  {
    LayoutString(e.key) + ToLE(e.code, 4) + Layout(e.node, e.code)
  }

  function LayoutEntries(entries: seq<Entry>): seq<Byte>
    requires GoodEntries(entries)
  {
    if entries == [] then [] else LayoutEntry(entries[0]) + LayoutEntries(entries[1..])
  }

  function LayoutHeader(version: nat, tensors: nat, entries: seq<Entry>): seq<Byte>
    requires GoodEntries(entries)
  {
    MAGIC + ToLE(version, 4) + ToLE(tensors, 8) + ToLE(|entries|, 8) + LayoutEntries(entries)
  }

  /** The dictionary of a list of entries; a later entry replaces an earlier one of its key. */
  function Dictionary(entries: seq<Entry>, md: map<seq<Byte>, Value>): map<seq<Byte>, Value> {
    if entries == [] then md else Dictionary(entries[1..], md[entries[0].key := Meaning(entries[0].node)])
  }

  /** `data` holds `bytes` at `pos`. */
  predicate At(data: seq<Byte>, pos: nat, bytes: seq<Byte>) {
    pos + |bytes| <= |data| && data[pos..pos + |bytes|] == bytes
  }

  lemma AtSplit(data: seq<Byte>, pos: nat, a: seq<Byte>, b: seq<Byte>)
    requires At(data, pos, a + b)
    ensures At(data, pos, a) && At(data, pos + |a|, b)
  {
    var ab := data[pos..pos + |a + b|];
    assert data[pos..pos + |a|] == ab[..|a|] == a;
    assert data[pos + |a|..pos + |a| + |b|] == ab[|a|..] == b;
  }

  lemma IntAt(data: seq<Byte>, pos: nat, n: nat, width: nat)
    requires At(data, pos, ToLE(n, width)) && n < Pow256(width)
    ensures ParseInt(data, pos, width) == Ok((n, pos + width))
  {
    LERoundTrip(n, width);
  }

  lemma StringAt(data: seq<Byte>, pos: nat, chars: seq<Byte>)
    requires At(data, pos, LayoutString(chars)) && |chars| < Pow256(8)
    ensures ParseString(data, pos) == Ok((chars, pos + |LayoutString(chars)|))
  {
    AtSplit(data, pos, ToLE(|chars|, 8), chars);
    IntAt(data, pos, |chars|, 8);
  }

  lemma ScalarAt(code: nat, value: Value)
    requires FitsScalar(code, value)
    ensures Unpack(code, LayoutScalar(code, value)) == value
  {
    match value
    case Float(_) =>
    case Bool(b) =>
      assert Pow256(1) == 256 * Pow256(0);
      LERoundTrip(if b then 1 else 0, 1);
    case Int(n) => LERoundTrip(if n < 0 then n + Pow256(Width(code)) else n, Width(code));
  }

  lemma {:induction false} LeafAt(data: seq<Byte>, pos: nat, node: Node, code: nat)
    requires !node.Array? && HasType(node, code) && At(data, pos, Layout(node, code))
    ensures ParseValue(data, pos, code) == Ok((Meaning(node), pos + |Layout(node, code)|))
  {
    hide FromLE, ToLE, ParseItems;
    match node
    case Scalar(value) =>
      ScalarAt(code, value);
      hide Unpack, LayoutScalar;
    case String(chars) =>
      StringAt(data, pos, chars);
      hide ParseString, LayoutString;
  }

  lemma ArraySplit(data: seq<Byte>, pos: nat, elemType: nat, items: seq<Node>)
    requires HasType(Array(elemType, items), ARRAY) && At(data, pos, Layout(Array(elemType, items), ARRAY))
    ensures At(data, pos, ToLE(elemType, 4)) && At(data, pos + 4, ToLE(|items|, 8)) && At(data, pos + 12, LayoutItems(items, elemType))
    ensures |Layout(Array(elemType, items), ARRAY)| == 12 + |LayoutItems(items, elemType)|
    ensures elemType < Pow256(4) && |items| < Pow256(8)
  {
    hide At, ToLE, Pow256, LayoutItems, Layout;
    var a, b, c := ToLE(elemType, 4), ToLE(|items|, 8), LayoutItems(items, elemType);
    ArrayLayout(elemType, items);
    AtSplit(data, pos, a + b, c);
    AtSplit(data, pos, a, b);
  }

  lemma ArrayLayout(elemType: nat, items: seq<Node>)
    requires HasType(Array(elemType, items), ARRAY)
    ensures Layout(Array(elemType, items), ARRAY) == ToLE(elemType, 4) + ToLE(|items|, 8) + LayoutItems(items, elemType)
    ensures |ToLE(elemType, 4)| == 4 && |ToLE(|items|, 8)| == 8 && elemType < Pow256(4) && |items| < Pow256(8)
  {
    hide ToLE, Pow256, LayoutItems;
  }

  lemma ArrayParsed(data: seq<Byte>, pos: nat, elemType: nat, count: nat, items: seq<Value>, end: nat)
    requires ParseInt(data, pos, 4) == Ok((elemType, pos + 4)) && ParseInt(data, pos + 4, 8) == Ok((count, pos + 12))
    requires ParseItems(data, pos + 12, elemType, count) == Ok((items, end))
    ensures ParseValue(data, pos, ARRAY) == Ok((List(items), end))
  {
    hide ParseInt, ParseItems, ParseString, Unpack;
  }

  lemma {:induction false} ValueAt(data: seq<Byte>, pos: nat, node: Node, code: nat)
    requires HasType(node, code) && At(data, pos, Layout(node, code))
    ensures ParseValue(data, pos, code) == Ok((Meaning(node), pos + |Layout(node, code)|))
    decreases node, 0
  {
    hide At, Layout, LayoutItems, ParseInt, ParseItems, ParseString, ParseValue, ToLE, Pow256, Width;
    match node
    case Scalar(_) => LeafAt(data, pos, node, code);
    case String(_) => LeafAt(data, pos, node, code);
    case Array(elemType, items) =>
      ArraySplit(data, pos, elemType, items);
      IntAt(data, pos, elemType, 4);
      IntAt(data, pos + 4, |items|, 8);
      ItemsAt(data, pos + 12, node, items, elemType);
      ArrayParsed(data, pos, elemType, |items|, Meanings(items), pos + |Layout(node, code)|);
  }

  lemma {:induction false} ItemsAt(data: seq<Byte>, pos: nat, parent: Node, nodes: seq<Node>, code: nat)
    requires forall i :: 0 <= i < |nodes| ==> HasType(nodes[i], code)
    requires forall i :: 0 <= i < |nodes| ==> nodes[i] < parent
    requires At(data, pos, LayoutItems(nodes, code))
    ensures ParseItems(data, pos, code, |nodes|) == Ok((Meanings(nodes), pos + |LayoutItems(nodes, code)|))
    decreases parent, 0, |nodes|
  {
    hide At, Layout, ParseValue, HasType;
    if nodes != [] {
      var first, rest := Layout(nodes[0], code), LayoutItems(nodes[1..], code);
      AtSplit(data, pos, first, rest);
      ValueAt(data, pos, nodes[0], code);
      ItemsAt(data, pos + |first|, parent, nodes[1..], code);
    }
  }

  lemma EntryAt(data: seq<Byte>, pos: nat, e: Entry)
    requires GoodEntry(e) && At(data, pos, LayoutEntry(e))
    ensures var afterKey := pos + |LayoutString(e.key)|;
            ParseString(data, pos) == Ok((e.key, afterKey)) &&
            ParseInt(data, afterKey, 4) == Ok((e.code, afterKey + 4)) &&
            ParseValue(data, afterKey + 4, e.code) == Ok((Meaning(e.node), pos + |LayoutEntry(e)|))
  {
    hide ParseValue, ParseString, ParseInt, Layout, LayoutString, ToLE, Pow256, HasType, At;
    var key, code, value := LayoutString(e.key), ToLE(e.code, 4), Layout(e.node, e.code);
    AtSplit(data, pos, key + code, value);
    AtSplit(data, pos, key, code);
    StringAt(data, pos, e.key);
    IntAt(data, pos + |key|, e.code, 4);
    ValueAt(data, pos + |key| + 4, e.node, e.code);
  }

  lemma {:induction false} EntriesAt(data: seq<Byte>, pos: nat, entries: seq<Entry>, md: map<seq<Byte>, Value>)
    requires GoodEntries(entries) && At(data, pos, LayoutEntries(entries))
    ensures ParseEntries(data, pos, |entries|, md) == Ok((Dictionary(entries, md), pos + |LayoutEntries(entries)|))
    decreases |entries|
  {
    hide ParseValue, ParseString, ParseInt, LayoutEntry, LayoutString, GoodEntry, At, Meaning;
    if entries != [] {
      var e := entries[0];
      AtSplit(data, pos, LayoutEntry(e), LayoutEntries(entries[1..]));
      EntryAt(data, pos, e);
      EntriesAt(data, pos + |LayoutEntry(e)|, entries[1..], md[e.key := Meaning(e.node)]);
    }
  }

  /** Round trip: from any file that begins with the layout of a header, whatever follows, the
      reader recovers exactly its entries and consumes exactly its bytes. */
  lemma {:induction false} HeaderRoundTrip(version: nat, tensors: nat, entries: seq<Entry>, rest: seq<Byte>)
    requires version < Pow256(4) && tensors < Pow256(8) && |entries| < Pow256(8) && GoodEntries(entries)
    ensures ParseHeader(LayoutHeader(version, tensors, entries) + rest)
         == Ok((Dictionary(entries, map[]), |LayoutHeader(version, tensors, entries)|))
  {
    hide ToLE, LayoutEntries, ParseEntries, Pow256;
    var a, b, c, d := ToLE(version, 4), ToLE(tensors, 8), ToLE(|entries|, 8), LayoutEntries(entries);
    var header := LayoutHeader(version, tensors, entries);
    var data := header + rest;
    assert At(data, 0, header);
    AtSplit(data, 0, MAGIC + a + b + c, d);
    AtSplit(data, 0, MAGIC + a + b, c);
    AtSplit(data, 0, MAGIC + a, b);
    AtSplit(data, 0, MAGIC, a);
    IntAt(data, 4, version, 4);
    IntAt(data, 8, tensors, 8);
    IntAt(data, 16, |entries|, 8);
    EntriesAt(data, 24, entries, map[]);
  }

  predicate DistinctKeys(entries: seq<Entry>) {
    forall i, j :: 0 <= i < j < |entries| ==> entries[i].key != entries[j].key
  }

  /** With distinct keys, the dictionary is the entries: each with its value, and nothing else. */
  lemma {:induction false} DictionaryIsEntries(entries: seq<Entry>, md: map<seq<Byte>, Value>)
    requires DistinctKeys(entries)
    ensures forall i :: 0 <= i < |entries| ==>
      entries[i].key in Dictionary(entries, md) && Dictionary(entries, md)[entries[i].key] == Meaning(entries[i].node)
    ensures forall k :: k in Dictionary(entries, md) ==> k in md || exists i :: 0 <= i < |entries| && entries[i].key == k
    ensures forall k :: k in md && (forall i :: 0 <= i < |entries| ==> entries[i].key != k) ==>
      k in Dictionary(entries, md) && Dictionary(entries, md)[k] == md[k]
    decreases |entries|
  {
    if entries != [] {
      var e, rest := entries[0], entries[1..];
      assert forall i :: 0 < i < |entries| ==> entries[i] == rest[i - 1];
      DictionaryIsEntries(rest, md[e.key := Meaning(e.node)]);
    }
  }

  // --- Truncation --------------------------------------------------------------------------------------

  lemma {:induction false} ValueExtends(a: seq<Byte>, b: seq<Byte>, pos: nat, code: nat)
    requires a <= b && ParseValue(a, pos, code).Ok?
    ensures ParseValue(b, pos, code) == ParseValue(a, pos, code)
    decreases |a| - pos, 0, 0
  {
    if code == ARRAY && Width(code) == 0 {
      IntExtends(a, b, pos, 4);
      IntExtends(a, b, pos + 4, 8);
      ItemsExtend(a, b, pos + 12, ParseInt(a, pos, 4).value.0, ParseInt(a, pos + 4, 8).value.0);
    } else if code == STRING && Width(code) == 0 {
      StringExtends(a, b, pos);
    } else {
      assert a[pos..pos + Width(code)] == b[pos..pos + Width(code)];
    }
  }

  lemma IntExtends(a: seq<Byte>, b: seq<Byte>, pos: nat, width: nat)
    requires a <= b && ParseInt(a, pos, width).Ok?
    ensures ParseInt(b, pos, width) == ParseInt(a, pos, width)
  {
    assert a[pos..pos + width] == b[pos..pos + width];
  }

  lemma StringExtends(a: seq<Byte>, b: seq<Byte>, pos: nat)
    requires a <= b && ParseString(a, pos).Ok?
    ensures ParseString(b, pos) == ParseString(a, pos)
  {
    IntExtends(a, b, pos, 8);
    var n := ParseInt(a, pos, 8).value.0;
    assert a[pos + 8..pos + 8 + n] == b[pos + 8..pos + 8 + n];
  }

  lemma {:induction false} ItemsExtend(a: seq<Byte>, b: seq<Byte>, pos: nat, elemType: nat, count: nat)
    requires a <= b && ParseItems(a, pos, elemType, count).Ok?
    ensures ParseItems(b, pos, elemType, count) == ParseItems(a, pos, elemType, count)
    decreases |a| - pos, 1, count
  {
    if count > 0 {
      ValueExtends(a, b, pos, elemType);
      ItemsExtend(a, b, ParseValue(a, pos, elemType).value.1, elemType, count - 1);
    }
  }

  lemma EntriesUnfold(data: seq<Byte>, pos: nat, count: nat, md: map<seq<Byte>, Value>)
    ensures count == 0 ==> ParseEntries(data, pos, count, md) == Ok((md, pos))
    ensures count > 0 ==>
      var key := ParseString(data, pos);
      if key.Err? then ParseEntries(data, pos, count, md) == Err(key.error)
      else
        var code := ParseInt(data, key.value.1, 4);
        if code.Err? then ParseEntries(data, pos, count, md) == Err(code.error)
        else
          var value := ParseValue(data, code.value.1, code.value.0);
          if value.Err? then ParseEntries(data, pos, count, md) == Err(value.error)
          else
            ParseEntries(data, pos, count, md) == ParseEntries(data, value.value.1, count - 1, md[key.value.0 := value.value.0])
  {
    hide ParseString, ParseInt, ParseValue;
  }

  lemma {:induction false} EntriesExtend(a: seq<Byte>, b: seq<Byte>, pos: nat, count: nat, md: map<seq<Byte>, Value>)
    requires a <= b && ParseEntries(a, pos, count, md).Ok?
    ensures ParseEntries(b, pos, count, md) == ParseEntries(a, pos, count, md)
    ensures pos <= |a| ==> ParseEntries(a, pos, count, md).value.1 <= |a|
    decreases count
  {
    hide *;
    EntriesUnfold(a, pos, count, md);
    EntriesUnfold(b, pos, count, md);
    if count > 0 {
      StringExtends(a, b, pos);
      var (key, afterKey) := ParseString(a, pos).value;
      IntExtends(a, b, afterKey, 4);
      var (code, afterCode) := ParseInt(a, afterKey, 4).value;
      ValueExtends(a, b, afterCode, code);
      var (value, next) := ParseValue(a, afterCode, code).value;
      EntriesExtend(a, b, next, count - 1, md[key := value]);
    }
  }

  /** Whatever is read from a file is read from every longer file that begins with it. */
  lemma HeaderExtends(a: seq<Byte>, b: seq<Byte>)
    requires a <= b && ParseHeader(a).Ok?
    ensures ParseHeader(b) == ParseHeader(a)
    ensures ParseHeader(a).value.1 <= |a|
  {
    assert b[..4] == a[..4];
    IntExtends(a, b, 4, 4);
    IntExtends(a, b, 8, 8);
    IntExtends(a, b, 16, 8);
    EntriesExtend(a, b, 24, ParseInt(a, 16, 8).value.0, map[]);
  }

  /** Every strict prefix of a header is refused. */
  lemma TruncatedHeaderRefused(version: nat, tensors: nat, entries: seq<Entry>, k: nat)
    requires version < Pow256(4) && tensors < Pow256(8) && |entries| < Pow256(8) && GoodEntries(entries)
    requires k < |LayoutHeader(version, tensors, entries)|
    ensures ParseHeader(LayoutHeader(version, tensors, entries)[..k]).Err?
  {
    hide ParseHeader, LayoutHeader;
    var header := LayoutHeader(version, tensors, entries);
    HeaderRoundTrip(version, tensors, entries, []);
    assert header + [] == header;
    if ParseHeader(header[..k]).Ok? {
      HeaderExtends(header[..k], header);
    }
  }
}
