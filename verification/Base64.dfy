/** The base64 codec, on bytes: encoding, decoding with alphabet detection, and decoding in place,
    against the bit streams of sections 4 and 5 of RFC 4648. */
module Base64 {
  import opened Wrappers

  type Byte = bv8

  datatype Alphabet = Auto | Standard | UrlFilenameSafe

  datatype Behavior = Moderate | Loose

  datatype Error = InvalidCharacter

  const PAD: Byte := 61 // '='

  function RequiredEncodeSize(size: nat): nat {
    (size / 3 + if size % 3 != 0 then 1 else 0) * 4
  }

  function MaxDecodeSize(size: nat): nat {
    (size / 4 + if size % 4 != 0 then 1 else 0) * 3
  }

  // --- Bit streams -----------------------------------------------------------------------------------

  predicate Bit(b: Byte, mask: Byte) {
    b & mask != 0
  }

  /** The eight bits of a byte, most significant first. */
  function Bits(b: Byte): (bits: seq<bool>)
    ensures |bits| == 8
  {
    [Bit(b, 128), Bit(b, 64), Bit(b, 32), Bit(b, 16), Bit(b, 8), Bit(b, 4), Bit(b, 2), Bit(b, 1)]
  }

  function LowBits(b: Byte, n: nat): (bits: seq<bool>)
    requires n <= 8
    ensures |bits| == n
  {
    Bits(b)[8 - n..]
  }

  /** The bit stream of a byte string. */
  function ByteStream(bytes: seq<Byte>): (bits: seq<bool>)
    ensures |bits| == 8 * |bytes|
  {
    if bytes == [] then [] else ByteStream(bytes[..|bytes| - 1]) + Bits(bytes[|bytes| - 1])
  }

  /** The bit stream of a string of 6-bit digits. */
  function DigitStream(digits: seq<Byte>): (bits: seq<bool>)
    ensures |bits| == 6 * |digits|
  {
    if digits == [] then [] else DigitStream(digits[..|digits| - 1]) + LowBits(digits[|digits| - 1], 6)
  }

  function Zeros(n: nat): (bits: seq<bool>)
    ensures |bits| == n
  {
    if n == 0 then [] else [false] + Zeros(n - 1)
  }

  lemma BitsInjective(a: Byte, b: Byte)
    requires Bits(a) == Bits(b)
    ensures a == b
  {
    hide Bit;
    var x, y := Bits(a), Bits(b);
    assert x[0] == y[0] && x[1] == y[1] && x[2] == y[2] && x[3] == y[3];
    assert x[4] == y[4] && x[5] == y[5] && x[6] == y[6] && x[7] == y[7];
    SameBits(a, b);
  }

  lemma SameBits(a: Byte, b: Byte)
    requires Bit(a, 128) == Bit(b, 128) && Bit(a, 64) == Bit(b, 64) && Bit(a, 32) == Bit(b, 32) && Bit(a, 16) == Bit(b, 16)
    requires Bit(a, 8) == Bit(b, 8) && Bit(a, 4) == Bit(b, 4) && Bit(a, 2) == Bit(b, 2) && Bit(a, 1) == Bit(b, 1)
    ensures a == b
  {
  }

  lemma LastBits(a: seq<Byte>)
    requires a != []
    ensures var n := |a| - 1; ByteStream(a)[..8 * n] == ByteStream(a[..n]) && ByteStream(a)[8 * n..] == Bits(a[n])
  {
    hide Bits;
  }

  lemma {:induction false} ByteStreamInjective(a: seq<Byte>, b: seq<Byte>)
    requires ByteStream(a) == ByteStream(b)
    ensures a == b
  {
    hide *;
    assert 8 * |a| == |ByteStream(a)| == |ByteStream(b)| == 8 * |b|;
    if a != [] {
      var n := |a| - 1;
      LastBits(a);
      LastBits(b);
      ByteStreamInjective(a[..n], b[..n]);
      BitsInjective(a[n], b[n]);
      assert a == a[..n] + [a[n]] && b == b[..n] + [b[n]];
    }
  }

  lemma ByteStreamAppend(a: seq<Byte>, b: Byte)
    ensures ByteStream(a + [b]) == ByteStream(a) + Bits(b)
  {
    assert (a + [b])[..|a|] == a;
  }

  lemma DigitStreamAppend(a: seq<Byte>, d: Byte)
    ensures DigitStream(a + [d]) == DigitStream(a) + LowBits(d, 6)
  {
    assert (a + [d])[..|a|] == a;
  }

  // --- Alphabets ---------------------------------------------------------------------------------------

  /** The character of a digit below 64. Anything but the URL alphabet encodes as the standard one. */
  function Letter(alphabet: Alphabet, digit: Byte): Byte {
    if digit < 26 then 65 + digit
    else if digit < 52 then 97 + (digit - 26)
    else if digit < 62 then 48 + (digit - 52)
    else if alphabet == UrlFilenameSafe then (if digit == 62 then 45 else 95)
    else (if digit == 62 then 43 else 47)
  }

  /** `_base64_value`: the digit of a character, and the alphabet as far as it is known then. */
  function Base64Value(alphabet: Alphabet, c: Byte): (r: Result<(Byte, Alphabet), Error>)
    ensures r.Ok? ==> r.value.0 < 64
  {
    if 65 <= c <= 90 then Ok((c - 65, alphabet))
    else if 97 <= c <= 122 then Ok((c - 97 + 26, alphabet))
    else if 48 <= c <= 57 then Ok((c - 48 + 52, alphabet))
    else match alphabet
      case Standard => if c == 43 then Ok((62, Standard)) else if c == 47 then Ok((63, Standard)) else Err(InvalidCharacter)
      case UrlFilenameSafe =>
        if c == 45 then Ok((62, UrlFilenameSafe)) else if c == 95 then Ok((63, UrlFilenameSafe)) else Err(InvalidCharacter)
      case Auto =>
        if c == 43 then Ok((62, Standard))
        else if c == 47 then Ok((63, Standard))
        else if c == 45 then Ok((62, UrlFilenameSafe))
        else if c == 95 then Ok((63, UrlFilenameSafe))
        else Err(InvalidCharacter)
  }

  /** The alphabet an encoding is written in. */
  function Written(alphabet: Alphabet): Alphabet {
    if alphabet == UrlFilenameSafe then UrlFilenameSafe else Standard
  }

  lemma ValueOfLetter(alphabet: Alphabet, seen: Alphabet, digit: Byte)
    requires digit < 64 && (seen == Auto || seen == Written(alphabet))
    ensures Letter(alphabet, digit) != PAD
    ensures Base64Value(seen, Letter(alphabet, digit)).Ok?
    ensures var r := Base64Value(seen, Letter(alphabet, digit)).value;
            r.0 == digit && (r.1 == Auto || r.1 == Written(alphabet))
  {
  }

  // --- Decoding ------------------------------------------------------------------------------------------

  /** The state of the decoding loop between two characters. */
  datatype State = State(alphabet: Alphabet, last: Byte, bits: nat, out: seq<Byte>)

  predicate GoodState(st: State) {
    st.bits == 0 || st.bits == 2 || st.bits == 4 || st.bits == 6
  }

  function Emit(last: Byte, part: Byte, bits: nat): Byte
    requires bits == 2 || bits == 4 || bits == 6
  {
    if bits == 2 then (last << 6) | part
    else if bits == 4 then (last << 4) | (part >> 2)
    else (last << 2) | (part >> 4)
  }

  function Accept(st: State, c: Byte): (r: Result<State, Error>)
    requires GoodState(st)
    ensures r.Ok? ==> GoodState(r.value) && |st.out| <= |r.value.out| <= |st.out| + 1
  {
    var (part, alphabet) :- Base64Value(st.alphabet, c);
    Ok(if st.bits + 6 >= 8
       then State(alphabet, part, st.bits - 2, st.out + [Emit(st.last, part, st.bits)])
       else State(alphabet, part, st.bits + 6, st.out))
  }

  predicate AllPadding(s: seq<Byte>) {
    forall i :: 0 <= i < |s| ==> s[i] == PAD
  }

  /** What decoding does with the rest of the text. */
  function DecodeFrom(s: seq<Byte>, behavior: Behavior, st: State): Result<seq<Byte>, Error>
    requires GoodState(st)
    decreases |s|
  {
    if s == [] then Ok(st.out)
    else if s[0] == PAD then
      if behavior == Loose || AllPadding(s[1..]) then Ok(st.out) else Err(InvalidCharacter)
    else
      var st' :- Accept(st, s[0]);
      DecodeFrom(s[1..], behavior, st')
  }

  /** One character of decoding. */
  lemma DecodeStep(s: seq<Byte>, behavior: Behavior, st: State)
    requires GoodState(st) && s != [] && s[0] != PAD
    ensures Accept(st, s[0]).Ok? <==> Base64Value(st.alphabet, s[0]).Ok?
    ensures Accept(st, s[0]).Err? ==> DecodeFrom(s, behavior, st).Err?
    ensures Accept(st, s[0]).Ok? ==>
      GoodState(Accept(st, s[0]).value) && DecodeFrom(s, behavior, st) == DecodeFrom(s[1..], behavior, Accept(st, s[0]).value)
  {
    hide Base64Value, Emit;
  }

  lemma DecodeEnd(s: seq<Byte>, behavior: Behavior, st: State)
    requires GoodState(st) && (s == [] || s[0] == PAD)
    ensures DecodeFrom(s, behavior, st) ==
            if s == [] || behavior == Loose || AllPadding(s[1..]) then Ok(st.out) else Err(InvalidCharacter)
  {
  }

  function Start(alphabet: Alphabet): State {
    State(alphabet, 0, 0, [])
  }

  function Decoded(s: seq<Byte>, alphabet: Alphabet, behavior: Behavior): Result<seq<Byte>, Error> {
    DecodeFrom(s, behavior, Start(alphabet))
  }

  method Decode(s: seq<Byte>, alphabet: Alphabet, behavior: Behavior) returns (r: Result<seq<Byte>, Error>)
    ensures r == Decoded(s, alphabet, behavior)
    ensures r.Ok? ==> |r.value| <= MaxDecodeSize(|s|)
  {
    hide Base64Value, Emit;
    var st := Start(alphabet);
    var i := 0;
    while i < |s| && s[i] != PAD
      invariant 0 <= i <= |s| && GoodState(st)
      invariant DecodeFrom(s, behavior, Start(alphabet)) == DecodeFrom(s[i..], behavior, st)
      invariant 8 * |st.out| + st.bits == 6 * i
    {
      assert s[i..][1..] == s[i + 1..];
      var part := Base64Value(st.alphabet, s[i]);
      if part.Err? {
        return Err(part.error);
      }
      if st.bits + 6 >= 8 {
        st := State(part.value.1, part.value.0, st.bits - 2, st.out + [Emit(st.last, part.value.0, st.bits)]);
      } else {
        st := State(part.value.1, part.value.0, st.bits + 6, st.out);
      }
      i := i + 1;
    }
    if behavior != Loose && i < |s| {
      var j := i + 1;
      while j < |s|
        invariant i < j <= |s|
        invariant forall k :: i < k < j ==> s[k] == PAD
      {
        if s[j] != PAD {
          assert s[i..][1..][j - i - 1] == s[j];
          return Err(InvalidCharacter);
        }
        j := j + 1;
      }
    }
    r := Ok(st.out);
  }

  /** Decoding into the buffer that holds the text: the write index never passes the read index,
      so nothing is overwritten before it is read. */
  method DecodeInplace(a: array<Byte>, alphabet: Alphabet, behavior: Behavior) returns (r: Result<nat, Error>)
    modifies a
    ensures r.Ok? <==> Decoded(old(a[..]), alphabet, behavior).Ok?
    ensures r.Ok? ==> r.value <= a.Length && a[..r.value] == Decoded(old(a[..]), alphabet, behavior).value
    ensures r.Ok? ==> forall k :: r.value <= k < a.Length ==> a[k] == old(a[k])
  {
    hide Base64Value, Emit, DecodeFrom, AllPadding;
    ghost var s := a[..];
    ghost var st := Start(alphabet);
    var seen, last: Byte, bits: nat := alphabet, 0, 0;
    var i, o := 0, 0;
    while i < a.Length && a[i] != PAD
      invariant 0 <= o <= i <= a.Length && GoodState(st)
      invariant st == State(seen, last, bits, a[..o])
      invariant forall k :: o <= k < a.Length ==> a[k] == s[k]
      invariant DecodeFrom(s, behavior, Start(alphabet)) == DecodeFrom(s[i..], behavior, st)
    {
      assert s[i..][1..] == s[i + 1..] && s[i..][0] == a[i];
      DecodeStep(s[i..], behavior, st);
      var c := a[i];
      i := i + 1;
      var part := Base64Value(seen, c);
      if part.Err? {
        return Err(InvalidCharacter);
      }
      st := Accept(st, c).value;
      if bits + 6 >= 8 {
        ghost var before := a[..o];
        a[o] := Emit(last, part.value.0, bits);
        assert a[..o + 1] == before + [a[o]];
        o := o + 1;
        bits := bits - 2;
      } else {
        bits := bits + 6;
      }
      seen, last := part.value.1, part.value.0;
    }
    DecodeEnd(s[i..], behavior, st);
    var good := CheckPadding(a, i, behavior);
    assert i < a.Length ==> a[i + 1..] == s[i..][1..];
    if !good {
      return Err(InvalidCharacter);
    }
    r := Ok(o);
  }

  /** Behind the first padding character only padding may follow, unless decoding is loose. */
  method CheckPadding(a: array<Byte>, i: nat, behavior: Behavior) returns (good: bool)
    requires i <= a.Length
    ensures good <==> behavior == Loose || i == a.Length || AllPadding(a[i + 1..])
  {
    if behavior != Loose && i < a.Length {
      var j := i + 1;
      while j < a.Length
        invariant i < j <= a.Length
        invariant forall k :: i < k < j ==> a[k] == PAD
      {
        if a[j] != PAD {
          assert a[i + 1..][j - i - 1] == a[j];
          return false;
        }
        j := j + 1;
      }
    }
    good := true;
  }

  // --- Encoding ------------------------------------------------------------------------------------------

  function FirstDigit(i0: Byte): Byte {
    (i0 >> 2) & 63
  }

  /** With nothing behind it, a byte is continued by zero bits. */
  function SecondDigit(i0: Byte, i1: Byte): Byte {
    ((i0 & 3) << 4) | ((i1 >> 4) & 15)
  }

  function ThirdDigit(i1: Byte, i2: Byte): Byte {
    ((i1 & 15) << 2) | ((i2 >> 6) & 3)
  }

  function FourthDigit(i2: Byte): Byte {
    i2 & 63
  }

  predicate AreDigits(digits: seq<Byte>) {
    forall i :: 0 <= i < |digits| ==> digits[i] < 64
  }

  /** The digits of up to three bytes. */
  function GroupDigits(b: seq<Byte>): (digits: seq<Byte>)
    requires 1 <= |b| <= 3
    ensures |digits| == |b| + 1 && AreDigits(digits)
  {
    if |b| == 1 then [FirstDigit(b[0]), SecondDigit(b[0], 0)]
    else if |b| == 2 then [FirstDigit(b[0]), SecondDigit(b[0], b[1]), ThirdDigit(b[1], 0)]
    else [FirstDigit(b[0]), SecondDigit(b[0], b[1]), ThirdDigit(b[1], b[2]), FourthDigit(b[2])]
  }

  function GroupSize(data: seq<Byte>): nat {
    if |data| < 3 then |data| else 3
  }

  /** The digits of an encoding, three bytes at a time. */
  function EncodedDigits(data: seq<Byte>): (digits: seq<Byte>)
    ensures AreDigits(digits)
    decreases |data|
  {
    if data == [] then []
    else GroupDigits(data[..GroupSize(data)]) + EncodedDigits(data[GroupSize(data)..])
  }

  function Letters(alphabet: Alphabet, digits: seq<Byte>): (text: seq<Byte>)
    ensures |text| == |digits|
  {
    seq(|digits|, i requires 0 <= i < |digits| => Letter(alphabet, digits[i]))
  }

  function PaddingOf(size: nat): seq<Byte> {
    if size % 3 == 0 then [] else if size % 3 == 1 then [PAD, PAD] else [PAD]
  }

  /** The four characters of up to three bytes. */
  function Group(b: seq<Byte>, alphabet: Alphabet): (text: seq<Byte>)
    requires 1 <= |b| <= 3
    ensures |text| == 4
  {
    Letters(alphabet, GroupDigits(b)) + PaddingOf(|b|)
  }

  function Encoded(data: seq<Byte>, alphabet: Alphabet): (text: seq<Byte>)
    ensures |text| == RequiredEncodeSize(|data|)
    decreases |data|
  {
    if data == [] then []
    else Group(data[..GroupSize(data)], alphabet) + Encoded(data[GroupSize(data)..], alphabet)
  }

  lemma EncodedStep(out: seq<Byte>, data: seq<Byte>, i: nat, next: nat, alphabet: Alphabet)
    requires i < |data| && next == i + GroupSize(data[i..])
    ensures i < next <= |data|
    ensures (out + Group(data[i..next], alphabet)) + Encoded(data[next..], alphabet) == out + Encoded(data[i..], alphabet)
  {
    hide Group;
    var rest := data[i..];
    assert rest[..GroupSize(rest)] == data[i..next] && rest[GroupSize(rest)..] == data[next..];
    var g, e := Group(data[i..next], alphabet), Encoded(data[next..], alphabet);
    assert (out + g) + e == out + (g + e);
  }

  method Encode(data: seq<Byte>, alphabet: Alphabet) returns (out: seq<Byte>)
    ensures out == Encoded(data, alphabet)
    ensures |out| == RequiredEncodeSize(|data|)
  {
    out := [];
    var i := 0;
    NothingEncoded(alphabet);
    assert data[0..] == data && [] + Encoded(data, alphabet) == Encoded(data, alphabet);
    hide Group, RequiredEncodeSize, Encoded, GroupSize;
    while i < |data|
      invariant 0 <= i <= |data|
      invariant out + Encoded(data[i..], alphabet) == Encoded(data, alphabet)
      decreases |data| - i
    {
      var group, next := EncodeGroup(data, i, alphabet);
      EncodedStep(out, data, i, next, alphabet);
      out := out + group;
      i := next;
    }
    assert data[i..] == [] && out + [] == out;
  }

  lemma NothingEncoded(alphabet: Alphabet)
    ensures Encoded([], alphabet) == []
  {
  }

  /** The characters of a group, one by one. */
  lemma GroupIs(b: seq<Byte>, alphabet: Alphabet)
    requires 1 <= |b| <= 3
    ensures |b| == 1 ==> Group(b, alphabet) == [Letter(alphabet, FirstDigit(b[0])), Letter(alphabet, SecondDigit(b[0], 0)), PAD, PAD]
    ensures |b| == 2 ==> Group(b, alphabet) == [Letter(alphabet, FirstDigit(b[0])), Letter(alphabet, SecondDigit(b[0], b[1])),
                                                Letter(alphabet, ThirdDigit(b[1], 0)), PAD]
    ensures |b| == 3 ==> Group(b, alphabet) == [Letter(alphabet, FirstDigit(b[0])), Letter(alphabet, SecondDigit(b[0], b[1])),
                                                Letter(alphabet, ThirdDigit(b[1], b[2])), Letter(alphabet, FourthDigit(b[2]))]
  {
    hide Letter, FirstDigit, SecondDigit, ThirdDigit, FourthDigit, Group, GroupDigits;
    if |b| == 1 {
      GroupOfDigits(b, alphabet);
      GroupDigitsOne(b);
    } else if |b| == 2 {
      GroupOfDigits(b, alphabet);
      GroupDigitsTwo(b);
    } else {
      GroupOfDigits(b, alphabet);
      GroupDigitsThree(b);
    }
  }

  lemma GroupOfDigits(b: seq<Byte>, alphabet: Alphabet)
    requires 1 <= |b| <= 3
    ensures Group(b, alphabet) == Letters(alphabet, GroupDigits(b)) + PaddingOf(|b|)
  {
  }

  lemma GroupDigitsOne(b: seq<Byte>)
    requires |b| == 1
    ensures GroupDigits(b) == [FirstDigit(b[0]), SecondDigit(b[0], 0)] && PaddingOf(|b|) == [PAD, PAD]
  {
    hide FirstDigit, SecondDigit;
  }

  lemma GroupDigitsTwo(b: seq<Byte>)
    requires |b| == 2
    ensures GroupDigits(b) == [FirstDigit(b[0]), SecondDigit(b[0], b[1]), ThirdDigit(b[1], 0)] && PaddingOf(|b|) == [PAD]
  {
    hide FirstDigit, SecondDigit, ThirdDigit;
  }

  lemma GroupDigitsThree(b: seq<Byte>)
    requires |b| == 3
    ensures GroupDigits(b) == [FirstDigit(b[0]), SecondDigit(b[0], b[1]), ThirdDigit(b[1], b[2]), FourthDigit(b[2])]
    ensures PaddingOf(|b|) == []
  {
    hide FirstDigit, SecondDigit, ThirdDigit, FourthDigit;
  }

  /** One round of the encoding loop. */
  method EncodeGroup(data: seq<Byte>, start: nat, alphabet: Alphabet) returns (group: seq<Byte>, next: nat)
    requires start < |data|
    ensures next == start + GroupSize(data[start..]) <= |data|
    ensures group == Group(data[start..next], alphabet)
  {
    hide Letter, FirstDigit, SecondDigit, ThirdDigit, FourthDigit, Group;
    var i0 := data[start];
    next := start + 1;
    group := [Letter(alphabet, FirstDigit(i0))];
    if next == |data| {
      group := group + [Letter(alphabet, SecondDigit(i0, 0))] + [PAD] + [PAD];
      GroupIs(data[start..next], alphabet);
      return;
    }
    var i1 := data[next];
    next := next + 1;
    group := group + [Letter(alphabet, SecondDigit(i0, i1))];
    if next == |data| {
      group := group + [Letter(alphabet, ThirdDigit(i1, 0))] + [PAD];
      GroupIs(data[start..next], alphabet);
      return;
    }
    var i2 := data[next];
    next := next + 1;
    group := group + [Letter(alphabet, ThirdDigit(i1, i2))] + [Letter(alphabet, FourthDigit(i2))];
    GroupIs(data[start..next], alphabet);
  }

  // --- What the codec means ------------------------------------------------------------------------------

  lemma LettersConcat(alphabet: Alphabet, a: seq<Byte>, b: seq<Byte>)
    ensures Letters(alphabet, a + b) == Letters(alphabet, a) + Letters(alphabet, b)
  {
    hide Letter;
  }

  lemma OneGroup(data: seq<Byte>, alphabet: Alphabet)
    requires 1 <= |data| <= 3
    ensures Encoded(data, alphabet) == Group(data, alphabet) && EncodedDigits(data) == GroupDigits(data)
  {
    hide Group, GroupDigits;
    var k := GroupSize(data);
    assert data[..k] == data && data[k..] == [];
    assert Encoded(data[k..], alphabet) == [] && EncodedDigits(data[k..]) == [];
  }

  lemma OneGroupLetters(data: seq<Byte>, alphabet: Alphabet)
    requires 1 <= |data| <= 3
    ensures Encoded(data, alphabet) == Letters(alphabet, EncodedDigits(data)) + PaddingOf(|data|)
  {
    hide Letter, Letters, GroupDigits, EncodedDigits, Encoded;
    OneGroup(data, alphabet);
  }

  lemma {:induction false} FirstGroup(data: seq<Byte>, alphabet: Alphabet)
    requires |data| > 3
    ensures Encoded(data, alphabet) == Letters(alphabet, GroupDigits(data[..3])) + Encoded(data[3..], alphabet)
    ensures EncodedDigits(data) == GroupDigits(data[..3]) + EncodedDigits(data[3..])
    ensures PaddingOf(|data|) == PaddingOf(|data[3..]|)
  {
    hide GroupDigits, Letters;
    assert PaddingOf(3) == [];
    assert Group(data[..3], alphabet) == Letters(alphabet, GroupDigits(data[..3])) + [];
  }

  lemma NoGroup(data: seq<Byte>, alphabet: Alphabet)
    requires data == []
    ensures Encoded(data, alphabet) == Letters(alphabet, EncodedDigits(data)) + PaddingOf(|data|)
  {
  }

  lemma {:induction false} EncodedIsLetters(data: seq<Byte>, alphabet: Alphabet)
    ensures Encoded(data, alphabet) == Letters(alphabet, EncodedDigits(data)) + PaddingOf(|data|)
    decreases |data|
  {
    hide *;
    if data == [] {
      NoGroup(data, alphabet);
    } else if |data| <= 3 {
      OneGroupLetters(data, alphabet);
    } else {
      EncodedIsLetters(data[3..], alphabet);
      FirstGroup(data, alphabet);
      LettersConcat(alphabet, GroupDigits(data[..3]), EncodedDigits(data[3..]));
      assert Letters(alphabet, GroupDigits(data[..3])) + (Letters(alphabet, EncodedDigits(data[3..])) + PaddingOf(|data|))
          == Letters(alphabet, GroupDigits(data[..3])) + Letters(alphabet, EncodedDigits(data[3..])) + PaddingOf(|data|);
    }
  }

  lemma {:induction false} ByteStreamConcat(a: seq<Byte>, b: seq<Byte>)
    ensures ByteStream(a + b) == ByteStream(a) + ByteStream(b)
    decreases |b|
  {
    hide ByteStream, Bits;
    if b == [] {
      assert a + b == a;
      EmptyStreams();
      assert ByteStream(a) + [] == ByteStream(a);
    } else {
      var n := |b| - 1;
      ByteStreamConcat(a, b[..n]);
      assert a + b == (a + b[..n]) + [b[n]] && b == b[..n] + [b[n]];
      ByteStreamAppend(a + b[..n], b[n]);
      ByteStreamAppend(b[..n], b[n]);
    }
  }

  lemma {:induction false} DigitStreamConcat(a: seq<Byte>, b: seq<Byte>)
    ensures DigitStream(a + b) == DigitStream(a) + DigitStream(b)
    decreases |b|
  {
    hide DigitStream, LowBits;
    if b == [] {
      assert a + b == a;
      EmptyStreams();
      assert DigitStream(a) + [] == DigitStream(a);
    } else {
      var n := |b| - 1;
      DigitStreamConcat(a, b[..n]);
      assert a + b == (a + b[..n]) + [b[n]] && b == b[..n] + [b[n]];
      DigitStreamAppend(a + b[..n], b[n]);
      DigitStreamAppend(b[..n], b[n]);
    }
  }

  /** The zero bits that fill up the last digit. */
  function FillBits(size: nat): nat {
    if size % 3 == 0 then 0 else if size % 3 == 1 then 4 else 2
  }

  lemma FirstBits(i0: Byte)
    ensures Bit(FirstDigit(i0), 32) == Bit(i0, 128) && Bit(FirstDigit(i0), 16) == Bit(i0, 64) && Bit(FirstDigit(i0), 8) == Bit(i0, 32)
    ensures Bit(FirstDigit(i0), 4) == Bit(i0, 16) && Bit(FirstDigit(i0), 2) == Bit(i0, 8) && Bit(FirstDigit(i0), 1) == Bit(i0, 4)
  {
  }

  lemma SecondBits(i0: Byte, i1: Byte)
    ensures Bit(SecondDigit(i0, i1), 32) == Bit(i0, 2) && Bit(SecondDigit(i0, i1), 16) == Bit(i0, 1) && Bit(SecondDigit(i0, i1), 8) == Bit(i1, 128)
    ensures Bit(SecondDigit(i0, i1), 4) == Bit(i1, 64) && Bit(SecondDigit(i0, i1), 2) == Bit(i1, 32) && Bit(SecondDigit(i0, i1), 1) == Bit(i1, 16)
  {
  }

  lemma ThirdBits(i1: Byte, i2: Byte)
    ensures Bit(ThirdDigit(i1, i2), 32) == Bit(i1, 8) && Bit(ThirdDigit(i1, i2), 16) == Bit(i1, 4) && Bit(ThirdDigit(i1, i2), 8) == Bit(i1, 2)
    ensures Bit(ThirdDigit(i1, i2), 4) == Bit(i1, 1) && Bit(ThirdDigit(i1, i2), 2) == Bit(i2, 128) && Bit(ThirdDigit(i1, i2), 1) == Bit(i2, 64)
  {
  }

  lemma FourthBits(i2: Byte)
    ensures Bit(FourthDigit(i2), 32) == Bit(i2, 32) && Bit(FourthDigit(i2), 16) == Bit(i2, 16) && Bit(FourthDigit(i2), 8) == Bit(i2, 8)
    ensures Bit(FourthDigit(i2), 4) == Bit(i2, 4) && Bit(FourthDigit(i2), 2) == Bit(i2, 2) && Bit(FourthDigit(i2), 1) == Bit(i2, 1)
  {
  }

  lemma BitsParts(b: Byte)
    ensures Bits(b)[..4] == [Bit(b, 128), Bit(b, 64), Bit(b, 32), Bit(b, 16)]
    ensures Bits(b)[6..] == [Bit(b, 2), Bit(b, 1)] && Bits(b)[4..] == [Bit(b, 8), Bit(b, 4), Bit(b, 2), Bit(b, 1)]
    ensures Bits(b)[2..] == [Bit(b, 32), Bit(b, 16), Bit(b, 8), Bit(b, 4), Bit(b, 2), Bit(b, 1)]
    ensures Bits(b)[..2] == [Bit(b, 128), Bit(b, 64)]
    ensures LowBits(b, 2) == Bits(b)[6..] && LowBits(b, 4) == Bits(b)[4..] && LowBits(b, 6) == Bits(b)[2..] && LowBits(b, 0) == []
  {
    hide Bit;
  }

  lemma BitsHalves(b: Byte)
    ensures Bits(b) == [Bit(b, 128), Bit(b, 64), Bit(b, 32), Bit(b, 16), Bit(b, 8), Bit(b, 4), Bit(b, 2), Bit(b, 1)]
  {
  }

  lemma FirstLowBits(i0: Byte)
    ensures LowBits(FirstDigit(i0), 6) == Bits(i0)[..6]
  {
    hide Bit, FirstDigit, SecondDigit, ThirdDigit, FourthDigit;
    FirstBits(i0);
  }

  lemma SecondLowBits(i0: Byte, i1: Byte)
    ensures LowBits(SecondDigit(i0, i1), 6) == Bits(i0)[6..] + Bits(i1)[..4]
  {
    BitsParts(i0);
    BitsParts(i1);
    BitsParts(SecondDigit(i0, i1));
    hide *;
    SecondBits(i0, i1);
  }

  lemma ThirdLowBits(i1: Byte, i2: Byte)
    ensures LowBits(ThirdDigit(i1, i2), 6) == Bits(i1)[4..] + Bits(i2)[..2]
  {
    BitsParts(i1);
    BitsParts(i2);
    BitsParts(ThirdDigit(i1, i2));
    hide *;
    ThirdBits(i1, i2);
  }

  lemma FourthLowBits(i2: Byte)
    ensures LowBits(FourthDigit(i2), 6) == Bits(i2)[2..]
  {
    hide Bit, FirstDigit, SecondDigit, ThirdDigit, FourthDigit;
    FourthBits(i2);
  }

  lemma ZeroBits(n: nat)
    requires n == 2 || n == 4
    ensures Bits(0)[..n] == Zeros(n)
  {
    assert Zeros(1) == [false] && Zeros(2) == [false, false];
    assert Zeros(3) == [false, false, false] && Zeros(4) == [false, false, false, false];
  }

  lemma StreamsOfFew(a: Byte, b: Byte, c: Byte, d: Byte)
    ensures ByteStream([a]) == Bits(a) && ByteStream([a, b]) == Bits(a) + Bits(b)
    ensures ByteStream([a, b, c]) == Bits(a) + Bits(b) + Bits(c)
    ensures DigitStream([a, b]) == LowBits(a, 6) + LowBits(b, 6)
    ensures DigitStream([a, b, c]) == LowBits(a, 6) + LowBits(b, 6) + LowBits(c, 6)
    ensures DigitStream([a, b, c, d]) == LowBits(a, 6) + LowBits(b, 6) + LowBits(c, 6) + LowBits(d, 6)
  {
    hide Bits, LowBits;
    ByteStreamAppend([], a);
    ByteStreamAppend([a], b);
    ByteStreamAppend([a, b], c);
    DigitStreamAppend([], a);
    DigitStreamAppend([a], b);
    DigitStreamAppend([a, b], c);
    DigitStreamAppend([a, b, c], d);
    assert [] + [a] == [a] && [a] + [b] == [a, b] && [a, b] + [c] == [a, b, c] && [a, b, c] + [d] == [a, b, c, d];
  }

  lemma {:induction false} GroupStream(b: seq<Byte>)
    requires 1 <= |b| <= 3
    ensures DigitStream(GroupDigits(b)) == ByteStream(b) + Zeros(FillBits(|b|))
  {
    hide DigitStream, ByteStream, Zeros, GroupDigits;
    if |b| == 1 {
      assert b == [b[0]];
      GroupOfOne(b[0]);
    } else if |b| == 2 {
      assert b == [b[0], b[1]];
      GroupOfTwo(b[0], b[1]);
    } else {
      assert b == [b[0], b[1], b[2]];
      GroupOfThree(b[0], b[1], b[2]);
      assert ByteStream(b) + Zeros(0) == ByteStream(b);
    }
  }

  lemma GroupOfOne(i0: Byte)
    ensures DigitStream(GroupDigits([i0])) == ByteStream([i0]) + Zeros(4)
  {
    hide Bits, LowBits, FirstDigit, SecondDigit, ThirdDigit, FourthDigit, ByteStream, DigitStream, Zeros;
    StreamsOfFew(i0, 0, 0, 0);
    StreamsOfFew(FirstDigit(i0), SecondDigit(i0, 0), 0, 0);
    FirstLowBits(i0);
    SecondLowBits(i0, 0);
    ZeroBits(4);
    Regroup(Bits(i0), Bits(0), Bits(0));
  }

  lemma GroupOfTwo(i0: Byte, i1: Byte)
    ensures DigitStream(GroupDigits([i0, i1])) == ByteStream([i0, i1]) + Zeros(2)
  {
    hide Bits, LowBits, FirstDigit, SecondDigit, ThirdDigit, FourthDigit, ByteStream, DigitStream, Zeros;
    StreamsOfFew(i0, i1, 0, 0);
    StreamsOfFew(FirstDigit(i0), SecondDigit(i0, i1), ThirdDigit(i1, 0), 0);
    FirstLowBits(i0);
    SecondLowBits(i0, i1);
    ThirdLowBits(i1, 0);
    ZeroBits(2);
    Regroup(Bits(i0), Bits(i1), Bits(0));
  }

  lemma GroupOfThree(i0: Byte, i1: Byte, i2: Byte)
    ensures DigitStream(GroupDigits([i0, i1, i2])) == ByteStream([i0, i1, i2])
  {
    hide Bits, LowBits, FirstDigit, SecondDigit, ThirdDigit, FourthDigit, ByteStream, DigitStream, Zeros;
    StreamsOfFew(i0, i1, i2, 0);
    StreamsOfFew(FirstDigit(i0), SecondDigit(i0, i1), ThirdDigit(i1, i2), FourthDigit(i2));
    FirstLowBits(i0);
    SecondLowBits(i0, i1);
    ThirdLowBits(i1, i2);
    FourthLowBits(i2);
    Regroup(Bits(i0), Bits(i1), Bits(i2));
  }

  lemma Regroup(a: seq<bool>, b: seq<bool>, c: seq<bool>)
    requires |a| == |b| == |c| == 8
    ensures a[..6] + (a[6..] + b[..4]) == a + b[..4]
    ensures a[..6] + (a[6..] + b[..4]) + (b[4..] + c[..2]) == a + b + c[..2]
    ensures a[..6] + (a[6..] + b[..4]) + (b[4..] + c[..2]) + c[2..] == a + b + c
  {
  }

  /** The digits of an encoding are the bits of the data, filled up with zeros. */
  lemma {:induction false} EncodedStream(data: seq<Byte>)
    ensures DigitStream(EncodedDigits(data)) == ByteStream(data) + Zeros(FillBits(|data|))
    decreases |data|
  {
    hide *;
    if data == [] {
      NoStreams(data);
    } else if |data| <= 3 {
      OneGroup(data, Auto);
      GroupStream(data);
    } else {
      var group, rest := data[..3], data[3..];
      FirstGroup(data, Auto);
      GroupStream(group);
      EncodedStream(rest);
      DigitStreamConcat(GroupDigits(group), EncodedDigits(rest));
      ByteStreamConcat(group, rest);
      FillOfThree(|data|);
      assert data == group + rest;
      assert ByteStream(group) + [] == ByteStream(group);
      assert ByteStream(group) + (ByteStream(rest) + Zeros(FillBits(|data|)))
          == ByteStream(group) + ByteStream(rest) + Zeros(FillBits(|data|));
    }
  }

  lemma NoStreams(data: seq<Byte>)
    requires data == []
    ensures DigitStream(EncodedDigits(data)) == ByteStream(data) + Zeros(FillBits(|data|))
  {
  }

  lemma FillOfThree(n: nat)
    requires n > 3
    ensures FillBits(n - 3) == FillBits(n) && Zeros(FillBits(3)) == []
  {
  }

  lemma EmptyStreams()
    ensures DigitStream([]) == [] && ByteStream([]) == []
  {
  }

  /** The digits of a text up to its first padding character. */
  function DigitsOf(s: seq<Byte>, alphabet: Alphabet): (r: Result<seq<Byte>, Error>)
    ensures r.Ok? ==> |r.value| <= |s|
    decreases |s|
  {
    if s == [] || s[0] == PAD then Ok([])
    else
      var (part, alphabet') :- Base64Value(alphabet, s[0]);
      var rest :- DigitsOf(s[1..], alphabet');
      Ok([part] + rest)
  }

  lemma Reassociate(o: seq<bool>, l: seq<bool>, p: seq<bool>, b: seq<bool>, q: seq<bool>)
    requires l + p == b + q
    ensures (o + l) + p == (o + b) + q
  {
    assert (o + l) + p == o + (l + p) == o + (b + q) == (o + b) + q;
  }

  /** One accepted character moves six bits into the stream of the state. */
  lemma AcceptStream(st: State, c: Byte, before: seq<Byte>)
    requires GoodState(st) && Accept(st, c).Ok?
    requires ByteStream(st.out) + LowBits(st.last, st.bits) == DigitStream(before)
    ensures var st' := Accept(st, c).value;
            var part := Base64Value(st.alphabet, c).value.0;
            ByteStream(st'.out) + LowBits(st'.last, st'.bits) == DigitStream(before + [part])
  {
    hide Base64Value, Emit, Bits, LowBits, ByteStream, DigitStream;
    var part := Base64Value(st.alphabet, c).value.0;
    DigitStreamAppend(before, part);
    if st.bits + 6 >= 8 {
      var e := Emit(st.last, part, st.bits);
      EmitBits(st.last, part, st.bits);
      ByteStreamAppend(st.out, e);
      Reassociate(ByteStream(st.out), LowBits(st.last, st.bits), LowBits(part, 6), Bits(e), LowBits(part, st.bits - 2));
    } else {
      NoBits(st.last);
    }
  }

  lemma NoBits(b: Byte)
    ensures LowBits(b, 0) == []
  {
  }

  lemma EmitBits(last: Byte, part: Byte, bits: nat)
    requires bits == 2 || bits == 4 || bits == 6
    requires part < 64
    ensures LowBits(last, bits) + LowBits(part, 6) == Bits(Emit(last, part, bits)) + LowBits(part, bits - 2)
  {
    if bits == 2 {
      EmitTwo(last, part);
    } else if bits == 4 {
      EmitFour(last, part);
    } else {
      EmitSix(last, part);
    }
  }

  lemma LowTwo(b: Byte)
    ensures LowBits(b, 2) == [Bit(b, 2), Bit(b, 1)] && LowBits(b, 0) == []
  {
    BitsParts(b);
    hide *;
  }

  lemma LowFour(b: Byte)
    ensures LowBits(b, 4) == [Bit(b, 8), Bit(b, 4), Bit(b, 2), Bit(b, 1)]
  {
    BitsParts(b);
    hide *;
  }

  lemma LowSix(b: Byte)
    ensures LowBits(b, 6) == [Bit(b, 32), Bit(b, 16), Bit(b, 8), Bit(b, 4), Bit(b, 2), Bit(b, 1)]
  {
    BitsParts(b);
    hide *;
  }

  lemma JoinTwo<T>(a: T, b: T, c: T, d: T, e: T, f: T, g: T, h: T)
    ensures [a, b] + [c, d, e, f, g, h] == [a, b, c, d, e, f, g, h]
  {
  }

  lemma JoinFour<T>(a: T, b: T, c: T, d: T, e: T, f: T, g: T, h: T, i: T, j: T)
    ensures [a, b, c, d] + [e, f, g, h, i, j] == [a, b, c, d, e, f, g, h] + [i, j]
  {
  }

  lemma JoinSix<T>(a: T, b: T, c: T, d: T, e: T, f: T, g: T, h: T, i: T, j: T, k: T, l: T)
    ensures [a, b, c, d, e, f] + [g, h, i, j, k, l] == [a, b, c, d, e, f, g, h] + [i, j, k, l]
  {
  }

  lemma EmitTwoBits(last: Byte, part: Byte)
    requires part < 64
    ensures Bit(Emit(last, part, 2), 128) == Bit(last, 2) && Bit(Emit(last, part, 2), 64) == Bit(last, 1)
    ensures Bit(Emit(last, part, 2), 32) == Bit(part, 32) && Bit(Emit(last, part, 2), 16) == Bit(part, 16)
    ensures Bit(Emit(last, part, 2), 8) == Bit(part, 8) && Bit(Emit(last, part, 2), 4) == Bit(part, 4)
    ensures Bit(Emit(last, part, 2), 2) == Bit(part, 2) && Bit(Emit(last, part, 2), 1) == Bit(part, 1)
  {
  }

  lemma EmitTwo(last: Byte, part: Byte)
    requires part < 64
    ensures LowBits(last, 2) + LowBits(part, 6) == Bits(Emit(last, part, 2)) + LowBits(part, 0)
  {
    hide *;
    LowTwo(last);
    LowSix(part);
    LowTwo(part);
    BitsHalves(Emit(last, part, 2));
    EmitTwoBits(last, part);
    JoinTwo(Bit(last, 2), Bit(last, 1),
      Bit(part, 32), Bit(part, 16), Bit(part, 8), Bit(part, 4), Bit(part, 2), Bit(part, 1));
  }

  lemma EmitFourBits(last: Byte, part: Byte)
    requires part < 64
    ensures Bit(Emit(last, part, 4), 128) == Bit(last, 8) && Bit(Emit(last, part, 4), 64) == Bit(last, 4)
    ensures Bit(Emit(last, part, 4), 32) == Bit(last, 2) && Bit(Emit(last, part, 4), 16) == Bit(last, 1)
    ensures Bit(Emit(last, part, 4), 8) == Bit(part, 32) && Bit(Emit(last, part, 4), 4) == Bit(part, 16)
    ensures Bit(Emit(last, part, 4), 2) == Bit(part, 8) && Bit(Emit(last, part, 4), 1) == Bit(part, 4)
  {
  }

  lemma EmitFour(last: Byte, part: Byte)
    requires part < 64
    ensures LowBits(last, 4) + LowBits(part, 6) == Bits(Emit(last, part, 4)) + LowBits(part, 2)
  {
    hide *;
    LowFour(last);
    LowSix(part);
    LowTwo(part);
    BitsHalves(Emit(last, part, 4));
    EmitFourBits(last, part);
    JoinFour(Bit(last, 8), Bit(last, 4), Bit(last, 2), Bit(last, 1),
      Bit(part, 32), Bit(part, 16), Bit(part, 8), Bit(part, 4), Bit(part, 2), Bit(part, 1));
  }

  lemma EmitSixBits(last: Byte, part: Byte)
    requires part < 64
    ensures Bit(Emit(last, part, 6), 128) == Bit(last, 32) && Bit(Emit(last, part, 6), 64) == Bit(last, 16)
    ensures Bit(Emit(last, part, 6), 32) == Bit(last, 8) && Bit(Emit(last, part, 6), 16) == Bit(last, 4)
    ensures Bit(Emit(last, part, 6), 8) == Bit(last, 2) && Bit(Emit(last, part, 6), 4) == Bit(last, 1)
    ensures Bit(Emit(last, part, 6), 2) == Bit(part, 32) && Bit(Emit(last, part, 6), 1) == Bit(part, 16)
  {
  }

  lemma EmitSix(last: Byte, part: Byte)
    requires part < 64
    ensures LowBits(last, 6) + LowBits(part, 6) == Bits(Emit(last, part, 6)) + LowBits(part, 4)
  {
    hide *;
    LowSix(last);
    LowSix(part);
    LowFour(part);
    BitsHalves(Emit(last, part, 6));
    EmitSixBits(last, part);
    JoinSix(Bit(last, 32), Bit(last, 16), Bit(last, 8), Bit(last, 4), Bit(last, 2), Bit(last, 1),
      Bit(part, 32), Bit(part, 16), Bit(part, 8), Bit(part, 4), Bit(part, 2), Bit(part, 1));
  }

  lemma {:induction false} DecodeStream(s: seq<Byte>, behavior: Behavior, st: State, before: seq<Byte>)
    requires GoodState(st)
    requires ByteStream(st.out) + LowBits(st.last, st.bits) == DigitStream(before)
    ensures DecodeFrom(s, behavior, st).Ok?
       <==> DigitsOf(s, st.alphabet).Ok? && (behavior == Loose || AllPadding(s[|DigitsOf(s, st.alphabet).value|..]))
    ensures DecodeFrom(s, behavior, st).Ok? ==>
      var out := DecodeFrom(s, behavior, st).value;
      var digits := before + DigitsOf(s, st.alphabet).value;
      ByteStream(out) <= DigitStream(digits) && 6 * |digits| - 8 * |out| < 8
    decreases |s|
  {
    hide *;
    if s == [] || s[0] == PAD {
      DecodeEnd(s, behavior, st);
      DigitsEnd(s, st.alphabet);
      StreamIsLonger(st, before);
      PaddingFirst(s);
      assert before + [] == before;
    } else {
      DecodeStep(s, behavior, st);
      DigitsStep(s, st);
      if Accept(st, s[0]).Ok? {
        var part := Base64Value(st.alphabet, s[0]).value.0;
        AcceptStream(st, s[0], before);
        DecodeStream(s[1..], behavior, Accept(st, s[0]).value, before + [part]);
        var rest := DigitsOf(s[1..], Accept(st, s[0]).value.alphabet);
        if rest.Ok? {
          assert before + [part] + rest.value == before + ([part] + rest.value);
          assert s[1..][|rest.value|..] == s[|rest.value| + 1..];
        }
      }
    }
  }

  /** What is left of the stream is less than a byte. */
  lemma StreamIsLonger(st: State, before: seq<Byte>)
    requires GoodState(st) && ByteStream(st.out) + LowBits(st.last, st.bits) == DigitStream(before)
    ensures ByteStream(st.out) <= DigitStream(before) && 6 * |before| - 8 * |st.out| < 8
  {
    hide Bits, LowBits, ByteStream, DigitStream;
    assert |ByteStream(st.out) + LowBits(st.last, st.bits)| == |DigitStream(before)|;
  }

  lemma PaddingFirst(s: seq<Byte>)
    ensures s != [] && s[0] == PAD ==> (AllPadding(s) <==> AllPadding(s[1..]))
    ensures s == [] ==> AllPadding(s)
    ensures s[0..] == s
  {
    if s != [] {
      assert s == [s[0]] + s[1..];
    }
  }

  lemma DigitsEnd(s: seq<Byte>, alphabet: Alphabet)
    requires s == [] || s[0] == PAD
    ensures DigitsOf(s, alphabet) == Ok([])
  {
  }

  lemma DigitsStep(s: seq<Byte>, st: State)
    requires GoodState(st) && s != [] && s[0] != PAD
    ensures Accept(st, s[0]).Err? ==> DigitsOf(s, st.alphabet).Err?
    ensures Accept(st, s[0]).Ok? ==>
      Base64Value(st.alphabet, s[0]).Ok? &&
      var rest := DigitsOf(s[1..], Accept(st, s[0]).value.alphabet);
      (DigitsOf(s, st.alphabet).Ok? <==> rest.Ok?) &&
      (rest.Ok? ==> DigitsOf(s, st.alphabet) == Ok([Base64Value(st.alphabet, s[0]).value.0] + rest.value))
  {
    hide Base64Value, Emit;
  }

  /** Decoding, for any text at all: it succeeds exactly when the characters up to the first
      padding are digits of one alphabet and, unless loose, only padding follows; and the result
      is the longest whole-byte prefix of the stream of those digits. */
  lemma {:induction false} DecodedMeans(s: seq<Byte>, alphabet: Alphabet, behavior: Behavior)
    ensures Decoded(s, alphabet, behavior).Ok?
       <==> DigitsOf(s, alphabet).Ok? && (behavior == Loose || AllPadding(s[|DigitsOf(s, alphabet).value|..]))
    ensures Decoded(s, alphabet, behavior).Ok? ==>
      var out := Decoded(s, alphabet, behavior).value;
      var digits := DigitsOf(s, alphabet).value;
      |out| == 6 * |digits| / 8 && ByteStream(out) == DigitStream(digits)[..8 * |out|]
  {
    hide LowBits;
    EmptyStreams();
    NoBits(0);
    DecodeStream(s, behavior, Start(alphabet), []);
    if Decoded(s, alphabet, behavior).Ok? {
      var digits := DigitsOf(s, alphabet).value;
      assert [] + digits == digits;
    }
  }

  lemma {:induction false} DigitsOfLetters(digits: seq<Byte>, padding: seq<Byte>, alphabet: Alphabet, seen: Alphabet)
    requires AreDigits(digits) && AllPadding(padding)
    requires seen == Auto || seen == Written(alphabet)
    ensures DigitsOf(Letters(alphabet, digits) + padding, seen) == Ok(digits)
    decreases |digits|
  {
    hide Letter, Base64Value;
    var s := Letters(alphabet, digits) + padding;
    if digits == [] {
      assert s == padding;
    } else {
      assert s[0] == Letter(alphabet, digits[0]) && digits == [digits[0]] + digits[1..];
      ValueOfLetter(alphabet, seen, digits[0]);
      assert s[1..] == Letters(alphabet, digits[1..]) + padding;
      DigitsOfLetters(digits[1..], padding, alphabet, Base64Value(seen, s[0]).value.1);
    }
  }

  /** Round trip: an encoding in either alphabet decodes to the original bytes, whether the
      decoder is told the alphabet or detects it, and whatever its behavior. */
  lemma RoundTrip(data: seq<Byte>, alphabet: Alphabet, known: Alphabet, behavior: Behavior)
    requires known == Auto || known == Written(alphabet)
    ensures Decoded(Encoded(data, alphabet), known, behavior) == Ok(data)
  {
    hide Letter, Letters, Base64Value, DigitStream, ByteStream, DigitsOf, Decoded, Encoded, EncodedDigits, Zeros;
    var s := Encoded(data, alphabet);
    var digits := EncodedDigits(data);
    EncodedIsLetters(data, alphabet);
    DigitsOfLetters(digits, PaddingOf(|data|), alphabet, known);
    assert s[|digits|..] == PaddingOf(|data|);
    DecodedMeans(s, known, behavior);
    EncodedStream(data);
    var out := Decoded(s, known, behavior).value;
    assert |DigitStream(digits)| == 6 * |digits| && |ByteStream(data)| == 8 * |data|;
    assert |out| == |data|;
    assert ByteStream(out) == ByteStream(data);
    ByteStreamInjective(out, data);
  }
}
