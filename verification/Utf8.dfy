/** Cutting a byte string so that it does not end inside a UTF-8 sequence (section 3 of RFC 3629). */
module Utf8 {

  type Byte = bv8

  predicate IsContinuation(b: Byte) {
    0x80 <= b <= 0xBF
  }

  /** The encodings of one character, by number of bytes. */
  predicate IsCharacter(c: seq<Byte>) {
    if |c| == 1 then c[0] <= 0x7F
    else if |c| == 2 then 0xC2 <= c[0] <= 0xDF && IsContinuation(c[1])
    else if |c| == 3 then
      IsContinuation(c[1]) && IsContinuation(c[2]) &&
      ((c[0] == 0xE0 && 0xA0 <= c[1]) || 0xE1 <= c[0] <= 0xEC || (c[0] == 0xED && c[1] <= 0x9F) || 0xEE <= c[0] <= 0xEF)
    else if |c| == 4 then
      IsContinuation(c[1]) && IsContinuation(c[2]) && IsContinuation(c[3]) &&
      ((c[0] == 0xF0 && 0x90 <= c[1]) || 0xF1 <= c[0] <= 0xF3 || (c[0] == 0xF4 && c[1] <= 0x8F))
    else false
  }

  predicate AllCharacters(chars: seq<seq<Byte>>) {
    forall i :: 0 <= i < |chars| ==> IsCharacter(chars[i])
  }

  function Encode(chars: seq<seq<Byte>>): seq<Byte> {
    if chars == [] then [] else Encode(chars[..|chars| - 1]) + chars[|chars| - 1]
  }

  /** The number of bytes a lead byte announces; zero for a byte that announces none. */
  function ExpectedLen(c: Byte): nat {
    if c & 0xE0 == 0xC0 then 2
    else if c & 0xF0 == 0xE0 then 3
    else if c & 0xF8 == 0xF0 then 4
    else 0
  }

  /** The scan from index `i - 1` down, `left` steps at most. */
  function Back(s: seq<Byte>, i: nat, left: nat): (r: nat)
    requires i <= |s|
    ensures r <= |s|
  {
    if left == 0 || i == 0 then |s| - if |s| < 3 then |s| else 3
    else
      var c := s[i - 1];
      if c & 0x80 == 0 then |s|
      else if c & 0xC0 == 0xC0 then
        if ExpectedLen(c) == 0 then i - 1
        else if |s| - (i - 1) >= ExpectedLen(c) then |s|
        else i - 1
      else Back(s, i - 1, left - 1)
  }

  function Safe(s: seq<Byte>): (r: nat)
    ensures r <= |s|
  {
    if s == [] then 0 else Back(s, |s|, 4)
  }

  method TruncateSafe(s: seq<Byte>) returns (r: nat)
    ensures r == Safe(s)
  {
    var len := |s|;
    if len == 0 {
      return 0;
    }
    var i := len;
    var back := 0;
    while back < 4 && i > 0
      invariant 0 <= i <= len && 0 <= back <= 4
      invariant Safe(s) == Back(s, i, 4 - back)
      decreases i
    {
      i := i - 1;
      var c := s[i];
      if c & 0x80 == 0 {
        return len;
      } else if c & 0xC0 == 0xC0 {
        var expectedLen := 0;
        if c & 0xE0 == 0xC0 {
          expectedLen := 2;
        } else if c & 0xF0 == 0xE0 {
          expectedLen := 3;
        } else if c & 0xF8 == 0xF0 {
          expectedLen := 4;
        } else {
          return i;
        }
        if len - i >= expectedLen {
          return len;
        } else {
          return i;
        }
      }
      back := back + 1;
    }
    r := len - if len < 3 then len else 3;
  }

  lemma ContinuationBits(c: Byte)
    ensures IsContinuation(c) <==> c & 0x80 != 0 && c & 0xC0 != 0xC0
  {
  }

  lemma LeadBits(c: Byte)
    ensures c <= 0x7F <==> c & 0x80 == 0
    ensures 0xC2 <= c <= 0xDF ==> c & 0xC0 == 0xC0 && ExpectedLen(c) == 2 && c & 0x80 != 0
    ensures 0xE0 <= c <= 0xEF ==> c & 0xC0 == 0xC0 && ExpectedLen(c) == 3 && c & 0x80 != 0
    ensures 0xF0 <= c <= 0xF4 ==> c & 0xC0 == 0xC0 && ExpectedLen(c) == 4 && c & 0x80 != 0
  {
  }

  /** Continuation bytes are passed over. */
  lemma {:induction false} BackSkips(s: seq<Byte>, i: nat, n: nat, left: nat)
    requires n <= i <= |s| && n <= left && forall k :: i - n <= k < i ==> IsContinuation(s[k])
    ensures Back(s, i, left) == Back(s, i - n, left - n)
    decreases n
  {
    if n > 0 {
      ContinuationBits(s[i - 1]);
      BackSkips(s, i - 1, n - 1, left - 1);
    }
  }

  lemma CharacterShape(c: seq<Byte>)
    requires IsCharacter(c)
    ensures 1 <= |c| <= 4
    ensures forall k :: 1 <= k < |c| ==> IsContinuation(c[k])
    ensures |c| == 1 ==> c[0] & 0x80 == 0
    ensures |c| > 1 ==> c[0] & 0x80 != 0 && c[0] & 0xC0 == 0xC0 && ExpectedLen(c[0]) == |c|
  {
    LeadBits(c[0]);
  }

  /** Whole characters followed by the beginning of one more are cut behind the whole ones. */
  lemma {:induction false} SafeCutsAtBoundary(chars: seq<seq<Byte>>, next: seq<Byte>, k: nat)
    requires AllCharacters(chars) && IsCharacter(next) && k < |next|
    ensures Safe(Encode(chars) + next[..k]) == |Encode(chars)|
  {
    hide ExpectedLen, IsCharacter, IsContinuation;
    var v := Encode(chars);
    var s := v + next[..k];
    CharacterShape(next);
    if k > 0 {
      assert forall j :: |v| < j < |s| ==> s[j] == next[j - |v|];
      BackSkips(s, |s|, k - 1, 4);
      assert s[|v|] == next[0];
    } else if chars != [] {
      var last := chars[|chars| - 1];
      CharacterShape(last);
      var n := |last|;
      assert s == v && forall j :: |v| - n <= j < |v| ==> s[j] == last[j - (|v| - n)];
      BackSkips(s, |s|, n - 1, 4);
      assert s[|v| - n] == last[0];
    }
  }

  /** Every prefix of valid UTF-8 is cut at the last character boundary it reaches. */
  lemma {:induction false} SafeOnPrefixes(chars: seq<seq<Byte>>, k: nat) returns (j: nat)
    requires AllCharacters(chars) && k <= |Encode(chars)|
    ensures j <= |chars| && Safe(Encode(chars)[..k]) == |Encode(chars[..j])| <= k
    ensures j < |chars| ==> |Encode(chars[..j + 1])| > k
    decreases |chars|
  {
    hide *;
    if chars == [] {
      j := 0;
      NothingIsSafe(chars, k);
    } else {
      var n := |chars| - 1;
      LastCharacter(chars);
      if k < |Encode(chars[..n])| {
        j := SafeOnPrefixes(chars[..n], k);
        assert Encode(chars)[..k] == Encode(chars[..n])[..k];
        assert chars[..n][..j] == chars[..j] && (j < n ==> chars[..n][..j + 1] == chars[..j + 1]);
      } else if k == |Encode(chars)| {
        j := n + 1;
        var a: seq<Byte> := [0x41];
        LetterIsCharacter();
        SafeCutsAtBoundary(chars, a, 0);
        assert chars[..j] == chars && Encode(chars)[..k] == Encode(chars) + a[..0];
      } else {
        j := n;
        assert Encode(chars)[..k] == Encode(chars[..n]) + chars[n][..k - |Encode(chars[..n])|];
        SafeCutsAtBoundary(chars[..n], chars[n], k - |Encode(chars[..n])|);
        assert chars[..n + 1] == chars;
      }
    }
  }

  lemma NothingIsSafe(chars: seq<seq<Byte>>, k: nat)
    requires chars == [] && k <= |Encode(chars)|
    ensures Safe(Encode(chars)[..k]) == |Encode(chars[..0])| <= k
  {
  }

  lemma LastCharacter(chars: seq<seq<Byte>>)
    requires chars != [] && AllCharacters(chars)
    ensures var n := |chars| - 1;
            Encode(chars) == Encode(chars[..n]) + chars[n] && AllCharacters(chars[..n]) && IsCharacter(chars[n])
  {
    hide IsCharacter;
  }

  lemma LetterIsCharacter()
    ensures IsCharacter([0x41])
  {
  }
}
