/** Generated grammars as expressions over terminals, and the strings they generate. */
module Grammar {

  datatype Rx<T> =
    | Epsilon
    | Literal(t: T)
    | NotIn(cls: set<T>)
    | Cat(first: Rx<T>, second: Rx<T>)
    | OneOf(alts: seq<Rx<T>>)
    | Star(body: Rx<T>)

  /** The string `w` is generated by `r`. */
  ghost predicate In<T>(w: seq<T>, r: Rx<T>)
    decreases r, |w|
  {
    match r
    case Epsilon => w == []
    case Literal(t) => w == [t]
    case NotIn(cls) => |w| == 1 && w[0] !in cls
    case Cat(first, second) => exists k :: 0 <= k <= |w| && In(w[..k], first) && In(w[k..], second)
    case OneOf(alts) => exists i :: 0 <= i < |alts| && In(w, alts[i])
    case Star(body) => w == [] || exists k :: 0 < k <= |w| && In(w[..k], body) && In(w[k..], r)
  }

  lemma CatIntro<T>(a: seq<T>, b: seq<T>, r: Rx<T>, s: Rx<T>)
    requires In(a, r) && In(b, s)
    ensures In(a + b, Cat(r, s))
  {
    assert (a + b)[..|a|] == a && (a + b)[|a|..] == b;
  }

  lemma CatElim<T>(w: seq<T>, r: Rx<T>, s: Rx<T>) returns (a: seq<T>, b: seq<T>)
    requires In(w, Cat(r, s))
    ensures w == a + b && In(a, r) && In(b, s)
  {
    var k :| 0 <= k <= |w| && In(w[..k], r) && In(w[k..], s);
    a, b := w[..k], w[k..];
  }

  lemma StarOfNothing<T>(body: Rx<T>)
    ensures In([], Star(body))
  {
  }

  /** A string of several bodies begins with one. */
  lemma StarFirst<T>(body: Rx<T>, w: seq<T>) returns (k: nat)
    requires w != [] && In(w, Star(body))
    ensures 0 < k <= |w| && In(w[..k], body) && In(w[k..], Star(body))
  {
    k :| 0 < k <= |w| && In(w[..k], body) && In(w[k..], Star(body));
  }

  lemma StarJoin<T>(body: Rx<T>, w: seq<T>, k: nat)
    requires 0 < k <= |w| && In(w[..k], body) && In(w[k..], Star(body))
    ensures In(w, Star(body))
  {
  }

  lemma {:induction false} InLiteralCat<T>(w: seq<T>, t: T, r: Rx<T>)
    ensures In(w, Cat(Literal(t), r)) <==> w != [] && w[0] == t && In(w[1..], r)
  {
    var lit: Rx<T> := Literal(t);
    assert In([t], lit) && forall a :: In(a, lit) ==> a == [t];
    hide In;
    if In(w, Cat(lit, r)) {
      var a, b := CatElim(w, lit, r);
      assert w[1..] == b;
    }
    if w != [] && w[0] == t && In(w[1..], r) {
      assert w == [t] + w[1..];
      CatIntro([t], w[1..], lit, r);
    }
  }

  lemma {:induction false} InOneOfConcat<T>(w: seq<T>, a: seq<Rx<T>>, b: seq<Rx<T>>)
    ensures In(w, OneOf(a + b)) <==> In(w, OneOf(a)) || In(w, OneOf(b))
  {
    var all := a + b;
    if In(w, OneOf(all)) {
      var i :| 0 <= i < |all| && In(w, all[i]);
      assert if i < |a| then In(w, a[i]) else In(w, b[i - |a|]);
    }
    if In(w, OneOf(a)) {
      var i :| 0 <= i < |a| && In(w, a[i]);
      assert In(w, all[i]);
    }
    if In(w, OneOf(b)) {
      var i :| 0 <= i < |b| && In(w, b[i]);
      assert In(w, all[|a| + i]);
    }
  }

  lemma InOneOfSingle<T>(w: seq<T>, r: Rx<T>)
    ensures In(w, OneOf([r])) <==> In(w, r)
  {
    assert [r][0] == r;
  }
}
