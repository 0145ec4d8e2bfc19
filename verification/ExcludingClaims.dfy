/** What the excluding grammar does and does not keep out. */
module ExcludingClaims {
  import opened Wrappers
  import opened Excluding

  ghost predicate Ascii(f: seq<string>) {
    forall s, i :: s in f && 0 <= i < |s| ==> s[i] < 128 as char
  }

  const NOT_ASCII: char := 128 as char

  /** Scanning goes on where it came to. */
  lemma {:induction false} ScanConcat(f: seq<string>, u: string, a: string, b: string)
    ensures Scan(f, u, a + b) == if Scan(f, u, a).None? then None else Scan(f, Scan(f, u, a).value, b)
    decreases |a|
  {
    hide Touches, Live;
    if a == "" {
      assert a + b == b;
    } else {
      var v := u + [a[0]];
      assert (a + b)[1..] == a[1..] + b;
      ScanConcat(f, if Touches(f, v) then v else "", a[1..], b);
    }
  }

  /** Reading a forbidden string that no other one continues stops the scanner. */
  lemma {:induction false} ScanStops(f: seq<string>, u: string, rest: string, after: string)
    requires u + rest in f && !Live(f, u + rest) && rest != ""
    ensures Scan(f, u, rest + after).None?
    decreases |rest|
  {
    var v := u + [rest[0]];
    assert u + rest == v + rest[1..];
    assert v <= u + rest && Touches(f, v);
    assert (rest + after)[1..] == rest[1..] + after;
    if rest[1..] == "" {
      assert v == u + rest;
    } else {
      assert v < u + rest && Live(f, v);
      ScanStops(f, v, rest[1..], after);
    }
  }

  /** In an accepted text no forbidden string starts where the scanner is at the root, provided
      no other forbidden string continues it; in particular none stands at the beginning. */
  lemma NothingForbiddenAtRoot(f: seq<string>, w: string, k: nat, s: string)
    requires Accepts(f, w) && k <= |w| && Scan(f, "", w[..k]) == Some("")
    requires s in f && s != "" && !Live(f, s)
    ensures !(s <= w[k..])
  {
    hide Scan, Live, Touches;
    if s <= w[k..] {
      var after := w[k..][|s|..];
      assert w == w[..k] + w[k..] && w[k..] == s + after;
      ScanConcat(f, "", w[..k], w[k..]);
      assert "" + s == s;
      ScanStops(f, "", s, after);
    }
  }

  lemma {:induction false} ScanFollows(f: seq<string>, u: string, rest: string)
    requires Live(f, u + rest)
    ensures Scan(f, u, rest) == Some(u + rest)
    decreases |rest|
  {
    if rest == "" {
      assert u + rest == u;
    } else {
      var v := u + [rest[0]];
      assert v + rest[1..] == u + rest && v <= u + rest;
      var s :| s in f && u + rest < s;
      assert v < s && v <= s;
      ScanFollows(f, v, rest[1..]);
    }
  }

  lemma ScanLeaves(f: seq<string>, u: string)
    requires Ascii(f)
    ensures Scan(f, u, [NOT_ASCII]) == Some("")
  {
    var v := u + [NOT_ASCII];
    forall s | s in f
      ensures !(v <= s)
    {
      assert v[|u|] == NOT_ASCII;
    }
  }

  /** A forbidden string is kept from the beginning of every accepted text if and only if it is
      not a proper prefix of another forbidden string. */
  lemma KeptFromStartIff(f: seq<string>, s: string)
    requires s in f && s != "" && Ascii(f)
    ensures (forall w :: Accepts(f, w) ==> !(s <= w)) <==> !Live(f, s)
  {
    if Live(f, s) {
      var w := s + [NOT_ASCII];
      assert "" + s == s;
      ScanFollows(f, "", s);
      ScanConcat(f, "", s, [NOT_ASCII]);
      ScanLeaves(f, s);
      assert Accepts(f, w) && s <= w;
    } else {
      forall w | Accepts(f, w)
        ensures !(s <= w)
      {
        assert w[..0] == "" && w[0..] == w;
        NothingForbiddenAtRoot(f, w, 0, s);
      }
    }
  }

  ghost predicate Contains(w: string, s: string) {
    exists k :: 0 <= k <= |w| && s <= w[k..]
  }

  /** The documented promise: any text is accepted except those that contain a forbidden string. */
  ghost predicate AsDocumented(f: seq<string>) {
    forall w :: Accepts(f, w) <==> forall s :: s in f ==> !Contains(w, s)
  }

  /** The grammar keeps the documented promise exactly when every forbidden string is a single
      character. */
  lemma AsDocumentedIff(f: seq<string>)
    requires Ascii(f) && f != []
    ensures AsDocumented(f) <==> forall s :: s in f ==> |s| == 1
  {
    if forall s :: s in f ==> |s| == 1 {
      forall w
        ensures Accepts(f, w) <==> forall s :: s in f ==> !Contains(w, s)
      {
        SingleCharacters(f, w);
      }
    } else {
      var s :| s in f && |s| != 1;
      if "" in f {
        assert Accepts(f, "") && Contains("", "") by { assert "" <= ""[0..]; }
      } else {
        LongStringBreaksPromise(f, s);
      }
    }
  }

  lemma LongStringBreaksPromise(f: seq<string>, s: string)
    requires Ascii(f) && s in f && |s| >= 2 && "" !in f
    ensures !AsDocumented(f)
  {
    var a := s[..1];
    assert a < s && Live(f, a);
    assert "" + a == a;
    ScanFollows(f, "", a);
    if a in f {
      var w := a + [NOT_ASCII];
      ScanConcat(f, "", a, [NOT_ASCII]);
      ScanLeaves(f, a);
      assert Accepts(f, w);
      assert a <= w[0..] && Contains(w, a);
    } else {
      forall t | t in f
        ensures !Contains(a, t)
      {
        forall k | 0 <= k <= |a|
          ensures !(t <= a[k..])
        {
          assert a[0..] == a && t != "" && (t <= a ==> t == a);
        }
      }
      assert !Accepts(f, a);
    }
  }

  /** A single character that is not the first one is looked for in the rest. */
  lemma ContainsLater(w: string, s: string)
    requires w != "" && |s| == 1
    ensures Contains(w, s) <==> s[0] == w[0] || Contains(w[1..], s)
  {
    if s[0] == w[0] {
      assert s <= w[0..];
    }
    if Contains(w, s) && s[0] != w[0] {
      var k :| 0 <= k <= |w| && s <= w[k..];
      assert k > 0 && w[k..] == w[1..][k - 1..];
    }
    if Contains(w[1..], s) {
      var k :| 0 <= k <= |w[1..]| && s <= w[1..][k..];
      assert w[1..][k..] == w[k + 1..];
    }
  }

  /** On single characters the trie has no inner nodes. */
  lemma SingleTouches(f: seq<string>, c: char)
    requires forall s :: s in f ==> |s| == 1
    ensures !Live(f, "" + [c]) && (Touches(f, "" + [c]) <==> [c] in f)
  {
    assert "" + [c] == [c];
    forall s | s in f
      ensures [c] <= s <==> s == [c]
    {
    }
  }

  lemma {:induction false} SingleCharacters(f: seq<string>, w: string)
    requires forall s :: s in f ==> |s| == 1
    ensures Accepts(f, w) <==> forall s :: s in f ==> !Contains(w, s)
    decreases |w|
  {
    if w == "" {
      forall s | s in f
        ensures !Contains("", s)
      {
      }
    } else {
      SingleCharacters(f, w[1..]);
      SingleTouches(f, w[0]);
      hide Touches, Live, Contains;
      forall s | s in f
        ensures Contains(w, s) <==> s == [w[0]] || Contains(w[1..], s)
      {
        ContainsLater(w, s);
      }
    }
  }

  /** What touches the trie of the closing tag. */
  lemma TouchesClosingTag(u: string)
    ensures Touches(["</p>"], u) <==> u <= "</p>"
    ensures Live(["</p>"], u) <==> u < "</p>"
  {
    assert ["</p>"][0] == "</p>";
    assert forall s :: s in ["</p>"] ==> s == "</p>";
    assert "</p>" in ["</p>"];
  }

  /** One step of the scanner on the closing tag. */
  lemma ScanStep(u: string, w: string)
    requires w != ""
    ensures var f, v := ["</p>"], u + [w[0]];
            Scan(f, u, w) == if !(v <= "</p>") then Scan(f, "", w[1..]) else if v < "</p>" then Scan(f, v, w[1..]) else None
  {
    TouchesClosingTag(u + [w[0]]);
    hide Touches, Live;
  }

  lemma NotBeginnings()
    ensures !("<<" <= "</p>") && !("/" <= "</p>") && !("p" <= "</p>") && !(">" <= "</p>") && "<" < "</p>"
  {
    assert "<<"[1] != "</p>"[1] && "/"[0] != "</p>"[0] && "p"[0] != "</p>"[0] && ">"[0] != "</p>"[0];
  }

  /** The gap in both directions for one forbidden closing tag: a text that contains the tag is
      accepted, and a text that does not contain it is refused. */
  lemma ClosingTagExample()
    ensures Accepts(["</p>"], "<</p>") && Contains("<</p>", "</p>")
    ensures !Accepts(["</p>"], "<") && !Contains("<", "</p>")
  {
    var f := ["</p>"];
    assert "<</p>"[1..] == "</p>" && "</p>" <= "<</p>"[1..];
    hide Touches, Live, Scan;
    NotBeginnings();
    assert "" + ['>'] == ">" && "" + ['p'] == "p" && "" + ['/'] == "/" && "" + ['<'] == "<" && "<" + ['<'] == "<<";
    ScanEmpty(f);
    ScanStep("", ">");
    ScanStep("", "p>");
    ScanStep("", "/p>");
    ScanStep("<", "</p>");
    ScanStep("", "<</p>");
    ScanStep("", "<");
    assert "p>"[1..] == ">" && "/p>"[1..] == "p>" && "</p>"[1..] == "/p>" && ">"[1..] == "" && "<"[1..] == "";
  }

  lemma ScanEmpty(f: seq<string>)
    ensures Scan(f, "", "") == Some("") && Scan(f, "<", "") == Some("<")
  {
  }
}
