/** Growing inputs: what a parse of a prefix promises about every later parse, and what a
    client that only receives differences ends up with. */
module Streaming {
  import opened Wrappers
  import opened TextSearch
  import opened ChatParser

  ghost predicate Extends(m: Msg, m': Msg) {
    m.content <= m'.content && m.reasoning <= m'.reasoning
  }

  // --- Withholding ---------------------------------------------------------------------------

  /** Where the reasoning section that began before `cursor` ends, as far as the text tells. */
  function SectionEnd(s: string, tag: string, cursor: nat): (e: nat)
    requires cursor <= |s|
    ensures cursor <= e <= |s|
  {
    match Find(s, tag, cursor)
    case Some(p) => p
    case None =>
      match PartialStop(s[cursor..], tag)
      case Some(off) => cursor + off
      case None => |s|
  }

  /** The reported end of a section never moves back when text arrives. */
  lemma SectionEndGrows(s: string, t: string, tag: string, cursor: nat)
    requires s <= t && cursor <= |s|
    ensures SectionEnd(s, tag, cursor) <= SectionEnd(t, tag, cursor)
  {
    var e := SectionEnd(t, tag, cursor);
    if Find(s, tag, cursor).Some? {
      FindExtends(s, t, tag, cursor);
    } else if e < |s| {
      var a, b := s[cursor..], t[cursor..];
      if Find(t, tag, cursor).Some? {
        OccurrenceNeedsOverlap(s, t, tag, cursor, e);
        assert a[e - cursor..] == s[e..];
      } else {
        assert a <= b;
        OverlapRestricts(a, b, tag, e - cursor);
      }
      assert Overlap(a, tag, e - cursor);
    }
  }

  /** A literal reported by `try_find_literal` on partial input keeps its prelude: on every
      extension the literal starts no earlier; and the withheld text is not too long, for some
      extension has its first occurrence exactly there. */
  lemma LiteralFoundIsExact(s: string, pos: nat, literal: string, t: string, i: nat)
    requires pos <= |s| && s <= t
    requires LiteralFound(s, true, pos, literal).Some?
    ensures pos <= i && Occurs(t, literal, i) ==> LiteralFound(s, true, pos, literal).value.begin <= i
    ensures var begin := LiteralFound(s, true, pos, literal).value.begin;
            exists u :: s <= u && Find(u, literal, pos) == Some(begin)
  {
    var begin := LiteralFound(s, true, pos, literal).value.begin;
    LiteralNotBefore(s, pos, literal, t, i);
    if Find(s, literal, pos).Some? {
      assert Find(s, literal, pos) == Some(begin);
    } else {
      WithheldIsReached(s, pos, literal);
    }
  }

  /** A withheld beginning of the literal can be completed where it is. */
  lemma {:induction false} WithheldIsReached(s: string, pos: nat, literal: string)
    requires pos <= |s| && LiteralFound(s, true, pos, literal).Some? && Find(s, literal, pos).None?
    ensures var begin := LiteralFound(s, true, pos, literal).value.begin;
            s <= s[..begin] + literal && Find(s[..begin] + literal, literal, pos) == Some(begin)
  {
    var begin := LiteralFound(s, true, pos, literal).value.begin;
    var u := s[..begin] + literal;
    assert u[..|s|] == s[..begin] + literal[..|s| - begin] == s;
    assert Occurs(u, literal, begin);
    LiteralNotBefore(s, pos, literal, u, Find(u, literal, pos).value);
  }

  lemma LiteralNotBefore(s: string, pos: nat, literal: string, t: string, i: nat)
    requires pos <= |s| && s <= t
    requires LiteralFound(s, true, pos, literal).Some?
    ensures pos <= i && Occurs(t, literal, i) ==> LiteralFound(s, true, pos, literal).value.begin <= i
  {
    if pos <= i && Occurs(t, literal, i) {
      if Find(s, literal, pos).Some? {
        FindExtends(s, t, literal, pos);
      } else if i < |s| {
        OccurrenceNeedsOverlap(s, t, literal, pos, i);
      }
    }
  }

  /** When `try_find_literal` finds nothing, no later text can complete the literal inside the
      part already seen if and only if the text has no overlap with the literal from `pos` on.
      The code asks for the longest overlap of the whole text instead. */
  lemma {:induction false} NothingFoundIsFinalIff(s: string, pos: nat, literal: string)
    requires pos <= |s|
    requires LiteralFound(s, true, pos, literal).None?
    ensures (forall t, i | s <= t && pos <= i < |s| :: !Occurs(t, literal, i))
       <==> PartialStopFrom(s, literal, pos).None?
  {
    match PartialStopFrom(s, literal, pos)
    case None =>
      forall t, i | s <= t && pos <= i < |s|
        ensures !Occurs(t, literal, i)
      {
        if Occurs(t, literal, i) {
          OccurrenceNeedsOverlap(s, t, literal, pos, i);
        }
      }
    case Some(i) =>
      var t := s[..i] + literal;
      assert t[..|s|] == s[..i] + literal[..|s| - i] == s;
      assert s <= t && Occurs(t, literal, i);
  }

  /** The two searches differ: behind position 1 of "aa" the literal "aab" may still begin,
      yet the longest overlap lies before that position and nothing is withheld. */
  lemma NothingFoundMayBeEarly()
    ensures LiteralFound("aa", true, 1, "aab").None?
    ensures "aa" <= "aaab" && Occurs("aaab", "aab", 1)
  {
    assert Overlap("aa", "aab", 0);
    assert Find("aa", "aab", 1).None?;
    assert Find("aaab", "aab", 1) == Some(1);
  }

  // --- One parse against a later one -----------------------------------------------------------

  lemma HandledGrows(cfg: Config, m: Msg, pending: string, text: string, closed: bool)
    ensures Extends(m, Handled(cfg, m, pending, text, closed).0)
  {
  }

  /** An open section reports no more than the same section reports with more text. */
  lemma HandledExtends(cfg: Config, m: Msg, pending: string, a: string, b: string, closed: bool)
    requires a <= b
    ensures Extends(Handled(cfg, m, pending, a, false).0, Handled(cfg, m, pending, b, closed).0)
  {
    StripExtends(a, b);
    var x, y := Strip(a), Strip(b);
    assert m.content + OpeningTag(cfg) + x + "" == m.content + OpeningTag(cfg) + x;
    assert m.content + OpeningTag(cfg) + x <= m.content + OpeningTag(cfg) + y;
    assert m.reasoning + pending + x <= m.reasoning + pending + y;
  }

  lemma {:induction false} BlocksGrow(cfg: Config, s: string, partial: bool, cursor: nat, pending: string, m: Msg)
    requires cursor <= |s| && cfg.endTag != ""
    ensures Extends(m, Blocks(cfg, s, partial, cursor, pending, m).msg)
    decreases |s| - cursor
  {
    hide Handled, Find, Occurs, Overlap, PartialStop, SkipSpaces, ScanTag, PendingAt;
    if cursor < |s| {
      match Find(s, cfg.endTag, cursor)
      case None =>
        HandledGrows(cfg, m, pending, s[cursor..SectionEnd(s, cfg.endTag, cursor)],
          PartialStop(s[cursor..], cfg.endTag).None? && !partial);
      case Some(endPos) =>
        var (m', pending') := Handled(cfg, m, pending, s[cursor..endPos], true);
        HandledGrows(cfg, m, pending, s[cursor..endPos], true);
        match ScanTag(s, endPos + |cfg.endTag|, cfg.startTag)
        case Tag(at) => BlocksGrow(cfg, s, partial, at + |cfg.startTag|, PendingAt(cfg, s, at, pending'), m');
        case _ =>
    }
  }

  /** A complete tag, or other text, seen once is seen at the same place on every extension. */
  lemma ScanTagExtends(s: string, t: string, from: nat, tag: string)
    requires s <= t && from <= |s|
    ensures ScanTag(s, from, tag).Tag? || ScanTag(s, from, tag).Other?
        ==> ScanTag(t, from, tag) == ScanTag(s, from, tag)
  {
    SkipSpacesExtends(s, t, from);
    var at := SkipSpaces(s, from);
    if at < |s| {
      var n := Comparable(s, at, tag);
      assert t[at..at + n] == s[at..at + n];
      assert TagAt(t, at, tag) ==> t[at..at + Comparable(t, at, tag)][..n] == tag[..n];
    }
  }

  lemma PendingAtExtends(cfg: Config, s: string, t: string, at: nat, pending: string)
    requires s <= t && at + |cfg.startTag| <= |s|
    ensures PendingAt(cfg, s, at, pending) == PendingAt(cfg, t, at, pending)
  {
    assert s[at..at + |cfg.startTag|] == t[at..at + |cfg.startTag|];
  }

  /** The message of a content-only parse that stopped with outcome `o`. */
  function WithRest(o: Outcome, s: string): Msg
    requires o.pos <= |s|
  {
    o.msg.(content := o.msg.content + s[o.pos..])
  }

  /** One closed section of the loop. */
  lemma BlocksAtSection(cfg: Config, s: string, partial: bool, cursor: nat, pending: string, m: Msg, endPos: nat)
    requires cursor < |s| && cfg.endTag != "" && Find(s, cfg.endTag, cursor) == Some(endPos)
    ensures var (m', pending') := Handled(cfg, m, pending, s[cursor..endPos], true);
            var found := ScanTag(s, endPos + |cfg.endTag|, cfg.startTag);
            Blocks(cfg, s, partial, cursor, pending, m) ==
            if found.Tag? then Blocks(cfg, s, partial, found.at + |cfg.startTag|, PendingAt(cfg, s, found.at, pending'), m')
            else Outcome(true, if found.Other? then found.at else |s|, m')
  {
    hide Handled, Find, Occurs, Overlap, PartialStop, SkipSpaces, ScanTag, PendingAt;
  }

  /** The section after which the shorter text has no further tag. */
  lemma LastSectionExtends(cfg: Config, s: string, t: string, final: bool, cursor: nat, pending: string, m: Msg, endPos: nat)
    requires s <= t && cursor < |s| && cfg.endTag != ""
    requires Find(s, cfg.endTag, cursor) == Some(endPos) == Find(t, cfg.endTag, cursor)
    requires !ScanTag(s, endPos + |cfg.endTag|, cfg.startTag).Tag?
    ensures Extends(WithRest(Blocks(cfg, s, true, cursor, pending, m), s),
                    WithRest(Blocks(cfg, t, !final, cursor, pending, m), t))
  {
    hide Handled, Find, Occurs, Overlap, PartialStop, SkipSpaces, ScanTag, PendingAt, Blocks;
    assert t[cursor..endPos] == s[cursor..endPos];
    BlocksAtSection(cfg, s, true, cursor, pending, m, endPos);
    BlocksAtSection(cfg, t, !final, cursor, pending, m, endPos);
    ScanTagExtends(s, t, endPos + |cfg.endTag|, cfg.startTag);
    match ScanTag(s, endPos + |cfg.endTag|, cfg.startTag)
    case Other(at) =>
    case _ => AfterSection(cfg, t, !final, cursor, pending, m, endPos);
  }

  /** A section that is followed by another start tag, in both texts. */
  lemma NextSection(cfg: Config, s: string, t: string, final: bool, cursor: nat, pending: string, m: Msg, endPos: nat)
      returns (next: nat, pending': string, m': Msg)
    requires s <= t && cursor < |s| && cfg.endTag != ""
    requires Find(s, cfg.endTag, cursor) == Some(endPos) == Find(t, cfg.endTag, cursor)
    requires ScanTag(s, endPos + |cfg.endTag|, cfg.startTag).Tag?
    ensures cursor < next <= |s| && Blocks(cfg, s, true, cursor, pending, m) == Blocks(cfg, s, true, next, pending', m')
    ensures Blocks(cfg, t, !final, cursor, pending, m) == Blocks(cfg, t, !final, next, pending', m')
  {
    hide Handled, Find, Occurs, Overlap, PartialStop, SkipSpaces, ScanTag, PendingAt, Blocks;
    assert t[cursor..endPos] == s[cursor..endPos];
    BlocksAtSection(cfg, s, true, cursor, pending, m, endPos);
    BlocksAtSection(cfg, t, !final, cursor, pending, m, endPos);
    ScanTagExtends(s, t, endPos + |cfg.endTag|, cfg.startTag);
    var (m1, pending1) := Handled(cfg, m, pending, s[cursor..endPos], true);
    var at := ScanTag(s, endPos + |cfg.endTag|, cfg.startTag).at;
    PendingAtExtends(cfg, s, t, at, pending1);
    next, pending', m' := at + |cfg.startTag|, PendingAt(cfg, s, at, pending1), m1;
  }

  lemma {:induction false} BlocksExtend(cfg: Config, s: string, t: string, final: bool,
                                        cursor: nat, pending: string, m: Msg)
    requires s <= t && cursor <= |s| && cfg.endTag != ""
    ensures Extends(WithRest(Blocks(cfg, s, true, cursor, pending, m), s),
                    WithRest(Blocks(cfg, t, !final, cursor, pending, m), t))
    decreases |s| - cursor
  {
    hide *;
    if cursor == |s| {
      AtEndExtends(cfg, s, t, final, pending, m);
    } else if Find(s, cfg.endTag, cursor).None? {
      NoEndExtends(cfg, s, t, final, cursor, pending, m);
    } else {
      FindExtends(s, t, cfg.endTag, cursor);
      var endPos := Find(s, cfg.endTag, cursor).value;
      if ScanTag(s, endPos + |cfg.endTag|, cfg.startTag).Tag? {
        var next, pending', m' := NextSection(cfg, s, t, final, cursor, pending, m, endPos);
        BlocksExtend(cfg, s, t, final, next, pending', m');
      } else {
        LastSectionExtends(cfg, s, t, final, cursor, pending, m, endPos);
      }
    }
  }

  lemma AtEndExtends(cfg: Config, s: string, t: string, final: bool, pending: string, m: Msg)
    requires s <= t && cfg.endTag != ""
    ensures Extends(WithRest(Blocks(cfg, s, true, |s|, pending, m), s), WithRest(Blocks(cfg, t, !final, |s|, pending, m), t))
  {
    hide Handled, Find, Occurs, Overlap, PartialStop, SkipSpaces, ScanTag, PendingAt;
    BlocksGrow(cfg, t, !final, |s|, pending, m);
  }

  lemma NoEndExtends(cfg: Config, s: string, t: string, final: bool, cursor: nat, pending: string, m: Msg)
    requires s <= t && cursor < |s| && cfg.endTag != "" && Find(s, cfg.endTag, cursor).None?
    ensures Extends(WithRest(Blocks(cfg, s, true, cursor, pending, m), s),
                    WithRest(Blocks(cfg, t, !final, cursor, pending, m), t))
  {
    hide Handled, Find, Occurs, Overlap, PartialStop, SkipSpaces, ScanTag, PendingAt;
    OpenBlockExtends(cfg, s, t, final, cursor, pending, m);
  }

  /** Whatever follows a closed section only adds to it. */
  lemma AfterSection(cfg: Config, t: string, partial: bool, cursor: nat, pending: string, m: Msg, endPos: nat)
    requires cursor < |t| && cfg.endTag != "" && Find(t, cfg.endTag, cursor) == Some(endPos)
    ensures Extends(Handled(cfg, m, pending, t[cursor..endPos], true).0,
                    Blocks(cfg, t, partial, cursor, pending, m).msg)
  {
    hide Handled, Find, Occurs, Overlap, PartialStop, SkipSpaces, ScanTag, PendingAt;
    var (m', pending') := Handled(cfg, m, pending, t[cursor..endPos], true);
    match ScanTag(t, endPos + |cfg.endTag|, cfg.startTag)
    case Tag(at) => BlocksGrow(cfg, t, partial, at + |cfg.startTag|, PendingAt(cfg, t, at, pending'), m');
    case _ =>
  }

  lemma OpenBlockExtends(cfg: Config, s: string, t: string, final: bool, cursor: nat, pending: string, m: Msg)
    requires s <= t && cursor < |s| && cfg.endTag != ""
    requires Find(s, cfg.endTag, cursor).None?
    ensures Extends(OpenBlock(cfg, s, true, cursor, pending, m), Blocks(cfg, t, !final, cursor, pending, m).msg)
  {
    hide Handled, Find, Occurs, Overlap, PartialStop, SkipSpaces, ScanTag, PendingAt;
    var tag := cfg.endTag;
    var e, e' := SectionEnd(s, tag, cursor), SectionEnd(t, tag, cursor);
    SectionEndGrows(s, t, tag, cursor);
    assert s[cursor..e] <= t[cursor..e'];
    if Find(t, tag, cursor).Some? {
      HandledExtends(cfg, m, pending, s[cursor..e], t[cursor..e'], true);
      HandledGrows(cfg, m, pending, t[cursor..e'], true);
      AfterSection(cfg, t, !final, cursor, pending, m, e');
    } else {
      var closed := PartialStop(t[cursor..], tag).None? && final;
      HandledExtends(cfg, m, pending, s[cursor..e], t[cursor..e'], closed);
      HandledGrows(cfg, m, pending, t[cursor..e'], closed);
    }
  }

  /** Leading whitespace was reported as content, and then a start tag began: the later parse
      withholds the whitespace again. */
  predicate WhitespaceTakenBack(cfg: Config, s: string, t: string) {
    cfg.syntax.format != NoReasoning && !cfg.syntax.thinkingForcedOpen &&
    s != "" && SkipSpaces(s, 0) == |s| && ScanTag(t, 0, cfg.startTag).CutShort?
  }

  /** Streaming never retracts. For every syntax and every pair of tags, the reasoning text of
      a partial parse is a prefix of the reasoning text of every later parse; and its content is
      a prefix of the later content unless, and only unless, whitespace is taken back. */
  lemma NeverRetracts(cfg: Config, s: string, t: string, final: bool)
    requires s <= t && cfg.endTag != ""
    ensures Parse(cfg, s, true).reasoning <= Parse(cfg, t, !final).reasoning
    ensures Parse(cfg, s, true).content <= Parse(cfg, t, !final).content <==> !WhitespaceTakenBack(cfg, s, t)
  {
    hide Blocks, SkipSpaces, Comparable, TagAt, PendingAt, Handled;
    if cfg.syntax.format != NoReasoning {
      if SkipSpaces(s, 0) == |s| {
        BlankNeverRetracts(cfg, s, t, final);
      } else {
        ScanTagExtends(s, t, 0, cfg.startTag);
        TextNeverRetracts(cfg, s, t, final);
      }
    }
  }

  lemma BlankNeverRetracts(cfg: Config, s: string, t: string, final: bool)
    requires s <= t && cfg.endTag != "" && cfg.syntax.format != NoReasoning
    requires SkipSpaces(s, 0) == |s|
    ensures Parse(cfg, s, true).reasoning <= Parse(cfg, t, !final).reasoning
    ensures Parse(cfg, s, true).content <= Parse(cfg, t, !final).content <==> !WhitespaceTakenBack(cfg, s, t)
  {
    hide Parse, ScanTag;
    BlankParse(cfg, s);
    SkipSpacesExtends(s, t, 0);
    if !cfg.syntax.thinkingForcedOpen {
      AfterBlankParse(cfg, s, t, final);
    }
  }

  /** Behind leading whitespace that did not force thinking open, a later parse has that
      whitespace as content, unless it ends inside a start tag: then it has nothing. */
  lemma {:induction false} AfterBlankParse(cfg: Config, s: string, t: string, final: bool)
    requires s <= t && |s| <= SkipSpaces(t, 0) && cfg.endTag != ""
    requires cfg.syntax.format != NoReasoning && !cfg.syntax.thinkingForcedOpen
    ensures ScanTag(t, 0, cfg.startTag).CutShort? ==> Parse(cfg, t, !final) == EMPTY_MSG
    ensures !ScanTag(t, 0, cfg.startTag).CutShort? ==> s <= Parse(cfg, t, !final).content
  {
    hide Blocks, Comparable, TagAt, PendingAt, Handled, SkipSpaces;
    match ScanTag(t, 0, cfg.startTag)
    case Tag(at) =>
      BlocksGrow(cfg, t, !final, at + |cfg.startTag|, PendingAt(cfg, t, at, ""), Msg("" + t[0..at], ""));
      assert s <= "" + t[0..at];
    case _ =>
  }

  lemma ParseAtTag(cfg: Config, s: string, partial: bool, at: nat)
    requires cfg.endTag != "" && cfg.syntax.format != NoReasoning && ScanTag(s, 0, cfg.startTag) == Tag(at)
    ensures Parse(cfg, s, partial)
         == WithRest(Blocks(cfg, s, partial, at + |cfg.startTag|, PendingAt(cfg, s, at, ""), Msg("" + s[0..at], "")), s)
  {
    hide Blocks, ScanTag, PendingAt;
  }

  lemma ParseElsewhere(cfg: Config, s: string, partial: bool)
    requires cfg.endTag != "" && cfg.syntax.format != NoReasoning
    ensures ScanTag(s, 0, cfg.startTag).CutShort? ==> Parse(cfg, s, partial).content == "" && Parse(cfg, s, partial).reasoning == ""
    ensures ScanTag(s, 0, cfg.startTag).Other? ==>
      Parse(cfg, s, partial) ==
      if cfg.syntax.thinkingForcedOpen then WithRest(Blocks(cfg, s, partial, ScanTag(s, 0, cfg.startTag).at, "", EMPTY_MSG), s)
      else Msg(s, "")
  {
    hide Blocks, ScanTag, PendingAt;
    assert "" + s[0..] == s && "" + s[|s|..] == "";
  }

  lemma TextNeverRetracts(cfg: Config, s: string, t: string, final: bool)
    requires s <= t && cfg.endTag != "" && cfg.syntax.format != NoReasoning
    requires !ScanTag(s, 0, cfg.startTag).AtEnd?
    requires ScanTag(s, 0, cfg.startTag).CutShort? || ScanTag(t, 0, cfg.startTag) == ScanTag(s, 0, cfg.startTag)
    ensures Extends(Parse(cfg, s, true), Parse(cfg, t, !final))
  {
    hide Blocks, ScanTag, PendingAt, Parse, WithRest;
    ParseElsewhere(cfg, s, true);
    ParseElsewhere(cfg, t, !final);
    match ScanTag(s, 0, cfg.startTag)
    case CutShort =>
    case Tag(at) =>
      ParseAtTag(cfg, s, true, at);
      ParseAtTag(cfg, t, !final, at);
      PendingAtExtends(cfg, s, t, at, "");
      assert s[0..at] == t[0..at];
      BlocksExtend(cfg, s, t, final, at + |cfg.startTag|, PendingAt(cfg, s, at, ""), Msg("" + s[0..at], ""));
    case Other(at) =>
      if cfg.syntax.thinkingForcedOpen {
        BlocksExtend(cfg, s, t, final, at, "", EMPTY_MSG);
      }
  }

  /** A text of nothing but whitespace is content, or nothing when thinking is forced open. */
  lemma BlankParse(cfg: Config, s: string)
    requires cfg.syntax.format != NoReasoning && cfg.endTag != "" && SkipSpaces(s, 0) == |s|
    ensures Parse(cfg, s, true) == Msg(if cfg.syntax.thinkingForcedOpen then "" else s, "")
  {
    StripIsTheTrimmedMiddle(s, |s|, |s|);
    assert s[0..] == s;
  }
}
