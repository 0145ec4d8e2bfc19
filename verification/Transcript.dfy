/** The parser against the text a model is meant to produce: think sections, then an answer. */
module Transcript {
  import opened Wrappers
  import opened TextSearch
  import opened ChatParser

  /** One closed think section and the whitespace behind it. */
  datatype Section = Section(reasoning: string, gap: string)

  function Render(cfg: Config, sections: seq<Section>, answer: string): (s: string)
    ensures |s| >= |answer|
  {
    if sections == [] then answer
    else cfg.startTag + (sections[0].reasoning + cfg.endTag) + sections[0].gap + Render(cfg, sections[1..], answer)
  }

  lemma {:induction false} RenderEnds(cfg: Config, sections: seq<Section>, answer: string)
    ensures var s := Render(cfg, sections, answer); s[|s| - |answer|..] == answer
  {
    if sections != [] {
      RenderEnds(cfg, sections[1..], answer);
      EndsAlike(cfg.startTag + (sections[0].reasoning + cfg.endTag) + sections[0].gap, Render(cfg, sections[1..], answer), answer);
    }
  }

  lemma EndsAlike(before: string, rest: string, answer: string)
    requires |rest| >= |answer| && rest[|rest| - |answer|..] == answer
    ensures (before + rest)[|before + rest| - |answer|..] == answer
  {
    assert (before + rest)[|before + rest| - |answer|..] == rest[|rest| - |answer|..];
  }

  /** What stands in front of the reasoning of a section that begins with a start tag. */
  function TagPrefix(cfg: Config): string {
    if cfg.syntax.thinkingForcedOpen && !cfg.syntax.reasoningInContent then cfg.startTag else ""
  }

  /** What a closed section with the text `r` adds to the reasoning. */
  function Thought(cfg: Config, prefix: string, r: string): string {
    if cfg.syntax.reasoningInContent || Strip(r) == "" then "" else prefix + Strip(r)
  }

  /** What a closed section with the text `r` adds to the content. */
  function Framed(cfg: Config, r: string): string {
    if cfg.syntax.reasoningInContent && Strip(r) != "" then OpeningTag(cfg) + Strip(r) + ClosingTag(cfg) else ""
  }

  function Thoughts(cfg: Config, sections: seq<Section>): string {
    if sections == [] then "" else Thought(cfg, TagPrefix(cfg), sections[0].reasoning) + Thoughts(cfg, sections[1..])
  }

  function Frames(cfg: Config, sections: seq<Section>): string {
    if sections == [] then "" else Framed(cfg, sections[0].reasoning) + Frames(cfg, sections[1..])
  }

  /** A section does not close early, and only whitespace separates it from what follows. */
  ghost predicate WellFormedSection(cfg: Config, section: Section) {
    Find(section.reasoning + cfg.endTag, cfg.endTag, 0) == Some(|section.reasoning|) &&
    Blank(section.gap, 0, |section.gap|)
  }

  ghost predicate WellFormed(cfg: Config, sections: seq<Section>, answer: string) {
    (forall i :: 0 <= i < |sections| ==> WellFormedSection(cfg, sections[i])) &&
    (answer != "" ==> !IsSpace(answer[0]) && !TagAt(answer, 0, cfg.startTag))
  }

  predicate GoodTags(cfg: Config) {
    cfg.endTag != "" && cfg.startTag != "" && !IsSpace(cfg.startTag[0])
  }

  lemma OccursInside(pre: string, mid: string, post: string, tag: string, j: nat)
    requires j + |tag| <= |mid|
    ensures Occurs(pre + mid + post, tag, |pre| + j) == Occurs(mid, tag, j)
  {
    assert (pre + mid + post)[|pre| + j..|pre| + j + |tag|] == mid[j..j + |tag|];
  }

  /** A first occurrence is the only position that is one. */
  lemma FirstIsUnique(s: string, tag: string, from: nat, at: nat)
    requires from <= at && Occurs(s, tag, at) && forall j :: from <= j < at ==> !Occurs(s, tag, j)
    ensures Find(s, tag, from) == Some(at)
  {
    hide Occurs;
  }

  /** The first end tag of a section that sits inside a longer text. */
  lemma FindInside(pre: string, r: string, tag: string, post: string)
    requires Find(r + tag, tag, 0) == Some(|r|)
    ensures Find(pre + (r + tag) + post, tag, |pre|) == Some(|pre| + |r|)
  {
    var s := pre + (r + tag) + post;
    hide Find, Occurs;
    OccursInside(pre, r + tag, post, tag, |r|);
    forall k | |pre| <= k < |pre| + |r|
      ensures !Occurs(s, tag, k)
    {
      OccursInside(pre, r + tag, post, tag, k - |pre|);
    }
    FirstIsUnique(s, tag, |pre|, |pre| + |r|);
  }

  /** A section that starts behind `open`, seen from there. */
  lemma {:induction false} SectionSeen(open: string, r: string, tag: string, gap: string, rest: string)
    requires Find(r + tag, tag, 0) == Some(|r|)
    ensures var s := open + (r + tag) + gap + rest;
            SeesText(s, |open|, r, tag)
  {
    hide Find;
    FindInside(open, r, tag, gap + rest);
    assert open + (r + tag) + gap + rest == open + (r + tag) + (gap + rest) == open + r + (tag + gap + rest);
  }

  /** What the scan behind whitespace sees. */
  lemma ScanInside(pre: string, gap: string, rest: string, tag: string)
    requires Blank(gap, 0, |gap|) && (rest != "" ==> !IsSpace(rest[0]))
    ensures var s := pre + gap + rest; var at := |pre| + |gap|;
            ScanTag(s, |pre|, tag) ==
            if rest == "" then AtEnd
            else if !TagAt(rest, 0, tag) then Other(at)
            else if |rest| < |tag| then CutShort else Tag(at)
  {
    var s, at := pre + gap + rest, |pre| + |gap|;
    assert forall i :: |pre| <= i < at ==> s[i] == gap[i - |pre|];
    assert rest != "" ==> s[at] == rest[0];
    SkipSpacesUnique(s, |pre|, at);
    var n := Comparable(s, at, tag);
    assert n == Comparable(rest, 0, tag) && s[at..at + n] == rest[0..n];
  }

  lemma RenderStarts(cfg: Config, sections: seq<Section>, answer: string)
    requires GoodTags(cfg) && WellFormed(cfg, sections, answer)
    ensures var rest := Render(cfg, sections, answer);
            Follows(rest, cfg.startTag) && (StartsWithTag(rest, cfg.startTag) <==> sections != [])
  {
    if sections != [] {
      var rest := Render(cfg, sections, answer);
      assert rest[0] == cfg.startTag[0];
      assert rest[0..|cfg.startTag|] == cfg.startTag == cfg.startTag[..|cfg.startTag|];
    }
  }

  function WithSection(cfg: Config, m: Msg, prefix: string, section: Section): Msg {
    Msg(m.content + Framed(cfg, section.reasoning), m.reasoning + Thought(cfg, prefix, section.reasoning))
  }

  /** The prefixes a section can have: none for the first of a forced-open text, else the usual one. */
  predicate PrefixFits(cfg: Config, prefix: string) {
    prefix == "" || prefix == TagPrefix(cfg)
  }

  lemma FittingPrefixes(cfg: Config)
    ensures PrefixFits(cfg, "") && PrefixFits(cfg, TagPrefix(cfg))
  {
  }

  function WithSections(cfg: Config, m: Msg, sections: seq<Section>): Msg {
    Msg(m.content + Frames(cfg, sections), m.reasoning + Thoughts(cfg, sections))
  }

  lemma WithNone(cfg: Config, m: Msg)
    ensures WithSections(cfg, m, []) == m
  {
    assert m.content + "" == m.content && m.reasoning + "" == m.reasoning;
  }

  lemma Tags(cfg: Config)
    requires GoodTags(cfg)
    ensures cfg.endTag != "" && cfg.startTag != ""
  {
  }

  lemma HandledSection(cfg: Config, m: Msg, prefix: string, section: Section)
    requires PrefixFits(cfg, prefix)
    ensures Handled(cfg, m, prefix, section.reasoning, true).0 == WithSection(cfg, m, prefix, section)
    ensures PrefixFits(cfg, Handled(cfg, m, prefix, section.reasoning, true).1)
  {
    hide Strip;
    var text := Strip(section.reasoning);
    assert m.reasoning + prefix + text == m.reasoning + (prefix + text);
    assert m.content + OpeningTag(cfg) + text + ClosingTag(cfg) == m.content + (OpeningTag(cfg) + text + ClosingTag(cfg));
    assert m.reasoning + "" == m.reasoning && m.content + "" == m.content;
  }

  /** Behind a start tag the prefix is always the same. */
  lemma PrefixAtTag(cfg: Config, s: string, at: nat, pending: string)
    requires at + |cfg.startTag| <= |s| && s[at..at + |cfg.startTag|] == cfg.startTag
    requires PrefixFits(cfg, pending)
    ensures PendingAt(cfg, s, at, pending) == TagPrefix(cfg)
  {
  }

  lemma SectionFacts(cfg: Config, section: Section)
    requires WellFormedSection(cfg, section)
    ensures Blank(section.gap, 0, |section.gap|) && Find(section.reasoning + cfg.endTag, cfg.endTag, 0) == Some(|section.reasoning|)
  {
    hide Blank, Find;
  }

  /** A section may be followed by `rest`: what is no whitespace, and no start tag cut short. */
  predicate Follows(rest: string, tag: string) {
    (rest != "" ==> !IsSpace(rest[0])) && (StartsWithTag(rest, tag) ==> |rest| >= |tag|)
  }

  lemma TagFits(rest: string, tag: string)
    requires Follows(rest, tag)
    ensures StartsWithTag(rest, tag) ==> |rest| >= |tag|
  {
  }

  predicate StartsWithTag(rest: string, tag: string) {
    rest != "" && TagAt(rest, 0, tag)
  }

  lemma {:induction false} TagSeen(before: string, rest: string, tag: string)
    requires Follows(rest, tag) && StartsWithTag(rest, tag)
    ensures |before| + |tag| <= |before + rest| && (before + rest)[|before|..|before| + |tag|] == tag
  {
    assert (before + rest)[|before|..|before| + |tag|] == rest[0..|tag|] == tag;
  }

  /** What the scan behind a section sees. */
  lemma {:induction false} BehindSection(closed: string, gap: string, rest: string, tag: string) returns (scan: TagScan)
    requires Blank(gap, 0, |gap|) && Follows(rest, tag)
    ensures var s := closed + gap + rest; ScanTag(s, |closed|, tag) == scan && SeesBehind(s, |s| - |rest|, scan, tag)
    ensures scan.Tag? <==> StartsWithTag(rest, tag)
  {
    hide IsSpace, TagAt, ScanTag, Blank;
    ScanInside(closed, gap, rest, tag);
    scan := ScanTag(closed + gap + rest, |closed|, tag);
    if StartsWithTag(rest, tag) {
      TagSeen(closed + gap, rest, tag);
    }
  }

  /** What one round sees of the text `r`, which runs from `cursor` to the end tag, and of what follows it at `at`. */
  ghost predicate Sees(cfg: Config, s: string, cursor: nat, r: string, at: nat, scan: TagScan) {
    SeesText(s, cursor, r, cfg.endTag) && ScanTag(s, cursor + |r| + |cfg.endTag|, cfg.startTag) == scan &&
    SeesBehind(s, at, scan, cfg.startTag)
  }

  ghost predicate SeesText(s: string, cursor: nat, r: string, tag: string) {
    cursor + |r| + |tag| <= |s| && s[cursor..cursor + |r|] == r && Find(s, tag, cursor) == Some(cursor + |r|)
  }

  predicate SeesBehind(s: string, at: nat, scan: TagScan, tag: string) {
    match scan
    case AtEnd => at == |s|
    case CutShort => false
    case Other(i) => i == at
    case Tag(i) => i == at && at + |tag| <= |s| && s[at..at + |tag|] == tag
  }

  /** One round over what it sees. */
  lemma {:induction false} Round(cfg: Config, s: string, partial: bool, cursor: nat, prefix: string, m: Msg,
                                 section: Section, at: nat, scan: TagScan)
    requires cfg.endTag != "" && PrefixFits(cfg, prefix) && Sees(cfg, s, cursor, section.reasoning, at, scan)
    ensures cursor <= |s| && (scan.Tag? ==> at + |cfg.startTag| <= |s|)
    ensures Blocks(cfg, s, partial, cursor, prefix, m)
         == if scan.Tag? then Blocks(cfg, s, partial, at + |cfg.startTag|, TagPrefix(cfg), WithSection(cfg, m, prefix, section))
            else Outcome(true, at, WithSection(cfg, m, prefix, section))
  {
    hide Blocks, Find, ScanTag, Handled, PendingAt, PrefixFits, WithSection, TagPrefix;
    HandledSection(cfg, m, prefix, section);
    ClosedBlock(cfg, s, partial, cursor, prefix, m, cursor + |section.reasoning|, scan);
    if scan.Tag? {
      PrefixAtTag(cfg, s, at, Handled(cfg, m, prefix, section.reasoning, true).1);
    }
  }

  lemma {:induction false} SeesSection(cfg: Config, open: string, section: Section, rest: string) returns (scan: TagScan)
    requires GoodTags(cfg) && WellFormedSection(cfg, section) && Follows(rest, cfg.startTag)
    ensures scan.Tag? <==> StartsWithTag(rest, cfg.startTag)
    ensures var s := open + (section.reasoning + cfg.endTag) + section.gap + rest;
            Sees(cfg, s, |open|, section.reasoning, |s| - |rest|, scan)
  {
    hide *;
    Tags(cfg);
    SectionFacts(cfg, section);
    var closed := open + (section.reasoning + cfg.endTag);
    SectionSeen(open, section.reasoning, cfg.endTag, section.gap, rest);
    scan := BehindSection(closed, section.gap, rest, cfg.startTag);
    var s := open + (section.reasoning + cfg.endTag) + section.gap + rest;
    SeesBoth(cfg, s, |open|, section.reasoning, |s| - |rest|, scan);
  }

  lemma SeesBoth(cfg: Config, s: string, cursor: nat, r: string, at: nat, scan: TagScan)
    requires SeesText(s, cursor, r, cfg.endTag)
    requires ScanTag(s, cursor + |r| + |cfg.endTag|, cfg.startTag) == scan && SeesBehind(s, at, scan, cfg.startTag)
    ensures Sees(cfg, s, cursor, r, at, scan)
  {
  }

  lemma {:induction false} BlocksOfTranscript(cfg: Config, pre: string, sections: seq<Section>, answer: string,
                                              partial: bool, m: Msg)
    requires GoodTags(cfg) && WellFormed(cfg, sections, answer) && sections != []
    ensures Blocks(cfg, pre + Render(cfg, sections, answer), partial, |pre| + |cfg.startTag|, TagPrefix(cfg), m)
         == Outcome(true, |pre| + |Render(cfg, sections, answer)| - |answer|, WithSections(cfg, m, sections))
    decreases |sections|, 0
  {
    hide *;
    var open := pre + cfg.startTag;
    RenderCons(cfg, pre, sections, answer);
    MessageCons(cfg, m, sections);
    FittingPrefixes(cfg);
    BlocksOfOpened(cfg, open, sections[0], sections[1..], answer, partial, m, TagPrefix(cfg));
    assert |open| == |pre| + |cfg.startTag|;
  }

  /** The loop from inside the first section. */
  lemma {:induction false} BlocksOfOpened(cfg: Config, open: string, head: Section, tail: seq<Section>, answer: string,
                                          partial: bool, m: Msg, prefix: string)
    requires GoodTags(cfg) && WellFormedSection(cfg, head) && WellFormed(cfg, tail, answer)
    requires PrefixFits(cfg, prefix)
    ensures var s := open + (head.reasoning + cfg.endTag) + head.gap + Render(cfg, tail, answer);
      Blocks(cfg, s, partial, |open|, prefix, m)
      == Outcome(true, |s| - |answer|, WithSections(cfg, WithSection(cfg, m, prefix, head), tail))
    decreases |tail|, 1
  {
    hide *;
    if tail == [] {
      LastSection(cfg, open, head, answer, partial, m, prefix);
    } else {
      EarlierSection(cfg, open, head, tail, answer, partial, m, prefix);
      var next := open + (head.reasoning + cfg.endTag) + head.gap;
      BlocksOfTranscript(cfg, next, tail, answer, partial, WithSection(cfg, m, prefix, head));
    }
  }

  /** One round of the loop over a closed section. */
  lemma {:induction false} SectionStep(cfg: Config, open: string, section: Section, rest: string, partial: bool, m: Msg,
                                       prefix: string)
    requires GoodTags(cfg) && WellFormedSection(cfg, section) && Follows(rest, cfg.startTag)
    requires PrefixFits(cfg, prefix)
    ensures StartsWithTag(rest, cfg.startTag) ==> |rest| >= |cfg.startTag|
    ensures var s := open + (section.reasoning + cfg.endTag) + section.gap + rest;
      Blocks(cfg, s, partial, |open|, prefix, m)
      == if StartsWithTag(rest, cfg.startTag)
         then Blocks(cfg, s, partial, |s| - |rest| + |cfg.startTag|, TagPrefix(cfg), WithSection(cfg, m, prefix, section))
         else Outcome(true, |s| - |rest|, WithSection(cfg, m, prefix, section))
  {
    hide *;
    Tags(cfg);
    TagFits(rest, cfg.startTag);
    var scan := SeesSection(cfg, open, section, rest);
    var s := open + (section.reasoning + cfg.endTag) + section.gap + rest;
    Round(cfg, s, partial, |open|, prefix, m, section, |s| - |rest|, scan);
  }

  lemma {:induction false} LastSection(cfg: Config, open: string, head: Section, answer: string, partial: bool, m: Msg,
                                       prefix: string)
    requires GoodTags(cfg) && WellFormedSection(cfg, head) && WellFormed(cfg, [], answer)
    requires PrefixFits(cfg, prefix)
    ensures var s := open + (head.reasoning + cfg.endTag) + head.gap + Render(cfg, [], answer);
      Blocks(cfg, s, partial, |open|, prefix, m)
      == Outcome(true, |s| - |answer|, WithSections(cfg, WithSection(cfg, m, prefix, head), []))
  {
    hide *;
    Tags(cfg);
    RenderStarts(cfg, [], answer);
    NoSections(cfg, answer);
    WithNone(cfg, WithSection(cfg, m, prefix, head));
    SectionStep(cfg, open, head, answer, partial, m, prefix);
  }

  lemma {:induction false} EarlierSection(cfg: Config, open: string, head: Section, tail: seq<Section>, answer: string,
                                          partial: bool, m: Msg, prefix: string)
    requires GoodTags(cfg) && WellFormedSection(cfg, head) && WellFormed(cfg, tail, answer) && tail != []
    requires PrefixFits(cfg, prefix)
    ensures |cfg.startTag| <= |Render(cfg, tail, answer)|
    ensures var rest := Render(cfg, tail, answer); var s := open + (head.reasoning + cfg.endTag) + head.gap + rest;
      Blocks(cfg, s, partial, |open|, prefix, m)
      == Blocks(cfg, s, partial, |s| - |rest| + |cfg.startTag|, TagPrefix(cfg), WithSection(cfg, m, prefix, head))
  {
    hide *;
    Tags(cfg);
    RenderStarts(cfg, tail, answer);
    SectionStep(cfg, open, head, Render(cfg, tail, answer), partial, m, prefix);
  }

  lemma {:induction false} RenderCons(cfg: Config, pre: string, sections: seq<Section>, answer: string)
    requires WellFormed(cfg, sections, answer) && sections != []
    ensures WellFormed(cfg, sections[1..], answer) && WellFormedSection(cfg, sections[0])
    ensures pre + Render(cfg, sections, answer)
         == pre + cfg.startTag + (sections[0].reasoning + cfg.endTag) + sections[0].gap + Render(cfg, sections[1..], answer)
    ensures sections[1..] == [] ==> Render(cfg, sections[1..], answer) == answer
    ensures answer != "" ==> !TagAt(answer, 0, cfg.startTag)
  {
    hide WellFormedSection, TagAt, IsSpace;
    var a, b, c, rest := cfg.startTag, sections[0].reasoning + cfg.endTag, sections[0].gap, Render(cfg, sections[1..], answer);
    assert pre + (a + b + c + rest) == pre + a + b + c + rest;
  }

  lemma {:induction false} MessageCons(cfg: Config, m: Msg, sections: seq<Section>)
    requires sections != []
    ensures WithSections(cfg, WithSection(cfg, m, TagPrefix(cfg), sections[0]), sections[1..]) == WithSections(cfg, m, sections)
  {
    hide Framed, Thought;
    var frame, thought := Framed(cfg, sections[0].reasoning), Thought(cfg, TagPrefix(cfg), sections[0].reasoning);
    assert m.content + frame + Frames(cfg, sections[1..]) == m.content + (frame + Frames(cfg, sections[1..]));
    assert m.reasoning + thought + Thoughts(cfg, sections[1..]) == m.reasoning + (thought + Thoughts(cfg, sections[1..]));
  }

  lemma ReasoningAtTag(cfg: Config, s: string, partial: bool, at: nat)
    requires cfg.syntax.format != NoReasoning && cfg.endTag != "" && ScanTag(s, 0, cfg.startTag) == Tag(at)
    requires at + |cfg.startTag| <= |s| && s[at..at + |cfg.startTag|] == cfg.startTag
    ensures Reasoning(cfg, s, partial, 0, EMPTY_MSG)
         == Blocks(cfg, s, partial, at + |cfg.startTag|, TagPrefix(cfg), Msg(s[0..at], ""))
  {
    hide Blocks, ScanTag;
    PrefixAtTag(cfg, s, at, "");
    assert "" + s[0..at] == s[0..at];
  }

  lemma ReasoningForced(cfg: Config, s: string, partial: bool, at: nat)
    requires cfg.syntax.format != NoReasoning && cfg.endTag != "" && ScanTag(s, 0, cfg.startTag) == Other(at)
    requires cfg.syntax.thinkingForcedOpen
    ensures Reasoning(cfg, s, partial, 0, EMPTY_MSG) == Blocks(cfg, s, partial, at, "", EMPTY_MSG)
  {
    hide Blocks, ScanTag;
  }

  lemma NoReasoningFound(cfg: Config, s: string, partial: bool)
    requires cfg.endTag != "" && !cfg.syntax.thinkingForcedOpen
    requires ScanTag(s, 0, cfg.startTag).AtEnd? || ScanTag(s, 0, cfg.startTag).Other?
    ensures Reasoning(cfg, s, partial, 0, EMPTY_MSG) == Outcome(false, 0, EMPTY_MSG)
  {
    hide Blocks, ScanTag;
  }

  /** What the scan for the first section finds. */
  lemma {:induction false} FirstScan(cfg: Config, lead: string, sections: seq<Section>, answer: string)
    requires GoodTags(cfg) && WellFormed(cfg, sections, answer) && Blank(lead, 0, |lead|)
    ensures var found := ScanTag(lead + Render(cfg, sections, answer), 0, cfg.startTag);
            if sections == [] then found.AtEnd? || found.Other? else found == Tag(|lead|)
  {
    hide ScanTag, TagAt, WellFormed, Render, IsSpace;
    var rest := Render(cfg, sections, answer);
    RenderStarts(cfg, sections, answer);
    assert "" + lead + rest == lead + rest;
    ScanInside("", lead, rest, cfg.startTag);
    if sections == [] {
      NoSections(cfg, answer);
    }
  }

  lemma {:induction false} RenderSplit(cfg: Config, sections: seq<Section>, answer: string)
    requires sections != []
    ensures Render(cfg, sections, answer)
         == cfg.startTag + ((sections[0].reasoning + cfg.endTag) + sections[0].gap + Render(cfg, sections[1..], answer))
  {
    var a, b, c, rest := cfg.startTag, sections[0].reasoning + cfg.endTag, sections[0].gap, Render(cfg, sections[1..], answer);
    hide *;
    assert a + b + c + rest == a + (b + c + rest);
  }

  lemma WithOnlyLead(cfg: Config, lead: string, sections: seq<Section>)
    ensures WithSections(cfg, Msg(lead, ""), sections) == Msg(lead + Frames(cfg, sections), Thoughts(cfg, sections))
  {
    assert "" + Thoughts(cfg, sections) == Thoughts(cfg, sections);
  }

  /** A first section starts with its tag. */
  lemma {:induction false} FirstTag(cfg: Config, lead: string, sections: seq<Section>, answer: string)
    requires sections != []
    ensures var s := lead + Render(cfg, sections, answer);
            s[0..|lead|] == lead && |lead| + |cfg.startTag| <= |s| && s[|lead|..|lead| + |cfg.startTag|] == cfg.startTag
  {
    var tag := cfg.startTag;
    var behind := (sections[0].reasoning + cfg.endTag) + sections[0].gap + Render(cfg, sections[1..], answer);
    RenderSplit(cfg, sections, answer);
    hide *;
    assert lead + (tag + behind) == lead + tag + behind;
  }

  lemma {:induction false} ReasoningOfSections(cfg: Config, lead: string, sections: seq<Section>, answer: string, partial: bool)
    requires GoodTags(cfg) && WellFormed(cfg, sections, answer) && Blank(lead, 0, |lead|) && sections != []
    requires cfg.syntax.format != NoReasoning && cfg.endTag != ""
    ensures var s := lead + Render(cfg, sections, answer);
      Reasoning(cfg, s, partial, 0, EMPTY_MSG)
      == Outcome(true, |s| - |answer|, Msg(lead + Frames(cfg, sections), Thoughts(cfg, sections)))
  {
    hide *;
    var s := lead + Render(cfg, sections, answer);
    FirstScan(cfg, lead, sections, answer);
    FirstTag(cfg, lead, sections, answer);
    ReasoningAtTag(cfg, s, partial, |lead|);
    BlocksOfTranscript(cfg, lead, sections, answer, partial, Msg(lead, ""));
    assert WithSections(cfg, Msg(lead, ""), sections) == Msg(lead + Frames(cfg, sections), Thoughts(cfg, sections)) by {
      WithOnlyLead(cfg, lead, sections);
    }
  }

  lemma {:induction false} ParseOfSections(cfg: Config, lead: string, sections: seq<Section>, answer: string, partial: bool)
    requires GoodTags(cfg) && WellFormed(cfg, sections, answer) && Blank(lead, 0, |lead|) && sections != []
    requires cfg.syntax.format != NoReasoning
    ensures Parse(cfg, lead + Render(cfg, sections, answer), partial)
         == Msg(lead + Frames(cfg, sections) + answer, Thoughts(cfg, sections))
  {
    hide *;
    Tags(cfg);
    var rest := Render(cfg, sections, answer);
    ReasoningOfSections(cfg, lead, sections, answer, partial);
    RenderEnds(cfg, sections, answer);
    ParseBehind(cfg, lead, rest, answer, partial, Msg(lead + Frames(cfg, sections), Thoughts(cfg, sections)));
  }

  lemma ParseWithoutReasoning(cfg: Config, s: string, partial: bool)
    requires cfg.endTag != "" && Reasoning(cfg, s, partial, 0, EMPTY_MSG) == Outcome(false, 0, EMPTY_MSG)
    ensures Parse(cfg, s, partial) == Msg(s, "")
  {
    hide Reasoning;
    assert "" + s[0..] == s;
  }

  lemma {:induction false} ParseOfPlain(cfg: Config, lead: string, answer: string, partial: bool)
    requires GoodTags(cfg) && WellFormed(cfg, [], answer) && Blank(lead, 0, |lead|) && cfg.endTag != ""
    requires !cfg.syntax.thinkingForcedOpen
    ensures Parse(cfg, lead + answer, partial) == Msg(lead + answer, "")
  {
    hide *;
    NoSections(cfg, answer);
    FirstScan(cfg, lead, [], answer);
    NoReasoningFound(cfg, lead + answer, partial);
    ParseWithoutReasoning(cfg, lead + answer, partial);
  }

  lemma {:induction false} ParseOfAnswer(cfg: Config, lead: string, answer: string, partial: bool)
    requires GoodTags(cfg) && WellFormed(cfg, [], answer) && Blank(lead, 0, |lead|) && cfg.endTag != ""
    requires !cfg.syntax.thinkingForcedOpen
    ensures Parse(cfg, lead + Render(cfg, [], answer), partial) == Msg(lead + Frames(cfg, []) + answer, Thoughts(cfg, []))
  {
    hide *;
    ParseOfPlain(cfg, lead, answer, partial);
    PlainText(cfg, lead, answer);
  }

  lemma PlainText(cfg: Config, lead: string, answer: string)
    ensures lead + Render(cfg, [], answer) == lead + answer == lead + Frames(cfg, []) + answer
    ensures Thoughts(cfg, []) == ""
  {
    assert lead + "" == lead;
  }

  /** The rest behind the reasoning is content. */
  lemma ParseGoesOn(cfg: Config, s: string, partial: bool, o: Outcome)
    requires cfg.endTag != "" && Reasoning(cfg, s, partial, 0, EMPTY_MSG) == o
    ensures o.pos <= |s| && Parse(cfg, s, partial) == Msg(o.msg.content + s[o.pos..], o.msg.reasoning)
  {
    hide Reasoning;
  }

  /** An answer behind the reasoning is content. */
  lemma {:induction false} ParseBehind(cfg: Config, lead: string, rest: string, answer: string, partial: bool, m: Msg)
    requires cfg.endTag != "" && |rest| >= |answer| && rest[|rest| - |answer|..] == answer
    requires Reasoning(cfg, lead + rest, partial, 0, EMPTY_MSG) == Outcome(true, |lead + rest| - |answer|, m)
    ensures Parse(cfg, lead + rest, partial) == Msg(m.content + answer, m.reasoning)
  {
    hide *;
    ParseGoesOn(cfg, lead + rest, partial, Outcome(true, |lead + rest| - |answer|, m));
    EndsAlike(lead, rest, answer);
  }

  /** With reasoning extraction on, a transcript is taken apart exactly: the stripped sections are the
      reasoning, or framed content, and the leading whitespace and the answer are content. Only a text
      without any section needs a syntax that is not forced open. */
  lemma {:induction false} TranscriptParses(cfg: Config, lead: string, sections: seq<Section>, answer: string, partial: bool)
    requires GoodTags(cfg) && WellFormed(cfg, sections, answer) && Blank(lead, 0, |lead|)
    requires cfg.syntax.format != NoReasoning
    requires sections == [] ==> !cfg.syntax.thinkingForcedOpen
    ensures Parse(cfg, lead + Render(cfg, sections, answer), partial)
         == Msg(lead + Frames(cfg, sections) + answer, Thoughts(cfg, sections))
  {
    hide *;
    Tags(cfg);
    if sections == [] {
      ParseOfAnswer(cfg, lead, answer, partial);
    } else {
      ParseOfSections(cfg, lead, sections, answer, partial);
    }
  }

  /** The text of a first section whose start tag the prompt already held. */
  function Opened(cfg: Config, first: Section, sections: seq<Section>, answer: string): (s: string)
    requires cfg.endTag != ""
    ensures s != ""
  {
    "" + (first.reasoning + cfg.endTag) + first.gap + Render(cfg, sections, answer)
  }

  lemma {:induction false} OpenedInside(cfg: Config, lead: string, first: Section, sections: seq<Section>, answer: string)
    requires cfg.endTag != ""
    ensures var rest := Opened(cfg, first, sections, answer);
            lead + rest == lead + (first.reasoning + cfg.endTag) + first.gap + Render(cfg, sections, answer) &&
            |rest| >= |answer| && rest[|rest| - |answer|..] == answer
  {
    hide *;
    OpenedIs(cfg, first, sections, answer);
    RenderEnds(cfg, sections, answer);
    Flattened(lead, first.reasoning + cfg.endTag, first.gap, Render(cfg, sections, answer));
    EndsAlike("" + (first.reasoning + cfg.endTag) + first.gap, Render(cfg, sections, answer), answer);
  }

  lemma OpenedIs(cfg: Config, first: Section, sections: seq<Section>, answer: string)
    requires cfg.endTag != ""
    ensures Opened(cfg, first, sections, answer)
         == "" + (first.reasoning + cfg.endTag) + first.gap + Render(cfg, sections, answer)
  {
    hide Render;
  }

  lemma Flattened(lead: string, a: string, b: string, c: string)
    ensures lead + ("" + a + b + c) == lead + a + b + c
  {
    assert "" + a == a;
  }

  /** When thinking is forced open and the text begins inside the first section, leading whitespace is
      dropped, and that section goes without the start tag that the others put in front of theirs. */
  lemma {:induction false} ForcedTranscriptParses(cfg: Config, lead: string, first: Section, sections: seq<Section>, answer: string,
                               partial: bool)
    requires GoodTags(cfg) && WellFormedSection(cfg, first) && WellFormed(cfg, sections, answer) && Blank(lead, 0, |lead|)
    requires cfg.syntax.format != NoReasoning && cfg.syntax.thinkingForcedOpen
    requires var rest := Opened(cfg, first, sections, answer); !IsSpace(rest[0]) && !TagAt(rest, 0, cfg.startTag)
    ensures Parse(cfg, lead + Opened(cfg, first, sections, answer), partial)
         == Msg(Framed(cfg, first.reasoning) + Frames(cfg, sections) + answer,
                Thought(cfg, "", first.reasoning) + Thoughts(cfg, sections))
  {
    hide *;
    Tags(cfg);
    ReasoningOfOpened(cfg, lead, first, sections, answer, partial);
    ParseOfOpened(cfg, lead, first, sections, answer, partial);
    FromNothing(cfg, first, sections);
  }

  lemma {:induction false} ParseOfOpened(cfg: Config, lead: string, first: Section, sections: seq<Section>, answer: string, partial: bool)
    requires cfg.endTag != ""
    requires var s := lead + Opened(cfg, first, sections, answer);
      Reasoning(cfg, s, partial, 0, EMPTY_MSG)
      == Outcome(true, |s| - |answer|, WithSections(cfg, WithSection(cfg, EMPTY_MSG, "", first), sections))
    ensures var m := WithSections(cfg, WithSection(cfg, EMPTY_MSG, "", first), sections);
      Parse(cfg, lead + Opened(cfg, first, sections, answer), partial) == Msg(m.content + answer, m.reasoning)
  {
    hide *;
    OpenedInside(cfg, lead, first, sections, answer);
    ParseBehind(cfg, lead, Opened(cfg, first, sections, answer), answer, partial,
      WithSections(cfg, WithSection(cfg, EMPTY_MSG, "", first), sections));
  }

  lemma {:induction false} ReasoningOfOpened(cfg: Config, lead: string, first: Section, sections: seq<Section>, answer: string, partial: bool)
    requires GoodTags(cfg) && WellFormedSection(cfg, first) && WellFormed(cfg, sections, answer) && Blank(lead, 0, |lead|)
    requires cfg.syntax.format != NoReasoning && cfg.syntax.thinkingForcedOpen
    requires var rest := Opened(cfg, first, sections, answer); !IsSpace(rest[0]) && !TagAt(rest, 0, cfg.startTag)
    requires cfg.endTag != ""
    ensures var s := lead + Opened(cfg, first, sections, answer);
      Reasoning(cfg, s, partial, 0, EMPTY_MSG)
      == Outcome(true, |s| - |answer|, WithSections(cfg, WithSection(cfg, EMPTY_MSG, "", first), sections))
  {
    hide *;
    var rest := Opened(cfg, first, sections, answer);
    assert "" + lead + rest == lead + rest;
    ScanInside("", lead, rest, cfg.startTag);
    ReasoningForced(cfg, lead + rest, partial, |lead|);
    OpenedInside(cfg, lead, first, sections, answer);
    FittingPrefixes(cfg);
    BlocksOfOpened(cfg, lead, first, sections, answer, partial, EMPTY_MSG, "");
  }

  lemma FromNothing(cfg: Config, first: Section, sections: seq<Section>)
    ensures WithSections(cfg, WithSection(cfg, EMPTY_MSG, "", first), sections)
         == Msg(Framed(cfg, first.reasoning) + Frames(cfg, sections), Thought(cfg, "", first.reasoning) + Thoughts(cfg, sections))
  {
    hide Framed, Thought, Frames, Thoughts;
    assert "" + Framed(cfg, first.reasoning) == Framed(cfg, first.reasoning);
    assert "" + Thought(cfg, "", first.reasoning) == Thought(cfg, "", first.reasoning);
  }

  lemma NoSections(cfg: Config, answer: string)
    requires WellFormed(cfg, [], answer)
    ensures Render(cfg, [], answer) == answer && Thoughts(cfg, []) == Frames(cfg, []) == ""
    ensures answer != "" ==> !TagAt(answer, 0, cfg.startTag)
  {
  }
}
