/** The streaming chat-message parser: a cursor over the text generated so far, re-run from
    scratch every time the text grows. */
module ChatParser {
  import opened Wrappers
  import opened TextSearch

  datatype ReasoningFormat = NoReasoning | Auto | DeepseekLegacy | Deepseek

  datatype Syntax = Syntax(format: ReasoningFormat, reasoningInContent: bool, thinkingForcedOpen: bool)

  /** The two strings of a parsed message. */
  datatype Msg = Msg(content: string, reasoning: string)

  const EMPTY_MSG := Msg("", "")

  /** What a parse depends on besides the text: the syntax and the pair of think tags. */
  datatype Config = Config(syntax: Syntax, startTag: string, endTag: string)

  function ContentOnly(syntax: Syntax): Config {
    Config(syntax, "<think>", "</think>")
  }

  // --- What the methods compute ------------------------------------------------------------

  function OpeningTag(cfg: Config): string {
    if cfg.syntax.format == Deepseek then "<think>" else cfg.startTag
  }

  function ClosingTag(cfg: Config): string {
    if cfg.syntax.format == Deepseek then "</think>" else cfg.endTag
  }

  /** The message and the pending reasoning prefix after one reasoning section. */
  function Handled(cfg: Config, m: Msg, pending: string, text: string, closed: bool): (Msg, string) {
    var stripped := Strip(text);
    if stripped == "" then (m, pending)
    else if cfg.syntax.reasoningInContent then
      (m.(content := m.content + OpeningTag(cfg) + stripped + (if closed then ClosingTag(cfg) else "")), pending)
    else (m.(reasoning := m.reasoning + pending + stripped), "")
  }

  function PendingAt(cfg: Config, s: string, prefixPos: nat, pending: string): string {
    if !cfg.syntax.thinkingForcedOpen || cfg.syntax.reasoningInContent then pending
    else if prefixPos + |cfg.startTag| > |s| then ""
    else s[prefixPos..prefixPos + |cfg.startTag|]
  }

  /** How much of `tag` can be compared at `i`. */
  function Comparable(s: string, i: nat, tag: string): nat
    requires i <= |s|
  {
    if |tag| <= |s| - i then |tag| else |s| - i
  }

  /** `s` continues at `i` with `tag`, or ends there inside `tag`. */
  predicate TagAt(s: string, i: nat, tag: string)
    requires i <= |s|
  {
    s[i..i + Comparable(s, i, tag)] == tag[..Comparable(s, i, tag)]
  }

  /** What follows a stretch of whitespace: nothing, a tag cut short by the end of the text,
      a whole tag at `at`, or other text from `at` on. */
  datatype TagScan = AtEnd | CutShort | Tag(at: nat) | Other(at: nat)

  function ScanTag(s: string, from: nat, tag: string): (r: TagScan)
    requires from <= |s|
    ensures r.Tag? ==> from <= r.at && r.at + |tag| <= |s|
    ensures r.Other? ==> from <= r.at < |s|
  {
    var at := SkipSpaces(s, from);
    if at == |s| then AtEnd
    else if TagAt(s, at, tag) then
      if Comparable(s, at, tag) < |tag| then CutShort else Tag(at)
    else Other(at)
  }

  datatype Outcome = Outcome(found: bool, pos: nat, msg: Msg)

  /** The loop over consecutive think blocks, entered with `cursor` just behind a start tag. */
  function Blocks(cfg: Config, s: string, partial: bool, cursor: nat, pending: string, m: Msg): (o: Outcome)
    requires cursor <= |s| && cfg.endTag != ""
    ensures o.found && o.pos <= |s|
    decreases |s| - cursor
  {
    if cursor == |s| then Outcome(true, |s|, m) else
    match Find(s, cfg.endTag, cursor)
    case None => Outcome(true, |s|, OpenBlock(cfg, s, partial, cursor, pending, m))
    case Some(endPos) =>
      var (m', pending') := Handled(cfg, m, pending, s[cursor..endPos], true);
      match ScanTag(s, endPos + |cfg.endTag|, cfg.startTag)
      case Tag(at) => Blocks(cfg, s, partial, at + |cfg.startTag|, PendingAt(cfg, s, at, pending'), m')
      case Other(at) => Outcome(true, at, m')
      case _ => Outcome(true, |s|, m')
  }

  /** One round of the loop over a block whose end tag has come. */
  lemma ClosedBlock(cfg: Config, s: string, partial: bool, cursor: nat, pending: string, m: Msg, endPos: nat, scan: TagScan)
    requires cfg.endTag != "" && cursor <= |s| && Find(s, cfg.endTag, cursor) == Some(endPos)
    requires ScanTag(s, endPos + |cfg.endTag|, cfg.startTag) == scan
    ensures cursor <= endPos <= endPos + |cfg.endTag| <= |s|
    ensures var handled := Handled(cfg, m, pending, s[cursor..endPos], true);
      Blocks(cfg, s, partial, cursor, pending, m)
      == if scan.Tag? then Blocks(cfg, s, partial, scan.at + |cfg.startTag|, PendingAt(cfg, s, scan.at, handled.1), handled.0)
         else Outcome(true, if scan.Other? then scan.at else |s|, handled.0)
  {
    hide Find, ScanTag, PendingAt, Handled;
  }

  /** The last round, at the end of the text or over a block that is still open. */
  lemma LastBlock(cfg: Config, s: string, partial: bool, cursor: nat, pending: string, m: Msg)
    requires cfg.endTag != "" && cursor <= |s|
    ensures cursor == |s| ==> Blocks(cfg, s, partial, cursor, pending, m) == Outcome(true, |s|, m)
    ensures cursor < |s| && Find(s, cfg.endTag, cursor).None? ==>
      Blocks(cfg, s, partial, cursor, pending, m) == Outcome(true, |s|, OpenBlock(cfg, s, partial, cursor, pending, m))
  {
    hide Find, OpenBlock;
  }

  /** The message when the end tag has not come yet: a possible beginning of it is withheld. */
  function OpenBlock(cfg: Config, s: string, partial: bool, cursor: nat, pending: string, m: Msg): Msg
    requires cursor <= |s|
  {
    var partialOff := PartialStop(s[cursor..], cfg.endTag);
    var reasoningEnd := if partialOff.None? then |s| else cursor + partialOff.value;
    if reasoningEnd > cursor
    then Handled(cfg, m, pending, s[cursor..reasoningEnd], partialOff.None? && !partial).0
    else m
  }

  /** `try_parse_reasoning` started at `pos` with message `m`. */
  function Reasoning(cfg: Config, s: string, partial: bool, pos: nat, m: Msg): (o: Outcome)
    requires pos <= |s| && cfg.endTag != ""
    ensures o.pos <= |s|
  {
    if cfg.syntax.format == NoReasoning then Outcome(false, pos, m) else
    match ScanTag(s, pos, cfg.startTag)
    case AtEnd =>
      if cfg.syntax.thinkingForcedOpen then
        Outcome(true, |s|, if pos < |s| then Handled(cfg, m, "", s[pos..], !partial).0 else m)
      else Outcome(false, pos, m)
    case CutShort => Outcome(true, |s|, m)
    case Tag(at) =>
      Blocks(cfg, s, partial, at + |cfg.startTag|, PendingAt(cfg, s, at, ""),
        m.(content := m.content + s[pos..at]))
    case Other(at) =>
      if cfg.syntax.thinkingForcedOpen then Blocks(cfg, s, partial, at, "", m)
      else Outcome(false, pos, m)
  }

  /** The message of a content-only parse: reasoning first, the rest is content. */
  function Parse(cfg: Config, s: string, partial: bool): Msg
    requires cfg.endTag != ""
  {
    var o := Reasoning(cfg, s, partial, 0, EMPTY_MSG);
    o.msg.(content := o.msg.content + s[o.pos..])
  }

  datatype Found = Found(prelude: string, begin: nat, end: nat)

  /** `try_find_literal` from `pos`. The overlap search looks at the whole text and its answer
      is dropped when it lies before `pos`. */
  function LiteralFound(s: string, partial: bool, pos: nat, literal: string): (r: Option<Found>)
    requires pos <= |s|
    ensures r.Some? ==> pos <= r.value.begin <= r.value.end <= |s| && r.value.prelude == s[pos..r.value.begin]
  {
    match Find(s, literal, pos)
    case Some(i) => Some(Found(s[pos..i], i, i + |literal|))
    case None =>
      if partial && PartialStop(s, literal).Some? && PartialStop(s, literal).value >= pos
      then Some(Found(s[pos..PartialStop(s, literal).value], PartialStop(s, literal).value, |s|))
      else None
  }

  // --- The parser object -------------------------------------------------------------------

  class ChatMsgParser {
    const input: string
    const isPartial: bool
    const syntax: Syntax
    var pos: nat
    var content: string
    var reasoning: string

    ghost predicate Valid()
      reads this
    {
      pos <= |input|
    }

    function Result(): Msg
      reads this
    {
      Msg(content, reasoning)
    }

    constructor (input: string, isPartial: bool, syntax: Syntax)
      ensures Valid() && pos == 0 && Result() == EMPTY_MSG
      ensures this.input == input && this.isPartial == isPartial && this.syntax == syntax
    {
      this.input, this.isPartial, this.syntax := input, isPartial, syntax;
      pos, content, reasoning := 0, "", "";
    }

    method AddContent(text: string)
      modifies this`content
      ensures content == old(content) + text
    {
      content := content + text;
    }

    method AddReasoningContent(text: string)
      modifies this`reasoning
      ensures reasoning == old(reasoning) + text
    {
      reasoning := reasoning + text;
    }

    method ConsumeRest() returns (rest: string)
      requires Valid()
      modifies this`pos
      ensures Valid() && pos == |input| && rest == input[old(pos)..]
    {
      rest := input[pos..];
      pos := |input|;
    }

    method ConsumeSpaces() returns (consumed: bool)
      requires Valid()
      modifies this`pos
      ensures Valid() && pos == SkipSpaces(input, old(pos)) && consumed == (pos > old(pos))
    {
      consumed := false;
      while pos < |input| && IsSpace(input[pos])
        invariant old(pos) <= pos <= |input|
        invariant SkipSpaces(input, pos) == SkipSpaces(input, old(pos))
        invariant consumed == (pos > old(pos))
      {
        pos := pos + 1;
        consumed := true;
      }
    }

    method TryConsumeLiteral(literal: string) returns (ok: bool)
      requires Valid()
      modifies this`pos
      ensures Valid() && ok == Occurs(input, literal, old(pos))
      ensures pos == if ok then old(pos) + |literal| else old(pos)
    {
      var p := pos;
      for i := 0 to |literal|
        invariant p == pos + i <= |input|
        invariant input[pos..p] == literal[..i]
      {
        if p >= |input| {
          return false;
        }
        if input[p] != literal[i] {
          CharOfOccurrence(input, literal, pos, i);
          return false;
        }
        assert input[pos..p + 1] == input[pos..p] + [input[p]];
        p := p + 1;
      }
      assert literal[..|literal|] == literal;
      pos := p;
      ok := true;
    }

    method TryFindLiteral(literal: string) returns (r: Option<Found>)
      requires Valid()
      modifies this`pos
      ensures Valid() && r == LiteralFound(input, isPartial, old(pos), literal)
      ensures pos == if r.Some? then r.value.end else old(pos)
    {
      var idx := Find(input, literal, pos);
      if idx.Some? {
        var end := idx.value + |literal|;
        r := Some(Found(input[pos..idx.value], idx.value, end));
        pos := end;
        return;
      }
      if isPartial {
        idx := FindPartialStop(input, literal);
        if idx.Some? && idx.value >= pos {
          r := Some(Found(input[pos..idx.value], idx.value, |input|));
          pos := |input|;
          return;
        }
      }
      r := None;
    }

    /** The `handle_reasoning` closure, which also updates the pending prefix. */
    method HandleReasoning(cfg: Config, pending: string, text: string, closed: bool) returns (pending': string)
      requires cfg.syntax == syntax
      modifies this`content, this`reasoning
      ensures (Result(), pending') == Handled(cfg, old(Result()), pending, text, closed)
    {
      var stripped := StringStrip(text);
      pending' := pending;
      if stripped == "" {
        return;
      }
      assert reasoning + "" == reasoning;
      assert content + OpeningTag(cfg) + stripped + "" == content + OpeningTag(cfg) + stripped;
      if syntax.reasoningInContent {
        AddContent(if syntax.format == Deepseek then "<think>" else cfg.startTag);
        AddContent(stripped);
        if closed {
          AddContent(if syntax.format == Deepseek then "</think>" else cfg.endTag);
        }
      } else {
        if pending' != "" {
          AddReasoningContent(pending');
          pending' := "";
        }
        AddReasoningContent(stripped);
      }
    }

    method TryParseReasoning(startTag: string, endTag: string) returns (found: bool)
      requires Valid() && endTag != ""
      modifies this`pos, this`content, this`reasoning
      ensures Valid()
      ensures Outcome(found, pos, Result())
           == Reasoning(Config(syntax, startTag, endTag), input, isPartial, old(pos), old(Result()))
    {
      hide Handled, Find, SkipSpaces, Blocks, ScanTag, PendingAt, Strip;
      var pending := "";
      if syntax.format == NoReasoning {
        return false;
      }
      var cfg := Config(syntax, startTag, endTag);
      var savedPos, savedContent, savedReasoning := pos, content, reasoning;
      var scan := ScanForTag(startTag, pos);
      match scan
      case AtEnd =>
        pos, content, reasoning := savedPos, savedContent, savedReasoning;
        if syntax.thinkingForcedOpen {
          var rest := input[savedPos..];
          if rest != "" {
            pending := HandleReasoning(cfg, pending, rest, !isPartial);
          }
          pos := |input|;
          return true;
        }
        return false;
      case CutShort =>
        pos := |input|;
        return true;
      case Tag(at) =>
        assert at == pos ==> content + input[pos..at] == content;
        if at > pos {
          AddContent(input[pos..at]);
        }
        assert Result() == Msg(savedContent + input[savedPos..at], savedReasoning);
        pending := SetReasoningPrefix(cfg, at, pending);
        ParseBlocks(cfg, at + |startTag|, pending);
        return true;
      case Other(at) =>
        if syntax.thinkingForcedOpen {
          ParseBlocks(cfg, at, pending);
          return true;
        }
        pos, content, reasoning := savedPos, savedContent, savedReasoning;
        return false;
    }

    /** The loop of `try_parse_reasoning`, entered behind a start tag. */
    method ParseBlocks(cfg: Config, cursor0: nat, pending0: string)
      requires Valid() && cfg.syntax == syntax && cfg.endTag != "" && cursor0 <= |input|
      modifies this`pos, this`content, this`reasoning
      ensures Valid()
      ensures Outcome(true, pos, Result()) == Blocks(cfg, input, isPartial, cursor0, pending0, old(Result()))
    {
      hide Handled, Find, SkipSpaces, ScanTag, PendingAt, Strip, OpenBlock, Blocks;
      var cursor, pending := cursor0, pending0;
      ghost var goal := Blocks(cfg, input, isPartial, cursor, pending, Result());
      while true
        invariant cursor <= |input|
        invariant goal == Blocks(cfg, input, isPartial, cursor, pending, Result())
        decreases |input| - cursor
      {
        LastBlock(cfg, input, isPartial, cursor, pending, Result());
        if cursor >= |input| {
          pos := |input|;
          return;
        }
        var endPos := Find(input, cfg.endTag, cursor);
        if endPos.None? {
          ParseOpenBlock(cfg, cursor, pending);
          return;
        }
        assert endPos.value == cursor ==> input[cursor..endPos.value] == "";
        ClosedBlock(cfg, input, isPartial, cursor, pending, Result(), endPos.value,
          ScanTag(input, endPos.value + |cfg.endTag|, cfg.startTag));
        if endPos.value > cursor {
          pending := HandleReasoning(cfg, pending, input[cursor..endPos.value], true);
        } else {
          pending := HandleReasoning(cfg, pending, "", true);
        }
        var scan := ScanForTag(cfg.startTag, endPos.value + |cfg.endTag|);
        match scan
        case AtEnd =>
          pos := |input|;
          return;
        case CutShort =>
          pos := |input|;
          return;
        case Tag(at) =>
          pending := SetReasoningPrefix(cfg, at, pending);
          cursor := at + |cfg.startTag|;
        case Other(at) =>
          pos := at;
          return;
      }
    }

    /** The part of the loop for a block whose end tag has not come yet. */
    method ParseOpenBlock(cfg: Config, cursor: nat, pending: string)
      requires cfg.syntax == syntax && cursor <= |input|
      modifies this`pos, this`content, this`reasoning
      ensures pos == |input|
      ensures Result() == OpenBlock(cfg, input, isPartial, cursor, pending, old(Result()))
    {
      var partialOff := FindPartialStop(input[cursor..], cfg.endTag);
      var reasoningEnd := if partialOff.None? then |input| else cursor + partialOff.value;
      if reasoningEnd > cursor {
        var _ := HandleReasoning(cfg, pending, input[cursor..reasoningEnd], partialOff.None? && !isPartial);
      }
      pos := |input|;
    }

    /** The whitespace loop over the cursor and the comparison with the start tag behind it. */
    method ScanForTag(tag: string, from: nat) returns (r: TagScan)
      requires from <= |input|
      ensures r == ScanTag(input, from, tag)
    {
      var cursor := from;
      while cursor < |input| && IsSpace(input[cursor])
        invariant from <= cursor <= |input|
        invariant SkipSpaces(input, cursor) == SkipSpaces(input, from)
      {
        cursor := cursor + 1;
      }
      if cursor >= |input| {
        return AtEnd;
      }
      var remaining := |input| - cursor;
      var prefix := if |tag| <= remaining then |tag| else remaining;
      var hasTag := input[cursor..cursor + prefix] == tag[..prefix];
      if hasTag && prefix < |tag| {
        return CutShort;
      }
      r := if hasTag then Tag(cursor) else Other(cursor);
    }

    /** The `set_reasoning_prefix` closure. */
    method SetReasoningPrefix(cfg: Config, prefixPos: nat, pending: string) returns (pending': string)
      requires cfg.syntax == syntax
      ensures pending' == PendingAt(cfg, input, prefixPos, pending)
    {
      if !syntax.thinkingForcedOpen || syntax.reasoningInContent {
        return pending;
      }
      if prefixPos + |cfg.startTag| > |input| {
        return "";
      }
      pending' := input[prefixPos..prefixPos + |cfg.startTag|];
    }

    method ParseContentOnly()
      requires Valid() && pos == 0 && Result() == EMPTY_MSG
      modifies this`pos, this`content, this`reasoning
      ensures pos == |input| && Result() == Parse(ContentOnly(syntax), input, isPartial)
    {
      var _ := TryParseReasoning("<think>", "</think>");
      var rest := ConsumeRest();
      AddContent(rest);
    }
  }
}
