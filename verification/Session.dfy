/** A server stream: each chunk of generated text is appended, the whole text is parsed again,
    and only the difference to the last non-empty message is sent to the client. */
module Session {
  import opened Wrappers
  import opened TextSearch
  import opened ChatParser
  import opened Streaming

  /** The deltas of one `common_chat_msg_diff`; content-only parses have no tool calls. */
  datatype Diff = Diff(reasoningDelta: string, contentDelta: string)

  datatype DiffError = InvalidDiff(last: string, current: string)

  function StringDiff(last: string, current: string): Result<string, DiffError> {
    if last == "" then Ok(current)
    else if last <= current then Ok(current[|last|..])
    else if current <= last then Ok("")
    else Err(InvalidDiff(last, current))
  }

  function ComputeDiffs(prev: Msg, cur: Msg): Result<seq<Diff>, DiffError> {
    var reasoning :- if prev.reasoning == cur.reasoning then Ok([])
      else var d :- StringDiff(prev.reasoning, cur.reasoning); Ok([Diff(d, "")]);
    var content :- if prev.content == cur.content then Ok([])
      else var d :- StringDiff(prev.content, cur.content); Ok([Diff("", d)]);
    Ok(reasoning + content)
  }

  /** What a client holds after appending every delta it receives. */
  function Received(m: Msg, diffs: seq<Diff>): Msg
    decreases |diffs|
  {
    if diffs == [] then m
    else Received(Msg(m.content + diffs[0].contentDelta, m.reasoning + diffs[0].reasoningDelta), diffs[1..])
  }

  /** The message kept by the server and the differences it sends for the text so far. */
  function Update(cfg: Config, kept: Msg, text: string, partial: bool): (Msg, Result<seq<Diff>, DiffError>)
    requires cfg.endTag != ""
  {
    var m := Parse(cfg, text, partial);
    if m == EMPTY_MSG then (kept, Ok([])) else (m, ComputeDiffs(kept, m))
  }

  class TaskResultState {
    const syntax: Syntax
    var generatedText: string
    var chatMsg: Msg

    constructor (syntax: Syntax)
      ensures generatedText == "" && chatMsg == EMPTY_MSG && this.syntax == syntax
    {
      this.syntax := syntax;
      generatedText, chatMsg := "", EMPTY_MSG;
    }

    method UpdateChatMsg(textAdded: string, isPartial: bool) returns (diffs: Result<seq<Diff>, DiffError>)
      modifies this
      ensures generatedText == old(generatedText) + textAdded
      ensures (chatMsg, diffs) == Update(ContentOnly(syntax), old(chatMsg), generatedText, isPartial)
    {
      generatedText := generatedText + textAdded;
      var prev := chatMsg;
      var parser := new ChatMsgParser(generatedText, isPartial, syntax);
      parser.ParseContentOnly();
      var newMsg := parser.Result();
      diffs := Ok([]);
      if newMsg != EMPTY_MSG {
        chatMsg := newMsg;
        diffs := ComputeDiffs(prev, newMsg);
      }
    }
  }

  // --- Whole runs ------------------------------------------------------------------------------

  /** Server and client after some chunks. */
  datatype Stream = Stream(text: string, kept: Msg, client: Msg)

  const NEW_STREAM := Stream("", EMPTY_MSG, EMPTY_MSG)

  function Feed(cfg: Config, st: Stream, chunk: string, partial: bool): Result<Stream, DiffError>
    requires cfg.endTag != ""
  {
    var text := st.text + chunk;
    var (kept, answer) := Update(cfg, st.kept, text, partial);
    var diffs :- answer;
    Ok(Stream(text, kept, Received(st.client, diffs)))
  }

  /** All the chunks of a run; every one but the last comes while generation goes on. */
  function Run(cfg: Config, chunks: seq<string>, finished: bool): Result<Stream, DiffError>
    requires cfg.endTag != ""
  {
    if chunks == [] then Ok(NEW_STREAM) else
    var last := |chunks| - 1;
    var st :- Run(cfg, chunks[..last], false);
    Feed(cfg, st, chunks[last], !finished)
  }

  function Concat(chunks: seq<string>): string {
    if chunks == [] then "" else Concat(chunks[..|chunks| - 1]) + chunks[|chunks| - 1]
  }

  lemma DeltaReaches(last: string, current: string)
    requires last <= current
    ensures StringDiff(last, current).Ok? && last + StringDiff(last, current).value == current
  {
  }

  lemma ReceivedOne(m: Msg, d: Diff, rest: seq<Diff>)
    ensures Received(m, [d] + rest) == Received(Msg(m.content + d.contentDelta, m.reasoning + d.reasoningDelta), rest)
  {
    assert ([d] + rest)[1..] == rest;
  }

  /** Differences against a prefix bring the receiver to the new message. */
  lemma {:induction false} DiffsReach(prev: Msg, cur: Msg)
    requires Extends(prev, cur)
    ensures ComputeDiffs(prev, cur).Ok?
    ensures Received(prev, ComputeDiffs(prev, cur).value) == cur
  {
    hide StringDiff;
    DeltaReaches(prev.reasoning, cur.reasoning);
    DeltaReaches(prev.content, cur.content);
    var r, c := Diff(StringDiff(prev.reasoning, cur.reasoning).value, ""), Diff("", StringDiff(prev.content, cur.content).value);
    ReceivedOne(prev, r, []);
    ReceivedOne(prev, c, []);
    ReceivedOne(prev, r, [c]);
    ReceivedOne(Msg(prev.content, cur.reasoning), c, []);
    assert [c] + [] == [c] && [r] + [] == [r] && [] + [c] == [c];
    assert prev.content + "" == prev.content && prev.reasoning + "" == prev.reasoning && cur.reasoning + "" == cur.reasoning;
  }

  /** The kept message came from the partial parse of some earlier text. */
  ghost predicate Kept(cfg: Config, st: Stream, parsed: string)
    requires cfg.endTag != ""
  {
    parsed <= st.text && st.kept == Parse(cfg, parsed, true) && st.client == st.kept
  }

  lemma FeedKeeps(cfg: Config, st: Stream, parsed: string, chunk: string, final: bool)
    requires cfg.endTag != "" && Kept(cfg, st, parsed)
    ensures Feed(cfg, st, chunk, !final).Ok?
    ensures var r := Feed(cfg, st, chunk, !final).value; var m := Parse(cfg, st.text + chunk, !final);
            r.text == st.text + chunk && r.client == r.kept == if m == EMPTY_MSG then st.kept else m
  {
    hide Parse;
    var text := st.text + chunk;
    NeverRetracts(cfg, parsed, text, final);
    if Parse(cfg, text, !final) != EMPTY_MSG {
      if WhitespaceTakenBack(cfg, parsed, text) {
        CutShortIsEmpty(cfg, text, final);
      }
      DiffsReach(st.kept, Parse(cfg, text, !final));
    }
  }

  lemma CutShortIsEmpty(cfg: Config, text: string, final: bool)
    requires cfg.endTag != "" && cfg.syntax.format != NoReasoning
    requires ScanTag(text, 0, cfg.startTag).CutShort?
    ensures Parse(cfg, text, !final) == EMPTY_MSG
  {
  }

  /** The message a client should hold: the parse of the text so far, or, while that parse is
      empty, the last parse that was not. */
  function LastMessage(cfg: Config, chunks: seq<string>, finished: bool): Msg
    requires cfg.endTag != ""
  {
    if chunks == [] then EMPTY_MSG
    else if Parse(cfg, Concat(chunks), !finished) != EMPTY_MSG then Parse(cfg, Concat(chunks), !finished)
    else LastMessage(cfg, chunks[..|chunks| - 1], false)
  }

  /** No run is ever interrupted by an invalid difference, and a client that only appends what
      it is sent always holds the message of the whole text. */
  lemma RunDeliversMessage(cfg: Config, chunks: seq<string>, finished: bool)
    requires cfg.endTag != ""
    ensures Run(cfg, chunks, finished).Ok?
    ensures Run(cfg, chunks, finished).value.text == Concat(chunks)
    ensures Run(cfg, chunks, finished).value.client == LastMessage(cfg, chunks, finished)
  {
    hide Parse, Feed;
    if chunks != [] {
      var last := |chunks| - 1;
      var parsed := RunKeeps(cfg, chunks[..last]);
      FeedKeeps(cfg, Run(cfg, chunks[..last], false).value, parsed, chunks[last], finished);
    }
  }

  lemma {:induction false} RunKeeps(cfg: Config, chunks: seq<string>) returns (parsed: string)
    requires cfg.endTag != ""
    ensures Run(cfg, chunks, false).Ok?
    ensures Kept(cfg, Run(cfg, chunks, false).value, parsed)
    ensures Run(cfg, chunks, false).value.text == Concat(chunks)
    ensures Run(cfg, chunks, false).value.client == LastMessage(cfg, chunks, false)
  {
    if chunks == [] {
      assert Parse(cfg, "", true) == EMPTY_MSG by {
        assert SkipSpaces("", 0) == 0;
      }
      parsed := "";
    } else {
      hide Parse, Feed;
      var last := |chunks| - 1;
      parsed := RunKeeps(cfg, chunks[..last]);
      FeedKeeps(cfg, Run(cfg, chunks[..last], false).value, parsed, chunks[last], false);
      if Parse(cfg, Concat(chunks), true) != EMPTY_MSG {
        parsed := Concat(chunks);
      }
    }
  }
}
