/** The mapper that assembles the JSON text of tool arguments from parse events, one at a time. */
module JsonArguments {
  import opened TextSearch

  /** The tags the mapper acts on, in the order the syntax tree is visited. */
  datatype Node =
    | Reasoning(text: string)
    | Content(text: string)
    | ToolOpen
    | ToolName(text: string)
    | ArgOpen
    | ArgName(text: string)
    | StringValue(text: string)
    | JsonValue(text: string)
    | ArgClose
    | ToolClose
    | Other

  datatype ToolCall = ToolCall(name: string, arguments: string)

  // --- Text ----------------------------------------------------------------------------------------------

  /** `trim_trailing_space` without a limit. */
  function Trim(s: string): (r: string)
    ensures r <= s
  {
    s[..StripEnd(s, 0, |s|)]
  }

  method TrimTrailingSpace(s: string) returns (r: string)
    ensures r == Trim(s)
  {
    r := s;
    while r != "" && IsSpace(r[|r| - 1])
      invariant r <= s && StripEnd(s, 0, |r|) == StripEnd(s, 0, |s|)
      decreases |r|
    {
      r := r[..|r| - 1];
    }
    assert r == s[..|r|];
  }

  const HEX := "0123456789abcdef"

  /** How a JSON string literal writes one character. */
  function EscapeChar(c: char): (e: string)
    ensures e != ""
  {
    if c == '"' then "\\\""
    else if c == '\\' then "\\\\"
    else if c == 8 as char then "\\b"
    else if c == 12 as char then "\\f"
    else if c == '\n' then "\\n"
    else if c == '\r' then "\\r"
    else if c == '\t' then "\\t"
    else if c < ' ' then "\\u00" + [HEX[c as int / 16], HEX[c as int % 16]]
    else [c]
  }

  function Escape(s: string): string {
    if s == "" then "" else Escape(s[..|s| - 1]) + EscapeChar(s[|s| - 1])
  }

  /** The JSON text of a string. */
  function Dump(s: string): string {
    "\"" + Escape(s) + "\""
  }

  // --- The mapper ------------------------------------------------------------------------------------------

  datatype State = State(calls: seq<ToolCall>, open: bool, argCount: nat, needsClosingQuote: bool)

  predicate GoodState(st: State) {
    st.open ==> st.calls != []
  }

  function Arguments(st: State): string
    requires GoodState(st) && st.open
  {
    st.calls[|st.calls| - 1].arguments
  }

  function Append(st: State, text: string): (st': State)
    requires GoodState(st) && st.open
    ensures GoodState(st') && st'.open && Arguments(st') == Arguments(st) + text
    ensures st'.needsClosingQuote == st.needsClosingQuote && st'.argCount == st.argCount
  {
    var last := |st.calls| - 1;
    st.(calls := st.calls[last := st.calls[last].(arguments := st.calls[last].arguments + text)])
  }

  /** One event. A tool name needs an open tool call; the source does not check that. */
  function Step(st: State, node: Node): (st': State)
    requires GoodState(st) && (node.ToolName? ==> st.open)
    ensures GoodState(st') && (st.open ==> st'.open)
  {
    match node
    case ToolOpen => State(st.calls + [ToolCall("", "")], true, 0, st.needsClosingQuote)
    case ToolName(text) => st.(calls := st.calls[|st.calls| - 1 := ToolCall(text, "{")])
    case ArgOpen => st.(needsClosingQuote := false)
    case ArgName(text) =>
      if !st.open then st
      else Append(st, (if st.argCount > 0 then "," else "") + Dump(Trim(text)) + ":").(argCount := st.argCount + 1)
    case StringValue(text) =>
      if !st.open then st
      else Append(st, "\"" + Escape(Trim(text))).(needsClosingQuote := true)
    case ArgClose =>
      if st.open && st.needsClosingQuote then Append(st, "\"").(needsClosingQuote := false) else st
    case JsonValue(text) => if !st.open then st else Append(st, Trim(text))
    case ToolClose =>
      if !st.open then st
      else Append(st, if st.needsClosingQuote then "\"}" else "}").(needsClosingQuote := false)
    case _ => st
  }

  lemma WithoutLastQuote(value: string)
    ensures Dump(value) != "" && Dump(value)[..|Dump(value)| - 1] == "\"" + Escape(value)
  {
    hide Escape;
  }

  lemma NoComma(dump: string)
    ensures "" + dump + ":" == dump + ":"
  {
  }

  class ConstructedMapper {
    var content: string
    var reasoning: string
    var calls: seq<ToolCall>
    var open: bool
    var argCount: nat
    var needsClosingQuote: bool

    ghost predicate Valid()
      reads this
    {
      GoodState(View())
    }

    ghost function View(): State
      reads this
    {
      State(calls, open, argCount, needsClosingQuote)
    }

    constructor ()
      ensures Valid() && View() == State([], false, 0, false) && content == "" && reasoning == ""
    {
      content, reasoning, calls, open, argCount, needsClosingQuote := "", "", [], false, 0, false;
    }

    /** `current_tool->arguments += text`. */
    method AppendArguments(text: string)
      requires Valid() && open
      modifies this`calls
      ensures Valid() && View() == Append(old(View()), text)
    {
      var last := |calls| - 1;
      calls := calls[last := calls[last].(arguments := calls[last].arguments + text)];
    }

    method Map(node: Node)
      requires Valid() && (node.ToolName? ==> open)
      modifies this
      ensures Valid() && View() == Step(old(View()), node)
      ensures content == (if node.Content? then Trim(node.text) else old(content))
      ensures reasoning == (if node.Reasoning? then Trim(node.text) else old(reasoning))
    {
      hide Trim, Dump, Escape;
      match node
      case Reasoning(text) => reasoning := TrimTrailingSpace(text);
      case Content(text) => content := TrimTrailingSpace(text);
      case ToolOpen =>
        calls := calls + [ToolCall("", "")];
        open := true;
        argCount := 0;
      case ToolName(text) => calls := calls[|calls| - 1 := ToolCall(text, "{")];
      case ArgOpen => needsClosingQuote := false;
      case ArgName(text) =>
        if open {
          var name := TrimTrailingSpace(text);
          NoComma(Dump(name));
          AppendArguments((if argCount > 0 then "," else "") + Dump(name) + ":");
          argCount := argCount + 1;
        }
      case StringValue(text) =>
        if open {
          var value := TrimTrailingSpace(text);
          var dumped := Dump(value);
          WithoutLastQuote(value);
          AppendArguments(dumped[..|dumped| - 1]);
          needsClosingQuote := true;
        }
      case ArgClose =>
        if open && needsClosingQuote {
          AppendArguments("\"");
          needsClosingQuote := false;
        }
      case JsonValue(text) =>
        if open {
          var value := TrimTrailingSpace(text);
          AppendArguments(value);
        }
      case ToolClose =>
        if open {
          AppendArguments(if needsClosingQuote then "\"}" else "}");
          needsClosingQuote := false;
        }
      case Other =>
    }
  }

  // --- Runs ------------------------------------------------------------------------------------------------

  predicate IsInner(node: Node) {
    !node.ToolOpen? && !node.ToolName?
  }

  /** No event of the list opens or names a tool. */
  predicate Inner(nodes: seq<Node>) {
    forall i :: 0 <= i < |nodes| ==> IsInner(nodes[i])
  }

  function Steps(st: State, nodes: seq<Node>): (st': State)
    requires GoodState(st) && Inner(nodes)
    ensures GoodState(st') && (st.open ==> st'.open)
    decreases |nodes|
  {
    if nodes == [] then st else Steps(Step(st, nodes[0]), nodes[1..])
  }

  lemma {:induction false} StepsAppend(st: State, a: seq<Node>, b: seq<Node>)
    requires GoodState(st) && Inner(a) && Inner(b)
    ensures Inner(a + b) && Steps(st, a + b) == Steps(Steps(st, a), b)
    decreases |a|
  {
    if a == [] {
      assert a + b == b;
    } else {
      assert (a + b)[1..] == a[1..] + b;
      StepsAppend(Step(st, a[0]), a[1..], b);
    }
  }

  lemma StepGrows(st: State, node: Node)
    requires GoodState(st) && st.open && IsInner(node)
    ensures Arguments(st) <= Arguments(Step(st, node))
  {
  }

  /** Behind the tool name the argument text only ever grows, whatever events follow. */
  lemma {:induction false} ArgumentsGrow(st: State, nodes: seq<Node>)
    requires GoodState(st) && st.open && Inner(nodes)
    ensures Arguments(st) <= Arguments(Steps(st, nodes))
    decreases |nodes|
  {
    if nodes != [] {
      StepGrows(st, nodes[0]);
      hide Step, Arguments;
      assert IsInner(nodes[0]) && Inner(nodes[1..]);
      ArgumentsGrow(Step(st, nodes[0]), nodes[1..]);
    }
  }

  lemma {:induction false} EscapeGrows(a: string, b: string)
    requires a <= b
    ensures Escape(a) <= Escape(b)
    decreases |b|
  {
    if |a| < |b| {
      EscapeGrows(a, b[..|b| - 1]);
    } else {
      assert a == b;
    }
  }

  lemma TrimGrows(a: string, b: string)
    requires a <= b
    ensures Trim(a) <= Trim(b)
  {
    var e, e' := StripEnd(a, 0, |a|), StripEnd(b, 0, |b|);
    assert 0 < e ==> a[e - 1] == b[e - 1];
  }

  /** A parse of a longer input repeats the events of the shorter one, with more text in the value
      that was still open: the argument text sent so far stays a prefix. */
  lemma {:induction false} OpenValueGrows(st: State, a: string, b: string, more: seq<Node>)
    requires GoodState(st) && st.open && a <= b && Inner(more)
    ensures Arguments(Step(st, StringValue(a))) <= Arguments(Steps(Step(st, StringValue(b)), more))
    ensures Arguments(Step(st, JsonValue(a))) <= Arguments(Steps(Step(st, JsonValue(b)), more))
  {
    TrimGrows(a, b);
    EscapeGrows(Trim(a), Trim(b));
    ArgumentsGrow(Step(st, StringValue(b)), more);
    ArgumentsGrow(Step(st, JsonValue(b)), more);
    assert "\"" + Escape(Trim(a)) <= "\"" + Escape(Trim(b));
  }

  // --- One tool call ------------------------------------------------------------------------------------------

  datatype Value = StringText(s: string) | JsonText(s: string)

  /** One argument of a call; the model may leave its closing tag out. */
  datatype Argument = Argument(name: string, value: Value, closed: bool)

  function ArgumentEvents(arg: Argument): (nodes: seq<Node>)
    ensures Inner(nodes)
  {
    [ArgOpen, ArgName(arg.name), if arg.value.StringText? then StringValue(arg.value.s) else JsonValue(arg.value.s)] +
    if arg.closed then [ArgClose] else []
  }

  function Events(args: seq<Argument>): (nodes: seq<Node>)
    ensures Inner(nodes)
  {
    if args == [] then [] else Events(args[..|args| - 1]) + ArgumentEvents(args[|args| - 1])
  }

  function ValueText(v: Value): string {
    match v
    case StringText(s) => Dump(Trim(s))
    case JsonText(s) => Trim(s)
  }

  /** `"name":value`, with a comma in front of all but the first member. */
  function Member(arg: Argument, first: bool): string {
    (if first then "" else ",") + Dump(Trim(arg.name)) + ":" + ValueText(arg.value)
  }

  function Members(args: seq<Argument>): string {
    if args == [] then ""
    else Members(args[..|args| - 1]) + Member(args[|args| - 1], |args| == 1)
  }

  /** The JSON object that lists each argument once, in order. */
  function ObjectText(args: seq<Argument>): string {
    "{" + Members(args) + "}"
  }

  /** A string value was opened and its closing tag has not come. */
  predicate Dangling(arg: Argument) {
    arg.value.StringText? && !arg.closed
  }

  /** The member text up to a possibly missing quote. */
  function Written(arg: Argument, first: bool): string {
    var text := Member(arg, first);
    if Dangling(arg) then text[..|text| - 1] else text
  }

  function AllWritten(args: seq<Argument>): string {
    if args == [] then ""
    else AllWritten(args[..|args| - 1]) + Written(args[|args| - 1], |args| == 1)
  }

  function Named(st: State, name: string): (st': State)
    requires GoodState(st)
    ensures GoodState(st') && st'.open
  {
    Step(Step(st, ToolOpen), ToolName(name))
  }

  lemma FewSteps(st: State, a: Node, b: Node, c: Node, d: Node)
    requires GoodState(st) && IsInner(a) && IsInner(b) && IsInner(c) && IsInner(d)
    ensures Inner([a]) && Steps(st, [a]) == Step(st, a)
    ensures Inner([a, b]) && Steps(st, [a, b]) == Step(Step(st, a), b)
    ensures Inner([a, b, c]) && Steps(st, [a, b, c]) == Step(Step(Step(st, a), b), c)
    ensures Inner([a, b, c, d]) && Steps(st, [a, b, c, d]) == Step(Step(Step(Step(st, a), b), c), d)
  {
    hide Step, Steps;
    var s1 := Step(st, a);
    var s2 := Step(s1, b);
    var s3 := Step(s2, c);
    OneStep(st, a);
    OneStep(s1, b);
    OneStep(s2, c);
    OneStep(s3, d);
    StepsAppend(st, [a], [b]);
    StepsAppend(st, [a] + [b], [c]);
    StepsAppend(st, [a] + [b] + [c], [d]);
    assert [a] + [b] == [a, b] && [a, b] + [c] == [a, b, c] && [a, b, c] + [d] == [a, b, c, d];
  }

  lemma OneStep(st: State, node: Node)
    requires GoodState(st) && IsInner(node)
    ensures Inner([node]) && Steps(st, [node]) == Step(st, node)
  {
    assert [node][0] == node && [node][1..] == [];
  }

  lemma {:induction false} ArgumentSteps(st: State, arg: Argument)
    requires GoodState(st) && st.open
    ensures var st' := Steps(st, ArgumentEvents(arg));
            st'.open && Arguments(st') == Arguments(st) + Written(arg, st.argCount == 0) &&
            st'.argCount == st.argCount + 1 && st'.needsClosingQuote == Dangling(arg)
  {
    hide Step, Dump, Trim, Steps;
    var value := if arg.value.StringText? then StringValue(arg.value.s) else JsonValue(arg.value.s);
    var st2 := HeadSteps(st, arg);
    ValueSteps(st2, arg, Arguments(st), (if st.argCount > 0 then "," else "") + Dump(Trim(arg.name)) + ":");
    FewSteps(st, ArgOpen, ArgName(arg.name), value, ArgClose);
    if arg.closed {
      assert ArgumentEvents(arg) == [ArgOpen, ArgName(arg.name), value, ArgClose];
    } else {
      assert ArgumentEvents(arg) == [ArgOpen, ArgName(arg.name), value];
    }
  }

  /** The opening of an argument and its name. */
  lemma HeadSteps(st: State, arg: Argument) returns (st2: State)
    requires GoodState(st) && st.open
    ensures st2 == Step(Step(st, ArgOpen), ArgName(arg.name)) && GoodState(st2) && st2.open && !st2.needsClosingQuote
    ensures st2.argCount == st.argCount + 1
    ensures Arguments(st2) == Arguments(st) + ((if st.argCount > 0 then "," else "") + Dump(Trim(arg.name)) + ":")
  {
    hide Dump, Trim;
    st2 := Step(Step(st, ArgOpen), ArgName(arg.name));
  }

  /** The value of an argument, and its close if there is one. */
  lemma ValueSteps(st: State, arg: Argument, text: string, head: string)
    requires GoodState(st) && st.open && Arguments(st) == text + head && head != "" && !st.needsClosingQuote
    ensures var value := if arg.value.StringText? then StringValue(arg.value.s) else JsonValue(arg.value.s);
            var st3 := Step(st, value);
            var st' := if arg.closed then Step(st3, ArgClose) else st3;
            var member := head + ValueText(arg.value);
            st'.argCount == st.argCount && st'.needsClosingQuote == Dangling(arg) &&
            Arguments(st') == text + if Dangling(arg) then member[..|member| - 1] else member
  {
    hide Escape, Trim;
    if arg.value.StringText? {
      var open := "\"" + Escape(Trim(arg.value.s));
      assert (head + (open + "\""))[..|head + (open + "\"")| - 1] == head + open;
      assert text + head + open == text + (head + open);
      assert text + head + open + "\"" == text + (head + (open + "\""));
    } else {
      assert text + head + Trim(arg.value.s) == text + (head + Trim(arg.value.s));
    }
  }

  /** The text and the quote flag after all the events of some arguments. */
  lemma {:induction false} EventsWrite(st: State, name: string, args: seq<Argument>)
    requires GoodState(st)
    ensures var st' := Steps(Named(st, name), Events(args));
            st'.open && Arguments(st') == "{" + AllWritten(args) && st'.argCount == |args| &&
            (args != [] ==> st'.needsClosingQuote == Dangling(args[|args| - 1])) &&
            (args == [] ==> st'.needsClosingQuote == st.needsClosingQuote)
  {
    hide Written, ArgumentEvents, Step;
    var start := Named(st, name);
    NamedState(st, name);
    if args == [] {
      assert "{" + "" == "{";
    } else {
      var n := |args| - 1;
      EventsWrite(st, name, args[..n]);
      StepsAppend(start, Events(args[..n]), ArgumentEvents(args[n]));
      ArgumentSteps(Steps(start, Events(args[..n])), args[n]);
      assert "{" + (AllWritten(args[..n]) + Written(args[n], n == 0)) == "{" + AllWritten(args[..n]) + Written(args[n], n == 0);
    }
  }

  lemma NamedState(st: State, name: string)
    requires GoodState(st)
    ensures var s := Named(st, name);
            s.open && Arguments(s) == "{" && s.argCount == 0 && s.needsClosingQuote == st.needsClosingQuote
  {
  }

  /** Every argument but the last is closed, or needs no closing. */
  predicate ClosedBeforeLast(args: seq<Argument>) {
    forall i :: 0 <= i < |args| - 1 ==> !Dangling(args[i])
  }

  lemma {:induction false} WrittenIsMembers(args: seq<Argument>)
    ensures |AllWritten(args)| <= |Members(args)|
    ensures (forall i :: 0 <= i < |args| ==> !Dangling(args[i])) ==> AllWritten(args) == Members(args)
    ensures (exists i :: 0 <= i < |args| && Dangling(args[i])) ==> |AllWritten(args)| < |Members(args)|
  {
    if args != [] {
      var n := |args| - 1;
      WrittenIsMembers(args[..n]);
      assert forall i :: 0 <= i < n ==> args[..n][i] == args[i];
      if i :| 0 <= i < |args| && Dangling(args[i]) {
        assert i == n || Dangling(args[..n][i]);
      }
    }
  }

  /** Closing the tool completes the text with the missing quote and the brace. */
  lemma CloseText(st: State, all: string, whole: string)
    requires GoodState(st) && st.open && Arguments(st) == "{" + all
    requires all + (if st.needsClosingQuote then "\"" else "") == whole
    ensures !Step(st, ToolClose).needsClosingQuote && Arguments(Step(st, ToolClose)) == "{" + whole + "}"
  {
    var quote := if st.needsClosingQuote then "\"" else "";
    assert (if st.needsClosingQuote then "\"}" else "}") == quote + "}";
    assert "{" + all + (quote + "}") == "{" + (all + quote) + "}";
  }

  lemma {:induction false} FinishedText(st: State, name: string, args: seq<Argument>)
    requires GoodState(st) && !st.needsClosingQuote && args != []
    ensures var n := |args| - 1;
            var done := Step(Steps(Named(st, name), Events(args)), ToolClose);
            !done.needsClosingQuote &&
            Arguments(done) == "{" + (AllWritten(args[..n]) + Member(args[n], n == 0)) + "}"
  {
    EventsWrite(st, name, args);
    LastQuote(args);
    hide Steps, Events, Member, Named, Step, AllWritten, Arguments, Dangling;
    var n := |args| - 1;
    CloseText(Steps(Named(st, name), Events(args)), AllWritten(args), AllWritten(args[..n]) + Member(args[n], n == 0));
  }

  lemma {:induction false} LastQuote(args: seq<Argument>)
    requires args != []
    ensures var n := |args| - 1;
            AllWritten(args) + (if Dangling(args[n]) then "\"" else "") == AllWritten(args[..n]) + Member(args[n], n == 0)
  {
    var n := |args| - 1;
    var front := AllWritten(args[..n]);
    assert AllWritten(args) == front + Written(args[n], n == 0);
    WrittenAndQuote(args[n], n == 0);
    hide *;
    var quote := if Dangling(args[n]) then "\"" else "";
    assert front + Written(args[n], n == 0) + quote == front + (Written(args[n], n == 0) + quote);
  }

  lemma WrittenAndQuote(arg: Argument, first: bool)
    ensures Written(arg, first) + (if Dangling(arg) then "\"" else "") == Member(arg, first)
  {
    hide Member;
    MemberEndsInQuote(arg, first);
    assert Member(arg, first) + "" == Member(arg, first);
  }

  /** The text of a finished call is the object of its arguments, every string closed, if and only
      if every string argument but the last got its closing tag; the close of the tool supplies
      the last quote. */
  lemma {:induction false} FinishedCallIff(st: State, name: string, args: seq<Argument>)
    requires GoodState(st) && !st.needsClosingQuote
    ensures var done := Step(Steps(Named(st, name), Events(args)), ToolClose);
            !done.needsClosingQuote && (Arguments(done) == ObjectText(args) <==> ClosedBeforeLast(args))
  {
    if args == [] {
      EventsWrite(st, name, args);
      assert "{" + "" + "}" == "{" + "}";
    } else {
      hide Steps, Events, Member, Named, Step, Written;
      FinishedText(st, name, args);
      var n := |args| - 1;
      WrittenIsMembers(args[..n]);
      assert forall i :: 0 <= i < n ==> args[..n][i] == args[i];
      if !ClosedBeforeLast(args) {
        var i :| 0 <= i < n && Dangling(args[i]);
        assert Dangling(args[..n][i]);
      }
    }
  }

  /** A string whose closing tag is missing before another argument spoils the object. */
  lemma UnclosedExample(st: State, name: string)
    requires GoodState(st) && !st.needsClosingQuote
    ensures var args := [Argument("a", StringText("x"), false), Argument("b", StringText("y"), true)];
            Arguments(Step(Steps(Named(st, name), Events(args)), ToolClose)) != ObjectText(args)
  {
    var args := [Argument("a", StringText("x"), false), Argument("b", StringText("y"), true)];
    FinishedCallIff(st, name, args);
    assert Dangling(args[0]) && !ClosedBeforeLast(args);
    hide Steps, Events, Named, Step, ObjectText, Arguments;
  }

  lemma MemberEndsInQuote(arg: Argument, first: bool)
    ensures arg.value.StringText? ==>
      var text := Member(arg, first); text != "" && text == text[..|text| - 1] + "\""
  {
  }

  // --- Inside or outside a string ---------------------------------------------------------------------------------

  datatype Mode = Outside | InString | AfterBackslash

  function ScanChar(mode: Mode, c: char): Mode {
    match mode
    case Outside => if c == '"' then InString else Outside
    case InString => if c == '"' then Outside else if c == '\\' then AfterBackslash else InString
    case AfterBackslash => InString
  }

  /** Where a JSON reader is after `s`, as far as strings go. */
  function ScanText(mode: Mode, s: string): Mode {
    if s == "" then mode else ScanChar(ScanText(mode, s[..|s| - 1]), s[|s| - 1])
  }

  lemma {:induction false} ScanConcat(mode: Mode, a: string, b: string)
    ensures ScanText(mode, a + b) == ScanText(ScanText(mode, a), b)
    decreases |b|
  {
    if b == "" {
      assert a + b == a;
    } else {
      assert (a + b)[..|a + b| - 1] == a + b[..|b| - 1];
      ScanConcat(mode, a, b[..|b| - 1]);
    }
  }

  lemma ScanOne(mode: Mode, c: char)
    ensures ScanText(mode, [c]) == ScanChar(mode, c)
  {
    assert [c][..0] == "";
  }

  lemma ScanTwo(mode: Mode, c: char, d: char)
    ensures ScanText(mode, [c, d]) == ScanChar(ScanChar(mode, c), d)
  {
    ScanOne(mode, c);
    assert [c, d][..1] == [c];
  }

  lemma EscapeCharStays(c: char)
    ensures ScanText(InString, EscapeChar(c)) == InString
  {
    var e := EscapeChar(c);
    if |e| == 2 {
      ScanTwo(InString, e[0], e[1]);
      assert e == [e[0], e[1]];
    } else if |e| == 6 {
      HexIsPlain(c as int / 16);
      HexIsPlain(c as int % 16);
      var a, b, h := ['\\', 'u'], ['0', '0'], [e[4], e[5]];
      assert e == a + b + h;
      ScanTwo(InString, '\\', 'u');
      ScanTwo(InString, '0', '0');
      ScanTwo(InString, e[4], e[5]);
      ScanConcat(InString, a, b);
      ScanConcat(InString, a + b, h);
    } else {
      ScanOne(InString, c);
    }
  }

  lemma HexIsPlain(i: nat)
    requires i < 16
    ensures HEX[i] != '"' && HEX[i] != '\\'
  {
  }

  /** An escaped text keeps a reader inside the string. */
  lemma {:induction false} EscapeStays(s: string)
    ensures ScanText(InString, Escape(s)) == InString
  {
    if s != "" {
      EscapeStays(s[..|s| - 1]);
      EscapeCharStays(s[|s| - 1]);
      ScanConcat(InString, Escape(s[..|s| - 1]), EscapeChar(s[|s| - 1]));
    }
  }

  lemma DumpCloses(s: string)
    ensures ScanText(Outside, "\"" + Escape(s)) == InString && ScanText(Outside, Dump(s)) == Outside
  {
    EscapeStays(s);
    ScanOne(Outside, '"');
    ScanOne(InString, '"');
    ScanConcat(Outside, "\"", Escape(s));
    ScanConcat(Outside, "\"" + Escape(s), "\"");
  }

  /** The quote flag tells exactly whether the text is inside an open string. */
  ghost predicate FlagIsRight(st: State)
    requires GoodState(st) && st.open
  {
    ScanText(Outside, Arguments(st)) == if st.needsClosingQuote then InString else Outside
  }

  /** Events that fit the state: nothing but a close follows an open string, and a JSON value is
      complete as far as strings go. */
  predicate Fits(st: State, node: Node) {
    match node
    case ToolOpen | ToolName(_) => false
    case ArgOpen | ArgName(_) | StringValue(_) => !st.needsClosingQuote
    case JsonValue(text) => !st.needsClosingQuote && ScanText(Outside, Trim(text)) == Outside
    case _ => true
  }

  lemma StepKeepsFlag(st: State, node: Node)
    requires GoodState(st) && st.open && FlagIsRight(st) && Fits(st, node)
    ensures FlagIsRight(Step(st, node))
  {
    var text := Arguments(st);
    match node
    case ArgName(name) =>
      var dump := Dump(Trim(name));
      var comma := if st.argCount > 0 then "," else "";
      DumpCloses(Trim(name));
      ScanOne(Outside, ',');
      ScanOne(Outside, ':');
      ScanConcat(Outside, comma, dump);
      ScanConcat(Outside, comma + dump, ":");
      ScanConcat(Outside, text, comma + dump + ":");
    case StringValue(s) =>
      DumpCloses(Trim(s));
      ScanConcat(Outside, text, "\"" + Escape(Trim(s)));
    case JsonValue(s) => ScanConcat(Outside, text, Trim(s));
    case ArgClose =>
      ScanOne(InString, '"');
      ScanConcat(Outside, text, "\"");
    case ToolClose =>
      var end := if st.needsClosingQuote then "\"}" else "}";
      ScanOne(InString, '"');
      ScanOne(Outside, '}');
      assert "\"}" == "\"" + "}";
      ScanConcat(InString, "\"", "}");
      ScanConcat(Outside, text, end);
    case _ =>
  }

  /** A complete JSON value leaves every string it opens closed. */
  predicate CompleteValues(args: seq<Argument>) {
    forall i :: 0 <= i < |args| && args[i].value.JsonText? ==> ScanText(Outside, Trim(args[i].value.s)) == Outside
  }

  lemma FrontArguments(args: seq<Argument>)
    requires args != [] && ClosedBeforeLast(args) && CompleteValues(args)
    ensures var n := |args| - 1;
            ClosedBeforeLast(args[..n]) && CompleteValues(args[..n]) && (n > 0 ==> !Dangling(args[..n][n - 1])) &&
            (args[n].value.JsonText? ==> ScanText(Outside, Trim(args[n].value.s)) == Outside)
  {
    hide Dangling, ScanText;
    var n := |args| - 1;
    assert forall i :: 0 <= i < n ==> args[..n][i] == args[i];
  }

  lemma CutConcat<T>(a: seq<T>, b: seq<T>, k: nat)
    requires k <= |a + b|
    ensures k <= |a| ==> (a + b)[..k] == a[..k]
    ensures k > |a| ==> (a + b)[..k] == a + b[..k - |a|]
  {
  }

  lemma EventsSplit(args: seq<Argument>)
    requires args != []
    ensures Events(args) == Events(args[..|args| - 1]) + ArgumentEvents(args[|args| - 1])
  {
  }

  lemma EventsFront(args: seq<Argument>, k: nat)
    requires args != [] && k <= |Events(args)|
    ensures var n := |args| - 1; var front := Events(args[..n]);
            Events(args) == front + ArgumentEvents(args[n]) &&
            (k <= |front| ==> Events(args)[..k] == front[..k]) &&
            (k > |front| ==> Events(args)[..k] == front + ArgumentEvents(args[n])[..k - |front|])
  {
    hide *;
    EventsSplit(args);
    CutConcat(Events(args[..|args| - 1]), ArgumentEvents(args[|args| - 1]), k);
  }

  /** Before the next argument the flag is clear. */
  lemma ClearBetween(st: State, name: string, args: seq<Argument>)
    requires GoodState(st) && !st.needsClosingQuote && (args != [] ==> !Dangling(args[|args| - 1]))
    ensures var st' := Steps(Named(st, name), Events(args)); st'.open && !st'.needsClosingQuote
  {
    EventsWrite(st, name, args);
  }

  lemma FlagAtStart(st: State, name: string)
    requires GoodState(st) && !st.needsClosingQuote
    ensures Named(st, name).open && Events([]) == [] && FlagIsRight(Steps(Named(st, name), []))
  {
    NamedState(st, name);
    NoSteps(Named(st, name));
    ScanOne(Outside, '{');
  }

  /** Along the events of a call whose strings are closed before the next argument, the flag is
      right after every single event. */
  lemma {:induction false} FlagAlongRun(st: State, name: string, args: seq<Argument>, k: nat)
    requires GoodState(st) && !st.needsClosingQuote && ClosedBeforeLast(args) && k <= |Events(args)|
    requires CompleteValues(args)
    ensures Named(st, name).open && FlagIsRight(Steps(Named(st, name), Events(args)[..k]))
    decreases |args|
  {
    FlagAtStart(st, name);
    hide *;
    if args == [] {
      assert Events(args)[..k] == [];
    } else {
      var n := |args| - 1;
      var front := Events(args[..n]);
      FrontArguments(args);
      EventsFront(args, k);
      if k <= |front| {
        FlagAlongRun(st, name, args[..n], k);
      } else {
        FlagAlongRun(st, name, args[..n], |front|);
        assert front[..|front|] == front;
        ClearBetween(st, name, args[..n]);
        var before := Steps(Named(st, name), front);
        FlagInArgument(before, args[n], k - |front|);
        StepsAppend(Named(st, name), front, ArgumentEvents(args[n])[..k - |front|]);
      }
    }
  }

  lemma {:induction false} EventsPrefix(args: seq<Argument>, i: nat)
    requires i <= |args|
    ensures Events(args[..i]) <= Events(args)
    decreases |args|
  {
    hide *;
    if i < |args| {
      var n := |args| - 1;
      EventsSplit(args);
      assert args[..n][..i] == args[..i];
      EventsPrefix(args[..n], i);
    } else {
      assert args[..i] == args;
    }
  }

  /** Opening an argument while a string is open clears the flag inside the string. */
  lemma OpenClearsFlag(st: State)
    requires GoodState(st) && st.open && st.needsClosingQuote && FlagIsRight(st)
    ensures Inner([ArgOpen]) && Steps(st, [ArgOpen]) == Step(st, ArgOpen) && !FlagIsRight(Step(st, ArgOpen))
  {
    assert [ArgOpen][1..] == [];
    assert Steps(Step(st, ArgOpen), []) == Step(st, ArgOpen);
  }

  /** The flag is wrong once an argument is opened behind an unclosed string. */
  lemma {:induction false} FlagWrongBehind(st: State, name: string, args: seq<Argument>, i: nat) returns (k: nat)
    requires GoodState(st) && !st.needsClosingQuote && i + 1 < |args| && Dangling(args[i])
    requires ClosedBeforeLast(args[..i + 1]) && CompleteValues(args[..i + 1])
    ensures k <= |Events(args)| && Named(st, name).open && !FlagIsRight(Steps(Named(st, name), Events(args)[..k]))
  {
    hide *;
    var front := args[..i + 1];
    FlagSetBehind(st, name, front);
    OpenClearsFlag(Steps(Named(st, name), Events(front)));
    StepsAppend(Named(st, name), Events(front), [ArgOpen]);
    k := |Events(front)| + 1;
    FirstEvents(args[i + 1]);
    NextEvents(args, i + 1, 1);
  }

  /** Behind an unclosed last string, the flag is set and right. */
  lemma {:induction false} FlagSetBehind(st: State, name: string, front: seq<Argument>)
    requires GoodState(st) && !st.needsClosingQuote && CompleteValues(front) && ClosedBeforeLast(front)
    requires front != [] && Dangling(front[|front| - 1])
    ensures Inner(Events(front)) && GoodState(Named(st, name))
    ensures var st' := Steps(Named(st, name), Events(front));
            GoodState(st') && st'.open && st'.needsClosingQuote && FlagIsRight(st')
  {
    EventsWrite(st, name, front);
    FlagRightBehind(st, name, front);
    hide *;
  }

  lemma {:induction false} FlagRightBehind(st: State, name: string, front: seq<Argument>)
    requires GoodState(st) && !st.needsClosingQuote && CompleteValues(front) && ClosedBeforeLast(front)
    ensures Named(st, name).open && FlagIsRight(Steps(Named(st, name), Events(front)))
  {
    FlagAlongRun(st, name, front, |Events(front)|);
    hide *;
    assert Events(front)[..|Events(front)|] == Events(front);
  }

  /** A value that is not a complete JSON value. */
  predicate Partial(arg: Argument) {
    arg.value.JsonText? && ScanText(Outside, Trim(arg.value.s)) != Outside
  }

  /** A partial value leaves a string open, and the flag is not set. */
  lemma {:induction false} PartialLeavesOpen(st: State, arg: Argument)
    requires GoodState(st) && st.open && FlagIsRight(st) && !st.needsClosingQuote && Partial(arg)
    ensures |ArgumentEvents(arg)| >= 3 && !FlagIsRight(Steps(st, ArgumentEvents(arg)[..3]))
  {
    hide Steps, ScanText, FlagIsRight;
    var st2 := Step(Step(st, ArgOpen), ArgName(arg.name));
    StepKeepsFlag(st, ArgOpen);
    StepKeepsFlag(Step(st, ArgOpen), ArgName(arg.name));
    ValueBreaksFlag(st2, arg.value.s);
    FewSteps(st, ArgOpen, ArgName(arg.name), JsonValue(arg.value.s), ArgClose);
    assert ArgumentEvents(arg)[..3] == [ArgOpen, ArgName(arg.name), JsonValue(arg.value.s)];
  }

  lemma ValueBreaksFlag(st: State, text: string)
    requires GoodState(st) && st.open && FlagIsRight(st) && !st.needsClosingQuote && ScanText(Outside, Trim(text)) != Outside
    ensures !FlagIsRight(Step(st, JsonValue(text)))
  {
    hide Trim, ScanText;
    ScanConcat(Outside, Arguments(st), Trim(text));
  }

  /** The flag is wrong behind the first partial value. */
  lemma {:induction false} FlagWrongAt(st: State, name: string, args: seq<Argument>, i: nat) returns (k: nat)
    requires GoodState(st) && !st.needsClosingQuote && i < |args| && Partial(args[i])
    requires ClosedBeforeLast(args[..i]) && CompleteValues(args[..i]) && (i > 0 ==> !Dangling(args[i - 1]))
    ensures k <= |Events(args)| && Named(st, name).open && !FlagIsRight(Steps(Named(st, name), Events(args)[..k]))
  {
    hide *;
    var front := args[..i];
    FlagRightBehind(st, name, front);
    ClearBetween(st, name, front);
    var before := Steps(Named(st, name), Events(front));
    PartialLeavesOpen(before, args[i]);
    k := |Events(front)| + 3;
    NextEvents(args, i, 3);
    StepsAppend(Named(st, name), Events(front), ArgumentEvents(args[i])[..3]);
  }

  lemma FirstEvents(arg: Argument)
    ensures |ArgumentEvents(arg)| >= 3 && ArgumentEvents(arg)[..1] == [ArgOpen]
  {
  }

  /** The events up to the middle of an argument. */
  lemma {:induction false} NextEvents(args: seq<Argument>, i: nat, m: nat)
    requires i < |args| && m <= |ArgumentEvents(args[i])|
    ensures |Events(args[..i])| + m <= |Events(args)|
    ensures Events(args)[..|Events(args[..i])| + m] == Events(args[..i]) + ArgumentEvents(args[i])[..m]
    ensures Inner(ArgumentEvents(args[i])[..m])
  {
    assert Inner(ArgumentEvents(args[i])[..m]);
    hide *;
    var next := args[..i + 1];
    assert next[..i] == args[..i] && next[i] == args[i];
    EventsSplit(next);
    EventsPrefix(args, i + 1);
    var n := |Events(args[..i])|;
    assert Events(next) == Events(args[..i]) + ArgumentEvents(args[i]);
    assert Events(args)[..n + m] == Events(next)[..n + m] == Events(args[..i]) + ArgumentEvents(args[i])[..m];
  }

  /** What keeps the argument at `i` from being right: a partial value, or a string that stays open before the next argument. */
  predicate Spoils(args: seq<Argument>, i: nat)
    requires i < |args|
  {
    Partial(args[i]) || (i + 1 < |args| && Dangling(args[i]))
  }

  function FirstSpoiled(args: seq<Argument>, i: nat): (r: nat)
    requires i <= |args| && exists j :: i <= j < |args| && Spoils(args, j)
    ensures i <= r < |args| && Spoils(args, r) && forall j :: i <= j < r ==> !Spoils(args, j)
    decreases |args| - i
  {
    if Spoils(args, i) then i else FirstSpoiled(args, i + 1)
  }

  lemma SpoiledSomewhere(args: seq<Argument>)
    ensures ClosedBeforeLast(args) && CompleteValues(args) <==> forall i :: 0 <= i < |args| ==> !Spoils(args, i)
  {
    hide ScanText, Trim;
    if forall i :: 0 <= i < |args| ==> !Spoils(args, i) {
      assert forall i :: 0 <= i < |args| - 1 && Dangling(args[i]) ==> Spoils(args, i);
      assert forall i :: 0 <= i < |args| && Partial(args[i]) ==> Spoils(args, i);
    }
  }

  lemma UnspoiledFront(args: seq<Argument>, i: nat)
    requires i < |args| && forall j :: 0 <= j < i ==> !Spoils(args, j)
    ensures ClosedBeforeLast(args[..i]) && CompleteValues(args[..i]) && (i > 0 ==> !Dangling(args[i - 1]))
    ensures !Partial(args[i]) ==> ClosedBeforeLast(args[..i + 1]) && CompleteValues(args[..i + 1])
  {
    hide ScanText, Trim;
    forall j | 0 <= j < i
      ensures !Dangling(args[j]) && !Partial(args[j])
    {
      assert !Spoils(args, j);
    }
  }

  /** The flag is right after every event of a call exactly if every string is closed before the next argument and every other
      value is a complete JSON value. */
  lemma FlagAlongRunIff(st: State, name: string, args: seq<Argument>)
    requires GoodState(st) && !st.needsClosingQuote
    ensures Named(st, name).open
    ensures (forall k: nat :: k <= |Events(args)| ==> FlagIsRight(Steps(Named(st, name), Events(args)[..k])))
       <==> ClosedBeforeLast(args) && CompleteValues(args)
  {
    hide Steps, Named, Events, FlagIsRight, CompleteValues, ClosedBeforeLast, Spoils;
    NamedState(st, name);
    SpoiledSomewhere(args);
    if ClosedBeforeLast(args) && CompleteValues(args) {
      forall k: nat | k <= |Events(args)|
        ensures FlagIsRight(Steps(Named(st, name), Events(args)[..k]))
      {
        FlagAlongRun(st, name, args, k);
      }
    } else {
      var k := FlagWrongSomewhere(st, name, args);
    }
  }

  lemma {:induction false} FlagWrongSomewhere(st: State, name: string, args: seq<Argument>) returns (k: nat)
    requires GoodState(st) && !st.needsClosingQuote && exists i :: 0 <= i < |args| && Spoils(args, i)
    ensures k <= |Events(args)| && Named(st, name).open && !FlagIsRight(Steps(Named(st, name), Events(args)[..k]))
  {
    var i := FirstSpoiled(args, 0);
    UnspoiledFront(args, i);
    if Partial(args[i]) {
      k := FlagWrongAt(st, name, args, i);
    } else {
      k := FlagWrongBehind(st, name, args, i);
    }
  }

  /** A value cut short inside a string, as any value is while it arrives. */
  lemma PartialExample(st: State, name: string)
    requires GoodState(st) && !st.needsClosingQuote
    ensures var args := [Argument("a", JsonText("\"x"), false)];
            Named(st, name).open &&
            exists k: nat :: k <= |Events(args)| && !FlagIsRight(Steps(Named(st, name), Events(args)[..k]))
  {
    var args := [Argument("a", JsonText("\"x"), false)];
    assert Trim("\"x") == "\"x";
    ScanTwo(Outside, '"', 'x');
    assert !CompleteValues(args) by {
      assert args[0].value.JsonText? && ScanText(Outside, Trim(args[0].value.s)) == InString;
    }
    hide *;
    FlagAlongRunIff(st, name, args);
  }

  lemma {:induction false} FlagInArgument(st: State, arg: Argument, k: nat)
    requires GoodState(st) && st.open && FlagIsRight(st) && !st.needsClosingQuote && k <= |ArgumentEvents(arg)|
    requires arg.value.JsonText? ==> ScanText(Outside, Trim(arg.value.s)) == Outside
    ensures Inner(ArgumentEvents(arg)[..k]) && FlagIsRight(Steps(st, ArgumentEvents(arg)[..k]))
  {
    hide FlagIsRight, Steps, ScanText;
    var nodes := ArgumentEvents(arg);
    var value := nodes[2];
    var st1 := Step(st, ArgOpen);
    var st2 := Step(st1, ArgName(arg.name));
    var st3 := Step(st2, value);
    StepKeepsFlag(st, ArgOpen);
    StepKeepsFlag(st1, ArgName(arg.name));
    StepKeepsFlag(st2, value);
    StepKeepsFlag(st3, ArgClose);
    FewSteps(st, ArgOpen, ArgName(arg.name), value, ArgClose);
    NoSteps(st);
    assert nodes[..k] ==
      if k == 0 then [] else if k == 1 then [ArgOpen] else if k == 2 then [ArgOpen, ArgName(arg.name)]
      else if k == 3 then [ArgOpen, ArgName(arg.name), value] else [ArgOpen, ArgName(arg.name), value, ArgClose];
  }

  lemma NoSteps(st: State)
    requires GoodState(st)
    ensures Inner([]) && Steps(st, []) == st
  {
  }
}
