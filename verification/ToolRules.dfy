/** The rules `build_grammar_xml_tool_call` adds for the arguments of a tool and for the calls. */
module ToolRules {
  import opened Grammar

  /** The terminals by role; the text of each one belongs to the format. */
  datatype Token =
    | ScopeStart | ScopeEnd
    | CallHead(tool: nat)
    | Argument(tool: nat, index: nat)
    | ValEnd
    | LastArgEnd
    | ToolEnd
    | CallEnd

  /** For each parameter of a tool, in order: whether it is required. */
  type Parameters = seq<bool>

  // --- The chain of argument rules -----------------------------------------------------------------

  datatype Chain = Chain(nextArg: Rx<Token>, nextArgWithSep: Rx<Token>)

  function Prepend(tool: nat, i: nat, required: bool, after: Chain): Chain {
    var thisArg := Cat(Literal(Argument(tool, i)), after.nextArgWithSep);
    var sepArg := Cat(Literal(ValEnd), thisArg);
    if required then Chain(thisArg, sepArg)
    else Chain(OneOf([thisArg, after.nextArg]), OneOf([sepArg, after.nextArgWithSep]))
  }

  /** The rules for the parameters from `i` on. */
  function ChainFrom(tool: nat, params: Parameters, i: nat): Chain
    requires i <= |params|
    decreases |params| - i
  {
    if i == |params| then Chain(Epsilon, Literal(LastArgEnd))
    else Prepend(tool, i, params[i], ChainFrom(tool, params, i + 1))
  }

  method BuildChain(tool: nat, params: Parameters) returns (nextArg: Rx<Token>)
    ensures nextArg == ChainFrom(tool, params, 0).nextArg
    ensures forall w :: In(w, nextArg) <==> Arguments(tool, params, 0, w)
  {
    var nextArgWithSep := Literal(LastArgEnd);
    nextArg := Epsilon;
    var i := |params|;
    while i > 0
      invariant 0 <= i <= |params|
      invariant Chain(nextArg, nextArgWithSep) == ChainFrom(tool, params, i)
    {
      i := i - 1;
      var includeThisArg := Cat(Literal(Argument(tool, i)), nextArgWithSep);
      nextArg := if params[i] then includeThisArg else OneOf([includeThisArg, nextArg]);
      includeThisArg := Cat(Literal(ValEnd), includeThisArg);
      nextArgWithSep := if params[i] then includeThisArg else OneOf([includeThisArg, nextArgWithSep]);
    }
    forall w
      ensures In(w, nextArg) <==> Arguments(tool, params, 0, w)
    {
      ChainLanguage(tool, params, 0, w);
    }
  }

  /** Parameters from `i` on, in their order, with every required one among them. */
  ghost predicate Selection(params: Parameters, i: nat, sel: seq<nat>) {
    (forall k :: 0 <= k < |sel| ==> i <= sel[k] < |params|) &&
    (forall k, l :: 0 <= k < l < |sel| ==> sel[k] < sel[l]) &&
    (forall p :: i <= p < |params| && params[p] ==> p in sel)
  }

  /** The selected arguments behind an earlier one. */
  function RenderMore(tool: nat, sel: seq<nat>): seq<Token> {
    if sel == [] then [LastArgEnd]
    else [ValEnd, Argument(tool, sel[0])] + RenderMore(tool, sel[1..])
  }

  function RenderArguments(tool: nat, sel: seq<nat>): seq<Token> {
    if sel == [] then [] else [Argument(tool, sel[0])] + RenderMore(tool, sel[1..])
  }

  ghost predicate IsArguments(tool: nat, params: Parameters, i: nat, sel: seq<nat>, w: seq<Token>) {
    Selection(params, i, sel) && w == RenderArguments(tool, sel)
  }

  ghost predicate IsMore(tool: nat, params: Parameters, i: nat, sel: seq<nat>, w: seq<Token>) {
    Selection(params, i, sel) && w == RenderMore(tool, sel)
  }

  /** `w` lists some selection of the parameters from `i` on. */
  ghost predicate Arguments(tool: nat, params: Parameters, i: nat, w: seq<Token>) {
    exists sel :: IsArguments(tool, params, i, sel, w)
  }

  /** `w` lists some selection of the parameters from `i` on behind an earlier argument. */
  ghost predicate MoreArguments(tool: nat, params: Parameters, i: nat, w: seq<Token>) {
    exists sel :: IsMore(tool, params, i, sel, w)
  }

  /** A selection from `i` on begins with `i`, or skips it when it is not required. */
  lemma SelectionStep(params: Parameters, i: nat, sel: seq<nat>)
    requires i < |params|
    ensures Selection(params, i, sel)
       <==> if sel != [] && sel[0] == i then Selection(params, i + 1, sel[1..])
            else !params[i] && Selection(params, i + 1, sel)
  {
    if sel != [] && sel[0] == i {
      assert sel == [i] + sel[1..];
      assert forall p :: p in sel <==> p == i || p in sel[1..];
      if Selection(params, i + 1, sel[1..]) {
        assert forall k :: 0 < k < |sel| ==> sel[k] == sel[1..][k - 1];
      }
    } else if Selection(params, i, sel) {
      assert forall k :: 0 <= k < |sel| ==> sel[0] <= sel[k];
    }
  }

  /** Every way to select from `i` on yields a way from `i + 1` on, and back. */
  lemma SelectionCons(params: Parameters, i: nat, sel: seq<nat>)
    requires i < |params| && Selection(params, i + 1, sel)
    ensures Selection(params, i, [i] + sel)
  {
    SelectionStep(params, i, [i] + sel);
    assert ([i] + sel)[1..] == sel;
  }

  lemma SelectionSkip(params: Parameters, i: nat, sel: seq<nat>)
    requires i < |params| && !params[i] && Selection(params, i + 1, sel)
    ensures Selection(params, i, sel)
  {
    SelectionStep(params, i, sel);
  }

  lemma InPair(w: seq<Token>, a: Rx<Token>, b: Rx<Token>)
    ensures In(w, OneOf([a, b])) <==> In(w, a) || In(w, b)
  {
    assert [a, b] == [a] + [b];
    InOneOfConcat(w, [a], [b]);
    InOneOfSingle(w, a);
    InOneOfSingle(w, b);
  }

  /** The rules generate exactly the selections: separated by `val_end`, closed by the end of the
      last argument, and empty only when nothing is selected. */
  lemma {:induction false} ChainLanguage(tool: nat, params: Parameters, i: nat, w: seq<Token>)
    requires i <= |params|
    ensures In(w, ChainFrom(tool, params, i).nextArg) <==> Arguments(tool, params, i, w)
    ensures In(w, ChainFrom(tool, params, i).nextArgWithSep) <==> MoreArguments(tool, params, i, w)
    decreases |params| - i
  {
    if i == |params| {
      assert Selection(params, i, []);
      if w == [] {
        assert IsArguments(tool, params, i, [], w);
      }
      if w == [LastArgEnd] {
        assert IsMore(tool, params, i, [], w);
      }
    } else {
      ChainLanguage(tool, params, i + 1, w);
      var after := ChainFrom(tool, params, i + 1);
      var thisArg := Cat(Literal(Argument(tool, i)), after.nextArgWithSep);
      var sepArg := Cat(Literal(ValEnd), thisArg);
      ThisArgument(tool, params, i, w);
      if w != [] {
        ThisArgument(tool, params, i, w[1..]);
      }
      InLiteralCat(w, ValEnd, thisArg);
      InPair(w, thisArg, after.nextArg);
      InPair(w, sepArg, after.nextArgWithSep);
      ArgumentsSplit(tool, params, i, w);
      MoreSplit(tool, params, i, w);
    }
  }

  lemma ThisArgument(tool: nat, params: Parameters, i: nat, w: seq<Token>)
    requires i < |params|
    ensures In(w, Cat(Literal(Argument(tool, i)), ChainFrom(tool, params, i + 1).nextArgWithSep))
       <==> w != [] && w[0] == Argument(tool, i) && MoreArguments(tool, params, i + 1, w[1..])
    decreases |params| - i, 0
  {
    InLiteralCat(w, Argument(tool, i), ChainFrom(tool, params, i + 1).nextArgWithSep);
    if w != [] {
      ChainLanguage(tool, params, i + 1, w[1..]);
    }
  }

  lemma ArgumentsSplit(tool: nat, params: Parameters, i: nat, w: seq<Token>)
    requires i < |params|
    ensures Arguments(tool, params, i, w)
    <==> (w != [] && w[0] == Argument(tool, i) && MoreArguments(tool, params, i + 1, w[1..]))
         || (!params[i] && Arguments(tool, params, i + 1, w))
  {
    hide Selection;
    if sel :| IsArguments(tool, params, i, sel, w) {
      SelectionStep(params, i, sel);
      if sel != [] && sel[0] == i {
        assert IsMore(tool, params, i + 1, sel[1..], w[1..]);
      } else {
        assert IsArguments(tool, params, i + 1, sel, w);
      }
    }
    if w != [] && w[0] == Argument(tool, i) && MoreArguments(tool, params, i + 1, w[1..]) {
      var sel :| IsMore(tool, params, i + 1, sel, w[1..]);
      SelectionCons(params, i, sel);
      assert ([i] + sel)[1..] == sel && w == [w[0]] + w[1..];
      assert IsArguments(tool, params, i, [i] + sel, w);
    }
    if !params[i] && Arguments(tool, params, i + 1, w) {
      var sel :| IsArguments(tool, params, i + 1, sel, w);
      SelectionSkip(params, i, sel);
      assert IsArguments(tool, params, i, sel, w);
    }
  }

  lemma MoreSplit(tool: nat, params: Parameters, i: nat, w: seq<Token>)
    requires i < |params|
    ensures MoreArguments(tool, params, i, w)
    <==> (|w| >= 2 && w[0] == ValEnd && w[1] == Argument(tool, i) && MoreArguments(tool, params, i + 1, w[1..][1..]))
         || (!params[i] && MoreArguments(tool, params, i + 1, w))
  {
    hide Selection;
    if sel :| IsMore(tool, params, i, sel, w) {
      SelectionStep(params, i, sel);
      if sel != [] && sel[0] == i {
        assert w[1..][1..] == RenderMore(tool, sel[1..]);
        assert IsMore(tool, params, i + 1, sel[1..], w[1..][1..]);
      } else {
        assert IsMore(tool, params, i + 1, sel, w);
      }
    }
    if |w| >= 2 && w[0] == ValEnd && w[1] == Argument(tool, i) && MoreArguments(tool, params, i + 1, w[1..][1..]) {
      var sel :| IsMore(tool, params, i + 1, sel, w[1..][1..]);
      SelectionCons(params, i, sel);
      assert ([i] + sel)[1..] == sel && w == [ValEnd, Argument(tool, i)] + w[1..][1..];
      assert IsMore(tool, params, i, [i] + sel, w);
    }
    if !params[i] && MoreArguments(tool, params, i + 1, w) {
      var sel :| IsMore(tool, params, i + 1, sel, w);
      SelectionSkip(params, i, sel);
      assert IsMore(tool, params, i, sel, w);
    }
  }

  lemma {:induction false} RenderMoreInjective(tool: nat, a: seq<nat>, b: seq<nat>, x: seq<Token>, y: seq<Token>)
    requires RenderMore(tool, a) + x == RenderMore(tool, b) + y
    ensures a == b && x == y
    decreases |a|
  {
    var p, q := RenderMore(tool, a), RenderMore(tool, b);
    assert (p + x)[0] == p[0] && (q + y)[0] == q[0];
    if a == [] {
      assert x == (p + x)[1..] && y == (q + y)[1..];
    } else {
      assert (p + x)[1] == p[1] && (q + y)[1] == q[1];
      assert (p + x)[2..] == RenderMore(tool, a[1..]) + x;
      assert (q + y)[2..] == RenderMore(tool, b[1..]) + y;
      RenderMoreInjective(tool, a[1..], b[1..], x, y);
      assert a == [a[0]] + a[1..] && b == [b[0]] + b[1..];
    }
  }

  /** An argument list can be read in one way only. */
  lemma ArgumentsUnambiguous(tool: nat, a: seq<nat>, b: seq<nat>)
    requires RenderArguments(tool, a) == RenderArguments(tool, b)
    ensures a == b
  {
    if a != [] {
      var w := RenderArguments(tool, a);
      assert w[0] == Argument(tool, a[0]) == Argument(tool, b[0]);
      assert w[1..] == RenderMore(tool, a[1..]) == RenderMore(tool, b[1..]);
      assert w[1..] + [] == w[1..];
      RenderMoreInjective(tool, a[1..], b[1..], [], []);
      assert a == [a[0]] + a[1..] && b == [b[0]] + b[1..];
    }
  }

  // --- The chain of call rules -----------------------------------------------------------------------

  datatype Call = Call(tool: nat, sel: seq<nat>)

  function CallRule(tool: nat, params: Parameters): Rx<Token> {
    Cat(Literal(CallHead(tool)), ChainFrom(tool, params, 0).nextArg)
  }

  /** `root-tool-call-once`; with no usable tool at all the rule has an empty body. */
  function CallOnce(tools: seq<Parameters>): Rx<Token> {
    if tools == [] then Epsilon
    else OneOf(seq(|tools|, t requires 0 <= t < |tools| => CallRule(t, tools[t])))
  }

  function CallMore(tools: seq<Parameters>): Rx<Token> {
    Cat(Literal(ToolEnd), CallOnce(tools))
  }

  function Root(tools: seq<Parameters>, scopeStart: bool, scopeEnd: bool): Rx<Token> {
    var optional := OneOf([WithEnd(tools), Epsilon]);
    Cat(if scopeStart then Literal(ScopeStart) else Epsilon,
      Cat(optional, if scopeEnd then Literal(ScopeEnd) else Epsilon))
  }

  ghost predicate ValidCall(tools: seq<Parameters>, call: Call) {
    call.tool < |tools| && Selection(tools[call.tool], 0, call.sel)
  }

  ghost predicate ValidCalls(tools: seq<Parameters>, calls: seq<Call>) {
    forall i :: 0 <= i < |calls| ==> ValidCall(tools, calls[i])
  }

  function RenderCall(call: Call): seq<Token> {
    [CallHead(call.tool)] + RenderArguments(call.tool, call.sel)
  }

  function RenderMoreCalls(calls: seq<Call>): seq<Token> {
    if calls == [] then [] else [ToolEnd] + RenderCall(calls[0]) + RenderMoreCalls(calls[1..])
  }

  /** A sequence of calls, separated by `tool_end` and closed by the end of the last call. */
  function RenderCalls(calls: seq<Call>): seq<Token> {
    if calls == [] then [] else RenderCall(calls[0]) + RenderMoreCalls(calls[1..]) + [CallEnd]
  }

  function Scoped(scopeStart: bool, scopeEnd: bool, w: seq<Token>): seq<Token> {
    (if scopeStart then [ScopeStart] else []) + w + (if scopeEnd then [ScopeEnd] else [])
  }

  ghost predicate IsCall(tools: seq<Parameters>, call: Call, w: seq<Token>) {
    ValidCall(tools, call) && w == RenderCall(call)
  }

  ghost predicate IsMoreCalls(tools: seq<Parameters>, calls: seq<Call>, w: seq<Token>) {
    ValidCalls(tools, calls) && w == RenderMoreCalls(calls)
  }

  ghost predicate IsScopedCalls(tools: seq<Parameters>, calls: seq<Call>, scopeStart: bool, scopeEnd: bool, w: seq<Token>) {
    ValidCalls(tools, calls) && w == Scoped(scopeStart, scopeEnd, RenderCalls(calls))
  }

  lemma {:induction false} CallLanguage(tools: seq<Parameters>, w: seq<Token>)
    requires tools != []
    ensures In(w, CallOnce(tools)) <==> exists call :: IsCall(tools, call, w)
  {
    var alts := seq(|tools|, t requires 0 <= t < |tools| => CallRule(t, tools[t]));
    if In(w, OneOf(alts)) {
      var t :| 0 <= t < |alts| && In(w, alts[t]);
      InLiteralCat(w, CallHead(t), ChainFrom(t, tools[t], 0).nextArg);
      ChainLanguage(t, tools[t], 0, w[1..]);
      var sel :| IsArguments(t, tools[t], 0, sel, w[1..]);
      assert IsCall(tools, Call(t, sel), w);
    }
    if call :| IsCall(tools, call, w) {
      var t := call.tool;
      InLiteralCat(w, CallHead(t), ChainFrom(t, tools[t], 0).nextArg);
      assert IsArguments(t, tools[t], 0, call.sel, w[1..]);
      ChainLanguage(t, tools[t], 0, w[1..]);
      assert In(w, alts[t]);
    }
  }

  lemma MoreLanguage(tools: seq<Parameters>, w: seq<Token>)
    requires tools != []
    ensures In(w, CallMore(tools)) <==> w != [] && w[0] == ToolEnd && exists call :: IsCall(tools, call, w[1..])
  {
    InLiteralCat(w, ToolEnd, CallOnce(tools));
    if w != [] {
      CallLanguage(tools, w[1..]);
    }
  }

  lemma {:induction false} MoreCallsLanguage(tools: seq<Parameters>, w: seq<Token>)
    requires tools != []
    ensures In(w, Star(CallMore(tools))) <==> exists calls :: IsMoreCalls(tools, calls, w)
    decreases |w|
  {
    hide ValidCall, CallMore, RenderCall, In;
    var more := CallMore(tools);
    if w == [] {
      StarOfNothing(more);
      assert IsMoreCalls(tools, [], w);
    } else {
      if In(w, Star(more)) {
        var k := StarFirst(more, w);
        MoreLanguage(tools, w[..k]);
        MoreCallsLanguage(tools, w[k..]);
        var call :| IsCall(tools, call, w[..k][1..]);
        var calls :| IsMoreCalls(tools, calls, w[k..]);
        assert ([call] + calls)[1..] == calls;
        assert w == [ToolEnd] + w[..k][1..] + w[k..];
        assert IsMoreCalls(tools, [call] + calls, w);
      }
      if calls :| IsMoreCalls(tools, calls, w) {
        var k := MoreCallsFirst(tools, calls, w);
        MoreLanguage(tools, w[..k]);
        MoreCallsLanguage(tools, w[k..]);
        StarJoin(more, w, k);
      }
    }
  }

  lemma MoreCallsFirst(tools: seq<Parameters>, calls: seq<Call>, w: seq<Token>) returns (k: nat)
    requires w != [] && IsMoreCalls(tools, calls, w)
    ensures 0 < k <= |w| && w[..k] != [] && w[..k][0] == ToolEnd && calls != []
    ensures IsCall(tools, calls[0], w[..k][1..]) && IsMoreCalls(tools, calls[1..], w[k..])
  {
    hide ValidCall, RenderCall;
    var first := [ToolEnd] + RenderCall(calls[0]);
    k := |first|;
    assert w[..k] == first && w[k..] == RenderMoreCalls(calls[1..]);
    assert first[1..] == RenderCall(calls[0]);
  }

  function WithEnd(tools: seq<Parameters>): Rx<Token> {
    Cat(CallOnce(tools), Cat(Star(CallMore(tools)), Literal(CallEnd)))
  }

  lemma WithEndReads(tools: seq<Parameters>, w: seq<Token>) returns (calls: seq<Call>)
    requires tools != [] && In(w, WithEnd(tools))
    ensures calls != [] && ValidCalls(tools, calls) && w == RenderCalls(calls)
  {
    hide ValidCall, CallMore, CallOnce, RenderCall, In;
    var once, more, end := CallOnce(tools), CallMore(tools), Literal(CallEnd);
    var a, rest := CatElim(w, once, Cat(Star(more), end));
    var b, c := CatElim(rest, Star(more), end);
    CallLanguage(tools, a);
    MoreCallsLanguage(tools, b);
    InEpsilonOr(c, true, CallEnd);
    var first :| IsCall(tools, first, a);
    var others :| IsMoreCalls(tools, others, b);
    calls := [first] + others;
    assert calls[1..] == others;
    assert w == a + b + c;
  }

  lemma WithEndWrites(tools: seq<Parameters>, calls: seq<Call>)
    requires tools != [] && calls != [] && ValidCalls(tools, calls)
    ensures In(RenderCalls(calls), WithEnd(tools))
  {
    hide ValidCall, CallMore, CallOnce, RenderCall, In;
    var once, more, end := CallOnce(tools), CallMore(tools), Literal(CallEnd);
    var a, b := RenderCall(calls[0]), RenderMoreCalls(calls[1..]);
    assert IsCall(tools, calls[0], a) && IsMoreCalls(tools, calls[1..], b);
    CallLanguage(tools, a);
    MoreCallsLanguage(tools, b);
    InEpsilonOr([CallEnd], true, CallEnd);
    CatIntro(b, [CallEnd], Star(more), end);
    CatIntro(a, b + [CallEnd], once, Cat(Star(more), end));
    assert a + b + [CallEnd] == a + (b + [CallEnd]);
  }

  lemma InEpsilonOr(w: seq<Token>, present: bool, t: Token)
    ensures In(w, if present then Literal(t) else Epsilon) <==> w == if present then [t] else []
  {
  }

  /** The grammar of a whole answer: an optional sequence of calls inside the scope, each call a
      tool with one of its argument selections. */
  lemma RootLanguage(tools: seq<Parameters>, scopeStart: bool, scopeEnd: bool, w: seq<Token>)
    requires tools != []
    ensures In(w, Root(tools, scopeStart, scopeEnd))
       <==> exists calls :: IsScopedCalls(tools, calls, scopeStart, scopeEnd, w)
  {
    hide In, ValidCalls, RenderCalls, Scoped, Root, WithEnd;
    if In(w, Root(tools, scopeStart, scopeEnd)) {
      var m := ScopeReads(tools, scopeStart, scopeEnd, w);
      var calls := OptionalCalls(tools, m);
      assert IsScopedCalls(tools, calls, scopeStart, scopeEnd, w);
    }
    if calls :| IsScopedCalls(tools, calls, scopeStart, scopeEnd, w) {
      CallsAreOptional(tools, calls);
      ScopeWrites(tools, scopeStart, scopeEnd, RenderCalls(calls));
    }
  }

  lemma ScopeReads(tools: seq<Parameters>, scopeStart: bool, scopeEnd: bool, w: seq<Token>) returns (m: seq<Token>)
    requires In(w, Root(tools, scopeStart, scopeEnd))
    ensures In(m, OneOf([WithEnd(tools), Epsilon])) && w == Scoped(scopeStart, scopeEnd, m)
  {
    hide WithEnd, In;
    var optional := OneOf([WithEnd(tools), Epsilon]);
    var open: Rx<Token> := if scopeStart then Literal(ScopeStart) else Epsilon;
    var close: Rx<Token> := if scopeEnd then Literal(ScopeEnd) else Epsilon;
    var o, rest := CatElim(w, open, Cat(optional, close));
    var c;
    m, c := CatElim(rest, optional, close);
    InEpsilonOr(o, scopeStart, ScopeStart);
    InEpsilonOr(c, scopeEnd, ScopeEnd);
    assert w == o + m + c;
  }

  lemma ScopeWrites(tools: seq<Parameters>, scopeStart: bool, scopeEnd: bool, m: seq<Token>)
    requires In(m, OneOf([WithEnd(tools), Epsilon]))
    ensures In(Scoped(scopeStart, scopeEnd, m), Root(tools, scopeStart, scopeEnd))
  {
    hide WithEnd, In;
    var optional := OneOf([WithEnd(tools), Epsilon]);
    var open: Rx<Token> := if scopeStart then Literal(ScopeStart) else Epsilon;
    var close: Rx<Token> := if scopeEnd then Literal(ScopeEnd) else Epsilon;
    var o := if scopeStart then [ScopeStart] else [];
    var c := if scopeEnd then [ScopeEnd] else [];
    InEpsilonOr(o, scopeStart, ScopeStart);
    InEpsilonOr(c, scopeEnd, ScopeEnd);
    CatIntro(m, c, optional, close);
    CatIntro(o, m + c, open, Cat(optional, close));
    assert Scoped(scopeStart, scopeEnd, m) == o + (m + c);
  }

  predicate OnlyToolEnds(w: seq<Token>) {
    forall i :: 0 <= i < |w| ==> w[i] == ToolEnd
  }

  /** What the call rules generate without a usable tool: nothing, or ends of calls that are not there. */
  predicate Callless(m: seq<Token>) {
    m == [] || (m[|m| - 1] == CallEnd && OnlyToolEnds(m[..|m| - 1]))
  }

  lemma {:induction false} ToolEndsLanguage(w: seq<Token>)
    ensures In(w, Star(CallMore([]))) <==> OnlyToolEnds(w)
    decreases |w|
  {
    var more := CallMore([]);
    if w != [] {
      forall k | 0 < k <= |w|
        ensures In(w[..k], more) <==> k == 1 && w[0] == ToolEnd
      {
        InLiteralCat(w[..k], ToolEnd, Epsilon);
      }
      ToolEndsLanguage(w[1..]);
      assert OnlyToolEnds(w) <==> w[0] == ToolEnd && OnlyToolEnds(w[1..]) by {
        assert w == [w[0]] + w[1..];
      }
    }
  }

  lemma CalllessReads(m: seq<Token>)
    requires In(m, WithEnd([]))
    ensures Callless(m)
  {
    hide In, CallMore, OnlyToolEnds;
    var a, rest := CatElim(m, Epsilon, Cat(Star(CallMore([])), Literal(CallEnd)));
    var b, c := CatElim(rest, Star(CallMore([])), Literal(CallEnd));
    InEpsilonOr(a, false, CallEnd);
    InEpsilonOr(c, true, CallEnd);
    ToolEndsLanguage(b);
    assert m == b + [CallEnd];
  }

  lemma CalllessWrites(m: seq<Token>)
    requires m != [] && Callless(m)
    ensures In(m, WithEnd([]))
  {
    hide In, CallMore, OnlyToolEnds;
    var b := m[..|m| - 1];
    ToolEndsLanguage(b);
    InEpsilonOr([], false, CallEnd);
    InEpsilonOr([CallEnd], true, CallEnd);
    CatIntro(b, [CallEnd], Star(CallMore([])), Literal(CallEnd));
    CatIntro([], b + [CallEnd], Epsilon, Cat(Star(CallMore([])), Literal(CallEnd)));
    assert m == [] + (b + [CallEnd]);
  }

  lemma CalllessLanguage(m: seq<Token>)
    ensures In(m, OneOf([WithEnd([]), Epsilon])) <==> Callless(m)
  {
    hide In, WithEnd;
    InPair(m, WithEnd([]), Epsilon);
    InEpsilonOr(m, false, CallEnd);
    if In(m, WithEnd([])) {
      CalllessReads(m);
    }
    if m != [] && Callless(m) {
      CalllessWrites(m);
    }
  }

  /** The same grammar when no tool is usable: the call rule has an empty body, and no call can be written. */
  lemma RootWithoutTools(scopeStart: bool, scopeEnd: bool, w: seq<Token>)
    ensures In(w, Root([], scopeStart, scopeEnd)) <==> exists m :: Callless(m) && w == Scoped(scopeStart, scopeEnd, m)
  {
    hide In, Callless, Scoped, Root, WithEnd;
    if In(w, Root([], scopeStart, scopeEnd)) {
      var m := ScopeReads([], scopeStart, scopeEnd, w);
      CalllessLanguage(m);
    }
    if m :| Callless(m) && w == Scoped(scopeStart, scopeEnd, m) {
      CalllessLanguage(m);
      ScopeWrites([], scopeStart, scopeEnd, m);
    }
  }

  lemma OptionalCalls(tools: seq<Parameters>, w: seq<Token>) returns (calls: seq<Call>)
    requires tools != [] && In(w, OneOf([WithEnd(tools), Epsilon]))
    ensures ValidCalls(tools, calls) && w == RenderCalls(calls)
  {
    hide WithEnd;
    InPair(w, WithEnd(tools), Epsilon);
    if In(w, WithEnd(tools)) {
      calls := WithEndReads(tools, w);
    } else {
      calls := [];
    }
  }

  lemma CallsAreOptional(tools: seq<Parameters>, calls: seq<Call>)
    requires tools != [] && ValidCalls(tools, calls)
    ensures In(RenderCalls(calls), OneOf([WithEnd(tools), Epsilon]))
  {
    hide WithEnd;
    InPair(RenderCalls(calls), WithEnd(tools), Epsilon);
    if calls != [] {
      WithEndWrites(tools, calls);
    }
  }
}
