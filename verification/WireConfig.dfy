/** The line-level rewrite that wires keys into one table of a TOML file. */
module WireConfig {
  import opened Wrappers
  import opened TextSearch

  datatype TomlValue = Bool(b: bool) | Int(n: int) | Str(s: string)

  /** A key and its new value; the keys of a rewrite are distinct, in the order of the dictionary. */
  datatype Setting = Setting(key: string, value: TomlValue)

  const MODEL_KEY := "PERSONA_MODEL"

  // --- Text --------------------------------------------------------------------------------------------------

  function Digits(n: nat): (s: string)
    ensures s != "" && forall i :: 0 <= i < |s| ==> '0' <= s[i] <= '9'
  {
    var last := [('0' as int + n % 10) as char];
    if n < 10 then last else Digits(n / 10) + last
  }

  function Decimal(n: int): string {
    if n < 0 then "-" + Digits(-n) else Digits(n)
  }

  /** `_toml_value`. */
  function Toml(v: TomlValue): string {
    match v
    case Bool(b) => if b then "true" else "false"
    case Int(n) => Decimal(n)
    case Str(s) => "\"" + s + "\""
  }

  /** `str(v)`. */
  function Shown(v: TomlValue): string {
    match v
    case Bool(b) => if b then "True" else "False"
    case Int(n) => Decimal(n)
    case Str(s) => s
  }

  function Written(entry: Setting): string {
    entry.key + " = " + Toml(entry.value)
  }

  /** The index of the first `=`. */
  function Equals(s: string): (i: nat)
    ensures i <= |s|
    ensures i < |s| ==> s[i] == '='
    ensures forall j :: 0 <= j < i ==> s[j] != '='
  {
    if s == "" then 0 else if s[0] == '=' then 0 else 1 + Equals(s[1..])
  }

  /** The key a line sets, if it is neither a comment nor without an `=`. */
  function KeyOf(line: string): Option<string> {
    var stripped := Strip(line);
    if Equals(stripped) < |stripped| && stripped[0] != '#' then Some(Strip(stripped[..Equals(stripped)])) else None
  }

  function QuotesEnd(s: string, lo: nat, hi: nat): (r: nat)
    requires lo <= hi <= |s|
    ensures lo <= r <= hi
  {
    if lo < hi && s[hi - 1] == '"' then QuotesEnd(s, lo, hi - 1) else hi
  }

  function QuotesStart(s: string, lo: nat): (r: nat)
    requires lo <= |s|
    ensures lo <= r <= |s|
    decreases |s| - lo
  {
    if lo < |s| && s[lo] == '"' then QuotesStart(s, lo + 1) else lo
  }

  /** `strip('"')`. */
  function StripQuotes(s: string): string {
    var lo := QuotesStart(s, 0);
    s[lo..QuotesEnd(s, lo, |s|)]
  }

  /** The value part of a line with an `=`, without whitespace and quotes around it. */
  function OldValue(line: string): string
    requires KeyOf(line).Some?
  {
    var stripped := Strip(line);
    StripQuotes(Strip(stripped[Equals(stripped) + 1..]))
  }

  function Breadcrumb(line: string): string {
    "# was: " + Strip(line) + "   (provision rollback)"
  }

  // --- The rewrite of a section body ---------------------------------------------------------------------------

  function IndexOf(kv: seq<Setting>, key: string): (i: nat)
    ensures i <= |kv|
    ensures i < |kv| ==> kv[i].key == key
    ensures forall j :: 0 <= j < i ==> kv[j].key != key
  {
    if kv == [] then 0 else if kv[0].key == key then 0 else 1 + IndexOf(kv[1..], key)
  }

  /** The setting a line is replaced for, as a position among those still to be set. */
  function Matching(line: string, kv: seq<Setting>): (r: Option<nat>)
    ensures r.Some? ==> r.value < |kv| && KeyOf(line) == Some(kv[r.value].key)
    ensures r.None? ==> forall i :: 0 <= i < |kv| ==> KeyOf(line) != Some(kv[i].key)
  {
    if KeyOf(line).None? then None
    else
      var i := IndexOf(kv, KeyOf(line).value);
      if i < |kv| then Some(i) else None
  }

  function Without(kv: seq<Setting>, i: nat): seq<Setting>
    requires i < |kv|
  {
    kv[..i] + kv[i + 1..]
  }

  /** The lines one line turns into. */
  function Rewritten(line: string, kv: seq<Setting>): seq<string> {
    match Matching(line, kv)
    case None => [line]
    case Some(i) =>
      (if kv[i].key == MODEL_KEY && OldValue(line) != Shown(kv[i].value) then [Breadcrumb(line)] else []) +
      [Written(kv[i])]
  }

  function StillToSet(line: string, kv: seq<Setting>): seq<Setting> {
    match Matching(line, kv)
    case None => kv
    case Some(i) => Without(kv, i)
  }

  /** The body after all its lines were looked at, and the settings no line was found for. */
  function Pass(body: seq<string>, kv: seq<Setting>): (r: (seq<string>, seq<Setting>))
    decreases |body|
  {
    if body == [] then ([], kv)
    else
      var (rest, left) := Pass(body[1..], StillToSet(body[0], kv));
      (Rewritten(body[0], kv) + rest, left)
  }

  function Added(kv: seq<Setting>): (r: seq<string>)
    ensures |r| == |kv|
  {
    seq(|kv|, i requires 0 <= i < |kv| => Written(kv[i]))
  }

  predicate IsBlankLine(line: string) {
    Strip(line) == ""
  }

  /** Where the blank lines at the end begin. */
  function TailStart(body: seq<string>): (t: nat)
    ensures t <= |body|
    ensures forall i :: t <= i < |body| ==> IsBlankLine(body[i])
    ensures t > 0 ==> !IsBlankLine(body[t - 1])
  {
    if body != [] && IsBlankLine(body[|body| - 1]) then TailStart(body[..|body| - 1]) else |body|
  }

  /** Missing settings are added in front of the blank lines that end the section. */
  function NewBody(body: seq<string>, kv: seq<Setting>): seq<string> {
    var (out, left) := Pass(body, kv);
    var t := TailStart(out);
    out[..t] + Added(left) + out[t..]
  }

  // --- The rewrite of a file -------------------------------------------------------------------------------------

  /** The first line that is the header of the section. */
  function FindHeader(lines: seq<string>, header: string): (i: nat)
    ensures i <= |lines|
    ensures i < |lines| ==> Strip(lines[i]) == header
    ensures forall j :: 0 <= j < i ==> Strip(lines[j]) != header
  {
    if lines == [] then 0 else if Strip(lines[0]) == header then 0 else 1 + FindHeader(lines[1..], header)
  }

  predicate OpensTable(line: string) {
    line != "" && line[0] == '['
  }

  /** The first line from `i` on that opens a table. */
  function SectionEnd(lines: seq<string>, i: nat): (e: nat)
    requires i <= |lines|
    ensures i <= e <= |lines|
    ensures forall j :: i <= j < e ==> !OpensTable(lines[j])
    ensures e < |lines| ==> OpensTable(lines[e])
    decreases |lines| - i
  {
    if i < |lines| && !OpensTable(lines[i]) then SectionEnd(lines, i + 1) else i
  }

  /** The lines between the header and the next table. */
  function SectionBody(lines: seq<string>, header: string): seq<string>
    requires FindHeader(lines, header) < |lines|
  {
    var start := FindHeader(lines, header);
    lines[start + 1..SectionEnd(lines, start + 1)]
  }

  function Header(tag: string): string {
    "[" + tag + "]"
  }

  /** `wire_config` on the list of lines. */
  function WireLines(lines: seq<string>, tag: string, kv: seq<Setting>): seq<string> {
    var start := FindHeader(lines, Header(tag));
    if start == |lines| then
      lines + (if lines != [] && !IsBlankLine(lines[|lines| - 1]) then [""] else []) + [Header(tag)] + Added(kv)
    else
      WithBody(lines, start + 1, SectionEnd(lines, start + 1), kv)
  }

  /** The lines with the body from `begin` to `end` rewritten. */
  function WithBody(lines: seq<string>, begin: nat, end: nat, kv: seq<Setting>): seq<string>
    requires begin <= end <= |lines|
  {
    lines[..begin] + NewBody(lines[begin..end], kv) + lines[end..]
  }

  method Wire(lines: seq<string>, tag: string, kv: seq<Setting>) returns (newLines: seq<string>)
    ensures newLines == WireLines(lines, tag, kv)
  {
    hide Strip, Header, FindHeader, SectionEnd, WireLines, Added, NewBody, OpensTable, IsBlankLine;
    var section := Header(tag);
    var start := 0;
    while start < |lines| && Strip(lines[start]) != section
      invariant 0 <= start <= |lines|
      invariant forall j :: 0 <= j < start ==> Strip(lines[j]) != section
    {
      start := start + 1;
    }
    FindHeaderIs(lines, section, start);
    if start == |lines| {
      WiredWhenMissing(lines, tag, kv);
      var block := if lines != [] && !IsBlankLine(lines[|lines| - 1]) then [""] else [];
      block := block + [section];
      var lines' := AddAll(lines + block, kv);
      assert lines + block == lines + block[..|block| - 1] + [section];
      return lines';
    }
    var end := start + 1;
    while end < |lines| && !OpensTable(lines[end])
      invariant start + 1 <= end <= |lines|
      invariant forall j :: start + 1 <= j < end ==> !OpensTable(lines[j])
    {
      end := end + 1;
    }
    SectionEndAt(lines, start + 1, end);
    WiredInPlace(lines, tag, kv);
    var body := RewriteBody(lines[start + 1..end], kv);
    newLines := lines[..start + 1] + body + lines[end..];
  }

  method AddAll(out: seq<string>, kv: seq<Setting>) returns (r: seq<string>)
    ensures r == out + Added(kv)
  {
    r := out;
    for i := 0 to |kv|
      invariant r == out + Added(kv[..i])
    {
      assert Added(kv[..i + 1]) == Added(kv[..i]) + [Written(kv[i])];
      r := r + [Written(kv[i])];
    }
    assert kv[..|kv|] == kv;
  }

  /** The loops over the body: replacing lines, setting trailing blank lines aside, adding. */
  method RewriteBody(body: seq<string>, kv: seq<Setting>) returns (newBody: seq<string>)
    ensures newBody == NewBody(body, kv)
  {
    hide Written, IsBlankLine, Pass;
    var out, remaining := ReplaceLines(body, kv);
    newBody := out;
    var tail := [];
    while newBody != [] && IsBlankLine(newBody[|newBody| - 1])
      invariant newBody + tail == out && newBody == out[..|newBody|]
      invariant TailStart(newBody) == TailStart(out)
      decreases |newBody|
    {
      var last := |newBody| - 1;
      tail := [newBody[last]] + tail;
      newBody := newBody[..last];
    }
    assert tail == out[|newBody|..];
    newBody := AddAll(newBody, remaining);
    newBody := newBody + tail;
  }

  method ReplaceLines(body: seq<string>, kv: seq<Setting>) returns (newBody: seq<string>, remaining: seq<Setting>)
    ensures (newBody, remaining) == Pass(body, kv)
  {
    hide Pass, Rewritten, StillToSet;
    remaining := kv;
    newBody := [];
    var i := 0;
    PassNothing(body, kv);
    while i < |body|
      invariant 0 <= i <= |body|
      invariant Pass(body, kv) == (newBody + Pass(body[i..], remaining).0, Pass(body[i..], remaining).1)
    {
      PassStep(newBody, body, i, remaining);
      newBody, remaining := ReplaceLine(newBody, body[i], remaining);
      i := i + 1;
    }
    PassOver(body[i..], remaining);
    assert newBody + [] == newBody;
  }

  /** The body of the loop: one line, replaced if it sets something. */
  method ReplaceLine(newBody: seq<string>, line: string, remaining: seq<Setting>)
      returns (newBody': seq<string>, remaining': seq<Setting>)
    ensures newBody' == newBody + Rewritten(line, remaining) && remaining' == StillToSet(line, remaining)
  {
    hide KeyOf, Written, OldValue, Shown, Breadcrumb, Matching;
    newBody', remaining' := newBody, remaining;
    var m := Matching(line, remaining);
    if m.Some? {
      var v := remaining[m.value];
      if v.key == MODEL_KEY && OldValue(line) != Shown(v.value) {
        newBody' := newBody' + [Breadcrumb(line)];
      }
      newBody' := newBody' + [Written(v)];
      remaining' := remaining[..m.value] + remaining[m.value + 1..];
    } else {
      newBody' := newBody' + [line];
    }
  }

  lemma PassOver(rest: seq<string>, kv: seq<Setting>)
    requires rest == []
    ensures Pass(rest, kv) == ([], kv)
  {
  }

  lemma PassNothing(body: seq<string>, kv: seq<Setting>)
    ensures Pass(body, kv) == ([] + Pass(body[0..], kv).0, Pass(body[0..], kv).1)
  {
    assert body[0..] == body && [] + Pass(body, kv).0 == Pass(body, kv).0;
  }

  lemma PassStep(done: seq<string>, body: seq<string>, i: nat, kv: seq<Setting>)
    requires i < |body|
    ensures var rest := Pass(body[i + 1..], StillToSet(body[i], kv));
            (done + Pass(body[i..], kv).0, Pass(body[i..], kv).1) == (done + Rewritten(body[i], kv) + rest.0, rest.1)
  {
    hide Rewritten, StillToSet;
    assert body[i..][0] == body[i] && body[i..][1..] == body[i + 1..];
    var r, rest := Rewritten(body[i], kv), Pass(body[i + 1..], StillToSet(body[i], kv)).0;
    assert done + (r + rest) == done + r + rest;
  }

  // --- What a rewrite does ---------------------------------------------------------------------------------------

  predicate PlainChar(c: char) {
    'a' <= c <= 'z' || 'A' <= c <= 'Z' || '0' <= c <= '9' || c == '_' || c == '-'
  }

  /** A bare TOML key. */
  predicate PlainKey(key: string) {
    key != "" && forall i :: 0 <= i < |key| ==> PlainChar(key[i])
  }

  /** Distinct bare keys; the model file is a string without quotes. */
  predicate GoodSettings(kv: seq<Setting>) {
    (forall i :: 0 <= i < |kv| ==> PlainKey(kv[i].key)) &&
    (forall i, j :: 0 <= i < j < |kv| ==> kv[i].key != kv[j].key) &&
    (forall i :: 0 <= i < |kv| && kv[i].key == MODEL_KEY ==> kv[i].value.Str? && '"' !in kv[i].value.s)
  }

  lemma TomlEnds(v: TomlValue)
    ensures Toml(v) != "" && !IsSpace(Toml(v)[0]) && !IsSpace(Toml(v)[|Toml(v)| - 1])
  {
  }

  lemma EqualsAt(s: string, i: nat)
    requires i < |s| && s[i] == '=' && forall j :: 0 <= j < i ==> s[j] != '='
    ensures Equals(s) == i
  {
  }

  /** A written line is read back as a line for its key, with its value. */
  lemma {:induction false} WrittenReads(entry: Setting)
    requires PlainKey(entry.key)
    ensures KeyOf(Written(entry)) == Some(entry.key) && !OpensTable(Written(entry)) && !IsBlankLine(Written(entry))
    ensures Strip(Written(entry)) == Written(entry)
    ensures Equals(Written(entry)) == |entry.key| + 1
  {
    hide Toml;
    var key, v := entry.key, Toml(entry.value);
    var line := Written(entry);
    TomlEnds(entry.value);
    assert line == key + " = " + v && line[0] == key[0] && line[|line| - 1] == v[|v| - 1];
    StripIsTheTrimmedMiddle(line, 0, |line|);
    assert line[0..|line|] == line;
    var n := |key| + 1;
    assert line[n] == '=' && forall j :: 0 <= j < n ==> line[j] == (key + " ")[j];
    EqualsAt(line, n);
    assert line[..n] == key + " ";
    StripIsTheTrimmedMiddle(key + " ", 0, |key|);
    assert (key + " ")[0..|key|] == key;
  }

  lemma {:induction false} QuotesEndAt(s: string, lo: nat, mid: nat, hi: nat)
    requires lo <= mid <= hi <= |s|
    requires (forall i :: mid <= i < hi ==> s[i] == '"') && (lo < mid ==> s[mid - 1] != '"')
    ensures QuotesEnd(s, lo, hi) == mid
    decreases hi
  {
    if mid < hi {
      QuotesEndAt(s, lo, mid, hi - 1);
    }
  }

  lemma StripQuotesOf(s: string)
    requires '"' !in s
    ensures StripQuotes("\"" + s + "\"") == s
  {
    var q := "\"" + s + "\"";
    assert q[1..|q| - 1] == s;
    if s == "" {
      assert q == ['"', '"'];
      assert QuotesStart(q, 2) == 2 && QuotesStart(q, 1) == 2 && QuotesStart(q, 0) == 2;
    } else {
      assert q[1] == s[0] && q[|s|] == s[|s| - 1];
      assert QuotesStart(q, 1) == 1;
      QuotesEndAt(q, 1, |s| + 1, |q|);
    }
  }

  /** A line that was just written carries the value it was written with. */
  lemma WrittenValue(entry: Setting)
    requires PlainKey(entry.key) && entry.value.Str? && '"' !in entry.value.s
    ensures KeyOf(Written(entry)).Some? && OldValue(Written(entry)) == Shown(entry.value)
  {
    WrittenReads(entry);
    WrittenBehind(entry);
    hide KeyOf, Written, Strip, StripQuotes, Equals, Toml;
    assert OldValue(Written(entry)) == StripQuotes(Toml(entry.value));
    StripQuotesOf(entry.value.s);
    QuotedToml(entry.value);
  }

  lemma QuotedToml(v: TomlValue)
    requires v.Str?
    ensures Toml(v) == "\"" + v.s + "\"" && Shown(v) == v.s
  {
  }

  /** What follows the equals sign of a written line. */
  lemma WrittenBehind(entry: Setting)
    requires PlainKey(entry.key)
    ensures |Written(entry)| >= |entry.key| + 2 && Strip(Written(entry)[|entry.key| + 2..]) == Toml(entry.value)
  {
    hide Strip, Toml;
    var v := Toml(entry.value);
    TomlEnds(entry.value);
    var rest := Written(entry)[|entry.key| + 2..];
    assert rest == " " + v;
    StripIsTheTrimmedMiddle(rest, 1, |rest|);
    assert rest[1..|rest|] == v;
  }

  lemma BreadcrumbIsComment(line: string)
    ensures KeyOf(Breadcrumb(line)).None? && !OpensTable(Breadcrumb(line)) && !IsBlankLine(Breadcrumb(line))
  {
    hide Strip;
    var s := Breadcrumb(line);
    assert s[0] == '#' && s[|s| - 1] == ')';
    StripIsTheTrimmedMiddle(s, 0, |s|);
    assert s[0..|s|] == s;
  }

  lemma BlankHasNoKey(line: string)
    requires IsBlankLine(line)
    ensures KeyOf(line).None?
  {
  }

  lemma {:induction false} IndexUnique(kv: seq<Setting>, i: nat)
    requires i < |kv| && forall j, k :: 0 <= j < k < |kv| ==> kv[j].key != kv[k].key
    ensures IndexOf(kv, kv[i].key) == i
  {
    var f := IndexOf(kv, kv[i].key);
    assert f <= i;
  }

  lemma WithoutIndices(kv: seq<Setting>, m: nat)
    requires m < |kv|
    ensures |Without(kv, m)| == |kv| - 1
    ensures forall i :: 0 <= i < |kv| - 1 ==> Without(kv, m)[i] == if i < m then kv[i] else kv[i + 1]
  {
  }

  lemma WithoutGood(kv: seq<Setting>, m: nat)
    requires GoodSettings(kv) && m < |kv|
    ensures GoodSettings(Without(kv, m))
  {
    WithoutIndices(kv, m);
    hide PlainKey, Without;
  }

  lemma StillGood(line: string, kv: seq<Setting>)
    requires GoodSettings(kv)
    ensures GoodSettings(StillToSet(line, kv))
  {
    hide GoodSettings, Without, Matching;
    match Matching(line, kv)
    case None =>
    case Some(i) => WithoutGood(kv, i);
  }

  // --- Rewriting twice ---------------------------------------------------------------------------------------------

  lemma {:induction false} PassConcat(a: seq<string>, b: seq<string>, kv: seq<Setting>)
    ensures Pass(a + b, kv).0 == Pass(a, kv).0 + Pass(b, Pass(a, kv).1).0
    ensures Pass(a + b, kv).1 == Pass(b, Pass(a, kv).1).1
    decreases |a|
  {
    hide Rewritten, StillToSet;
    if a == [] {
      assert a + b == b && [] + Pass(b, kv).0 == Pass(b, kv).0;
    } else {
      assert (a + b)[1..] == a[1..] + b;
      PassConcat(a[1..], b, StillToSet(a[0], kv));
    }
  }

  lemma PassOne(line: string, kv: seq<Setting>)
    ensures Pass([line], kv) == (Rewritten(line, kv), StillToSet(line, kv))
  {
    hide Rewritten, StillToSet;
    assert [line][1..] == [] && Rewritten(line, kv) + [] == Rewritten(line, kv);
  }

  lemma PassKeyless(line: string, kv: seq<Setting>)
    requires KeyOf(line).None?
    ensures Pass([line], kv) == ([line], kv)
  {
    PassOne(line, kv);
  }

  /** Rewriting the lines a line turned into changes nothing more and sets the same keys. */
  lemma {:induction false} RewrittenFixed(line: string, kv: seq<Setting>)
    requires GoodSettings(kv)
    ensures Pass(Rewritten(line, kv), kv) == (Rewritten(line, kv), StillToSet(line, kv))
  {
    match Matching(line, kv)
    case None => PassOne(line, kv);
    case Some(i) =>
      var w := Written(kv[i]);
      WrittenFixed(kv, i);
      if kv[i].key == MODEL_KEY && OldValue(line) != Shown(kv[i].value) {
        var c := Breadcrumb(line);
        BreadcrumbIsComment(line);
        PassKeyless(c, kv);
        PassConcat([c], [w], kv);
      } else {
        assert [] + [w] == [w];
      }
  }

  lemma WrittenMatches(kv: seq<Setting>, i: nat)
    requires GoodSettings(kv) && i < |kv|
    ensures Matching(Written(kv[i]), kv) == Some(i)
  {
    WrittenReads(kv[i]);
    IndexUnique(kv, i);
  }

  lemma WrittenKeeps(kv: seq<Setting>, i: nat)
    requires GoodSettings(kv) && i < |kv|
    ensures Rewritten(Written(kv[i]), kv) == [Written(kv[i])]
  {
    hide Strip, Equals, Written, Shown, StripQuotes, OldValue, KeyOf;
    WrittenMatches(kv, i);
    assert PlainKey(kv[i].key);
    if kv[i].key == MODEL_KEY {
      WrittenValue(kv[i]);
    }
    assert [] + [Written(kv[i])] == [Written(kv[i])];
  }

  lemma WrittenFixed(kv: seq<Setting>, i: nat)
    requires GoodSettings(kv) && i < |kv|
    ensures Pass([Written(kv[i])], kv) == ([Written(kv[i])], Without(kv, i))
  {
    WrittenMatches(kv, i);
    WrittenKeeps(kv, i);
    hide Written, GoodSettings, Matching, Pass, Rewritten;
    PassOne(Written(kv[i]), kv);
  }

  lemma {:induction false} PassFixed(body: seq<string>, kv: seq<Setting>)
    requires GoodSettings(kv)
    ensures Pass(Pass(body, kv).0, kv) == Pass(body, kv)
    ensures GoodSettings(Pass(body, kv).1)
    decreases |body|
  {
    hide Rewritten, StillToSet, GoodSettings;
    if body != [] {
      var kv' := StillToSet(body[0], kv);
      StillGood(body[0], kv);
      PassFixed(body[1..], kv');
      RewrittenFixed(body[0], kv);
      PassConcat(Rewritten(body[0], kv), Pass(body[1..], kv').0, kv);
    }
  }

  lemma {:induction false} PassBlanks(body: seq<string>, kv: seq<Setting>)
    requires forall i :: 0 <= i < |body| ==> IsBlankLine(body[i])
    ensures Pass(body, kv) == (body, kv)
  {
    hide IsBlankLine, Rewritten, StillToSet;
    if body != [] {
      BlankHasNoKey(body[0]);
      PassKeyless(body[0], kv);
      PassBlanks(body[1..], kv);
      assert body == [body[0]] + body[1..];
      PassConcat([body[0]], body[1..], kv);
    }
  }

  lemma {:induction false} PassAdded(kv: seq<Setting>)
    requires GoodSettings(kv)
    ensures Pass(Added(kv), kv) == (Added(kv), [])
  {
    NothingToPass(kv);
    if kv != [] {
      GoodRest(kv);
      WrittenFixed(kv, 0);
      PassAdded(kv[1..]);
      AddedCons(kv);
      hide *;
      PassConcat([Written(kv[0])], Added(kv[1..]), kv);
    }
  }

  lemma GoodRest(kv: seq<Setting>)
    requires GoodSettings(kv) && kv != []
    ensures GoodSettings(kv[1..]) && Without(kv, 0) == kv[1..]
  {
  }

  lemma AddedCons(kv: seq<Setting>)
    ensures if kv == [] then Added(kv) == [] else Added(kv) == [Written(kv[0])] + Added(kv[1..])
  {
    hide Written;
  }

  /** A rewritten body is settled: a second pass changes nothing and finds every key. */
  lemma NewBodySettled(body: seq<string>, kv: seq<Setting>)
    requires GoodSettings(kv)
    ensures Pass(NewBody(body, kv), kv) == (NewBody(body, kv), [])
    ensures NewBody(NewBody(body, kv), kv) == NewBody(body, kv)
  {
    hide *;
    var (out, left) := Pass(body, kv);
    var t := TailStart(out);
    var head, tail := out[..t], out[t..];
    assert out == head + tail;
    BlankTail(out);
    PassFixed(body, kv);
    PassConcat(head, tail, kv);
    PassBlanks(tail, Pass(head, kv).1);
    SameFront(Pass(head, kv).0, head, tail);
    PassAdded(left);
    PassBlanks(tail, []);
    PassConcat(head, Added(left), kv);
    PassConcat(head + Added(left), tail, kv);
    NewBodyIs(body, kv);
    SettledNewBody(NewBody(body, kv), kv);
  }

  lemma BlankTail(out: seq<string>)
    ensures forall i :: 0 <= i < |out[TailStart(out)..]| ==> IsBlankLine(out[TailStart(out)..][i])
  {
    hide IsBlankLine;
  }

  lemma NewBodyIs(body: seq<string>, kv: seq<Setting>)
    ensures var (out, left) := Pass(body, kv); NewBody(body, kv) == out[..TailStart(out)] + Added(left) + out[TailStart(out)..]
  {
    hide Pass, Added, TailStart;
  }

  lemma NothingToPass(kv: seq<Setting>)
    ensures Pass([], kv) == ([], kv)
    ensures kv == [] ==> Added(kv) == []
  {
  }

  lemma SameFront(a: seq<string>, b: seq<string>, tail: seq<string>)
    requires a + tail == b + tail
    ensures a == b
  {
    assert |a| == |b|;
    assert a == (a + tail)[..|a|] && b == (b + tail)[..|b|];
  }

  lemma SettledNewBody(body: seq<string>, kv: seq<Setting>)
    requires Pass(body, kv) == (body, [])
    ensures NewBody(body, kv) == body
  {
    hide Pass, IsBlankLine, Written;
    var t := TailStart(body);
    assert Added([]) == [];
    assert body[..t] + [] + body[t..] == body;
  }

  ghost predicate NoTables(body: seq<string>) {
    forall i :: 0 <= i < |body| ==> !OpensTable(body[i])
  }

  lemma {:induction false} RewrittenNoTables(line: string, kv: seq<Setting>)
    requires GoodSettings(kv) && !OpensTable(line)
    ensures NoTables(Rewritten(line, kv))
  {
    hide PlainKey, Written, Breadcrumb, OpensTable, OldValue, Shown, Matching;
    match Matching(line, kv)
    case None =>
    case Some(i) =>
      WrittenReads(kv[i]);
      BreadcrumbIsComment(line);
  }

  lemma {:induction false} PassNoTables(body: seq<string>, kv: seq<Setting>)
    requires GoodSettings(kv) && NoTables(body)
    ensures NoTables(Pass(body, kv).0) && GoodSettings(Pass(body, kv).1)
    decreases |body|
  {
    hide Rewritten, StillToSet, GoodSettings, OpensTable;
    if body != [] {
      RewrittenNoTables(body[0], kv);
      StillGood(body[0], kv);
      PassNoTables(body[1..], StillToSet(body[0], kv));
    }
  }

  lemma AddedNoTables(kv: seq<Setting>)
    requires GoodSettings(kv)
    ensures NoTables(Added(kv))
  {
    forall i | 0 <= i < |kv|
      ensures !OpensTable(Added(kv)[i])
    {
      assert PlainKey(kv[i].key);
      WrittenReads(kv[i]);
    }
  }

  lemma NewBodyNoTables(body: seq<string>, kv: seq<Setting>)
    requires GoodSettings(kv) && NoTables(body)
    ensures NoTables(NewBody(body, kv))
  {
    hide Pass, OpensTable, GoodSettings, Added;
    PassNoTables(body, kv);
    AddedNoTables(Pass(body, kv).1);
  }

  lemma HeaderStrips(tag: string)
    ensures Strip(Header(tag)) == Header(tag) && Header(tag) != ""
  {
    var h := Header(tag);
    StripIsTheTrimmedMiddle(h, 0, |h|);
    assert h[0..|h|] == h;
  }

  lemma FindHeaderIs(lines: seq<string>, header: string, i: nat)
    requires i <= |lines| && (i < |lines| ==> Strip(lines[i]) == header) && forall j :: 0 <= j < i ==> Strip(lines[j]) != header
    ensures FindHeader(lines, header) == i
  {
  }

  lemma FindHeaderAt(lines: seq<string>, header: string, i: nat)
    requires i < |lines| && Strip(lines[i]) == header && forall j :: 0 <= j < i ==> Strip(lines[j]) != header
    ensures FindHeader(lines, header) == i
  {
  }

  lemma SectionEndAt(lines: seq<string>, i: nat, e: nat)
    requires i <= e <= |lines| && (forall j :: i <= j < e ==> !OpensTable(lines[j])) && (e < |lines| ==> OpensTable(lines[e]))
    ensures SectionEnd(lines, i) == e
  {
  }

  lemma {:induction false} WiredInPlace(lines: seq<string>, tag: string, kv: seq<Setting>)
    requires FindHeader(lines, Header(tag)) < |lines|
    ensures var start := FindHeader(lines, Header(tag)); var end := SectionEnd(lines, start + 1);
            WireLines(lines, tag, kv) == lines[..start + 1] + NewBody(lines[start + 1..end], kv) + lines[end..]
  {
    hide *;
    WiredBody(lines, tag, kv);
    WithBodyIs(lines, FindHeader(lines, Header(tag)) + 1, SectionEnd(lines, FindHeader(lines, Header(tag)) + 1), kv);
  }

  lemma {:induction false} WiredBody(lines: seq<string>, tag: string, kv: seq<Setting>)
    requires FindHeader(lines, Header(tag)) < |lines|
    ensures var start := FindHeader(lines, Header(tag));
            WireLines(lines, tag, kv) == WithBody(lines, start + 1, SectionEnd(lines, start + 1), kv)
  {
    hide Header, WithBody, Added, IsBlankLine, FindHeader, SectionEnd;
  }

  lemma {:induction false} WithBodyIs(lines: seq<string>, begin: nat, end: nat, kv: seq<Setting>)
    requires begin <= end <= |lines|
    ensures WithBody(lines, begin, end, kv) == lines[..begin] + NewBody(lines[begin..end], kv) + lines[end..]
  {
    hide NewBody;
  }

  /** Replacing what lies between the header and the next table. */
  lemma {:induction false} ReplacedBetween(lines: seq<string>, header: string, body: seq<string>)
    requires FindHeader(lines, header) < |lines| && NoTables(body)
    ensures var start := FindHeader(lines, header); var end := SectionEnd(lines, start + 1);
            var new' := lines[..start + 1] + body + lines[end..];
            FindHeader(new', header) == start < |new'| && SectionEnd(new', start + 1) == start + 1 + |body|
  {
    hide Strip, OpensTable;
    var start := FindHeader(lines, header);
    var end := SectionEnd(lines, start + 1);
    var new' := lines[..start + 1] + body + lines[end..];
    var e := start + 1 + |body|;
    FindHeaderAt(new', header, start);
    assert forall j :: start + 1 <= j < e ==> new'[j] == body[j - (start + 1)];
    assert e < |new'| ==> new'[e] == lines[end];
    SectionEndAt(new', start + 1, e);
  }

  lemma MiddleOfThree<T>(a: seq<T>, b: seq<T>, c: seq<T>)
    ensures (a + b + c)[..|a|] == a && (a + b + c)[|a|..|a| + |b|] == b && (a + b + c)[|a| + |b|..] == c
  {
  }

  /** An existing section keeps its place, and nothing outside of it changes. */
  lemma {:induction false} SectionReplaced(lines: seq<string>, tag: string, kv: seq<Setting>)
    requires GoodSettings(kv) && FindHeader(lines, Header(tag)) < |lines|
    ensures var start, new' := FindHeader(lines, Header(tag)), WireLines(lines, tag, kv);
            var end := SectionEnd(lines, start + 1);
            FindHeader(new', Header(tag)) == start < |new'| &&
            var end' := SectionEnd(new', start + 1);
            new'[..start + 1] == lines[..start + 1] && new'[end'..] == lines[end..] &&
            new'[start + 1..end'] == NewBody(lines[start + 1..end], kv)
  {
    hide *;
    var start := FindHeader(lines, Header(tag));
    var end := SectionEnd(lines, start + 1);
    var body := NewBody(lines[start + 1..end], kv);
    BodyNoTables(lines, start + 1);
    NewBodyNoTables(lines[start + 1..end], kv);
    WiredInPlace(lines, tag, kv);
    ReplacedBetween(lines, Header(tag), body);
    MiddleOfThree(lines[..start + 1], body, lines[end..]);
  }

  lemma BodyNoTables(lines: seq<string>, i: nat)
    requires i <= |lines|
    ensures NoTables(lines[i..SectionEnd(lines, i)])
  {
    hide OpensTable;
  }

  lemma {:induction false} AppendedAt(lines: seq<string>, gap: seq<string>, header: string, added: seq<string>)
    requires FindHeader(lines, header) == |lines| && Strip(header) == header && header != ""
    requires (gap == [] || gap == [""]) && NoTables(added)
    ensures var new' := lines + gap + [header] + added; var at := |lines| + |gap|;
            FindHeader(new', header) == at && SectionEnd(new', at + 1) == |new'|
  {
    BlankStrips();
    hide Strip, OpensTable;
    var new', at := lines + gap + [header] + added, |lines| + |gap|;
    assert forall j :: 0 <= j < |lines| ==> new'[j] == lines[j];
    FindHeaderAt(new', header, at);
    assert forall j :: at < j < |new'| ==> new'[j] == added[j - at - 1];
    SectionEndAt(new', at + 1, |new'|);
  }

  function Gap(lines: seq<string>): seq<string> {
    if lines != [] && !IsBlankLine(lines[|lines| - 1]) then [""] else []
  }

  lemma {:induction false} WiredWhenMissing(lines: seq<string>, tag: string, kv: seq<Setting>)
    requires FindHeader(lines, Header(tag)) == |lines|
    ensures WireLines(lines, tag, kv) == lines + Gap(lines) + [Header(tag)] + Added(kv)
  {
    hide Header, Added, IsBlankLine, FindHeader;
  }

  lemma BehindThree<T>(a: seq<T>, b: seq<T>, x: T, c: seq<T>)
    ensures (a + b + [x] + c)[|a| + |b| + 1..] == c && a <= a + b + [x] + c
    ensures b != [] ==> (a + b + [x] + c)[|a|] == b[0]
  {
  }

  /** A missing section is appended behind everything else. */
  lemma {:induction false} SectionAppended(lines: seq<string>, tag: string, kv: seq<Setting>)
    requires GoodSettings(kv) && FindHeader(lines, Header(tag)) == |lines|
    ensures var new' := WireLines(lines, tag, kv); var start' := FindHeader(new', Header(tag));
            lines <= new' && |lines| <= start' <= |lines| + 1 && start' < |new'| &&
            (start' == |lines| + 1 ==> new'[|lines|] == "") &&
            SectionEnd(new', start' + 1) == |new'| && new'[start' + 1..] == Added(kv)
  {
    AddedNoTables(kv);
    HeaderStrips(tag);
    WiredWhenMissing(lines, tag, kv);
    assert Gap(lines) == [] || Gap(lines) == [""];
    hide *;
    AppendedAt(lines, Gap(lines), Header(tag), Added(kv));
    BehindThree(lines, Gap(lines), Header(tag), Added(kv));
  }

  lemma BlankStrips()
    ensures Strip("") == ""
  {
  }

  lemma {:induction false} ReplacedBody(lines: seq<string>, tag: string, kv: seq<Setting>)
      returns (start: nat, end': nat, body: seq<string>)
    requires GoodSettings(kv) && FindHeader(lines, Header(tag)) < |lines|
    ensures var new' := WireLines(lines, tag, kv);
            FindHeader(new', Header(tag)) == start < |new'| && end' == SectionEnd(new', start + 1) &&
            new'[start + 1..end'] == NewBody(body, kv)
  {
    hide *;
    SectionReplaced(lines, tag, kv);
    start := FindHeader(lines, Header(tag));
    end' := SectionEnd(WireLines(lines, tag, kv), start + 1);
    body := lines[start + 1..SectionEnd(lines, start + 1)];
  }

  lemma {:induction false} WireTwiceInPlace(lines: seq<string>, tag: string, kv: seq<Setting>)
    requires GoodSettings(kv) && FindHeader(lines, Header(tag)) < |lines|
    ensures WireLines(WireLines(lines, tag, kv), tag, kv) == WireLines(lines, tag, kv)
  {
    hide *;
    var start, end', body := ReplacedBody(lines, tag, kv);
    NewBodySettled(body, kv);
    WiredSettled(WireLines(lines, tag, kv), tag, kv, start, end');
  }

  /** A section that the rewrite leaves as it is. */
  lemma {:induction false} WiredSettled(lines: seq<string>, tag: string, kv: seq<Setting>, start: nat, end: nat)
    requires FindHeader(lines, Header(tag)) == start < |lines| && end == SectionEnd(lines, start + 1)
    requires NewBody(lines[start + 1..end], kv) == lines[start + 1..end]
    ensures WireLines(lines, tag, kv) == lines
  {
    hide *;
    WiredInPlace(lines, tag, kv);
    ThreeParts(lines, start + 1, end);
  }

  lemma ThreeParts<T>(s: seq<T>, i: nat, e: nat)
    requires i <= e <= |s|
    ensures s[..i] + s[i..e] + s[e..] == s
  {
  }

  lemma {:induction false} WireTwiceAppended(lines: seq<string>, tag: string, kv: seq<Setting>)
    requires GoodSettings(kv) && FindHeader(lines, Header(tag)) == |lines|
    ensures WireLines(WireLines(lines, tag, kv), tag, kv) == WireLines(lines, tag, kv)
  {
    hide *;
    var new' := WireLines(lines, tag, kv);
    SectionAppended(lines, tag, kv);
    var start' := FindHeader(new', Header(tag));
    PassAdded(kv);
    SettledNewBody(Added(kv), kv);
    ToTheEnd(new', start' + 1);
    WiredSettled(new', tag, kv, start', |new'|);
  }

  /** Rewriting twice is rewriting once. */
  lemma {:induction false} WireTwice(lines: seq<string>, tag: string, kv: seq<Setting>)
    requires GoodSettings(kv)
    ensures WireLines(WireLines(lines, tag, kv), tag, kv) == WireLines(lines, tag, kv)
  {
    hide *;
    if FindHeader(lines, Header(tag)) < |lines| {
      WireTwiceInPlace(lines, tag, kv);
    } else {
      WireTwiceAppended(lines, tag, kv);
    }
  }

  // --- First lines, order, and the breadcrumb ------------------------------------------------------------------------

  /** The first line that sets `key`. */
  function FirstFor(body: seq<string>, key: string): (i: nat)
    ensures i <= |body|
    ensures i < |body| ==> KeyOf(body[i]) == Some(key)
    ensures forall j :: 0 <= j < i ==> KeyOf(body[j]) != Some(key)
  {
    FirstFrom(body, key, 0)
  }

  function FirstFrom(body: seq<string>, key: string, i: nat): (r: nat)
    requires i <= |body|
    ensures i <= r <= |body|
    ensures r < |body| ==> KeyOf(body[r]) == Some(key)
    ensures forall j :: i <= j < r ==> KeyOf(body[j]) != Some(key)
    decreases |body| - i
  {
    hide KeyOf;
    if i < |body| && KeyOf(body[i]) != Some(key) then FirstFrom(body, key, i + 1) else i
  }

  /** The other settings behind the removal of one. */
  function Shifted(i: nat, m: nat): nat
    requires i != m
  {
    if i < m then i else i - 1
  }

  lemma WithoutAt(kv: seq<Setting>, m: nat, i: nat)
    requires GoodSettings(kv) && m < |kv| && i < |kv| && i != m
    ensures Shifted(i, m) < |Without(kv, m)| && Without(kv, m)[Shifted(i, m)] == kv[i] && kv[m].key != kv[i].key
  {
  }

  lemma MatchingKey(line: string, kv: seq<Setting>)
    ensures Matching(line, kv).None? ==> forall i :: 0 <= i < |kv| ==> KeyOf(line) != Some(kv[i].key)
    ensures Matching(line, kv).Some? ==> Matching(line, kv).value < |kv| && KeyOf(line) == Some(kv[Matching(line, kv).value].key)
  {
  }

  lemma SettledStep(body: seq<string>, kv: seq<Setting>)
    requires Pass(body, kv) == (body, []) && body != []
    ensures Pass(body[1..], StillToSet(body[0], kv)) == (body[1..], [])
    ensures Matching(body[0], kv).Some? ==> body[0] == Written(kv[Matching(body[0], kv).value])
  {
    hide Strip, Written, OldValue, Shown, Breadcrumb, KeyOf, StillToSet;
    var rest := Pass(body[1..], StillToSet(body[0], kv)).0;
    BreadcrumbIsComment(body[0]);
    assert (Rewritten(body[0], kv) + rest)[0] == body[0] && Rewritten(body[0], kv)[0] == body[0];
    assert |Rewritten(body[0], kv)| == 1;
    assert rest == body[1..];
  }

  /** The first line for the key of `entry` is the written entry. */
  ghost predicate Carries(body: seq<string>, entry: Setting) {
    var f := FirstFor(body, entry.key);
    f < |body| && body[f] == Written(entry)
  }

  lemma CarriesLater(body: seq<string>, entry: Setting)
    requires body != [] && KeyOf(body[0]) != Some(entry.key) && Carries(body[1..], entry)
    ensures Carries(body, entry)
  {
    hide KeyOf, Written;
  }

  lemma CarriesNow(body: seq<string>, entry: Setting)
    requires body != [] && KeyOf(body[0]) == Some(entry.key) && body[0] == Written(entry)
    ensures Carries(body, entry)
  {
    hide KeyOf, Written;
  }

  lemma SettledNonEmpty(body: seq<string>, kv: seq<Setting>)
    requires Pass(body, kv) == (body, []) && kv != []
    ensures body != []
  {
  }

  lemma {:induction false} SettledCarries(body: seq<string>, kv: seq<Setting>, i: nat)
    requires GoodSettings(kv) && Pass(body, kv) == (body, []) && i < |kv|
    ensures Carries(body, kv[i])
    decreases |body|
  {
    SettledNonEmpty(body, kv);
    hide *;
    SettledStep(body, kv);
    StillGood(body[0], kv);
    MatchingKey(body[0], kv);
    if Matching(body[0], kv) == Some(i) {
      CarriesNow(body, kv[i]);
    } else {
      var j := OthersGoOn(body[0], kv, i);
      SettledCarries(body[1..], StillToSet(body[0], kv), j);
      CarriesLater(body, kv[i]);
    }
  }

  /** In the rewritten section, the first line for each key carries its new value. */
  lemma {:induction false} FirstLineCarries(lines: seq<string>, tag: string, kv: seq<Setting>, i: nat)
    requires GoodSettings(kv) && i < |kv|
    ensures FindHeader(WireLines(lines, tag, kv), Header(tag)) < |WireLines(lines, tag, kv)|
    ensures Carries(SectionBody(WireLines(lines, tag, kv), Header(tag)), kv[i])
  {
    NewSection(lines, tag, kv);
    hide *;
    SettledCarries(SectionBody(WireLines(lines, tag, kv), Header(tag)), kv, i);
  }

  /** The rewritten section is settled. */
  lemma {:induction false} NewSection(lines: seq<string>, tag: string, kv: seq<Setting>)
    requires GoodSettings(kv)
    ensures FindHeader(WireLines(lines, tag, kv), Header(tag)) < |WireLines(lines, tag, kv)|
    ensures var body := SectionBody(WireLines(lines, tag, kv), Header(tag)); Pass(body, kv) == (body, [])
  {
    hide *;
    var new' := WireLines(lines, tag, kv);
    if FindHeader(lines, Header(tag)) < |lines| {
      var start, end', body := ReplacedBody(lines, tag, kv);
      SectionBodyIs(new', Header(tag));
      NewBodySettled(body, kv);
    } else {
      SectionAppended(lines, tag, kv);
      SectionBodyIs(new', Header(tag));
      ToTheEnd(new', FindHeader(new', Header(tag)) + 1);
      PassAdded(kv);
    }
  }

  lemma {:induction false} SectionBodyIs(lines: seq<string>, header: string)
    requires FindHeader(lines, header) < |lines|
    ensures var start := FindHeader(lines, header); SectionBody(lines, header) == lines[start + 1..SectionEnd(lines, start + 1)]
  {
    hide FindHeader, SectionEnd;
  }

  lemma ToTheEnd<T>(s: seq<T>, i: nat)
    requires i <= |s|
    ensures s[i..|s|] == s[i..]
  {
  }

  /** `a` is `b` with some lines left out. */
  predicate Subsequence(a: seq<string>, b: seq<string>)
    decreases |b|
  {
    if a == [] then true
    else if b == [] then false
    else if a[0] == b[0] then Subsequence(a[1..], b[1..])
    else Subsequence(a, b[1..])
  }

  lemma {:induction false} SubsequenceTail(a: seq<string>, b: seq<string>)
    requires Subsequence(a, b) && a != []
    ensures Subsequence(a[1..], b)
    decreases |b|
  {
    if a[0] == b[0] {
      if |a| > 1 {
        if a[1] == b[0] {
          SubsequenceTail(a[1..], b[1..]);
        }
      }
    } else {
      SubsequenceTail(a, b[1..]);
      if |a| > 1 && a[1] == b[0] {
        SubsequenceTail(a[1..], b[1..]);
      }
    }
  }

  lemma {:induction false} SubsequenceInsert(a: seq<string>, front: seq<string>, b: seq<string>)
    requires Subsequence(a, b)
    ensures Subsequence(a, front + b)
    decreases |front|
  {
    if front == [] {
      assert front + b == b;
    } else {
      assert (front + b)[1..] == front[1..] + b;
      SubsequenceInsert(a, front[1..], b);
      if a != [] && a[0] == front[0] {
        SubsequenceTail(a, front[1..] + b);
      }
    }
  }

  lemma {:induction false} SubsequenceMiddle(a: seq<string>, x: seq<string>, mid: seq<string>, y: seq<string>)
    requires Subsequence(a, x + y)
    ensures Subsequence(a, x + mid + y)
    decreases |x|
  {
    if x == [] {
      assert x + y == y && x + mid + y == mid + y;
      SubsequenceInsert(a, mid, y);
    } else {
      assert (x + y)[1..] == x[1..] + y && (x + mid + y)[1..] == x[1..] + mid + y;
      if a != [] {
        SubsequenceMiddle(if a[0] == x[0] then a[1..] else a, x[1..], mid, y);
      }
    }
  }

  /** The lines of a body that no setting replaces. */
  function Untouched(body: seq<string>, kv: seq<Setting>): seq<string>
    decreases |body|
  {
    if body == [] then []
    else (if Matching(body[0], kv).None? then [body[0]] else []) + Untouched(body[1..], StillToSet(body[0], kv))
  }

  lemma {:induction false} PassKeepsOrder(body: seq<string>, kv: seq<Setting>)
    ensures Subsequence(Untouched(body, kv), Pass(body, kv).0)
    decreases |body|
  {
    hide Strip, Written, OldValue, Shown, Breadcrumb, KeyOf;
    if body != [] {
      var kv' := StillToSet(body[0], kv);
      PassKeepsOrder(body[1..], kv');
      var rest := Pass(body[1..], kv').0;
      if Matching(body[0], kv).None? {
        assert ([body[0]] + rest)[1..] == rest && Untouched(body, kv)[1..] == Untouched(body[1..], kv');
      } else {
        assert [] + Untouched(body[1..], kv') == Untouched(body[1..], kv');
        SubsequenceInsert(Untouched(body[1..], kv'), Rewritten(body[0], kv), rest);
      }
    }
  }

  /** The other lines of the section are all kept, in their order. */
  lemma OthersKeepOrder(body: seq<string>, kv: seq<Setting>)
    ensures Subsequence(Untouched(body, kv), NewBody(body, kv))
  {
    hide Untouched, Pass, Added, IsBlankLine;
    PassKeepsOrder(body, kv);
    var (out, left) := Pass(body, kv);
    var t := TailStart(out);
    assert out == out[..t] + out[t..];
    SubsequenceMiddle(Untouched(body, kv), out[..t], Added(left), out[t..]);
  }

  lemma FirstForStep(body: seq<string>, key: string)
    requires FirstFor(body, key) < |body|
    ensures KeyOf(body[0]) == Some(key) ==> FirstFor(body, key) == 0
    ensures KeyOf(body[0]) != Some(key) ==> FirstFor(body, key) == FirstFor(body[1..], key) + 1
  {
    hide KeyOf, FirstFor;
    var f := FirstFor(body, key);
    if f > 0 {
      assert body[1..][f - 1] == body[f];
      assert forall j :: 0 <= j < f - 1 ==> body[1..][j] == body[j + 1];
      OnlyFirst(body[1..], key, f - 1);
    }
  }

  lemma OnlyFirst(body: seq<string>, key: string, i: nat)
    requires i < |body| && KeyOf(body[i]) == Some(key) && forall j :: 0 <= j < i ==> KeyOf(body[j]) != Some(key)
    ensures FirstFor(body, key) == i
  {
    hide KeyOf, FirstFor;
  }

  lemma CrumbHere(line: string, kv: seq<Setting>, i: nat)
    requires Matching(line, kv) == Some(i) && kv[i].key == MODEL_KEY && OldValue(line) != Shown(kv[i].value)
    ensures Rewritten(line, kv) == [Breadcrumb(line), Written(kv[i])]
  {
  }

  lemma PassCons(body: seq<string>, kv: seq<Setting>)
    requires body != []
    ensures Pass(body, kv).0 == Rewritten(body[0], kv) + Pass(body[1..], StillToSet(body[0], kv)).0
  {
  }

  /** The model line is at `f` in `body` and shows another value than `entry`. */
  ghost predicate Replaces(body: seq<string>, entry: Setting) {
    var f := FirstFor(body, MODEL_KEY);
    entry.key == MODEL_KEY && f < |body| && OldValue(body[f]) != Shown(entry.value)
  }

  ghost predicate CrumbAt(out: seq<string>, p: nat, line: string, entry: Setting) {
    p + 1 < |out| && out[p] == Breadcrumb(line) && out[p + 1] == Written(entry)
  }

  lemma CrumbLater(front: seq<string>, out: seq<string>, q: nat, line: string, entry: Setting)
    requires CrumbAt(out, q, line, entry)
    ensures CrumbAt(front + out, |front| + q, line, entry)
  {
    hide Breadcrumb, Written;
  }

  lemma CrumbHead(line: string, entry: Setting, rest: seq<string>)
    ensures CrumbAt([Breadcrumb(line), Written(entry)] + rest, 0, line, entry)
  {
    hide Breadcrumb, Written;
  }

  /** The line that sets the model. */
  ghost function ModelLine(body: seq<string>): string {
    var f := FirstFor(body, MODEL_KEY);
    if f < |body| then body[f] else ""
  }

  lemma ReplacesLater(body: seq<string>, entry: Setting)
    requires Replaces(body, entry) && KeyOf(body[0]) != Some(MODEL_KEY)
    ensures Replaces(body[1..], entry) && ModelLine(body[1..]) == ModelLine(body)
  {
    hide KeyOf, OldValue, Shown;
    FirstForStep(body, MODEL_KEY);
  }

  lemma OthersGoOn(line: string, kv: seq<Setting>, i: nat) returns (j: nat)
    requires GoodSettings(kv) && i < |kv| && Matching(line, kv) != Some(i)
    ensures j < |StillToSet(line, kv)| && StillToSet(line, kv)[j] == kv[i] && KeyOf(line) != Some(kv[i].key)
  {
    MatchingKey(line, kv);
    match Matching(line, kv)
    case None => j := i;
    case Some(m) =>
      WithoutAt(kv, m, i);
      j := Shifted(i, m);
  }

  lemma CrumbAtOnce(body: seq<string>, kv: seq<Setting>, i: nat)
    requires i < |kv| && Replaces(body, kv[i]) && Matching(body[0], kv) == Some(i)
    ensures CrumbAt(Pass(body, kv).0, 0, ModelLine(body), kv[i])
  {
    PassCons(body, kv);
    MatchingKey(body[0], kv);
    FirstForStep(body, MODEL_KEY);
    hide Pass, StillToSet, KeyOf, OldValue, Shown, CrumbAt, FirstFor;
    CrumbHere(body[0], kv, i);
    CrumbHead(body[0], kv[i], Pass(body[1..], StillToSet(body[0], kv)).0);
  }

  lemma ReplacesSome(body: seq<string>, entry: Setting)
    requires Replaces(body, entry)
    ensures body != [] && entry.key == MODEL_KEY
  {
  }

  lemma {:induction false} PassLeavesCrumb(body: seq<string>, kv: seq<Setting>, i: nat) returns (p: nat)
    requires GoodSettings(kv) && i < |kv| && Replaces(body, kv[i])
    ensures CrumbAt(Pass(body, kv).0, p, ModelLine(body), kv[i])
    decreases |body|
  {
    hide *;
    ReplacesSome(body, kv[i]);
    if Matching(body[0], kv) == Some(i) {
      CrumbAtOnce(body, kv, i);
      p := 0;
    } else {
      StillGood(body[0], kv);
      PassCons(body, kv);
      var j := OthersGoOn(body[0], kv, i);
      ReplacesLater(body, kv[i]);
      var q := PassLeavesCrumb(body[1..], StillToSet(body[0], kv), j);
      CrumbLater(Rewritten(body[0], kv), Pass(body[1..], StillToSet(body[0], kv)).0, q, ModelLine(body), kv[i]);
      p := |Rewritten(body[0], kv)| + q;
    }
  }

  lemma CrumbBeforeTail(out: seq<string>, p: nat, line: string, entry: Setting, added: seq<string>)
    requires CrumbAt(out, p, line, entry) && !IsBlankLine(Written(entry))
    ensures CrumbAt(out[..TailStart(out)] + added + out[TailStart(out)..], p, line, entry)
  {
    hide IsBlankLine, Written, Breadcrumb;
  }

  lemma NewBodyParts(body: seq<string>, kv: seq<Setting>)
    ensures var (out, left) := Pass(body, kv);
            NewBody(body, kv) == out[..TailStart(out)] + Added(left) + out[TailStart(out)..]
  {
    hide Pass, Added, TailStart;
  }

  lemma WrittenNotBlank(kv: seq<Setting>, i: nat)
    requires GoodSettings(kv) && i < |kv|
    ensures !IsBlankLine(Written(kv[i]))
  {
    assert PlainKey(kv[i].key);
    WrittenReads(kv[i]);
    hide Written;
  }

  /** A replaced model line survives as a comment right in front of the new one. */
  lemma ReplacedModelSurvives(body: seq<string>, kv: seq<Setting>, i: nat) returns (p: nat)
    requires GoodSettings(kv) && i < |kv| && Replaces(body, kv[i])
    ensures CrumbAt(NewBody(body, kv), p, ModelLine(body), kv[i])
  {
    hide *;
    p := PassLeavesCrumb(body, kv, i);
    WrittenNotBlank(kv, i);
    NewBodyParts(body, kv);
    CrumbBeforeTail(Pass(body, kv).0, p, ModelLine(body), kv[i], Added(Pass(body, kv).1));
  }
}
