/** `string_process_escapes`: backslash escapes decoded in the buffer that holds them. */
module Escapes {
  import opened Wrappers
  import opened TextSearch

  function HexDigit(c: char): Option<nat> {
    if '0' <= c <= '9' then Some(c as int - '0' as int)
    else if 'a' <= c <= 'f' then Some(c as int - 'a' as int + 10)
    else if 'A' <= c <= 'F' then Some(c as int - 'A' as int + 10)
    else None
  }

  /** `strtol` on two characters in base 16, when it consumes both: two digits, or one digit
      behind whitespace or a sign. The value is cut to a byte. */
  function HexByte(a: char, b: char): (r: Option<char>) {
    match (HexDigit(a), HexDigit(b))
    case (Some(high), Some(low)) => Some((16 * high + low) as char)
    case (None, Some(low)) =>
      if IsSpace(a) || a == '+' then Some(low as char)
      else if a == '-' then Some(((256 - low) % 256) as char)
      else None
    case _ => None
  }

  /** What the two-character escapes stand for. */
  function Simple(c: char): Option<char> {
    match c
    case 'n' => Some('\n')
    case 'r' => Some('\r')
    case 't' => Some('\t')
    case '\'' => Some('\'')
    case '\"' => Some('\"')
    case '\\' => Some('\\')
    case _ => None
  }

  /** How many characters the first item of `s` takes, and what it becomes. */
  function FirstItem(s: string): (r: (nat, string))
    requires s != ""
    ensures 1 <= r.0 <= |s| && 1 <= |r.1| <= r.0
  {
    if s[0] == '\\' && |s| >= 2 then
      if Simple(s[1]).Some? then (2, [Simple(s[1]).value])
      else if s[1] == 'x' && |s| >= 4 && HexByte(s[2], s[3]).Some? then (4, [HexByte(s[2], s[3]).value])
      else (2, ['\\', s[1]])
    else (1, [s[0]])
  }

  /** The decoder that reads its input once, from left to right. */
  function Unescape(s: string): (r: string)
    ensures |r| <= |s|
    decreases |s|
  {
    if s == "" then "" else FirstItem(s).1 + Unescape(s[FirstItem(s).0..])
  }

  /** The write index never passes the read index, so the text still to be read is intact. */
  method ProcessEscapes(a: array<char>) returns (len: nat)
    modifies a
    ensures len <= a.Length && a[..len] == Unescape(old(a[..]))
  {
    hide HexByte, Simple, Unescape;
    ghost var s := a[..];
    UnescapeNothing();
    var output, input := 0, 0;
    while input < a.Length
      invariant 0 <= output <= input <= a.Length
      invariant forall k :: input <= k < a.Length ==> a[k] == s[k]
      invariant a[..output] + Unescape(s[input..]) == Unescape(s)
    {
      ghost var done, rest := a[..output], s[input..];
      ghost var (taken, item) := FirstItem(rest);
      UnescapeStep(done, s, input);
      if a[input] == '\\' && input + 1 < a.Length {
        input := input + 1;
        var c := a[input];
        var simple := Simple(c);
        if simple.Some? {
          a[output] := simple.value;
          output := output + 1;
        } else {
          var hex := if c == 'x' && input + 2 < a.Length then HexByte(a[input + 1], a[input + 2]) else None;
          if hex.Some? {
            input := input + 2;
            a[output] := hex.value;
            output := output + 1;
          } else {
            a[output] := '\\';
            output := output + 1;
            a[output] := a[input];
            output := output + 1;
          }
        }
      } else {
        a[output] := a[input];
        output := output + 1;
      }
      input := input + 1;
      assert a[..output] == done + item;
    }
    len := output;
    assert s[input..] == "" && a[..output] + "" == a[..output];
  }

  lemma UnescapeNothing()
    ensures Unescape("") == ""
  {
  }

  lemma UnescapeStep(done: string, s: string, i: nat)
    requires i < |s|
    ensures var (taken, item) := FirstItem(s[i..]);
            done + Unescape(s[i..]) == done + item + Unescape(s[i + taken..])
  {
    hide FirstItem;
    assert s[i..][FirstItem(s[i..]).0..] == s[i + FirstItem(s[i..]).0..];
  }

  // --- The printer it undoes -------------------------------------------------------------------------------

  /** How a character is printed: itself, its two-character form, or its code in hexadecimal. */
  datatype Form = Plain | Short | Hex(upper: bool)

  predicate CanPrint(c: char, form: Form) {
    match form
    case Plain => c != '\\'
    case Short => c in "\n\r\t\'\"\\"
    case Hex(_) => c as int < 256
  }

  function HexChar(d: nat, upper: bool): char
    requires d < 16
  {
    if d < 10 then ('0' as int + d) as char
    else if upper then ('A' as int + d - 10) as char
    else ('a' as int + d - 10) as char
  }

  function PrintChar(c: char, form: Form): string
    requires CanPrint(c, form)
  {
    match form
    case Plain => [c]
    case Short => ['\\', if c == '\n' then 'n' else if c == '\r' then 'r' else if c == '\t' then 't' else c]
    case Hex(upper) => ['\\', 'x', HexChar(c as int / 16, upper), HexChar(c as int % 16, upper)]
  }

  predicate CanPrintAll(s: string, forms: seq<Form>) {
    |s| == |forms| && forall i :: 0 <= i < |s| ==> CanPrint(s[i], forms[i])
  }

  function Print(s: string, forms: seq<Form>): string
    requires CanPrintAll(s, forms)
  {
    if s == "" then "" else PrintChar(s[0], forms[0]) + Print(s[1..], forms[1..])
  }

  lemma HexDigitOfChar(d: nat, upper: bool)
    requires d < 16
    ensures HexDigit(HexChar(d, upper)) == Some(d)
  {
  }

  lemma FirstPrinted(c: char, form: Form, rest: string)
    requires CanPrint(c, form)
    ensures var p := PrintChar(c, form); p + rest != "" && FirstItem(p + rest) == (|p|, [c])
  {
    if form.Hex? {
      HexDigitOfChar(c as int / 16, form.upper);
      HexDigitOfChar(c as int % 16, form.upper);
    }
  }

  /** Decoding undoes printing, whichever form each character was printed in. */
  lemma {:induction false} UnescapeUndoesPrint(s: string, forms: seq<Form>)
    requires CanPrintAll(s, forms)
    ensures Unescape(Print(s, forms)) == s
    decreases |s|
  {
    if s != "" {
      var p, rest := PrintChar(s[0], forms[0]), Print(s[1..], forms[1..]);
      FirstPrinted(s[0], forms[0], rest);
      UnescapeUndoesPrint(s[1..], forms[1..]);
      assert (p + rest)[|p|..] == rest;
      assert s == [s[0]] + s[1..];
    }
  }

  /** A text without a backslash is left alone. */
  lemma {:induction false} PlainTextUnchanged(s: string)
    requires '\\' !in s
    ensures Unescape(s) == s
    decreases |s|
  {
    if s == "" {
      NothingToUnescape();
    } else {
      PlainFirst(s);
      assert '\\' !in s[1..];
      hide *;
      PlainTextUnchanged(s[1..]);
      assert s == [s[0]] + s[1..];
    }
  }

  lemma NothingToUnescape()
    ensures Unescape("") == ""
  {
  }

  lemma PlainFirst(s: string)
    requires s != "" && s[0] != '\\'
    ensures Unescape(s) == [s[0]] + Unescape(s[1..])
  {
  }
}
