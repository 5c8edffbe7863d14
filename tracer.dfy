/** `AgentTracer` of utils/logging_utils.py: a list of steps the agents
    report, and a numbered text summary of them. The console logger it also
    writes to is not modelled, and the time stamp is an input. A step's
    details are the dictionary's entries in insertion order, with text keys
    and values. */
module Tracing {
  import opened Wrappers
  import opened Text

  datatype Trace = Trace(timestamp: string, agent: string, action: string, details: seq<(string, string)>)

  const NoTraces := "No traces recorded"
  const Header := "\n=== Agent Execution Trace ===\n"

  /** The quote `repr` puts around a string: double quotes when the text
      holds a single quote and no double quote, single quotes otherwise. */
  function QuoteFor(s: string): (q: char)
    ensures q == '"' <==> '\'' in s && '"' !in s
    ensures q == '\'' || q == '"'
  {
    if '\'' in s && '"' !in s then '"' else '\''
  }

  /** Characters `repr` writes as `\xhh`: the other control characters, DEL,
      and the non-printable Latin-1 characters (the C1 controls, the no-break
      space and the soft hyphen). */
  predicate HexEscaped(c: char) {
    c < ' ' || ('\U{7F}' <= c <= '\U{A0}') || c == '\U{AD}'
  }

  function HexDigit(d: nat): char
    requires d < 16
  {
    if d < 10 then ('0' as int + d) as char else ('a' as int + d - 10) as char
  }

  /** How `repr` writes one character inside the quote `q`. */
  function EscapeChar(c: char, q: char): string {
    if c == q || c == '\\' then ['\\', c]
    else if c == '\t' then "\\t"
    else if c == '\n' then "\\n"
    else if c == '\r' then "\\r"
    else if HexEscaped(c) then ['\\', 'x', HexDigit(c as int / 16), HexDigit(c as int % 16)]
    else [c]
  }

  function Escaped(s: string, q: char): string {
    if s == [] then [] else EscapeChar(s[0], q) + Escaped(s[1..], q)
  }

  /** `repr(s)` of a text value: quoted and escaped. */
  function Repr(s: string): string {
    var q := QuoteFor(s);
    [q] + Escaped(s, q) + [q]
  }

  /** Python's `str` of a dictionary with text keys and values:
      `{k: v, ...}` with every key and value written by `repr`. */
  function DictText(details: seq<(string, string)>): string {
    "{" + Entries(details) + "}"
  }

  function Entries(details: seq<(string, string)>): string {
    if details == [] then ""
    else
      var e := Repr(details[|details| - 1].0) + ": " + Repr(details[|details| - 1].1);
      if |details| == 1 then e else Entries(details[..|details| - 1]) + ", " + e
  }

  // Reading a `repr` back, to show that it loses nothing.

  function HexValue(c: char): (r: Option<nat>)
    ensures r.Some? ==> r.value < 16
  {
    if '0' <= c <= '9' then Some(c as int - '0' as int)
    else if 'a' <= c <= 'f' then Some(c as int - 'a' as int + 10)
    else None
  }

  function Prepend(c: char, o: Option<string>): Option<string> {
    if o.Some? then Some([c] + o.value) else None
  }

  /** The text between the quotes `q` read back; None when it is not a
      well-formed body, in particular when it holds a bare `q`. */
  function Unescape(t: string, q: char): Option<string>
    decreases |t|
  {
    if t == [] then Some([])
    else if t[0] == q then None
    else if t[0] != '\\' then Prepend(t[0], Unescape(t[1..], q))
    else if |t| < 2 then None
    else if t[1] == q || t[1] == '\\' then Prepend(t[1], Unescape(t[2..], q))
    else if t[1] == 't' then Prepend('\t', Unescape(t[2..], q))
    else if t[1] == 'n' then Prepend('\n', Unescape(t[2..], q))
    else if t[1] == 'r' then Prepend('\r', Unescape(t[2..], q))
    else if t[1] == 'x' && |t| >= 4 && HexValue(t[2]).Some? && HexValue(t[3]).Some? then
      Prepend((HexValue(t[2]).value * 16 + HexValue(t[3]).value) as char, Unescape(t[4..], q))
    else None
  }

  /** A quoted text read back, or None. */
  function Unrepr(t: string): Option<string> {
    if |t| >= 2 && (t[0] == '\'' || t[0] == '"') && t[|t| - 1] == t[0] then Unescape(t[1..|t| - 1], t[0])
    else None
  }

  lemma HexDigitValue(d: nat)
    requires d < 16
    ensures HexValue(HexDigit(d)) == Some(d)
  {
  }

  /** A character written as `\xhh` is read back from its two hex digits. */
  lemma UnescapeHex(c: char, q: char, rest: string)
    requires q == '\'' || q == '"'
    requires c != q && c != '\\' && c != '\t' && c != '\n' && c != '\r' && HexEscaped(c)
    ensures Unescape(EscapeChar(c, q) + rest, q) == Prepend(c, Unescape(rest, q))
  {
    var hi := c as int / 16;
    var lo := c as int % 16;
    HexDigitValue(hi);
    HexDigitValue(lo);
    var t := ['\\', 'x', HexDigit(hi), HexDigit(lo)] + rest;
    assert EscapeChar(c, q) + rest == t;
    assert t[0] == '\\' && t[1] == 'x' && t[2] == HexDigit(hi) && t[3] == HexDigit(lo) && t[4..] == rest;
    assert (hi * 16 + lo) as char == c;
  }

  /** One escaped character is read back as that character. */
  lemma UnescapeChar(c: char, q: char, rest: string)
    requires q == '\'' || q == '"'
    ensures Unescape(EscapeChar(c, q) + rest, q) == Prepend(c, Unescape(rest, q))
  {
    if c == q || c == '\\' {
      var t := ['\\', c] + rest;
      assert t[0] == '\\' && t[1] == c && t[2..] == rest;
    } else if c == '\t' || c == '\n' || c == '\r' {
      var t := EscapeChar(c, q) + rest;
      assert |EscapeChar(c, q)| == 2 && t[0] == '\\' && t[2..] == rest;
    } else if HexEscaped(c) {
      UnescapeHex(c, q, rest);
    } else {
      var t := [c] + rest;
      assert t[0] == c && t[1..] == rest;
    }
  }

  lemma {:induction false} UnescapeEscaped(s: string, q: char)
    requires q == '\'' || q == '"'
    ensures Unescape(Escaped(s, q), q) == Some(s)
  {
    if s != [] {
      UnescapeEscaped(s[1..], q);
      UnescapeChar(s[0], q, Escaped(s[1..], q));
      assert [s[0]] + s[1..] == s;
    }
  }

  /** `repr` loses nothing: the text is read back from it. */
  lemma ReprRoundTrip(s: string)
    ensures Unrepr(Repr(s)) == Some(s)
  {
    var q := QuoteFor(s);
    var t := Repr(s);
    assert t[0] == q && t[|t| - 1] == q && t[1..|t| - 1] == Escaped(s, q);
    UnescapeEscaped(s, q);
  }

  /** A character `repr` copies as it is inside the quote `q`. */
  predicate Plain(c: char, q: char) {
    c != q && c != '\\' && !HexEscaped(c)
  }

  lemma {:induction false} EscapedPlain(s: string, q: char)
    requires forall i :: 0 <= i < |s| ==> Plain(s[i], q)
    ensures Escaped(s, q) == s
  {
    if s != [] {
      EscapedPlain(s[1..], q);
      assert [s[0]] + s[1..] == s;
    }
  }

  /** Text without quotes, backslashes or control characters is written as
      it is, in single quotes. */
  lemma PlainTextRepr(s: string)
    requires '\'' !in s && forall i :: 0 <= i < |s| ==> Plain(s[i], '\'')
    ensures Repr(s) == "'" + s + "'"
  {
    EscapedPlain(s, '\'');
  }

  /** Text with a single quote but no double quote is written in double
      quotes, its single quotes left as they are. */
  lemma ApostropheTextRepr(s: string)
    requires '\'' in s && '"' !in s && forall i :: 0 <= i < |s| ==> Plain(s[i], '"')
    ensures Repr(s) == "\"" + s + "\""
  {
    EscapedPlain(s, '"');
  }

  function StepLine(n: nat, t: Trace): string {
    "\n" + NatToString(n) + ". [" + t.timestamp + "] " + t.agent + "\n"
  }

  function ActionLine(t: Trace): string {
    "   Action: " + t.action + "\n"
  }

  /** Details are listed only when there are some. */
  function DetailsLine(t: Trace): (s: string)
    ensures s == [] <==> t.details == []
  {
    if t.details != [] then "   Details: " + DictText(t.details) + "\n" else ""
  }

  /** The lines the summary gives the trace numbered `n`. */
  function TraceText(n: nat, t: Trace): (s: string)
    ensures StartsWith(s, StepLine(n, t) + ActionLine(t))
  {
    var head := StepLine(n, t) + ActionLine(t);
    assert (head + DetailsLine(t))[..|head|] == head;
    head + DetailsLine(t)
  }

  /** The traces numbered from 1, in the order they were logged. */
  function TracesText(traces: seq<Trace>): string {
    if traces == [] then "" else TracesText(traces[..|traces| - 1]) + TraceText(|traces|, traces[|traces| - 1])
  }

  function Summary(traces: seq<Trace>): string {
    if traces == [] then NoTraces else Header + TracesText(traces)
  }

  /** Logging one more step extends a non-empty summary by exactly that step's
      lines, numbered one past the last. */
  lemma {:induction false} SummaryGrows(traces: seq<Trace>, t: Trace)
    requires traces != []
    ensures Summary(traces + [t]) == Summary(traces) + TraceText(|traces| + 1, t)
  {
    var all := traces + [t];
    var added := TraceText(|traces| + 1, t);
    assert all[..|all| - 1] == traces;
    assert TracesText(all) == TracesText(traces) + added;
    ConcatAssoc(Header, TracesText(traces), added);
  }

  /** The placeholder text appears only for an empty list. */
  lemma NoTracesOnlyWhenEmpty(traces: seq<Trace>)
    ensures Summary(traces) == NoTraces <==> traces == []
  {
    if traces != [] {
      var s := Header + TracesText(traces);
      assert s[0] == '\n';
    }
  }

  /** The lines of one trace, appended as `get_trace_summary` writes them. */
  method AppendTrace(summary: string, n: nat, t: Trace) returns (s: string)
    ensures s == summary + TraceText(n, t)
  {
    var step, action := StepLine(n, t), ActionLine(t);
    s := summary + step;
    s := s + action;
    var details: string := [];
    if t.details != [] {
      details := "   Details: " + DictText(t.details) + "\n";
      s := s + details;
    }
    assert details == DetailsLine(t) && s == summary + step + action + details;
    ConcatAssoc(summary + step, action, details);
    ConcatAssoc(summary, step, action + details);
    ConcatAssoc(step, action, details);
  }

  /** The loop of `get_trace_summary`: each trace's lines, numbered from 1. */
  method NumberedLines(ts: seq<Trace>) returns (text: string)
    ensures text == TracesText(ts)
  {
    text := "";
    var i := 0;
    while i < |ts|
      invariant 0 <= i <= |ts|
      invariant text == TracesText(ts[..i])
    {
      assert ts[..i + 1][..i] == ts[..i];
      text := AppendTrace(text, i + 1, ts[i]);
      i := i + 1;
    }
    assert ts[..|ts|] == ts;
  }

  class AgentTracer {
    var traces: seq<Trace>

    constructor ()
      ensures traces == []
    {
      traces := [];
    }

    /** `log_step`: one trace more, at the end; missing or empty details are stored as empty. */
    method LogStep(agent: string, action: string, details: Option<seq<(string, string)>>, now: string)
      modifies this
      ensures traces == old(traces) + [Trace(now, agent, action, if details.Some? then details.value else [])]
    {
      var entry := Trace(now, agent, action, if details.Some? && details.value != [] then details.value else []);
      traces := traces + [entry];
    }

    /** `get_trace_summary`. */
    method GetTraceSummary() returns (summary: string)
      ensures summary == Summary(traces)
      ensures traces == [] <==> summary == NoTraces
    {
      var ts := traces;
      NoTracesOnlyWhenEmpty(ts);
      if ts == [] {
        return NoTraces;
      }
      var lines := NumberedLines(ts);
      summary := Header + lines;
    }

    /** `clear_traces`. */
    method ClearTraces()
      modifies this
      ensures traces == []
    {
      traces := [];
    }
  }
}
