/** Server-sent events: the parser of the MCP client and the frames the chat endpoint prints. */
module Sse {
  import opened Prelude

  datatype Event = Event(name: Option<string>, data: string, id: Option<string>)

  // ---- Lines ----

  /** The characters `str.splitlines` breaks at, more than the three of section 9.2.6 of the HTML standard. */
  predicate IsBreak(c: char) {
    var n := c as int;
    10 <= n <= 13 || 28 <= n <= 30 || n == 0x85 || n == 0x2028 || n == 0x2029
  }

  predicate Unbroken(s: string) {
    forall i :: 0 <= i < |s| ==> !IsBreak(s[i])
  }

  function FirstBreak(s: string): (n: nat)
    ensures n <= |s|
  {
    if s == "" || IsBreak(s[0]) then 0 else 1 + FirstBreak(s[1..])
  }

  /** How many characters the break at position n takes: carriage return and line feed together are one break. */
  function BreakLength(s: string, n: nat): (k: nat)
    requires n < |s|
    ensures 1 <= k && n + k <= |s|
  {
    if s[n] == '\r' && n + 1 < |s| && s[n + 1] == '\n' then 2 else 1
  }

  function SplitLines(s: string): seq<string>
    decreases |s|
  {
    if s == "" then []
    else
      var n := FirstBreak(s);
      if n == |s| then [s] else [s[..n]] + SplitLines(s[n + BreakLength(s, n)..])
  }

  function StripReturns(s: string): string {
    if s != "" && s[|s| - 1] == '\r' then StripReturns(s[..|s| - 1]) else s
  }

  function Colon(s: string): (n: nat)
    ensures n <= |s|
  {
    if s == "" || s[0] == ':' then 0 else 1 + Colon(s[1..])
  }

  // ---- The parser's state and its steps ----

  datatype Parser = Parser(name: Option<string>, id: Option<string>, data: seq<string>, events: seq<Event>)

  function Begin(events: seq<Event>): Parser {
    Parser(None, None, [], events)
  }

  function Join(lines: seq<string>): string {
    if lines == [] then "" else if |lines| == 1 then lines[0] else Join(lines[..|lines| - 1]) + "\n" + lines[|lines| - 1]
  }

  function Flush(p: Parser): Parser {
    Begin(if p.data == [] then p.events else p.events + [Event(p.name, Join(p.data), p.id)])
  }

  /** The part after the first colon, one leading space dropped; empty without a colon. */
  function ValueOf(line: string): string {
    var n := Colon(line);
    if n == |line| then ""
    else if n + 1 < |line| && line[n + 1] == ' ' then line[n + 2..]
    else line[n + 1..]
  }

  function OnLine(p: Parser, raw: string): Parser {
    var line := StripReturns(raw);
    if line == "" then Flush(p)
    else if line[0] == ':' then p
    else
      var field := line[..Colon(line)];
      var value := ValueOf(line);
      if field == "event" then p.(name := Some(value))
      else if field == "id" then (if '\0' in value then p else p.(id := Some(value)))
      else if field == "data" then p.(data := p.data + [value])
      else p
  }

  function OnLines(p: Parser, lines: seq<string>): Parser
    decreases |lines|
  {
    if lines == [] then p else OnLines(OnLine(p, lines[0]), lines[1..])
  }

  function Parse(text: string): seq<Event> {
    Flush(OnLines(Begin([]), SplitLines(text))).events
  }

  lemma {:induction false} OnLinesAppend(p: Parser, a: seq<string>, b: seq<string>)
    ensures OnLines(p, a + b) == OnLines(OnLines(p, a), b)
    decreases |a|
  {
    if a == [] {
      assert a + b == b;
    } else {
      assert (a + b)[1..] == a[1..] + b;
      OnLinesAppend(OnLine(p, a[0]), a[1..], b);
    }
  }

  /** `parse_sse`: the loop over the lines, with its accumulators. */
  method ParseSse(text: string) returns (events: seq<Event>)
    ensures events == Parse(text)
  {
    events := [];
    var name: Option<string>, id: Option<string> := None, None;
    var data: seq<string> := [];
    var lines := SplitLines(text);
    for i := 0 to |lines|
      invariant Parser(name, id, data, events) == OnLines(Begin([]), lines[..i])
    {
      assert lines[..i + 1] == lines[..i] + [lines[i]];
      OnLinesAppend(Begin([]), lines[..i], [lines[i]]);
      var line := StripReturns(lines[i]);
      if line == "" {
        if data != [] {
          events := events + [Event(name, Join(data), id)];
        }
        name, id, data := None, None, [];
      } else if line[0] != ':' {
        var colon := Colon(line);
        var value := ValueOf(line);
        if line[..colon] == "event" {
          name := Some(value);
        } else if line[..colon] == "id" {
          if '\0' !in value {
            id := Some(value);
          }
        } else if line[..colon] == "data" {
          data := data + [value];
        }
      }
    }
    assert lines[..|lines|] == lines;
    if data != [] {
      events := events + [Event(name, Join(data), id)];
    }
  }

  // ---- Splitting a text where a line ends ----

  predicate EndsLine(a: string) {
    a == "" || IsBreak(a[|a| - 1])
  }

  predicate Meets(a: string, b: string) {
    a != "" && a[|a| - 1] == '\r' && b != "" && b[0] == '\n'
  }

  lemma {:induction false} FirstBreakIs(line: string, c: char, rest: string)
    requires Unbroken(line) && IsBreak(c)
    ensures FirstBreak(line + [c] + rest) == |line|
  {
    var s := line + [c] + rest;
    if line != "" {
      assert s[1..] == line[1..] + [c] + rest;
      FirstBreakIs(line[1..], c, rest);
    }
  }

  /** One whole break after the line, not the first half of one. */
  predicate Ends(end: string, rest: string) {
    end == "\r\n" || (|end| == 1 && IsBreak(end[0]) && !Meets(end, rest))
  }

  lemma {:induction false} SplitsAt(line: string, end: string, rest: string)
    requires Unbroken(line) && Ends(end, rest)
    ensures SplitLines(line + end + rest) == [line] + SplitLines(rest)
  {
    var s := line + end + rest;
    assert s == line + [end[0]] + (end[1..] + rest);
    FirstBreakIs(line, end[0], end[1..] + rest);
    assert s[|line|] == end[0];
    assert |line| + 1 < |s| ==> s[|line| + 1] == (end + rest)[1];
    assert s[..|line|] == line && s[|line| + |end|..] == rest;
  }

  /** A text whose last character is a break has a first line. */
  lemma {:induction false} FirstLine(a: string) returns (line: string, end: string, rest: string)
    requires a != "" && EndsLine(a)
    ensures a == line + end + rest && Unbroken(line) && Ends(end, rest) && EndsLine(rest)
    ensures rest == "" ==> end[|end| - 1] == a[|a| - 1]
    ensures rest != "" ==> rest[|rest| - 1] == a[|a| - 1]
  {
    if IsBreak(a[0]) {
      line := "";
      end := if a[0] == '\r' && |a| > 1 && a[1] == '\n' then a[..2] else a[..1];
      rest := a[|end|..];
    } else {
      line, end, rest := FirstLine(a[1..]);
      line := [a[0]] + line;
    }
  }

  lemma {:induction false} SplitAppend(a: string, b: string)
    requires EndsLine(a) && !Meets(a, b)
    ensures SplitLines(a + b) == SplitLines(a) + SplitLines(b)
    decreases |a|
  {
    if a == "" {
      assert a + b == b && SplitLines(a) == [];
    } else {
      var line, end, rest := FirstLine(a);
      RestMeets(line + end, rest, b);
      SplitAppend(rest, b);
      FirstLineThenRest(line, end, rest, b);
    }
  }

  lemma {:induction false} FirstLineThenRest(line: string, end: string, rest: string, b: string)
    requires Unbroken(line) && Ends(end, rest) && !Meets(line + end + rest, b)
    requires SplitLines(rest + b) == SplitLines(rest) + SplitLines(b)
    ensures SplitLines(line + end + rest + b) == SplitLines(line + end + rest) + SplitLines(b)
  {
    SplitsAt(line, end, rest);
    LongerRest(line, end, rest, b);
    Regroup(line, SplitLines(rest), SplitLines(b));
  }

  lemma {:induction false} Regroup(first: string, a: seq<string>, b: seq<string>)
    ensures [first] + (a + b) == [first] + a + b
  {
  }

  lemma {:induction false} RestMeets(head: string, rest: string, b: string)
    requires !Meets(head + rest, b)
    ensures !Meets(rest, b)
  {
    assert rest != "" ==> (head + rest)[|head + rest| - 1] == rest[|rest| - 1];
  }

  lemma {:induction false} LongerRest(line: string, end: string, rest: string, b: string)
    requires Unbroken(line) && Ends(end, rest) && !Meets(line + end + rest, b)
    ensures SplitLines(line + end + rest + b) == [line] + SplitLines(rest + b)
  {
    assert line + end + rest + b == line + end + (rest + b);
    assert rest == "" ==> (line + end + rest)[|line + end| - 1] == end[|end| - 1];
    SplitsAt(line, end, rest + b);
  }

  /** One line feed after a final carriage return changes nothing. */
  lemma {:induction false} FeedAfterReturn(a: string)
    requires a != "" && a[|a| - 1] == '\r'
    ensures SplitLines(a + "\n") == SplitLines(a)
    decreases |a|
  {
    var line, end, rest := FirstLine(a);
    SplitsAt(line, end, rest);
    if rest == "" {
      assert a + "\n" == line + "\r\n" + "";
      SplitsAt(line, "\r\n", "");
    } else {
      FeedAfterReturn(rest);
      assert a + "\n" == line + end + (rest + "\n");
      SplitsAt(line, end, rest + "\n");
    }
  }

  // ---- Earlier events do not matter ----

  lemma {:induction false} EventsAccumulate(p: Parser, lines: seq<string>, earlier: seq<Event>)
    ensures OnLines(p.(events := earlier + p.events), lines)
         == OnLines(p, lines).(events := earlier + OnLines(p, lines).events)
    decreases |lines|
  {
    if lines != [] {
      var q := OnLine(p, lines[0]);
      assert OnLine(p.(events := earlier + p.events), lines[0]) == q.(events := earlier + q.events) by {
        assert earlier + (p.events + [Event(p.name, Join(p.data), p.id)]) == earlier + p.events + [Event(p.name, Join(p.data), p.id)];
      }
      EventsAccumulate(q, lines[1..], earlier);
    }
  }

  /** The text is empty or its last line is blank. */
  predicate EndsBlank(a: string) {
    a == "" || (EndsLine(a) && SplitLines(a) != [] && SplitLines(a)[|SplitLines(a)| - 1] == "")
  }

  lemma {:induction false} BlankEndFlushes(a: string)
    requires EndsBlank(a)
    ensures OnLines(Begin([]), SplitLines(a)) == Begin(Parse(a))
  {
    var lines := SplitLines(a);
    if lines != [] {
      var before := lines[..|lines| - 1];
      assert lines == before + [""];
      OnLinesAppend(Begin([]), before, [""]);
      assert OnLines(OnLines(Begin([]), before), [""]) == Flush(OnLines(Begin([]), before));
    }
  }

  lemma {:induction false} ParseAfterBlank(a: string, b: string)
    requires EndsBlank(a) && !Meets(a, b)
    ensures Parse(a + b) == Parse(a) + Parse(b)
  {
    SplitAppend(a, b);
    OnLinesAppend(Begin([]), SplitLines(a), SplitLines(b));
    BlankEndFlushes(a);
    EventsAccumulate(Begin([]), SplitLines(b), Parse(a));
    assert Parse(a) + [] == Parse(a);
    var q := OnLines(Begin([]), SplitLines(b));
    assert Parse(a) + (q.events + [Event(q.name, Join(q.data), q.id)]) == Parse(a) + q.events + [Event(q.name, Join(q.data), q.id)];
  }

  lemma {:induction false} LoneFeed()
    ensures EndsBlank("\n") && Parse("\n") == []
  {
    SplitsAt("", "\n", "");
    assert "" + "\n" + "" == "\n";
    assert SplitLines("\n") == [""];
    assert OnLines(Begin([]), [""]) == OnLines(OnLine(Begin([]), ""), [""][1..]);
  }

  /** A blank end on a carriage return, continued by a line feed: one break became longer, and the other part lost a blank line. */
  lemma {:induction false} ParseAcrossReturn(a: string, b: string)
    requires EndsBlank(a) && Meets(a, b)
    ensures Parse(a + b) == Parse(a) + Parse(b[1..])
  {
    FeedAfterReturn(a);
    assert a + b == (a + "\n") + b[1..];
    ParseAfterBlank(a + "\n", b[1..]);
  }

  lemma {:induction false} LeadingFeed(b: string)
    requires b != "" && b[0] == '\n'
    ensures Parse(b) == Parse(b[1..])
  {
    LoneFeed();
    assert b == "\n" + b[1..];
    ParseAfterBlank("\n", b[1..]);
  }

  /** A stream may be cut after any blank line: its parts parse independently, even inside a carriage return and line feed. */
  lemma {:induction false} ParseAppend(a: string, b: string)
    requires EndsBlank(a)
    ensures Parse(a + b) == Parse(a) + Parse(b)
  {
    if Meets(a, b) {
      ParseAcrossReturn(a, b);
      LeadingFeed(b);
    } else {
      ParseAfterBlank(a, b);
    }
  }
}
