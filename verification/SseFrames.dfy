/** The frames the chat endpoint streams, read back by the client's parser. */
module SseFrames {
  import opened Prelude
  import opened Sse

  /** One streamed event: its name and its JSON text. JSON escapes control characters but leaves U+0085, U+2028 and U+2029. */
  datatype Frame = Frame(name: string, data: string)

  function Print(f: Frame): string {
    "event: " + f.name + "\ndata: " + f.data + "\n\n"
  }

  function PrintAll(frames: seq<Frame>): string {
    if frames == [] then "" else Print(frames[0]) + PrintAll(frames[1..])
  }

  function Meant(f: Frame): Event {
    Event(Some(f.name), f.data, None)
  }

  function AllMeant(frames: seq<Frame>): seq<Event> {
    if frames == [] then [] else [Meant(frames[0])] + AllMeant(frames[1..])
  }

  predicate Clean(f: Frame) {
    Unbroken(f.name) && Unbroken(f.data)
  }

  // ---- Lines of a frame ----

  lemma {:induction false} LinesAreUnbroken(text: string)
    ensures forall line :: line in SplitLines(text) ==> Unbroken(line)
    decreases |text|
  {
    if text != "" {
      var n := FirstBreak(text);
      UpToFirstBreak(text);
      if n < |text| {
        LinesAreUnbroken(text[n + BreakLength(text, n)..]);
      } else {
        assert text[..n] == text;
      }
    }
  }

  lemma {:induction false} UpToFirstBreak(text: string)
    ensures Unbroken(text[..FirstBreak(text)])
  {
    if text != "" && !IsBreak(text[0]) {
      UpToFirstBreak(text[1..]);
      assert text[..FirstBreak(text)] == [text[0]] + text[1..][..FirstBreak(text[1..])];
    }
  }

  function Total(lines: seq<string>): nat {
    if lines == [] then 0 else |lines[0]| + Total(lines[1..])
  }

  lemma {:induction false} TotalAppend(a: seq<string>, b: seq<string>)
    ensures Total(a + b) == Total(a) + Total(b)
  {
    if a == [] {
      assert a + b == b;
    } else {
      assert (a + b)[1..] == a[1..] + b;
      TotalAppend(a[1..], b);
    }
  }

  /** Every line costs at least its break. */
  lemma {:induction false} BreaksCost(text: string)
    requires text != "" && EndsLine(text)
    ensures Total(SplitLines(text)) < |text|
    decreases |text|
  {
    var line, end, rest := FirstLine(text);
    SplitsAt(line, end, rest);
    assert ([line] + SplitLines(rest))[1..] == SplitLines(rest);
    if rest != "" {
      BreaksCost(rest);
    }
  }

  lemma {:induction false} LoneBlank()
    ensures SplitLines("\n") == [""] && Total([""]) == 0
  {
    SplitsAt("", "\n", "");
    assert "" + "\n" + "" == "\n";
    assert [""][1..] == [];
  }

  /** A last blank line is a line of its own. */
  lemma {:induction false} BlankLineLast(text: string)
    requires text != "" && text[|text| - 1] == '\n'
    ensures SplitLines(text + "\n") == SplitLines(text) + [""]
  {
    SplitAppend(text, "\n");
    LoneBlank();
  }

  lemma {:induction false} BlankLineCosts(text: string)
    requires text != "" && text[|text| - 1] == '\n'
    ensures Total(SplitLines(text + "\n")) < |text|
  {
    BlankLineLast(text);
    TotalAppend(SplitLines(text), [""]);
    LoneBlank();
    BreaksCost(text);
  }

  /** The data part: one `data:` line with the text up to its first break, and the rest as lines of their own. */
  lemma {:induction false} DataLines(data: string) returns (first: string, tail: seq<string>)
    ensures SplitLines("data: " + data + "\n\n") == ["data: " + first] + tail && Unbroken(first)
    ensures Unbroken(data) ==> first == data && tail == [""]
    ensures !Unbroken(data) ==> |first| + Total(tail) < |data|
  {
    var line, end, rest := FirstLine(data + "\n");
    first := line;
    tail := SplitLines(rest + "\n");
    assert "data: " + data + "\n\n" == "data: " + (data + "\n") + "\n" == "data: " + line + end + (rest + "\n");
    SplitsAt("data: " + line, end, rest + "\n");
    if rest == "" {
      LoneBlank();
      assert rest + "\n" == "\n";
      assert data + "\n" == line + end;
      if |end| == 1 {
        assert data == (data + "\n")[..|data|] == (line + end)[..|line|] == line;
      } else {
        assert data[|line|] == (line + end)[|line|] == '\r';
      }
    } else {
      BlankLineCosts(rest);
      BreakInside(data, line, end, rest);
    }
  }

  lemma {:induction false} BreakInside(data: string, line: string, end: string, rest: string)
    requires data + "\n" == line + end + rest && rest != "" && end != "" && IsBreak(end[0])
    ensures !Unbroken(data)
  {
    assert data[|line|] == (data + "\n")[|line|] == (line + end + rest)[|line|] == end[0];
  }

  lemma {:induction false} FrameLines(f: Frame)
    ensures SplitLines(Print(f)) == SplitLines("event: " + f.name + "\n") + SplitLines("data: " + f.data + "\n\n")
    ensures EndsBlank(Print(f))
  {
    assert Print(f) == "event: " + f.name + "\n" + ("data: " + f.data + "\n\n");
    SplitAppend("event: " + f.name + "\n", "data: " + f.data + "\n\n");
    var text := "event: " + f.name + "\ndata: " + f.data + "\n";
    assert Print(f) == text + "\n";
    BlankLineLast(text);
  }

  // ---- Reading the two fields ----

  lemma {:induction false} NoReturnToStrip(line: string)
    requires Unbroken(line)
    ensures StripReturns(line) == line
  {
  }

  lemma {:induction false} ReadsName(p: Parser, name: string)
    requires Unbroken(name)
    ensures OnLine(p, "event: " + name) == p.(name := Some(name))
  {
    var line := "event: " + name;
    NoReturnToStrip(line);
    ColonAfter("event", " " + name);
    assert line == "event" + ":" + (" " + name);
    assert line[..5] == "event" && line[7..] == name;
  }

  lemma {:induction false} ReadsData(p: Parser, value: string)
    requires Unbroken(value)
    ensures OnLine(p, "data: " + value) == p.(data := p.data + [value])
  {
    var line := "data: " + value;
    NoReturnToStrip(line);
    ColonAfter("data", " " + value);
    assert line == "data" + ":" + (" " + value);
    assert line[..4] == "data" && line[6..] == value;
  }

  lemma {:induction false} ColonAfter(field: string, rest: string)
    requires ':' !in field
    ensures Colon(field + ":" + rest) == |field|
  {
    if field != "" {
      assert (field + ":" + rest)[1..] == field[1..] + ":" + rest;
      ColonAfter(field[1..], rest);
    }
  }

  // ---- What any lines can do to a parser ----

  predicate NamesUnbroken(p: Parser) {
    && (p.name.Some? ==> Unbroken(p.name.value))
    && forall e :: e in p.events && e.name.Some? ==> Unbroken(e.name.value)
  }

  lemma {:induction false} OnLineKeepsNames(p: Parser, line: string)
    requires NamesUnbroken(p) && Unbroken(line)
    ensures NamesUnbroken(OnLine(p, line))
  {
    NoReturnToStrip(line);
  }

  lemma {:induction false} OnLinesKeepsNames(p: Parser, lines: seq<string>)
    requires NamesUnbroken(p) && forall line :: line in lines ==> Unbroken(line)
    ensures NamesUnbroken(OnLines(p, lines))
    decreases |lines|
  {
    if lines != [] {
      assert lines[0] in lines;
      OnLineKeepsNames(p, lines[0]);
      OnLinesKeepsNames(OnLine(p, lines[0]), lines[1..]);
    }
  }

  /** All data characters a parser holds, emitted or pending. */
  function Weight(p: Parser): nat {
    Emitted(p.events) + |Join(p.data)|
  }

  function Emitted(events: seq<Event>): nat {
    if events == [] then 0 else Emitted(events[..|events| - 1]) + |events[|events| - 1].data|
  }

  lemma {:induction false} FlushKeepsWeight(p: Parser)
    ensures Weight(Flush(p)) == Weight(p)
  {
    if p.data != [] {
      var e := Event(p.name, Join(p.data), p.id);
      assert (p.events + [e])[..|p.events|] == p.events;
    }
  }

  lemma {:induction false} JoinOneMore(lines: seq<string>, line: string)
    ensures |Join(lines + [line])| <= |Join(lines)| + |line| + 1
  {
    assert (lines + [line])[..|lines|] == lines;
  }

  lemma {:induction false} ValueIsShorter(line: string)
    requires line != ""
    ensures |ValueOf(line)| < |line|
  {
  }

  lemma {:induction false} OnLineWeighs(p: Parser, line: string)
    requires Unbroken(line)
    ensures Weight(OnLine(p, line)) <= Weight(p) + |line|
  {
    NoReturnToStrip(line);
    if line == "" {
      FlushKeepsWeight(p);
    } else {
      ValueIsShorter(line);
      JoinOneMore(p.data, ValueOf(line));
      var q := OnLine(p, line);
      assert q.events == p.events && (q.data == p.data || q.data == p.data + [ValueOf(line)]);
    }
  }

  lemma {:induction false} OnLinesWeigh(p: Parser, lines: seq<string>)
    requires forall line :: line in lines ==> Unbroken(line)
    ensures Weight(OnLines(p, lines)) <= Weight(p) + Total(lines)
    decreases |lines|
  {
    if lines != [] {
      assert lines[0] in lines;
      OnLineWeighs(p, lines[0]);
      OnLinesWeigh(OnLine(p, lines[0]), lines[1..]);
    }
  }

  predicate HasData(p: Parser) {
    p.data != [] || p.events != []
  }

  lemma {:induction false} OnLinesKeepsData(p: Parser, lines: seq<string>)
    requires HasData(p)
    ensures HasData(OnLines(p, lines))
    decreases |lines|
  {
    if lines != [] {
      OnLinesKeepsData(OnLine(p, lines[0]), lines[1..]);
    }
  }

  // ---- One frame ----

  /** The parser at the end of a frame, from its first data line on. */
  lemma {:induction false} FrameState(f: Frame, first: string, tail: seq<string>)
    requires SplitLines("data: " + f.data + "\n\n") == ["data: " + first] + tail && Unbroken(first)
    ensures var q := OnLines(Begin([]), SplitLines("event: " + f.name + "\n"));
      OnLines(Begin([]), SplitLines(Print(f))) == OnLines(q.(data := q.data + [first]), tail)
  {
    FrameLines(f);
    var named := SplitLines("event: " + f.name + "\n");
    var q := OnLines(Begin([]), named);
    OnLinesAppend(Begin([]), named, ["data: " + first] + tail);
    ReadsData(q, first);
    assert (["data: " + first] + tail)[1..] == tail;
  }

  lemma {:induction false} NameLine(name: string)
    requires Unbroken(name)
    ensures OnLines(Begin([]), SplitLines("event: " + name + "\n")) == Begin([]).(name := Some(name))
  {
    SplitsAt("event: " + name, "\n", "");
    assert "event: " + name + "\n" + "" == "event: " + name + "\n";
    assert SplitLines("event: " + name + "\n") == ["event: " + name];
    ReadsName(Begin([]), name);
    assert ["event: " + name][1..] == [];
  }

  lemma {:induction false} CleanFrameParses(f: Frame)
    requires Clean(f)
    ensures Parse(Print(f)) == [Meant(f)]
  {
    var first, tail := DataLines(f.data);
    FrameState(f, first, tail);
    NameLine(f.name);
    var q := Begin([]).(name := Some(f.name), data := [f.data]);
    assert [] + [first] == [f.data];
    assert OnLines(q, [""]) == OnLines(OnLine(q, ""), [""][1..]);
    assert Join([f.data]) == f.data;
    assert [] + [Meant(f)] == [Meant(f)];
  }

  lemma {:induction false} FrameYieldsSomething(f: Frame)
    ensures Parse(Print(f)) != []
  {
    var first, tail := DataLines(f.data);
    FrameState(f, first, tail);
    var q := OnLines(Begin([]), SplitLines("event: " + f.name + "\n"));
    OnLinesKeepsData(q.(data := q.data + [first]), tail);
  }

  lemma {:induction false} BrokenNameIsLost(f: Frame)
    requires !Unbroken(f.name)
    ensures Parse(Print(f)) != [Meant(f)]
  {
    LinesAreUnbroken(Print(f));
    OnLinesKeepsNames(Begin([]), SplitLines(Print(f)));
    var p := OnLines(Begin([]), SplitLines(Print(f)));
    assert NamesUnbroken(Flush(p));
    assert Meant(f) !in Parse(Print(f));
    assert Meant(f) in [Meant(f)];
  }

  lemma {:induction false} BrokenDataIsLost(f: Frame)
    requires Unbroken(f.name) && !Unbroken(f.data)
    ensures Parse(Print(f)) != [Meant(f)]
  {
    var first, tail := DataLines(f.data);
    FrameState(f, first, tail);
    NameLine(f.name);
    LinesAreUnbroken("data: " + f.data + "\n\n");
    forall line | line in tail ensures Unbroken(line) {
      assert line in ["data: " + first] + tail;
    }
    var q := Begin([]).(name := Some(f.name), data := [first]);
    assert [] + [first] == [first];
    OnLinesWeigh(q, tail);
    assert Weight(q) == |first|;
    FlushKeepsWeight(OnLines(q, tail));
    assert Emitted([Meant(f)]) == |f.data|;
  }

  /** A frame reads back as the event it prints if and only if neither its name nor its JSON text has a line break. */
  lemma {:induction false} FrameExactly(f: Frame)
    ensures Parse(Print(f)) == [Meant(f)] <==> Clean(f)
  {
    if Clean(f) {
      CleanFrameParses(f);
    } else if !Unbroken(f.name) {
      BrokenNameIsLost(f);
    } else {
      BrokenDataIsLost(f);
    }
  }

  // ---- A stream of frames ----

  lemma {:induction false} FirstFrame(frames: seq<Frame>)
    requires frames != []
    ensures Parse(PrintAll(frames)) == Parse(Print(frames[0])) + Parse(PrintAll(frames[1..]))
  {
    FrameLines(frames[0]);
    ParseAppend(Print(frames[0]), PrintAll(frames[1..]));
  }

  lemma {:induction false} AtLeastOneEach(frames: seq<Frame>)
    ensures |Parse(PrintAll(frames))| >= |frames| == |AllMeant(frames)|
  {
    if frames != [] {
      FirstFrame(frames);
      FrameYieldsSomething(frames[0]);
      AtLeastOneEach(frames[1..]);
    }
  }

  /** Two concatenations with heads of one element and an equally long rest agree exactly part by part. */
  lemma {:induction false} HeadsAgree(head: seq<Event>, rest: seq<Event>, e: Event, meant: seq<Event>)
    requires head != [] && |rest| >= |meant|
    ensures head + rest == [e] + meant <==> head == [e] && rest == meant
  {
    if head + rest == [e] + meant {
      assert |head| == 1 && head[0] == (head + rest)[0] == e;
      assert rest == (head + rest)[1..] == meant;
    }
  }

  /** A whole stream reads back as the events it printed if and only if every frame is clean. */
  lemma {:induction false} StreamExactly(frames: seq<Frame>)
    ensures Parse(PrintAll(frames)) == AllMeant(frames) <==> (forall f :: f in frames ==> Clean(f))
  {
    hide Parse, Clean;
    if frames == [] {
      EmptyStream();
    } else {
      var rest := frames[1..];
      FirstFrame(frames);
      FrameYieldsSomething(frames[0]);
      AtLeastOneEach(rest);
      StreamExactly(rest);
      FrameExactly(frames[0]);
      HeadsAgree(Parse(Print(frames[0])), Parse(PrintAll(rest)), Meant(frames[0]), AllMeant(rest));
      assert frames == [frames[0]] + rest;
    }
  }

  lemma {:induction false} EmptyStream()
    ensures Parse("") == []
  {
  }
}
