/** Parsing a vendor's server-sent event stream. */
module Sse {
  import opened Types

  datatype SseEvent = SseEvent(event: Option<string>, data: string)

  // ---- Lines ----

  function FirstNewline(text: string): (i: nat)
    ensures i <= |text|
    ensures forall j :: 0 <= j < i ==> text[j] != '\n'
    ensures i < |text| ==> text[i] == '\n'
  {
    if text == [] || text[0] == '\n' then 0 else 1 + FirstNewline(text[1..])
  }

  function StripCr(line: string): string {
    if line != [] && line[|line| - 1] == '\r' then line[..|line| - 1] else line
  }

  /** Rust's `lines`: newline-terminated pieces, one carriage return stripped, no empty last line. */
  function Lines(text: string): seq<string>
    decreases |text|
  {
    if text == [] then []
    else
      var i := FirstNewline(text);
      if i == |text| then [text] else [StripCr(text[..i])] + Lines(text[i + 1..])
  }

  function TrimCr(line: string): string {
    if line != [] && line[|line| - 1] == '\r' then TrimCr(line[..|line| - 1]) else line
  }

  function TrimStart(s: string): string {
    if s != [] && IsWhitespace(s[0]) then TrimStart(s[1..]) else s
  }

  function Join(lines: seq<string>): string {
    if lines == [] then ""
    else if |lines| == 1 then lines[0]
    else lines[0] + "\n" + Join(lines[1..])
  }

  // ---- The parser ----

  datatype State = State(events: seq<SseEvent>, name: Option<string>, data: seq<string>)

  const START: State := State([], None, [])

  function Flush(s: State): State {
    if s.data == [] then s.(name := None)
    else State(s.events + [SseEvent(s.name, Join(s.data))], None, [])
  }

  function StripPrefix(line: string, prefix: string): Option<string> {
    if prefix <= line then Some(line[|prefix|..]) else None
  }

  function Step(s: State, raw: string): State {
    var line := TrimCr(raw);
    if line == [] then Flush(s)
    else if line[0] == ':' then s
    else
      match StripPrefix(line, "event:")
      case Some(value) => s.(name := Some(TrimStart(value)))
      case None =>
        match StripPrefix(line, "data:")
        case Some(value) => s.(data := s.data + [TrimStart(value)])
        case None => s
  }

  function Feed(s: State, lines: seq<string>): State
    decreases |lines|
  {
    if lines == [] then s else Feed(Step(s, lines[0]), lines[1..])
  }

  function Events(text: string): seq<SseEvent> {
    Flush(Feed(START, Lines(text))).events
  }

  datatype VendorError = InvalidResponse(message: string)

  /** The parser as a loop over lines; a stream without events is an error. */
  method ParseSseEvents(text: string) returns (r: Result<seq<SseEvent>, VendorError>)
    ensures Events(text) != [] ==> r == Ok(Events(text))
    ensures Events(text) == [] ==> r.Err?
  {
    var events: seq<SseEvent> := [];
    var name: Option<string> := None;
    var data: seq<string> := [];
    var lines := Lines(text);
    for i := 0 to |lines|
      invariant Feed(State(events, name, data), lines[i..]) == Feed(START, lines)
    {
      var line := TrimCr(lines[i]);
      assert lines[i..][0] == lines[i] && lines[i..][1..] == lines[i + 1..];
      if line == [] {
        events, name, data := FlushEvent(events, name, data);
      } else if line[0] == ':' {
      } else {
        match StripPrefix(line, "event:") {
          case Some(value) =>
            name := Some(TrimStart(value));
          case None =>
            match StripPrefix(line, "data:") {
              case Some(value) => data := data + [TrimStart(value)];
              case None =>
            }
        }
      }
    }
    events, name, data := FlushEvent(events, name, data);
    if events == [] {
      return Err(InvalidResponse("vendor stream did not contain SSE events"));
    }
    return Ok(events);
  }

  method FlushEvent(events: seq<SseEvent>, name: Option<string>, data: seq<string>)
    returns (events': seq<SseEvent>, name': Option<string>, data': seq<string>)
    ensures State(events', name', data') == Flush(State(events, name, data))
  {
    if data == [] {
      return events, None, [];
    }
    return events + [SseEvent(name, Join(data))], None, [];
  }

  // ---- Feeding in pieces ----

  lemma {:induction false} FeedConcat(s: State, xs: seq<string>, ys: seq<string>)
    ensures Feed(s, xs + ys) == Feed(Feed(s, xs), ys)
    decreases |xs|
  {
    if xs == [] {
      assert xs + ys == ys;
    } else {
      assert (xs + ys)[1..] == xs[1..] + ys;
      FeedConcat(Step(s, xs[0]), xs[1..], ys);
    }
  }

  function Prepend(before: seq<SseEvent>, s: State): State {
    s.(events := before + s.events)
  }

  lemma {:induction false} FeedPrepends(before: seq<SseEvent>, s: State, lines: seq<string>)
    ensures Feed(Prepend(before, s), lines) == Prepend(before, Feed(s, lines))
    ensures Flush(Prepend(before, s)) == Prepend(before, Flush(s))
    decreases |lines|
  {
    FlushPrepends(before, s);
    if lines != [] {
      FeedPrepends(before, Step(s, lines[0]), lines[1..]);
      assert Step(Prepend(before, s), lines[0]) == Prepend(before, Step(s, lines[0]));
    }
  }

  lemma FlushPrepends(before: seq<SseEvent>, s: State)
    ensures Flush(Prepend(before, s)) == Prepend(before, Flush(s))
  {
    if s.data != [] {
      assert before + s.events + [SseEvent(s.name, Join(s.data))] == before + (s.events + [SseEvent(s.name, Join(s.data))]);
    }
  }

  lemma {:induction false} LinesAfterNewline(a: string, c: string)
    ensures Lines(a + "\n" + c) == Lines(a + "\n") + Lines(c)
    decreases |a|
  {
    var i := FirstNewline(a);
    if i < |a| {
      LinesAfterNewline(a[i + 1..], c);
      LinesOfLater(a[..i], a[i + 1..] + "\n" + c, a[i + 1..] + "\n", c);
      SplitText(a, i, c);
    } else {
      LinesOfOnly(a, c);
    }
  }

  lemma LinesOfOnly(line: string, c: string)
    requires NoNewline(line)
    ensures Lines(line + "\n" + c) == Lines(line + "\n") + Lines(c)
  {
    LinesOfFirst(line, c);
    LinesOfFirst(line, "");
    assert line + "\n" + "" == line + "\n";
  }

  lemma LinesOfFirst(line: string, rest: string)
    requires NoNewline(line)
    ensures Lines(line + "\n" + rest) == [StripCr(line)] + Lines(rest)
  {
    var text := line + "\n" + rest;
    FirstNewlineIs(text, |line|);
    assert text[..|line|] == line && text[|line| + 1..] == rest;
  }

  lemma LinesOfLater(line: string, x: string, y: string, c: string)
    requires NoNewline(line) && Lines(x) == Lines(y) + Lines(c)
    ensures Lines(line + "\n" + x) == Lines(line + "\n" + y) + Lines(c)
  {
    LinesOfFirst(line, x);
    LinesOfFirst(line, y);
    ConsConcat(StripCr(line), Lines(y), Lines(c));
  }

  lemma SplitText(a: string, i: nat, c: string)
    requires i < |a| && a[i] == '\n'
    ensures a + "\n" + c == a[..i] + "\n" + (a[i + 1..] + "\n" + c)
    ensures a + "\n" == a[..i] + "\n" + (a[i + 1..] + "\n")
  {
  }

  lemma ConsConcat(x: string, p: seq<string>, q: seq<string>)
    ensures [x] + (p + q) == ([x] + p) + q
  {
  }

  lemma {:induction false} FirstNewlineIs(text: string, i: nat)
    requires i < |text| && text[i] == '\n' && forall j :: 0 <= j < i ==> text[j] != '\n'
    ensures FirstNewline(text) == i
  {
  }

  lemma TrimStripCr(line: string)
    ensures TrimCr(StripCr(line)) == TrimCr(line)
  {
  }

  /** Ending a text with a newline changes at most a carriage return or adds one blank line. */
  lemma {:induction false} FinalNewline(s: State, a: string)
    ensures Flush(Feed(s, Lines(a + "\n"))) == Flush(Feed(s, Lines(a)))
    decreases |a|
  {
    var i := FirstNewline(a);
    var short := a + "\n";
    FirstNewlineIs(short, i);
    if i < |a| {
      assert short[i + 1..] == a[i + 1..] + "\n" && short[..i] == a[..i];
      var line := StripCr(a[..i]);
      assert Lines(short) == [line] + Lines(a[i + 1..] + "\n") && Lines(a) == [line] + Lines(a[i + 1..]);
      FinalNewline(Step(s, line), a[i + 1..]);
    } else {
      assert short[i + 1..] == [] && short[..i] == a;
      assert Lines(short) == [StripCr(a)];
      TrimStripCr(a);
      if a == [] {
        assert Step(s, StripCr(a)) == Flush(s);
      } else {
        assert Lines(a) == [a];
      }
    }
  }

  lemma LinesAroundBlank(a: string, b: string)
    ensures Lines(a + "\n\n" + b) == Lines(a + "\n") + ([""] + Lines(b))
  {
    var rest := "\n" + b;
    assert a + "\n\n" + b == a + "\n" + rest;
    LinesAfterNewline(a, rest);
    LinesAfterNewline("", b);
    assert "" + "\n" + b == rest && "" + "\n" == "\n";
    assert Lines("\n") == [""] by { FirstNewlineIs("\n", 0); }
  }

  /** After a flush, what was parsed before only stands in front of what comes. */
  lemma FeedAfterFlush(before: seq<SseEvent>, lines: seq<string>)
    ensures Flush(Feed(State(before, None, []), lines)).events == before + Flush(Feed(START, lines)).events
  {
    assert State(before, None, []) == Prepend(before, START);
    FeedPrepends(before, START, lines);
    FlushPrepends(before, Feed(START, lines));
  }

  /** A blank line ends whatever came before it: parsing distributes over texts joined by one. */
  lemma EventsSplitAtBlankLines(a: string, b: string)
    ensures Events(a + "\n\n" + b) == Events(a) + Events(b)
  {
    var head := Lines(a + "\n");
    LinesAroundBlank(a, b);
    FeedConcat(START, head, [""] + Lines(b));
    assert ([""] + Lines(b))[1..] == Lines(b);
    FinalNewline(START, a);
    assert Feed(Feed(START, head), [""] + Lines(b)) == Feed(State(Events(a), None, []), Lines(b));
    FeedAfterFlush(Events(a), Lines(b));
  }

  predicate NoNewline(s: string) {
    forall i :: 0 <= i < |s| ==> s[i] != '\n'
  }

  // ---- What each line means ----

  predicate AllSpace(s: string) {
    forall i :: 0 <= i < |s| ==> IsWhitespace(s[i])
  }

  predicate AllCr(s: string) {
    forall i :: 0 <= i < |s| ==> s[i] == '\r'
  }

  /** No leading white space and no trailing carriage return. */
  predicate Trimmed(s: string) {
    s != [] ==> !IsWhitespace(s[0]) && s[|s| - 1] != '\r'
  }

  lemma {:induction false} TrimCrDropsTail(line: string, crs: string)
    requires AllCr(crs)
    ensures TrimCr(line + crs) == TrimCr(line)
    decreases |crs|
  {
    if crs == [] {
      assert line + crs == line;
    } else {
      assert (line + crs)[..|line + crs| - 1] == line + crs[..|crs| - 1];
      TrimCrDropsTail(line, crs[..|crs| - 1]);
    }
  }

  lemma {:induction false} TrimStartDropsPad(pad: string, value: string)
    requires AllSpace(pad) && Trimmed(value)
    ensures TrimStart(pad + value) == value
    decreases |pad|
  {
    if pad == [] {
      assert pad + value == value;
    } else {
      assert (pad + value)[1..] == pad[1..] + value;
      TrimStartDropsPad(pad[1..], value);
    }
  }

  lemma {:induction false} TrimCrKeepsPrefix(prefix: string, rest: string)
    requires prefix != [] && prefix[|prefix| - 1] != '\r'
    ensures TrimCr(prefix + rest) == prefix + TrimCr(rest)
    decreases |rest|
  {
    if rest == [] {
      assert prefix + rest == prefix;
    } else if rest[|rest| - 1] == '\r' {
      assert (prefix + rest)[..|prefix + rest| - 1] == prefix + rest[..|rest| - 1];
      TrimCrKeepsPrefix(prefix, rest[..|rest| - 1]);
    }
  }

  lemma {:induction false} TrimmedPadding(pad: string, value: string)
    requires AllSpace(pad) && Trimmed(value)
    ensures TrimStart(TrimCr(pad + value)) == value
  {
    if value == [] {
      assert pad + value == pad;
      TrimCrTrims(pad);
      TrimStartDropsPad(TrimCr(pad), "");
      assert TrimCr(pad) + "" == TrimCr(pad);
    } else {
      assert (pad + value)[|pad + value| - 1] == value[|value| - 1];
      TrimStartDropsPad(pad, value);
    }
  }

  /** A field line in any of its spellings: the value after any white space, before any carriage returns. */
  lemma FieldLineMeans(s: State, name: string, pad: string, value: string, crs: string)
    requires name == "event:" || name == "data:"
    requires AllSpace(pad) && AllCr(crs) && Trimmed(value)
    ensures Step(s, name + pad + value + crs)
         == if name == "event:" then s.(name := Some(value)) else s.(data := s.data + [value])
  {
    var line := name + (pad + value);
    assert name + pad + value + crs == line + crs;
    TrimCrDropsTail(line, crs);
    TrimCrKeepsPrefix(name, pad + value);
    TrimmedPadding(pad, value);
    var trimmed := TrimCr(line);
    assert trimmed == name + TrimCr(pad + value) && trimmed[|name|..] == TrimCr(pad + value);
    assert trimmed[0] == name[0];
    if name == "data:" {
      assert !("event:" <= trimmed);
    }
  }

  lemma BlankLineMeans(s: State, crs: string)
    requires AllCr(crs)
    ensures Step(s, crs) == Flush(s)
  {
    TrimCrDropsTail("", crs);
    assert "" + crs == crs;
  }

  /** A line that is not blank and no field of ours. */
  predicate OtherLine(line: string) {
    !AllCr(line) && !("event:" <= line) && !("data:" <= line)
  }

  lemma {:induction false} TrimCrOnlyCr(line: string)
    requires TrimCr(line) == []
    ensures AllCr(line)
  {
    if line != [] {
      TrimCrOnlyCr(line[..|line| - 1]);
    }
  }

  /** Comments, unknown fields, and anything else that is no field, are ignored. */
  lemma OtherLineMeans(s: State, line: string)
    requires OtherLine(line)
    ensures Step(s, line) == s
  {
    TrimCrTrims(line);
    if TrimCr(line) == [] {
      TrimCrOnlyCr(line);
    }
  }

  lemma OtherLineIgnored(s: State, line: string, b: string)
    requires NoNewline(line) && OtherLine(line)
    ensures Feed(s, Lines(line + "\n" + b)) == Feed(s, Lines(b))
  {
    LinesAfterNewline(line, b);
    FirstNewlineIs(line + "\n", |line|);
    assert (line + "\n")[..|line|] == line && (line + "\n")[|line| + 1..] == [];
    assert Lines(line + "\n") == [StripCr(line)];
    TrimStripCr(line);
    OtherLineMeans(s, line);
    assert Step(s, StripCr(line)) == Step(s, line);
    assert ([StripCr(line)] + Lines(b))[1..] == Lines(b);
  }

  /** A line that is no field, inserted at the start of any line, the first included, changes nothing. */
  lemma OtherLinesChangeNothing(a: string, line: string, b: string)
    requires NoNewline(line) && OtherLine(line) && (a == [] || a[|a| - 1] == '\n')
    ensures Events(a + (line + "\n" + b)) == Events(a + b)
  {
    var with := line + "\n" + b;
    if a == [] {
      assert a + with == with && a + b == b;
      OtherLineIgnored(START, line, b);
    } else {
      var head := a[..|a| - 1];
      assert a == head + "\n";
      LinesAfterNewline(head, with);
      LinesAfterNewline(head, b);
      FeedConcat(START, Lines(a), Lines(with));
      FeedConcat(START, Lines(a), Lines(b));
      OtherLineIgnored(Feed(START, Lines(a)), line, b);
    }
  }

  /** In particular comments. */
  lemma CommentsChangeNothing(a: string, comment: string, b: string)
    requires NoNewline(comment) && (a == [] || a[|a| - 1] == '\n')
    ensures Events(a + (":" + comment + "\n" + b)) == Events(a + b)
  {
    assert (":" + comment)[0] == ':';
    OtherLinesChangeNothing(a, ":" + comment, b);
  }

  // ---- Blocks between blank lines ----

  /** The value of a field line, if the line is one of that field. */
  function ValueOf(line: string, name: string): Option<string> {
    if name <= TrimCr(line) then Some(TrimStart(TrimCr(line)[|name|..])) else None
  }

  /** All data values of a block, in order. */
  function DataOf(block: seq<string>): seq<string> {
    if block == [] then []
    else
      match ValueOf(block[0], "data:")
      case Some(value) => [value] + DataOf(block[1..])
      case None => DataOf(block[1..])
  }

  /** The last event name of a block. */
  function NameOf(block: seq<string>): Option<string> {
    if block == [] then None
    else
      match NameOf(block[1..])
      case Some(name) => Some(name)
      case None => ValueOf(block[0], "event:")
  }

  predicate BlankLine(line: string) {
    AllCr(line)
  }

  function FirstBlank(lines: seq<string>): (i: nat)
    ensures i <= |lines|
  {
    if lines == [] || BlankLine(lines[0]) then 0 else 1 + FirstBlank(lines[1..])
  }

  /** One event for a block that has data, whatever else is in it, and none for one that has not. */
  function BlockEvents(block: seq<string>): seq<SseEvent> {
    if DataOf(block) == [] then [] else [SseEvent(NameOf(block), Join(DataOf(block)))]
  }

  function EventsIn(lines: seq<string>): seq<SseEvent>
    decreases |lines|
  {
    var i := FirstBlank(lines);
    if i == |lines| then BlockEvents(lines) else BlockEvents(lines[..i]) + EventsIn(lines[i + 1..])
  }

  predicate NoBlank(lines: seq<string>) {
    forall i :: 0 <= i < |lines| ==> !BlankLine(lines[i])
  }

  lemma LineInBlock(s: State, line: string)
    requires !BlankLine(line)
    ensures Step(s, line) == State(s.events, if ValueOf(line, "event:").Some? then ValueOf(line, "event:") else s.name,
                                   if ValueOf(line, "data:").Some? then s.data + [ValueOf(line, "data:").value] else s.data)
  {
    TrimCrTrims(line);
    if TrimCr(line) == [] {
      TrimCrOnlyCr(line);
    }
  }

  lemma {:induction false} FeedBlock(s: State, block: seq<string>)
    requires NoBlank(block)
    ensures Feed(s, block)
         == State(s.events, if NameOf(block).Some? then NameOf(block) else s.name, s.data + DataOf(block))
    decreases |block|
  {
    if block == [] {
      assert s.data + [] == s.data;
    } else {
      LineInBlock(s, block[0]);
      FeedBlock(Step(s, block[0]), block[1..]);
      if ValueOf(block[0], "data:").Some? {
        var v := ValueOf(block[0], "data:").value;
        assert s.data + [v] + DataOf(block[1..]) == s.data + ([v] + DataOf(block[1..]));
      }
    }
  }

  lemma {:induction false} FirstBlankFirst(lines: seq<string>)
    ensures NoBlank(lines[..FirstBlank(lines)])
    ensures FirstBlank(lines) < |lines| ==> BlankLine(lines[FirstBlank(lines)])
    decreases |lines|
  {
    if lines != [] && !BlankLine(lines[0]) {
      FirstBlankFirst(lines[1..]);
      var i := FirstBlank(lines);
      assert lines[..i] == [lines[0]] + lines[1..][..i - 1];
    }
  }

  lemma FeedAcross(s: State, lines: seq<string>, i: nat)
    requires i < |lines| && BlankLine(lines[i])
    ensures Feed(s, lines) == Feed(Flush(Feed(s, lines[..i])), lines[i + 1..])
  {
    assert lines == lines[..i] + lines[i..];
    FeedConcat(s, lines[..i], lines[i..]);
    BlankLineMeans(Feed(s, lines[..i]), lines[i]);
    assert lines[i..][1..] == lines[i + 1..];
  }

  lemma BlockFlushes(before: seq<SseEvent>, block: seq<string>)
    requires NoBlank(block)
    ensures Flush(Feed(State(before, None, []), block)) == State(before + BlockEvents(block), None, [])
  {
    FeedBlock(State(before, None, []), block);
    assert [] + DataOf(block) == DataOf(block);
    assert before + [] == before;
  }

  lemma {:induction false} FeedIsBlocks(before: seq<SseEvent>, lines: seq<string>)
    ensures Flush(Feed(State(before, None, []), lines)) == State(before + EventsIn(lines), None, [])
    decreases |lines|
  {
    var i := FirstBlank(lines);
    FirstBlankFirst(lines);
    BlockFlushes(before, lines[..i]);
    if i == |lines| {
      assert lines[..i] == lines;
    } else {
      var events, rest := BlockEvents(lines[..i]), lines[i + 1..];
      FeedAcross(State(before, None, []), lines, i);
      FeedIsBlocks(before + events, rest);
      assert before + events + EventsIn(rest) == before + (events + EventsIn(rest));
    }
  }

  /**
   * The events of a text are those of its blocks between blank lines: each block with data gives one event, its data values
   * joined by newlines, under the last name in the block.
   */
  lemma EventsAreBlocks(text: string)
    ensures Events(text) == EventsIn(Lines(text))
  {
    FeedIsBlocks([], Lines(text));
    assert [] + EventsIn(Lines(text)) == EventsIn(Lines(text));
  }

  // ---- Round trip ----

  /** Text that survives the wire: no newline, no leading white space, no trailing carriage return. */
  predicate WireSafe(s: string) {
    NoNewline(s) && (s != [] ==> !IsWhitespace(s[0]) && s[|s| - 1] != '\r')
  }

  /** The lines of a data value, the inverse of joining them. */
  function SplitData(data: string): (lines: seq<string>)
    ensures lines != [] && Join(lines) == data
    ensures forall i :: 0 <= i < |lines| ==> NoNewline(lines[i])
    decreases |data|
  {
    var i := FirstNewline(data);
    if i == |data| then [data]
    else
      assert data == data[..i] + "\n" + data[i + 1..];
      [data[..i]] + SplitData(data[i + 1..])
  }

  predicate Renderable(e: SseEvent) {
    && (e.event.Some? ==> WireSafe(e.event.value))
    && forall i :: 0 <= i < |SplitData(e.data)| ==> WireSafe(SplitData(e.data)[i])
  }

  function RenderData(lines: seq<string>): string {
    if lines == [] then "" else "data: " + lines[0] + "\n" + RenderData(lines[1..])
  }

  /** An event as a vendor puts it on the wire, blank line included. */
  function Render(e: SseEvent): string {
    (if e.event.Some? then "event: " + e.event.value + "\n" else "") + RenderData(SplitData(e.data)) + "\n"
  }

  function RenderAll(events: seq<SseEvent>): string {
    if events == [] then "" else Render(events[0]) + RenderAll(events[1..])
  }

  /** Feeding one safe line that ends in a newline, then the rest. */
  lemma FeedLine(s: State, line: string, rest: string)
    requires NoNewline(line) && (line != [] ==> line[|line| - 1] != '\r')
    ensures Feed(s, Lines(line + "\n" + rest)) == Feed(Step(s, line), Lines(rest))
  {
    LinesAfterNewline(line, rest);
    FirstNewlineIs(line + "\n", |line|);
    assert (line + "\n")[..|line|] == line && (line + "\n")[|line| + 1..] == [];
    assert Lines(line + "\n") == [line];
    FeedConcat(s, [line], Lines(rest));
  }

  lemma FieldLineStep(s: State, prefix: string, value: string)
    requires WireSafe(value) && (prefix == "data:" || prefix == "event:")
    ensures NoNewline(prefix + " " + value) && (prefix + " " + value)[|prefix + " " + value| - 1] != '\r'
    ensures Step(s, prefix + " " + value)
         == if prefix == "event:" then s.(name := Some(value)) else s.(data := s.data + [value])
  {
    var line := prefix + " " + value;
    assert line[0] == prefix[0] && TrimCr(line) == line;
    assert line[|prefix|..] == " " + value && (" " + value)[1..] == value;
    assert TrimStart(value) == value && TrimStart(" " + value) == value;
    assert prefix <= line;
    if prefix == "data:" {
      assert line[0] == 'd' && !("event:" <= line);
    }
  }

  lemma FeedDataLine(s: State, value: string, rest: string)
    requires WireSafe(value)
    ensures Feed(s, Lines("data: " + value + "\n" + rest)) == Feed(s.(data := s.data + [value]), Lines(rest))
  {
    FieldLineStep(s, "data:", value);
    assert "data: " + value == "data:" + " " + value;
    FeedLine(s, "data: " + value, rest);
  }

  lemma FeedNameLine(s: State, value: string, rest: string)
    requires WireSafe(value)
    ensures Feed(s, Lines("event: " + value + "\n" + rest)) == Feed(s.(name := Some(value)), Lines(rest))
  {
    FieldLineStep(s, "event:", value);
    assert "event: " + value == "event:" + " " + value;
    FeedLine(s, "event: " + value, rest);
  }

  lemma RenderDataUnfolds(lines: seq<string>, rest: string)
    requires lines != []
    ensures RenderData(lines) + rest == "data: " + lines[0] + "\n" + (RenderData(lines[1..]) + rest)
  {
  }

  lemma DataGrows(s: State, lines: seq<string>)
    requires lines != []
    ensures s.(data := s.data + [lines[0]]).(data := s.data + [lines[0]] + lines[1..]) == s.(data := s.data + lines)
  {
    assert s.data + [lines[0]] + lines[1..] == s.data + lines;
  }

  lemma {:induction false} FeedData(s: State, lines: seq<string>, rest: string)
    requires forall i :: 0 <= i < |lines| ==> WireSafe(lines[i])
    ensures Feed(s, Lines(RenderData(lines) + rest)) == Feed(s.(data := s.data + lines), Lines(rest))
    decreases |lines|
  {
    if lines == [] {
      assert RenderData(lines) + rest == rest && s.data + lines == s.data;
    } else {
      var more := RenderData(lines[1..]) + rest;
      RenderDataUnfolds(lines, rest);
      FeedDataLine(s, lines[0], more);
      FeedData(s.(data := s.data + [lines[0]]), lines[1..], rest);
      DataGrows(s, lines);
    }
  }

  lemma FeedBlank(s: State, rest: string)
    ensures Feed(s, Lines("\n" + rest)) == Feed(Flush(s), Lines(rest))
  {
    assert "" + "\n" + rest == "\n" + rest;
    FeedLine(s, "", rest);
  }

  lemma FeedName(s: State, e: SseEvent, rest: string)
    requires Renderable(e) && s.name == None
    ensures Feed(s, Lines(Render(e) + rest))
         == Feed(s.(name := e.event), Lines(RenderData(SplitData(e.data)) + ("\n" + rest)))
  {
    var tail := RenderData(SplitData(e.data)) + ("\n" + rest);
    if e.event.Some? {
      assert Render(e) + rest == "event: " + e.event.value + "\n" + tail;
      FeedNameLine(s, e.event.value, tail);
    } else {
      assert Render(e) + rest == tail;
    }
  }

  lemma FeedBody(s: State, lines: seq<string>, rest: string)
    requires s.data == [] && forall i :: 0 <= i < |lines| ==> WireSafe(lines[i])
    ensures Feed(s, Lines(RenderData(lines) + ("\n" + rest))) == Feed(Flush(s.(data := lines)), Lines(rest))
  {
    FeedData(s, lines, "\n" + rest);
    assert s.data + lines == lines;
    FeedBlank(s.(data := lines), rest);
  }

  lemma FlushRendered(e: SseEvent, before: seq<SseEvent>)
    ensures Flush(State(before, e.event, SplitData(e.data))) == State(before + [e], None, [])
  {
    assert SseEvent(e.event, Join(SplitData(e.data))) == e;
  }

  lemma FeedRendered(e: SseEvent, rest: string, before: seq<SseEvent>)
    requires Renderable(e)
    ensures Feed(State(before, None, []), Lines(Render(e) + rest)) == Feed(State(before + [e], None, []), Lines(rest))
  {
    var s := State(before, None, []);
    FeedName(s, e, rest);
    FeedBody(s.(name := e.event), SplitData(e.data), rest);
    FlushRendered(e, before);
  }

  lemma EventsGrow(before: seq<SseEvent>, events: seq<SseEvent>)
    requires events != []
    ensures before + [events[0]] + events[1..] == before + events
  {
  }

  lemma {:induction false} FeedRenderedAll(events: seq<SseEvent>, before: seq<SseEvent>)
    requires forall i :: 0 <= i < |events| ==> Renderable(events[i])
    ensures Feed(State(before, None, []), Lines(RenderAll(events))) == State(before + events, None, [])
    decreases |events|
  {
    if events == [] {
      assert before + events == before;
    } else {
      FeedRendered(events[0], RenderAll(events[1..]), before);
      FeedRenderedAll(events[1..], before + [events[0]]);
      EventsGrow(before, events);
    }
  }

  /** Parsing gives back exactly the events that were rendered. */
  lemma ParseInvertsRender(events: seq<SseEvent>)
    requires forall i :: 0 <= i < |events| ==> Renderable(events[i])
    ensures Events(RenderAll(events)) == events
  {
    FeedRenderedAll(events, []);
    assert [] + events == events;
  }

  // ---- Nothing else survives ----

  lemma {:induction false} LinesHaveNoNewline(text: string)
    ensures forall i :: 0 <= i < |Lines(text)| ==> NoNewline(Lines(text)[i])
    decreases |text|
  {
    if text != [] {
      var i := FirstNewline(text);
      if i < |text| {
        LinesHaveNoNewline(text[i + 1..]);
      }
    }
  }

  lemma {:induction false} TrimCrTrims(line: string)
    ensures TrimCr(line) <= line
    ensures TrimCr(line) != [] ==> TrimCr(line)[|TrimCr(line)| - 1] != '\r'
  {
    if line != [] && line[|line| - 1] == '\r' {
      TrimCrTrims(line[..|line| - 1]);
    }
  }

  lemma {:induction false} TrimStartSafe(value: string)
    requires NoNewline(value) && (value != [] ==> value[|value| - 1] != '\r')
    ensures WireSafe(TrimStart(value))
  {
    if value != [] && IsWhitespace(value[0]) {
      TrimStartSafe(value[1..]);
    }
  }

  lemma {:induction false} SplitJoined(lines: seq<string>)
    requires lines != [] && forall i :: 0 <= i < |lines| ==> NoNewline(lines[i])
    ensures SplitData(Join(lines)) == lines
  {
    var data := Join(lines);
    if |lines| == 1 {
      NoNewlineFirst(lines[0]);
    } else {
      FirstNewlineIs(data, |lines[0]|);
      assert data[..|lines[0]|] == lines[0] && data[|lines[0]| + 1..] == Join(lines[1..]);
      SplitJoined(lines[1..]);
      assert lines == [lines[0]] + lines[1..];
    }
  }

  lemma {:induction false} NoNewlineFirst(s: string)
    requires NoNewline(s)
    ensures FirstNewline(s) == |s|
  {
  }

  ghost predicate StateSafe(s: State) {
    && (forall i :: 0 <= i < |s.events| ==> Renderable(s.events[i]))
    && (s.name.Some? ==> WireSafe(s.name.value))
    && forall i :: 0 <= i < |s.data| ==> WireSafe(s.data[i])
  }

  lemma FlushKeepsSafe(s: State)
    requires StateSafe(s)
    ensures StateSafe(Flush(s))
  {
    if s.data != [] {
      SplitJoined(s.data);
    }
  }

  lemma StepKeepsSafe(s: State, raw: string)
    requires StateSafe(s) && NoNewline(raw)
    ensures StateSafe(Step(s, raw))
  {
    var line := TrimCr(raw);
    TrimCrTrims(raw);
    FlushKeepsSafe(s);
    if "event:" <= line {
      TrimStartSafe(line[|"event:"|..]);
    } else if "data:" <= line {
      TrimStartSafe(line[|"data:"|..]);
    }
  }

  lemma {:induction false} FeedKeepsSafe(s: State, lines: seq<string>)
    requires StateSafe(s) && forall i :: 0 <= i < |lines| ==> NoNewline(lines[i])
    ensures StateSafe(Feed(s, lines))
    decreases |lines|
  {
    if lines != [] {
      StepKeepsSafe(s, lines[0]);
      FeedKeepsSafe(Step(s, lines[0]), lines[1..]);
    }
  }

  /** Rendering and parsing give the events back if and only if every name and data line is safe on the wire. */
  lemma RoundTripIffRenderable(events: seq<SseEvent>)
    ensures Events(RenderAll(events)) == events <==> forall i :: 0 <= i < |events| ==> Renderable(events[i])
  {
    if forall i :: 0 <= i < |events| ==> Renderable(events[i]) {
      ParseInvertsRender(events);
    }
    LinesHaveNoNewline(RenderAll(events));
    FeedKeepsSafe(START, Lines(RenderAll(events)));
    FlushKeepsSafe(Feed(START, Lines(RenderAll(events))));
  }
}
