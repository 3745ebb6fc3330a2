/**
 * The streaming reader `parse_sse` (src/provider.rs): bytes to lines, lines to JSON chunks,
 * chunks to provider events, with a table of half-built tool calls.
 *
 * The specification flattens a byte stream into one sequence of actions and folds over it;
 * the methods at the end work as the source does, on a buffer drained from the front.
 */
module SseParser {
  import opened Domain
  import opened JsonModel
  import opened Lines

  /** UTF-8 decoding and JSON parsing are library code, so they are parameters. */
  datatype Codec = Codec(decode: seq<byte> -> Option<string>, parse: string -> Option<Json>)

  // ---------------------------------------------------------------- lines

  /** The characters with the Unicode property White_Space. */
  predicate IsSpace(c: char) {
    var x := c as int;
    || 0x9 <= x <= 0xD || x == 0x20 || x == 0x85 || x == 0xA0 || x == 0x1680
    || 0x2000 <= x <= 0x200A || x == 0x2028 || x == 0x2029 || x == 0x202F || x == 0x205F || x == 0x3000
  }

  function TrimStart(s: string): (r: string)
    ensures |r| <= |s| && r == s[|s| - |r|..]
    ensures r != "" ==> !IsSpace(r[0])
    ensures forall c | c in s[..|s| - |r|] :: IsSpace(c)
  {
    if s != "" && IsSpace(s[0]) then
      var r := TrimStart(s[1..]);
      assert s[..|s| - |r|] == [s[0]] + s[1..][..|s| - 1 - |r|];
      r
    else s
  }

  function TrimEnd(s: string): (r: string)
    ensures r <= s
    ensures r != "" ==> !IsSpace(r[|r| - 1])
    ensures forall c | c in s[|r|..] :: IsSpace(c)
  {
    if s != "" && IsSpace(s[|s| - 1]) then
      var r := TrimEnd(s[..|s| - 1]);
      assert s[|r|..] == s[..|s| - 1][|r|..] + [s[|s| - 1]];
      r
    else s
  }

  function Trim(s: string): string { TrimEnd(TrimStart(s)) }

  function StripCr(line: seq<byte>): seq<byte> {
    if line != [] && line[|line| - 1] == CR then line[..|line| - 1] else line
  }

  const PREFIX := "data:"
  const DONE := "[DONE]"

  datatype Line = Ignored | DoneMark | Payload(value: Json) | Garbage

  /** What the data of a line says, once the white space around it is gone. */
  function ReadData(codec: Codec, data: string): Line {
    if data == "" then Ignored
    else if data == DONE then DoneMark
    else
      match codec.parse(data)
      case None => Garbage
      case Some(value) => Payload(value)
  }

  function ReadText(codec: Codec, text: string): Line {
    if PREFIX <= text then ReadData(codec, Trim(text[|PREFIX|..])) else Ignored
  }

  function ReadLine(codec: Codec, line: seq<byte>): Line {
    match codec.decode(StripCr(line))
    case None => Garbage
    case Some(text) => ReadText(codec, text)
  }

  predicate Blank(s: string) { forall c | c in s :: IsSpace(c) }

  lemma {:induction false} TrimStartBlank(pad: string, s: string)
    requires Blank(pad)
    ensures TrimStart(pad + s) == TrimStart(s)
  {
    if pad == "" {
      assert pad + s == s;
    } else {
      assert IsSpace(pad[0]) && (pad + s)[1..] == pad[1..] + s;
      TrimStartBlank(pad[1..], s);
    }
  }

  lemma {:induction false} TrimEndBlank(s: string, pad: string)
    requires Blank(pad)
    ensures TrimEnd(s + pad) == TrimEnd(s)
  {
    if pad == "" {
      assert s + pad == s;
    } else {
      var n := |pad| - 1;
      assert IsSpace(pad[n]) && (s + pad)[..|s + pad| - 1] == s + pad[..n];
      TrimEndBlank(s, pad[..n]);
    }
  }

  lemma {:induction false} TrimBare(s: string)
    requires s != "" && !IsSpace(s[0]) && !IsSpace(s[|s| - 1])
    ensures Trim(s) == s
  {
    assert TrimStart(s) == s;
    assert TrimEnd(s) == s;
  }

  lemma TrimPadded(before: string, data: string, after: string)
    requires Blank(before) && Blank(after)
    requires data != "" && !IsSpace(data[0]) && !IsSpace(data[|data| - 1])
    ensures Trim(before + (data + after)) == data
  {
    TrimStartBlank(before, data + after);
    assert (data + after)[0] == data[0];
    assert TrimStart(data + after) == data + after;
    TrimEndBlank(data, after);
    TrimBare(data);
  }

  lemma AfterPrefix(codec: Codec, rest: string)
    ensures ReadText(codec, PREFIX + rest) == ReadData(codec, Trim(rest))
  {
    assert (PREFIX + rest)[|PREFIX|..] == rest;
  }

  /** White space around the data of a line does not matter, nor does a carriage return after it. */
  lemma PaddingIgnored(codec: Codec, before: string, data: string, after: string)
    requires Blank(before) && Blank(after)
    requires data != "" && !IsSpace(data[0]) && !IsSpace(data[|data| - 1])
    ensures ReadText(codec, PREFIX + (before + (data + after))) ==
            if data == DONE then DoneMark
            else if codec.parse(data).Some? then Payload(codec.parse(data).value) else Garbage
  {
    AfterPrefix(codec, before + (data + after));
    TrimPadded(before, data, after);
  }

  lemma CrLfIsLf(codec: Codec, line: seq<byte>)
    requires line == [] || line[|line| - 1] != CR
    ensures ReadLine(codec, line + [CR]) == ReadLine(codec, line)
  {
    assert StripCr(line + [CR]) == line;
  }

  // ---------------------------------------------------------------- actions

  /** One thing the reader does; a whole stream is a sequence of these. */
  datatype Action =
    | SawUsage(usage: Usage)
    | SawText(text: string)
    | SawCall(call: CallDelta)
    | SawFinish(reason: string)
    | Close
    | Malformed

  function CallActions(calls: seq<CallDelta>): seq<Action> {
    if calls == [] then [] else [SawCall(calls[0])] + CallActions(calls[1..])
  }

  function TextAction(c: Choice): seq<Action> {
    if c.content.Some? && c.content.value != "" then [SawText(c.content.value)] else []
  }

  function FinishAction(c: Choice): seq<Action> {
    if c.finish.Some? then [SawFinish(c.finish.value)] else []
  }

  function ChoiceAction(c: Choice): seq<Action> {
    TextAction(c) + CallActions(c.calls) + FinishAction(c)
  }

  function ChoiceActions(choices: seq<Choice>): seq<Action> {
    if choices == [] then [] else ChoiceAction(choices[0]) + ChoiceActions(choices[1..])
  }

  function UsageAction(c: Chunk): seq<Action> {
    if c.usage.Some? then [SawUsage(c.usage.value)] else []
  }

  function ChunkActions(c: Chunk): seq<Action> {
    UsageAction(c) + ChoiceActions(c.choices)
  }

  function LineActions(codec: Codec, line: seq<byte>): seq<Action> {
    match ReadLine(codec, line)
    case Ignored => []
    case DoneMark => [Close]
    case Garbage => [Malformed]
    case Payload(value) => ChunkActions(ReadChunk(value))
  }

  function Actions(codec: Codec, lines: seq<seq<byte>>): seq<Action> {
    if lines == [] then [] else LineActions(codec, lines[0]) + Actions(codec, lines[1..])
  }

  // ---------------------------------------------------------------- one action

  datatype StreamedTool = StreamedTool(id: string, name: string, arguments: string, started: bool)

  datatype Parser = Parser(tools: map<U64, StreamedTool>, usage: Option<Usage>, reason: Option<StopReason>)

  const EMPTY_TOOL := StreamedTool("", "", "", false)
  const INITIAL := Parser(map[], None, None)

  datatype Next = Going(parser: Parser) | Stopped(error: Option<ErrorKind>)

  datatype Step = Step(events: seq<ProviderEvent>, next: Next)

  /** `map_stop_reason`. */
  function MapStopReason(reason: Option<string>): Result<StopReason, ErrorKind> {
    match reason
    case None => Ok(EndTurn)
    case Some(r) =>
      if r == "stop" then Ok(EndTurn)
      else if r == "length" then Ok(MaxTokens)
      else if r == "tool_calls" || r == "function_call" then Ok(ToolUse)
      else if r == "content_filter" then Ok(Refusal)
      else Err(Upstream)
  }

  predicate Starts(t: StreamedTool, c: CallDelta) {
    !t.started && t.id + c.id.GetOr("") != "" && t.name + c.name.GetOr("") != ""
  }

  function Absorb(t: StreamedTool, c: CallDelta): StreamedTool {
    StreamedTool(t.id + c.id.GetOr(""), t.name + c.name.GetOr(""), t.arguments + c.arguments.GetOr(""),
                 t.started || Starts(t, c))
  }

  function CallEvents(index: U64, t: StreamedTool, c: CallDelta): seq<ProviderEvent> {
    (if Starts(t, c) then
       [ToolStart(index, t.id + c.id.GetOr(""), t.name + c.name.GetOr(""))] +
       (if t.arguments != "" then [ToolDelta(index, t.arguments)] else [])
     else []) +
    (if c.arguments.Some? && (t.started || Starts(t, c)) then [ToolDelta(index, c.arguments.value)] else [])
  }

  function ToolAt(tools: map<U64, StreamedTool>, index: U64): StreamedTool {
    if index in tools then tools[index] else EMPTY_TOOL
  }

  /** `validate_streamed_tools`: every tool started and its arguments are JSON. */
  predicate ToolsValid(codec: Codec, tools: map<U64, StreamedTool>) {
    forall i | i in tools :: tools[i].started && codec.parse(tools[i].arguments).Some?
  }

  /** A `[DONE]` line and the end of the input do the same, up to the error message. */
  function Finish(codec: Codec, p: Parser): Step {
    if !ToolsValid(codec, p.tools) || p.reason.None? then Step([], Stopped(Some(Upstream)))
    else Step([Finished(p.reason.value, p.usage)], Stopped(None))
  }

  function Apply(codec: Codec, p: Parser, a: Action): Step {
    match a
    case SawUsage(u) => Step([UsageSeen(u)], Going(p.(usage := Some(u))))
    case SawText(t) => Step([Text(t)], Going(p))
    case SawCall(c) =>
      if c.index.None? then Step([], Stopped(Some(Upstream)))
      else
        var i := c.index.value;
        var t := ToolAt(p.tools, i);
        Step(CallEvents(i, t, c), Going(p.(tools := p.tools[i := Absorb(t, c)])))
    case SawFinish(r) =>
      (match MapStopReason(Some(r))
       case Err(e) => Step([], Stopped(Some(e)))
       case Ok(reason) => Step([], Going(p.(reason := Some(reason)))))
    case Close => Finish(codec, p)
    case Malformed => Step([], Stopped(Some(Upstream)))
  }

  // ---------------------------------------------------------------- whole runs

  function Run(codec: Codec, p: Parser, actions: seq<Action>): Step
    decreases actions
  {
    if actions == [] then Step([], Going(p))
    else
      var s := Apply(codec, p, actions[0]);
      match s.next
      case Stopped(_) => s
      case Going(q) => Resume(s.events, Run(codec, q, actions[1..]))
  }

  function Resume(before: seq<ProviderEvent>, s: Step): Step {
    Step(before + s.events, s.next)
  }

  /** How the input ends: normally, or with a transport failure. */
  datatype End = Eof | Broken(error: ErrorKind)

  /** The items the stream yields: events, then possibly one error. */
  datatype Output = Output(events: seq<ProviderEvent>, error: Option<ErrorKind>)

  function Ending(codec: Codec, end: End, s: Step): Output {
    match s.next
    case Stopped(e) => Output(s.events, e)
    case Going(p) =>
      match end
      case Broken(e) => Output(s.events, Some(e))
      case Eof =>
        var f := Resume(s.events, Finish(codec, p));
        Output(f.events, f.next.error)
  }

  function Scan(codec: Codec, bytes: seq<byte>): Step {
    Run(codec, INITIAL, Actions(codec, Complete(bytes)))
  }

  function Parse(codec: Codec, bytes: seq<byte>, end: End): Output {
    Ending(codec, end, Scan(codec, bytes))
  }

  lemma RunCons(codec: Codec, p: Parser, a: Action, rest: seq<Action>)
    ensures Run(codec, p, [a] + rest) ==
            var s := Apply(codec, p, a);
            if s.next.Stopped? then s else Resume(s.events, Run(codec, s.next.parser, rest))
  {
    assert ([a] + rest)[1..] == rest;
  }

  lemma {:induction false} RunAppend(codec: Codec, p: Parser, a: seq<Action>, b: seq<Action>)
    ensures Run(codec, p, a + b) ==
            var s := Run(codec, p, a);
            if s.next.Stopped? then s else Resume(s.events, Run(codec, s.next.parser, b))
    decreases a
  {
    if a == [] {
      assert a + b == b;
    } else {
      var x, rest := a[0], a[1..];
      assert a == [x] + rest && a + b == [x] + (rest + b);
      RunCons(codec, p, x, rest);
      RunCons(codec, p, x, rest + b);
      var s := Apply(codec, p, x);
      if s.next.Going? {
        var t := Run(codec, s.next.parser, rest);
        RunAppend(codec, s.next.parser, rest, b);
        if t.next.Going? {
          Associative(s.events, t.events, Run(codec, t.next.parser, b).events);
        }
      }
    }
  }

  lemma RunSingle(codec: Codec, p: Parser, a: Action)
    ensures Run(codec, p, [a]) == Apply(codec, p, a)
  {
    var s := Apply(codec, p, a);
    if s.next.Going? {
      assert Run(codec, s.next.parser, [a][1..]) == Step([], s.next);
    }
  }

  lemma ActionsCons(codec: Codec, line: seq<byte>, rest: seq<seq<byte>>)
    ensures Actions(codec, [line] + rest) == LineActions(codec, line) + Actions(codec, rest)
  {
    assert ([line] + rest)[1..] == rest;
  }

  lemma {:induction false} ActionsAppend(codec: Codec, xs: seq<seq<byte>>, ys: seq<seq<byte>>)
    ensures Actions(codec, xs + ys) == Actions(codec, xs) + Actions(codec, ys)
  {
    if xs == [] {
      assert xs + ys == ys;
    } else {
      var x, rest := xs[0], xs[1..];
      assert xs == [x] + rest && xs + ys == [x] + (rest + ys);
      ActionsCons(codec, x, rest);
      ActionsCons(codec, x, rest + ys);
      ActionsAppend(codec, rest, ys);
      Associative(LineActions(codec, x), Actions(codec, rest), Actions(codec, ys));
    }
  }

  // ---------------------------------------------------------------- parsing is online

  /** Reading further bytes only adds events, and adds none once the reader has stopped. */
  lemma ParsingIsOnline(codec: Codec, bytes: seq<byte>, more: seq<byte>)
    ensures Scan(codec, bytes).events <= Scan(codec, bytes + more).events
    ensures Scan(codec, bytes).next.Stopped? ==> Scan(codec, bytes + more) == Scan(codec, bytes)
  {
    SplitAppend(bytes, more);
    var now, later := Complete(bytes), Complete(Rest(bytes) + more);
    ActionsAppend(codec, now, later);
    RunAppend(codec, INITIAL, Actions(codec, now), Actions(codec, later));
  }

  lemma {:induction false} CloseStops(codec: Codec, p: Parser, actions: seq<Action>)
    requires Close in actions
    ensures Run(codec, p, actions).next.Stopped?
    decreases actions
  {
    var s := Apply(codec, p, actions[0]);
    if s.next.Going? {
      CloseStops(codec, s.next.parser, actions[1..]);
    }
  }

  lemma InEither<T>(x: T, a: seq<T>, b: seq<T>)
    requires x in a || x in b
    ensures x in a + b
  {
  }

  lemma {:induction false} DoneLineCloses(codec: Codec, lines: seq<seq<byte>>, i: nat)
    requires i < |lines| && ReadLine(codec, lines[i]) == DoneMark
    ensures Close in Actions(codec, lines)
  {
    var first, rest := lines[0], lines[1..];
    if i == 0 {
      assert LineActions(codec, first) == [Close];
    } else {
      DoneLineCloses(codec, rest, i - 1);
    }
    InEither(Close, LineActions(codec, first), Actions(codec, rest));
  }

  /** After a complete `[DONE]` line neither later bytes nor the way the input ends matter. */
  lemma NothingAfterDone(codec: Codec, bytes: seq<byte>, i: nat, more: seq<byte>, end: End, otherEnd: End)
    requires i < |Complete(bytes)| && ReadLine(codec, Complete(bytes)[i]) == DoneMark
    ensures Parse(codec, bytes + more, end) == Parse(codec, bytes, otherEnd)
  {
    DoneLineCloses(codec, Complete(bytes), i);
    CloseStops(codec, INITIAL, Actions(codec, Complete(bytes)));
    ParsingIsOnline(codec, bytes, more);
  }

  // ---------------------------------------------------------------- Finished comes last

  predicate EndsFinished(events: seq<ProviderEvent>) {
    events != [] && events[|events| - 1].Finished? && Unfinished(events[..|events| - 1])
  }

  /** `Finished` closes a stream that ends well and appears nowhere else. */
  predicate WellEnded(events: seq<ProviderEvent>, well: bool) {
    if well then EndsFinished(events) else Unfinished(events)
  }

  lemma WellEndedAppend(a: seq<ProviderEvent>, b: seq<ProviderEvent>, well: bool)
    requires Unfinished(a) && WellEnded(b, well)
    ensures WellEnded(a + b, well)
  {
    if well {
      assert (a + b)[..|a + b| - 1] == a + b[..|b| - 1];
    }
  }

  lemma {:induction false} RunFinishes(codec: Codec, p: Parser, actions: seq<Action>)
    ensures var s := Run(codec, p, actions);
            WellEnded(s.events, s.next == Stopped(None))
    decreases actions
  {
    if actions != [] {
      var s := Apply(codec, p, actions[0]);
      if s.next.Going? {
        var t := Run(codec, s.next.parser, actions[1..]);
        RunFinishes(codec, s.next.parser, actions[1..]);
        WellEndedAppend(s.events, t.events, t.next == Stopped(None));
      }
    }
  }

  /** A stream ends with `Finished` exactly when it ends without an error; `Finished` never comes earlier. */
  lemma FinishedComesLast(codec: Codec, bytes: seq<byte>, end: End)
    ensures var out := Parse(codec, bytes, end);
            WellEnded(out.events, out.error == None)
  {
    RunFinishes(codec, INITIAL, Actions(codec, Complete(bytes)));
    var s := Scan(codec, bytes);
    if s.next.Going? && end.Eof? {
      var f := Finish(codec, s.next.parser);
      WellEndedAppend(s.events, f.events, f.next.error == None);
    }
  }

  // ---------------------------------------------------------------- the reader itself

  method ValidateStreamedTools(codec: Codec, tools: map<U64, StreamedTool>) returns (ok: bool)
    ensures ok <==> ToolsValid(codec, tools)
  {
    var todo := tools.Keys;
    while todo != {}
      invariant todo <= tools.Keys
      invariant forall i | i in tools && i !in todo :: tools[i].started && codec.parse(tools[i].arguments).Some?
      decreases todo
    {
      var i :| i in todo;
      if !tools[i].started {
        return false;
      }
      if codec.parse(tools[i].arguments).None? {
        return false;
      }
      todo := todo - {i};
    }
    return true;
  }

  method Conclude(codec: Codec, p: Parser) returns (s: Step)
    ensures s == Finish(codec, p)
  {
    var ok := ValidateStreamedTools(codec, p.tools);
    if !ok {
      return Step([], Stopped(Some(Upstream)));
    }
    if p.reason.None? {
      return Step([], Stopped(Some(Upstream)));
    }
    return Step([Finished(p.reason.value, p.usage)], Stopped(None));
  }

  method ReadCall(index: U64, before: StreamedTool, call: CallDelta)
    returns (tool: StreamedTool, events: seq<ProviderEvent>)
    ensures tool == Absorb(before, call)
    ensures events == CallEvents(index, before, call)
  {
    tool := before;
    events := [];
    if call.id.Some? {
      tool := tool.(id := tool.id + call.id.value);
    }
    if call.name.Some? {
      tool := tool.(name := tool.name + call.name.value);
    }
    if !tool.started && tool.id != "" && tool.name != "" {
      tool := tool.(started := true);
      events := events + [ToolStart(index, tool.id, tool.name)];
      if tool.arguments != "" {
        events := events + [ToolDelta(index, tool.arguments)];
      }
    }
    if call.arguments.Some? {
      tool := tool.(arguments := tool.arguments + call.arguments.value);
      if tool.started {
        events := events + [ToolDelta(index, call.arguments.value)];
      }
    }
  }

  lemma ResumeTwice(before: seq<ProviderEvent>, middle: seq<ProviderEvent>, s: Step)
    ensures Resume(before, Resume(middle, s)) == Resume(before + middle, s)
  {
    assert before + (middle + s.events) == before + middle + s.events;
  }

  /** One stretch of actions done: what is still to come resumes after it. */
  lemma Advance(codec: Codec, total: Step, events: seq<ProviderEvent>, p: Parser, a: seq<Action>, rest: seq<Action>)
    requires total == Resume(events, Run(codec, p, a + rest))
    ensures var s := Run(codec, p, a);
            if s.next.Stopped? then total == Step(events + s.events, s.next)
            else total == Resume(events + s.events, Run(codec, s.next.parser, rest))
  {
    RunAppend(codec, p, a, rest);
    var s := Run(codec, p, a);
    if s.next.Going? {
      ResumeTwice(events, s.events, Run(codec, s.next.parser, rest));
    }
  }

  lemma AdvanceOne(codec: Codec, total: Step, events: seq<ProviderEvent>, p: Parser, a: Action, rest: seq<Action>)
    requires total == Resume(events, Run(codec, p, [a] + rest))
    ensures var s := Apply(codec, p, a);
            if s.next.Stopped? then total == Step(events + s.events, s.next)
            else total == Resume(events + s.events, Run(codec, s.next.parser, rest))
  {
    Advance(codec, total, events, p, [a], rest);
    RunSingle(codec, p, a);
  }

  lemma AtStart(codec: Codec, p: Parser, actions: seq<Action>)
    ensures Run(codec, p, actions) == Resume([], Run(codec, p, actions))
  {
    var s := Run(codec, p, actions);
    assert [] + s.events == s.events;
  }

  lemma AtEnd(codec: Codec, p: Parser, events: seq<ProviderEvent>)
    ensures Resume(events, Run(codec, p, [])) == Step(events, Going(p))
  {
    assert events + [] == events;
  }

  /** The loop over `delta.tool_calls`. */
  method ReadCalls(codec: Codec, p: Parser, calls: seq<CallDelta>) returns (s: Step)
    ensures s == Run(codec, p, CallActions(calls))
  {
    var tools := p.tools;
    var events: seq<ProviderEvent> := [];
    ghost var total := Run(codec, p, CallActions(calls));
    AtStart(codec, p, CallActions(calls));
    for n := 0 to |calls|
      invariant total == Resume(events, Run(codec, p.(tools := tools), CallActions(calls[n..])))
    {
      assert calls[n..][1..] == calls[n + 1..];
      AdvanceOne(codec, total, events, p.(tools := tools), SawCall(calls[n]), CallActions(calls[n + 1..]));
      if calls[n].index.None? {
        return Step(events + [], Stopped(Some(Upstream)));
      }
      var index := calls[n].index.value;
      var tool := if index in tools then tools[index] else EMPTY_TOOL;
      var after, sent := ReadCall(index, tool, calls[n]);
      tools := tools[index := after];
      events := events + sent;
    }
    AtEnd(codec, p.(tools := tools), events);
    return Step(events, Going(p.(tools := tools)));
  }

  /** The body of the loop over `choices`. */
  method ReadOne(codec: Codec, p: Parser, choice: Choice) returns (s: Step)
    ensures s == Run(codec, p, ChoiceAction(choice))
  {
    var events: seq<ProviderEvent> := [];
    ghost var total := Run(codec, p, ChoiceAction(choice));
    ghost var rest := CallActions(choice.calls) + FinishAction(choice);
    AtStart(codec, p, ChoiceAction(choice));
    assert ChoiceAction(choice) == TextAction(choice) + rest;
    if choice.content.Some? && choice.content.value != "" {
      AdvanceOne(codec, total, events, p, SawText(choice.content.value), rest);
      events := events + [Text(choice.content.value)];
    } else {
      assert TextAction(choice) + rest == rest;
    }
    Advance(codec, total, events, p, CallActions(choice.calls), FinishAction(choice));
    var called := ReadCalls(codec, p, choice.calls);
    events := events + called.events;
    if called.next.Stopped? {
      return Step(events, called.next);
    }
    s := ReadFinish(codec, called.next.parser, choice);
    s := Resume(events, s);
  }

  method ReadFinish(codec: Codec, p: Parser, choice: Choice) returns (s: Step)
    ensures s == Run(codec, p, FinishAction(choice))
  {
    if choice.finish.None? {
      return Step([], Going(p));
    }
    RunSingle(codec, p, SawFinish(choice.finish.value));
    var reason := MapStopReason(choice.finish);
    if reason.Err? {
      return Step([], Stopped(Some(reason.error)));
    }
    return Step([], Going(p.(reason := Some(reason.value))));
  }

  /** The loop over `choices`. */
  method ReadChoices(codec: Codec, p: Parser, choices: seq<Choice>) returns (s: Step)
    ensures s == Run(codec, p, ChoiceActions(choices))
  {
    var state := p;
    var events: seq<ProviderEvent> := [];
    ghost var total := Run(codec, p, ChoiceActions(choices));
    AtStart(codec, p, ChoiceActions(choices));
    for n := 0 to |choices|
      invariant total == Resume(events, Run(codec, state, ChoiceActions(choices[n..])))
    {
      assert choices[n..][1..] == choices[n + 1..];
      Advance(codec, total, events, state, ChoiceAction(choices[n]), ChoiceActions(choices[n + 1..]));
      var one := ReadOne(codec, state, choices[n]);
      events := events + one.events;
      if one.next.Stopped? {
        return Step(events, one.next);
      }
      state := one.next.parser;
    }
    AtEnd(codec, state, events);
    return Step(events, Going(state));
  }

  method HandleChunk(codec: Codec, p: Parser, chunk: Chunk) returns (s: Step)
    ensures s == Run(codec, p, ChunkActions(chunk))
  {
    var state := p;
    var events: seq<ProviderEvent> := [];
    AtStart(codec, p, ChunkActions(chunk));
    if chunk.usage.Some? {
      AdvanceOne(codec, Run(codec, p, ChunkActions(chunk)), events, p, SawUsage(chunk.usage.value),
                 ChoiceActions(chunk.choices));
      state := state.(usage := chunk.usage);
      events := events + [UsageSeen(chunk.usage.value)];
    } else {
      assert ChunkActions(chunk) == ChoiceActions(chunk.choices);
    }
    s := ReadChoices(codec, state, chunk.choices);
    s := Resume(events, s);
  }

  method HandleLine(codec: Codec, p: Parser, line: seq<byte>) returns (s: Step)
    ensures s == Run(codec, p, LineActions(codec, line))
  {
    match ReadLine(codec, line)
    case Ignored => return Step([], Going(p));
    case DoneMark =>
      RunSingle(codec, p, Close);
      s := Conclude(codec, p);
    case Garbage =>
      RunSingle(codec, p, Malformed);
      return Step([], Stopped(Some(Upstream)));
    case Payload(value) =>
      s := HandleChunk(codec, p, ReadChunk(value));
  }

  /** What the transport delivers: blocks of bytes, or one failure. */
  datatype Delivery = Bytes(bytes: seq<byte>) | Failure(error: ErrorKind)

  /** The bytes delivered before the first failure, however they are cut into blocks. */
  function Received(input: seq<Delivery>): seq<byte> {
    if input == [] || input[0].Failure? then [] else input[0].bytes + Received(input[1..])
  }

  function HowEnded(input: seq<Delivery>): End {
    if input == [] then Eof
    else if input[0].Failure? then Broken(input[0].error)
    else HowEnded(input[1..])
  }

  /** The invariant of the two reading loops: this much is still to come. */
  ghost predicate Remaining(codec: Codec, total: Step, events: seq<ProviderEvent>, p: Parser, bytes: seq<byte>) {
    total == Resume(events, Run(codec, p, Actions(codec, Complete(bytes))))
  }

  /** One drained line. */
  lemma TakeFirst(codec: Codec, total: Step, events: seq<ProviderEvent>, p: Parser, line: seq<byte>,
                  lines: seq<seq<byte>>)
    requires total == Resume(events, Run(codec, p, Actions(codec, [line] + lines)))
    ensures var s := Run(codec, p, LineActions(codec, line));
            if s.next.Stopped? then total == Step(events + s.events, s.next)
            else total == Resume(events + s.events, Run(codec, s.next.parser, Actions(codec, lines)))
  {
    ActionsCons(codec, line, lines);
    Advance(codec, total, events, p, LineActions(codec, line), Actions(codec, lines));
  }

  /** Nothing is left but an unfinished line. */
  lemma NoLineLeft(codec: Codec, total: Step, events: seq<ProviderEvent>, p: Parser, buffer: seq<byte>)
    requires LF !in buffer
    requires Remaining(codec, total, events, p, buffer)
    ensures total == Step(events, Going(p))
  {
    AtEnd(codec, p, events);
  }

  lemma NextDelivery(buffer: seq<byte>, input: seq<Delivery>)
    requires input != []
    ensures input[0].Failure? ==> HowEnded(input) == Broken(input[0].error) && buffer + Received(input) == buffer
    ensures input[0].Bytes? ==>
              HowEnded(input) == HowEnded(input[1..]) &&
              buffer + Received(input) == buffer + input[0].bytes + Received(input[1..])
  {
  }

  lemma NoDelivery(buffer: seq<byte>)
    ensures HowEnded([]) == Eof && buffer + Received([]) == buffer
  {
  }

  /** `parse_sse`: its result depends on the bytes received and not on how they were cut. */
  method ParseSse(codec: Codec, input: seq<Delivery>) returns (out: Output)
    ensures out == Parse(codec, Received(input), HowEnded(input))
  {
    var buffer: seq<byte> := [];
    var state := INITIAL;
    var events: seq<ProviderEvent> := [];
    ghost var total, end := Scan(codec, Received(input)), HowEnded(input);
    AtStart(codec, INITIAL, Actions(codec, Complete(Received(input))));
    assert buffer + Received(input) == Received(input);
    var coming := input;
    while coming != []
      invariant LF !in buffer
      invariant Remaining(codec, total, events, state, buffer + Received(coming))
      invariant HowEnded(coming) == end
    {
      NextDelivery(buffer, coming);
      var chunk := coming[0];
      if chunk.Failure? {
        NoLineLeft(codec, total, events, state, buffer);
        return Output(events, Some(chunk.error));
      }
      coming := coming[1..];
      var stopped;
      buffer, state, events, stopped := DrainLines(codec, total, Received(coming), buffer + chunk.bytes, state, events);
      if stopped.Some? {
        return Output(events, stopped.value);
      }
    }
    NoDelivery(buffer);
    NoLineLeft(codec, total, events, state, buffer);
    var last := Conclude(codec, state);
    return Output(events + last.events, last.next.error);
  }

  /** The inner loop: drain every complete line, or stop with an outcome. */
  method DrainLines(codec: Codec, ghost total: Step, ghost tail: seq<byte>,
                    buffer0: seq<byte>, state0: Parser, events0: seq<ProviderEvent>)
    returns (buffer: seq<byte>, state: Parser, events: seq<ProviderEvent>, stopped: Option<Option<ErrorKind>>)
    requires Remaining(codec, total, events0, state0, buffer0 + tail)
    ensures stopped.None? ==> LF !in buffer && Remaining(codec, total, events, state, buffer + tail)
    ensures stopped.Some? ==> total == Step(events, Stopped(stopped.value))
  {
    buffer, state, events, stopped := buffer0, state0, events0, None;
    ghost var lines := Complete(buffer + tail);
    while LF in buffer
      invariant lines == Complete(buffer + tail)
      invariant total == Resume(events, Run(codec, state, Actions(codec, lines)))
      decreases |buffer|
    {
      FirstLine(buffer, tail);
      var position := Position(buffer);
      var line := buffer[..position];
      buffer := buffer[position + 1..];
      lines := Complete(buffer + tail);
      TakeFirst(codec, total, events, state, line, lines);
      var s := HandleLine(codec, state, line);
      events := events + s.events;
      if s.next.Stopped? {
        stopped := Some(s.next.error);
        return;
      }
      state := s.next.parser;
    }
  }

  lemma {:induction false} ReceivedBlocks(blocks: seq<seq<byte>>)
    ensures var input := seq(|blocks|, i requires 0 <= i < |blocks| => Bytes(blocks[i]));
            Received(input) == Flatten(blocks) && HowEnded(input) == Eof
  {
    var input := seq(|blocks|, i requires 0 <= i < |blocks| => Bytes(blocks[i]));
    if blocks != [] {
      ReceivedBlocks(blocks[1..]);
      assert input[1..] == seq(|blocks[1..]|, i requires 0 <= i < |blocks[1..]| => Bytes(blocks[1..][i]));
    }
  }
}
