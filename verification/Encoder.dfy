/** Ascending iteration over the keys of a `BTreeMap`. */
module Ascending {
  import opened Domain

  lemma HasLeast(s: set<U64>, x: U64)
    requires x in s
    ensures exists m :: m in s && forall k | k in s :: m <= k
    decreases x
  {
    if y :| y in s && y < x {
      HasLeast(s, y);
    }
  }

  lemma SomeLeast(s: set<U64>)
    requires s != {}
    ensures exists m :: m in s && forall k | k in s :: m <= k
  {
    var x :| x in s;
    HasLeast(s, x);
  }

  function Least(s: set<U64>): (m: U64)
    requires s != {}
    ensures m in s && forall k | k in s :: m <= k
  {
    SomeLeast(s);
    var m :| m in s && forall k | k in s :: m <= k;
    m
  }

  predicate Increasing(keys: seq<U64>) {
    forall i, j | 0 <= i < j < |keys| :: keys[i] < keys[j]
  }

  function Keys(s: set<U64>): (keys: seq<U64>)
    ensures forall k :: k in s <==> k in keys
    ensures Increasing(keys)
  {
    if s == {} then [] else
      var m := Least(s);
      var rest := Keys(s - {m});
      assert forall k | k in rest :: k in s && k != m;
      [m] + rest
  }

  /** There is only one increasing enumeration of a set. */
  lemma {:induction false} KeysUnique(s: set<U64>, keys: seq<U64>)
    requires Increasing(keys)
    requires forall k :: k in s <==> k in keys
    ensures Keys(s) == keys
  {
    if keys == [] {
      assert s == {};
    } else {
      var m, rest := keys[0], keys[1..];
      assert keys == [m] + rest;
      assert m in keys;
      assert Least(s) == m;
      assert m !in rest;
      KeysUnique(s - {m}, rest);
    }
  }
}

/** `StreamEncoder` (src/anthropic.rs): provider events to the events an Anthropic client reads. */
module Encoder {
  import opened Domain
  import Ascending

  datatype BlockKind = TextBlock | ToolBlock(id: string, name: string)

  datatype Delta = TextDelta(text: string) | JsonDelta(partial: string)

  /** Server-sent events; their JSON printing is library code. */
  datatype Sse =
    | MessageStart(id: string, model: string, inputTokens: U64)
    | BlockStart(index: nat, kind: BlockKind)
    | BlockDelta(index: nat, delta: Delta)
    | BlockStop(index: nat)
    | MessageDelta(stopReason: string, outputTokens: U64)
    | MessageStop
    | ErrorEvent(errorType: string)

  datatype BufferedTool = BufferedTool(id: string, name: string, arguments: string)

  datatype State = State(nextBlock: nat, textBlock: Option<nat>, tools: map<U64, BufferedTool>,
                         inputTokens: U64, outputTokens: U64)

  function New(inputTokens: U64): State {
    State(0, None, map[], inputTokens, 0)
  }

  function Frame(index: nat, tool: BufferedTool): seq<Sse> {
    [BlockStart(index, ToolBlock(tool.id, tool.name)), BlockDelta(index, JsonDelta(tool.arguments)), BlockStop(index)]
  }

  function ToolFrames(first: nat, tools: map<U64, BufferedTool>, keys: seq<U64>): seq<Sse>
    requires forall k | k in keys :: k in tools
    decreases keys
  {
    if keys == [] then [] else Frame(first, tools[keys[0]]) + ToolFrames(first + 1, tools, keys[1..])
  }

  predicate Empty(s: State) { s.textBlock.None? && s.tools == map[] }

  /** Closes the text block, or sends an empty one when there is nothing else to send. */
  function Opening(s: State): seq<Sse> {
    if s.textBlock.Some? then [BlockStop(s.textBlock.value)]
    else if s.tools == map[] then [BlockStart(s.nextBlock, TextBlock), BlockStop(s.nextBlock)]
    else []
  }

  function FirstTool(s: State): nat { if Empty(s) then s.nextBlock + 1 else s.nextBlock }

  function Blocks(s: State): seq<Sse> {
    Opening(s) + ToolFrames(FirstTool(s), s.tools, Ascending.Keys(s.tools.Keys))
  }

  function Ending(reason: StopReason, outputTokens: U64): seq<Sse> {
    [MessageDelta(reason.AsStr(), outputTokens), MessageStop]
  }

  function Encode(s: State, event: ProviderEvent): (State, seq<Sse>) {
    match event
    case Text(text) =>
      if s.textBlock.Some? then (s, [BlockDelta(s.textBlock.value, TextDelta(text))])
      else (s.(nextBlock := s.nextBlock + 1, textBlock := Some(s.nextBlock)),
            [BlockStart(s.nextBlock, TextBlock), BlockDelta(s.nextBlock, TextDelta(text))])
    case ToolStart(index, id, name) => (s.(tools := s.tools[index := BufferedTool(id, name, "")]), [])
    case ToolDelta(index, arguments) =>
      if index in s.tools then
        var tool := s.tools[index];
        (s.(tools := s.tools[index := tool.(arguments := tool.arguments + arguments)]), [])
      else (s, [])
    case UsageSeen(usage) => (s.(inputTokens := usage.inputTokens, outputTokens := usage.outputTokens), [])
    case Finished(reason, usage) =>
      var t := WithUsage(s, usage);
      (Closed(t), Blocks(t) + Ending(reason, t.outputTokens))
  }

  function Closed(s: State): State {
    s.(nextBlock := FirstTool(s) + |Ascending.Keys(s.tools.Keys)|)
  }

  function WithUsage(s: State, usage: Option<Usage>): State {
    if usage.None? then s
    else s.(inputTokens := usage.value.inputTokens, outputTokens := usage.value.outputTokens)
  }

  /** The last events, with the token counts reported last. */
  lemma FinishFrames(s: State, reason: StopReason, usage: Option<Usage>)
    ensures Encode(s, Finished(reason, usage)).1 ==
            Blocks(s) + Ending(reason, if usage.None? then s.outputTokens else usage.value.outputTokens)
  {
    var t := WithUsage(s, usage);
    assert Opening(t) == Opening(s) && FirstTool(t) == FirstTool(s) && t.tools == s.tools;
  }

  function EncodeAll(s: State, events: seq<ProviderEvent>): (State, seq<Sse>) {
    if events == [] then (s, []) else
      var (t, out) := EncodeAll(s, events[..|events| - 1]);
      var (u, more) := Encode(t, events[|events| - 1]);
      (u, out + more)
  }

  lemma EncodeSnoc(s: State, events: seq<ProviderEvent>, event: ProviderEvent)
    ensures var t := EncodeAll(s, events);
            var u := Encode(t.0, event);
            EncodeAll(s, events + [event]) == (u.0, t.1 + u.1)
  {
    assert (events + [event])[..|events|] == events;
  }

  /** The encoder itself, updated in place. */
  class StreamEncoder {
    var nextBlock: nat
    var textBlock: Option<nat>
    var tools: map<U64, BufferedTool>
    var inputTokens: U64
    var outputTokens: U64

    function Model(): State reads this {
      State(nextBlock, textBlock, tools, inputTokens, outputTokens)
    }

    constructor (inputTokens: U64)
      ensures Model() == New(inputTokens)
    {
      this.nextBlock, this.textBlock, this.tools := 0, None, map[];
      this.inputTokens, this.outputTokens := inputTokens, 0;
    }

    method EncodeEvent(event: ProviderEvent) returns (out: seq<Sse>)
      modifies this
      ensures Model() == Encode(old(Model()), event).0
      ensures out == Encode(old(Model()), event).1
    {
      match event
      case Text(text) =>
        if textBlock.None? {
          var index := nextBlock;
          nextBlock := nextBlock + 1;
          textBlock := Some(index);
          return [BlockStart(index, TextBlock), BlockDelta(index, TextDelta(text))];
        }
        out := [BlockDelta(textBlock.value, TextDelta(text))];
      case ToolStart(index, id, name) =>
        tools := tools[index := BufferedTool(id, name, "")];
        out := [];
      case ToolDelta(index, arguments) =>
        if index in tools {
          tools := tools[index := tools[index].(arguments := tools[index].arguments + arguments)];
        }
        out := [];
      case UsageSeen(usage) =>
        inputTokens, outputTokens := usage.inputTokens, usage.outputTokens;
        out := [];
      case Finished(reason, usage) =>
        out := Finish(reason, usage);
    }

    method Finish(reason: StopReason, usage: Option<Usage>) returns (out: seq<Sse>)
      modifies this
      ensures Model() == Encode(old(Model()), Finished(reason, usage)).0
      ensures out == Encode(old(Model()), Finished(reason, usage)).1
    {
      if usage.Some? {
        inputTokens, outputTokens := usage.value.inputTokens, usage.value.outputTokens;
      }
      ghost var reported := Model();
      assert reported == WithUsage(old(Model()), usage);
      out := Close();
      assert outputTokens == reported.outputTokens;
      out := out + Ending(reason, outputTokens);
    }

    method Close() returns (out: seq<Sse>)
      modifies this`nextBlock
      ensures out == Blocks(old(Model()))
      ensures Model() == Closed(old(Model()))
    {
      out := [];
      if textBlock.Some? {
        out := [BlockStop(textBlock.value)];
      }
      if textBlock.None? && tools == map[] {
        var index := nextBlock;
        nextBlock := nextBlock + 1;
        out := [BlockStart(index, TextBlock), BlockStop(index)];
      }
      var keys := Ascending.Keys(tools.Keys);
      var frames := SendTools(nextBlock, tools, keys);
      out := out + frames;
      nextBlock := nextBlock + |keys|;
    }
  }

  /** The loop over the buffered tools. */
  method SendTools(first: nat, tools: map<U64, BufferedTool>, keys: seq<U64>) returns (out: seq<Sse>)
    requires forall k | k in keys :: k in tools
    ensures out == ToolFrames(first, tools, keys)
  {
    out := [];
    var n := 0;
    while n < |keys|
      invariant n <= |keys|
      invariant ToolFrames(first, tools, keys) == out + ToolFrames(first + n, tools, keys[n..])
    {
      assert keys[n..][1..] == keys[n + 1..];
      var frame := Frame(first + n, tools[keys[n]]);
      out := out + frame;
      n := n + 1;
    }
    assert out + [] == out;
  }

  // ---------------------------------------------------------------- what the encoder remembers

  function Texts(events: seq<ProviderEvent>): seq<string> {
    if events == [] then [] else
      var last := events[|events| - 1];
      Texts(events[..|events| - 1]) + (if last.Text? then [last.text] else [])
  }

  predicate Concerns(event: ProviderEvent, index: U64) {
    (event.ToolStart? || event.ToolDelta?) && event.index == index
  }

  /** The events about one tool, in order. */
  function Own(events: seq<ProviderEvent>, index: U64): seq<ProviderEvent> {
    if events == [] then [] else
      var last := events[|events| - 1];
      Own(events[..|events| - 1], index) + (if Concerns(last, index) then [last] else [])
  }

  function Extend(before: Option<BufferedTool>, event: ProviderEvent): Option<BufferedTool> {
    if event.ToolStart? then Some(BufferedTool(event.id, event.name, ""))
    else if event.ToolDelta? && before.Some? then
      Some(before.value.(arguments := before.value.arguments + event.arguments))
    else before
  }

  /** What one tool's own events amount to. */
  function Built(own: seq<ProviderEvent>): Option<BufferedTool> {
    if own == [] then None else Extend(Built(own[..|own| - 1]), own[|own| - 1])
  }

  function LastUsage(events: seq<ProviderEvent>): Option<Usage> {
    if events == [] then None
    else if events[|events| - 1].UsageSeen? then Some(events[|events| - 1].usage)
    else LastUsage(events[..|events| - 1])
  }

  function Find(tools: map<U64, BufferedTool>, index: U64): Option<BufferedTool> {
    if index in tools then Some(tools[index]) else None
  }

  /** The text block: opened once, at index 0, and then only extended. */
  function TextFrames(texts: seq<string>): seq<Sse> {
    if texts == [] then []
    else if |texts| == 1 then [BlockStart(0, TextBlock), BlockDelta(0, TextDelta(texts[0]))]
    else TextFrames(texts[..|texts| - 1]) + [BlockDelta(0, TextDelta(texts[|texts| - 1]))]
  }

  /** Everything the encoder has sent and kept, in terms of the projections of its input. */
  ghost predicate Reflects(s: State, out: seq<Sse>, events: seq<ProviderEvent>, inputTokens: U64) {
    var texts, usage := Texts(events), LastUsage(events);
    && out == TextFrames(texts)
    && s.nextBlock == (if texts == [] then 0 else 1)
    && s.textBlock == (if texts == [] then None else Some(0))
    && s.inputTokens == (if usage.None? then inputTokens else usage.value.inputTokens)
    && s.outputTokens == (if usage.None? then 0 else usage.value.outputTokens)
    && forall i: U64 :: Find(s.tools, i) == Built(Own(events, i))
  }

  lemma TextsStep(s: State, events: seq<ProviderEvent>, event: ProviderEvent)
    requires !event.Finished?
    requires s.textBlock == (if Texts(events) == [] then None else Some(0))
    requires s.nextBlock == (if Texts(events) == [] then 0 else 1)
    ensures TextFrames(Texts(events + [event])) == TextFrames(Texts(events)) + Encode(s, event).1
  {
    var texts := Texts(events);
    assert (events + [event])[..|events|] == events;
    if event.Text? {
      assert (texts + [event.text])[..|texts|] == texts;
    } else {
      assert texts + [] == texts;
    }
  }

  lemma BuiltSnoc(own: seq<ProviderEvent>, e: ProviderEvent)
    ensures Built(own + [e]) == Extend(Built(own), e)
  {
    assert (own + [e])[..|own|] == own;
  }

  lemma OwnSnoc(events: seq<ProviderEvent>, event: ProviderEvent, i: U64)
    ensures Own(events + [event], i) == if Concerns(event, i) then Own(events, i) + [event] else Own(events, i)
  {
    assert (events + [event])[..|events|] == events;
    assert Own(events, i) + [] == Own(events, i);
  }

  lemma FindStep(s: State, event: ProviderEvent, i: U64)
    requires !event.Finished?
    ensures Find(Encode(s, event).0.tools, i) ==
            if Concerns(event, i) then Extend(Find(s.tools, i), event) else Find(s.tools, i)
  {
    match event
    case ToolStart(_, _, _) =>
    case ToolDelta(_, _) =>
    case _ =>
  }

  lemma ToolsStep(s: State, events: seq<ProviderEvent>, event: ProviderEvent, i: U64)
    requires !event.Finished?
    requires Find(s.tools, i) == Built(Own(events, i))
    ensures Find(Encode(s, event).0.tools, i) == Built(Own(events + [event], i))
  {
    FindStep(s, event, i);
    OwnSnoc(events, event, i);
    BuiltSnoc(Own(events, i), event);
  }

  lemma ReflectsStep(s: State, out: seq<Sse>, events: seq<ProviderEvent>, event: ProviderEvent, inputTokens: U64)
    requires Reflects(s, out, events, inputTokens) && !event.Finished?
    ensures Reflects(Encode(s, event).0, out + Encode(s, event).1, events + [event], inputTokens)
  {
    TextsStep(s, events, event);
    forall i: U64 ensures Find(Encode(s, event).0.tools, i) == Built(Own(events + [event], i)) {
      ToolsStep(s, events, event, i);
    }
    assert (events + [event])[..|events|] == events;
    assert Texts(events + [event]) == Texts(events) + (if event.Text? then [event.text] else []);
  }

  lemma {:induction false} EncoderReflects(events: seq<ProviderEvent>, inputTokens: U64)
    requires Unfinished(events)
    ensures var (s, out) := EncodeAll(New(inputTokens), events);
            Reflects(s, out, events, inputTokens)
  {
    if events != [] {
      var n := |events| - 1;
      EncoderReflects(events[..n], inputTokens);
      var (s, out) := EncodeAll(New(inputTokens), events[..n]);
      ReflectsStep(s, out, events[..n], events[n], inputTokens);
      assert events[..n] + [events[n]] == events;
    } else {
      forall i: U64 ensures Built(Own(events, i)) == None {
      }
    }
  }

  /** However text, tool and usage events are interleaved, the client sees the same stream. */
  lemma Confluence(a: seq<ProviderEvent>, b: seq<ProviderEvent>, finish: ProviderEvent, inputTokens: U64)
    requires Unfinished(a) && Unfinished(b) && finish.Finished?
    requires Texts(a) == Texts(b) && LastUsage(a) == LastUsage(b)
    requires forall i: U64 :: Own(a, i) == Own(b, i)
    ensures EncodeAll(New(inputTokens), a + [finish]) == EncodeAll(New(inputTokens), b + [finish])
  {
    EncoderReflects(a, inputTokens);
    EncoderReflects(b, inputTokens);
    var (s, out) := EncodeAll(New(inputTokens), a);
    var (t, also) := EncodeAll(New(inputTokens), b);
    forall i: U64 ensures Find(s.tools, i) == Find(t.tools, i) {
      assert Own(a, i) == Own(b, i);
    }
    SameTools(s.tools, t.tools);
    assert s == t;
    EncodeSnoc(New(inputTokens), a, finish);
    EncodeSnoc(New(inputTokens), b, finish);
  }

  lemma SameTools(a: map<U64, BufferedTool>, b: map<U64, BufferedTool>)
    requires forall i: U64 :: Find(a, i) == Find(b, i)
    ensures a == b
  {
    forall i: U64 ensures i in a <==> i in b {
      assert Find(a, i) == Find(b, i);
    }
    forall i | i in a ensures a[i] == b[i] {
      assert Find(a, i) == Find(b, i);
    }
  }
}
