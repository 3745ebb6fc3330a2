/** The non-streaming answer: `convert_response` (src/provider.rs) and `response_content` (src/anthropic.rs). */
module Response {
  import opened Domain
  import opened JsonModel
  import opened SseParser

  datatype OpenAiCall = OpenAiCall(id: string, name: string, arguments: string)

  datatype OpenAiMessage = OpenAiMessage(content: Option<string>, refusal: Option<string>, calls: seq<OpenAiCall>)

  datatype OpenAiChoice = OpenAiChoice(message: OpenAiMessage, finishReason: Option<string>)

  datatype OpenAiResponse = OpenAiResponse(id: string, choices: seq<OpenAiChoice>, usage: Option<Usage>)

  datatype OutputBlock = TextOut(text: string) | ToolOut(id: string, name: string, input: Json)

  datatype AnthropicResponse =
    AnthropicResponse(id: string, model: string, content: seq<OutputBlock>, stopReason: string, usage: Usage)

  function ConvertCalls(codec: Codec, calls: seq<OpenAiCall>): Result<seq<OutputBlock>, ErrorKind> {
    if calls == [] then Ok([])
    else
      match codec.parse(calls[0].arguments)
      case None => Err(Upstream)
      case Some(input) =>
        match ConvertCalls(codec, calls[1..])
        case Err(e) => Err(e)
        case Ok(rest) => Ok([ToolOut(calls[0].id, calls[0].name, input)] + rest)
  }

  function ResponseContent(text: Option<string>, tools: seq<OutputBlock>): seq<OutputBlock> {
    var output := (if text.Some? && text.value != "" then [TextOut(text.value)] else []) + tools;
    if output == [] then [TextOut("")] else output
  }

  function ConvertResponse(codec: Codec, response: OpenAiResponse, model: string)
    : Result<AnthropicResponse, ErrorKind> {
    if response.choices == [] then Err(Upstream)
    else
      var choice := response.choices[0];
      var text := if choice.message.content.None? then choice.message.refusal else choice.message.content;
      match ConvertCalls(codec, choice.message.calls)
      case Err(e) => Err(e)
      case Ok(tools) =>
        match MapStopReason(choice.finishReason)
        case Err(e) => Err(e)
        case Ok(reason) =>
          Ok(AnthropicResponse(response.id, model, ResponseContent(text, tools), reason.AsStr(),
                               response.usage.GetOr(Usage(0, 0))))
  }

  lemma {:induction false} CallsConvert(codec: Codec, calls: seq<OpenAiCall>)
    ensures ConvertCalls(codec, calls).Ok? <==> forall c | c in calls :: codec.parse(c.arguments).Some?
    ensures ConvertCalls(codec, calls).Ok? ==>
              var tools := ConvertCalls(codec, calls).value;
              |tools| == |calls| &&
              forall j | 0 <= j < |calls| ::
                codec.parse(calls[j].arguments).Some? &&
                tools[j] == ToolOut(calls[j].id, calls[j].name, codec.parse(calls[j].arguments).value)
  {
    if calls != [] {
      assert calls == [calls[0]] + calls[1..];
      CallsConvert(codec, calls[1..]);
    }
  }
}

/** Streaming refines not streaming: a client that reassembles the stream gets the non-streaming answer. */
module Refinement {
  import opened Domain
  import opened JsonModel
  import opened Lines
  import opened SseParser
  import opened Response
  import E = Encoder
  import Ascending
  import opened StreamServer
  import C = Conservation
  import opened Projections

  // ---------------------------------------------------------------- a client

  datatype Partial = PartialText(text: string) | PartialTool(id: string, name: string, json: string)

  datatype Client = Client(blocks: seq<Partial>, stopReason: string, outputTokens: U64, done: bool)

  const IDLE_CLIENT := Client([], "", 0, false)

  function Opened(kind: E.BlockKind): Partial {
    match kind
    case TextBlock => PartialText("")
    case ToolBlock(id, name) => PartialTool(id, name, "")
  }

  function Extended(p: Partial, d: E.Delta): Partial {
    match (p, d)
    case (PartialText(text), TextDelta(more)) => PartialText(text + more)
    case (PartialTool(id, name, json), JsonDelta(more)) => PartialTool(id, name, json + more)
    case _ => p
  }

  function Receive(c: Client, e: E.Sse): Client {
    match e
    case MessageStart(_, _, _) => IDLE_CLIENT
    case BlockStart(index, kind) => if index == |c.blocks| then c.(blocks := c.blocks + [Opened(kind)]) else c
    case BlockDelta(index, delta) =>
      if index < |c.blocks| then c.(blocks := c.blocks[index := Extended(c.blocks[index], delta)]) else c
    case BlockStop(_) => c
    case MessageDelta(reason, tokens) => c.(stopReason := reason, outputTokens := tokens)
    case MessageStop => c.(done := true)
    case ErrorEvent(_) => c
  }

  function ReceiveAll(c: Client, out: seq<E.Sse>): Client
    decreases out
  {
    if out == [] then c else ReceiveAll(Receive(c, out[0]), out[1..])
  }

  /** A finished block; tool input is parsed once it is complete. */
  function FinishBlock(codec: Codec, p: Partial): Option<OutputBlock> {
    match p
    case PartialText(text) => Some(TextOut(text))
    case PartialTool(id, name, json) =>
      match codec.parse(json)
      case None => None
      case Some(input) => Some(ToolOut(id, name, input))
  }

  function FinishBlocks(codec: Codec, ps: seq<Partial>): Option<seq<OutputBlock>> {
    if ps == [] then Some([])
    else
      var first, rest := FinishBlock(codec, ps[0]), FinishBlocks(codec, ps[1..]);
      if first.Some? && rest.Some? then Some([first.value] + rest.value) else None
  }

  datatype Answer = Answer(content: seq<OutputBlock>, stopReason: string, outputTokens: U64)

  function Reassemble(codec: Codec, out: seq<E.Sse>): Option<Answer> {
    var c := ReceiveAll(IDLE_CLIENT, out);
    var content := FinishBlocks(codec, c.blocks);
    if c.done && content.Some? then Some(Answer(content.value, c.stopReason, c.outputTokens)) else None
  }

  lemma {:induction false} ReceiveAppend(c: Client, a: seq<E.Sse>, b: seq<E.Sse>)
    ensures ReceiveAll(c, a + b) == ReceiveAll(ReceiveAll(c, a), b)
    decreases a
  {
    if a == [] {
      assert a + b == b;
    } else {
      assert (a + b)[0] == a[0] && (a + b)[1..] == a[1..] + b;
      ReceiveAppend(Receive(c, a[0]), a[1..], b);
    }
  }

  lemma ReceiveOne(c: Client, a: E.Sse)
    ensures ReceiveAll(c, [a]) == Receive(c, a)
  {
    assert ReceiveAll(Receive(c, a), [a][1..]) == Receive(c, a);
  }

  lemma ReceiveTwo(c: Client, a: E.Sse, b: E.Sse)
    ensures ReceiveAll(c, [a, b]) == Receive(Receive(c, a), b)
  {
    assert [a, b][1..] == [b];
    ReceiveOne(Receive(c, a), b);
  }

  // ---------------------------------------------------------------- what the client makes of a message

  function Concat(texts: seq<string>): string {
    if texts == [] then "" else Concat(texts[..|texts| - 1]) + texts[|texts| - 1]
  }

  lemma {:induction false} ReceiveText(texts: seq<string>)
    ensures ReceiveAll(IDLE_CLIENT, E.TextFrames(texts)) ==
            if texts == [] then IDLE_CLIENT else IDLE_CLIENT.(blocks := [PartialText(Concat(texts))])
  {
    if |texts| == 1 {
      ReceiveTwo(IDLE_CLIENT, E.BlockStart(0, E.TextBlock), E.BlockDelta(0, E.TextDelta(texts[0])));
      assert texts[..0] == [];
    } else if |texts| > 1 {
      var n := |texts| - 1;
      var last := E.BlockDelta(0, E.TextDelta(texts[n]));
      ReceiveText(texts[..n]);
      ReceiveAppend(IDLE_CLIENT, E.TextFrames(texts[..n]), [last]);
      ReceiveOne(IDLE_CLIENT.(blocks := [PartialText(Concat(texts[..n]))]), last);
    }
  }

  function Tools(tools: map<U64, E.BufferedTool>, keys: seq<U64>): (r: seq<Partial>)
    requires forall k | k in keys :: k in tools
    ensures |r| == |keys|
  {
    seq(|keys|, i requires 0 <= i < |keys| =>
      PartialTool(tools[keys[i]].id, tools[keys[i]].name, tools[keys[i]].arguments))
  }

  lemma ReceiveFrame(c: Client, tool: E.BufferedTool)
    ensures ReceiveAll(c, E.Frame(|c.blocks|, tool)) ==
            c.(blocks := c.blocks + [PartialTool(tool.id, tool.name, tool.arguments)])
  {
    var f := E.Frame(|c.blocks|, tool);
    assert f[1..] == [f[1], f[2]];
    ReceiveTwo(Receive(c, f[0]), f[1], f[2]);
    assert "" + tool.arguments == tool.arguments;
    var filled := PartialTool(tool.id, tool.name, tool.arguments);
    assert (c.blocks + [PartialTool(tool.id, tool.name, "")])[|c.blocks| := filled]
        == c.blocks + [PartialTool(tool.id, tool.name, tool.arguments)];
  }

  lemma {:induction false} ReceiveTools(c: Client, tools: map<U64, E.BufferedTool>, keys: seq<U64>)
    requires forall k | k in keys :: k in tools
    ensures ReceiveAll(c, E.ToolFrames(|c.blocks|, tools, keys)) == c.(blocks := c.blocks + Tools(tools, keys))
    decreases keys
  {
    if keys == [] {
      assert c.blocks + [] == c.blocks;
    } else {
      var tool := tools[keys[0]];
      var d := c.(blocks := c.blocks + [PartialTool(tool.id, tool.name, tool.arguments)]);
      ReceiveFrame(c, tool);
      ReceiveAppend(c, E.Frame(|c.blocks|, tool), E.ToolFrames(|d.blocks|, tools, keys[1..]));
      ReceiveTools(d, tools, keys[1..]);
      assert d.blocks + Tools(tools, keys[1..]) == c.blocks + Tools(tools, keys);
    }
  }

  /** The blocks before the tools: the text, or an empty text when there is nothing at all. */
  function TextPart(actions: seq<Action>): seq<Partial> {
    if C.Texts(actions) != [] then [PartialText(Concat(C.Texts(actions)))]
    else if C.Seen(actions) == {} then [PartialText("")]
    else []
  }

  lemma ReceiveClosing(actions: seq<Action>)
    ensures ReceiveAll(ReceiveAll(IDLE_CLIENT, E.TextFrames(C.Texts(actions))), C.Closing(actions)) ==
            IDLE_CLIENT.(blocks := TextPart(actions))
  {
    ReceiveText(C.Texts(actions));
    if C.Texts(actions) != [] {
      ReceiveOne(IDLE_CLIENT.(blocks := [PartialText(Concat(C.Texts(actions)))]), E.BlockStop(0));
    } else if C.Seen(actions) == {} {
      ReceiveTwo(IDLE_CLIENT, E.BlockStart(0, E.TextBlock), E.BlockStop(0));
    }
  }

  lemma ReceiveTail(c: Client, reason: StopReason, tokens: U64)
    ensures ReceiveAll(c, E.Ending(reason, tokens)) ==
            c.(stopReason := reason.AsStr(), outputTokens := tokens, done := true)
  {
    ReceiveTwo(c, E.MessageDelta(reason.AsStr(), tokens), E.MessageStop);
  }

  lemma ReceiveMessage(head: Head, actions: seq<Action>)
    requires C.AllNamed(actions)
    requires C.LastReason(actions).Some? && C.Known(C.LastReason(actions).value).Some?
    ensures ReceiveAll(IDLE_CLIENT, C.Message(head, actions)) ==
            Client(TextPart(actions) + Tools(C.Table(actions), Ascending.Keys(C.Seen(actions))),
                   C.Known(C.LastReason(actions).value).value.AsStr(), C.OutputTokens(actions), true)
  {
    var keys := Ascending.Keys(C.Seen(actions));
    var reason := C.Known(C.LastReason(actions).value).value;
    var texts := E.TextFrames(C.Texts(actions));
    var frames := E.ToolFrames(C.FirstTool(actions), C.Table(actions), keys);
    var message := C.Message(head, actions);
    assert message[1..] == texts + (C.Closing(actions) + frames + E.Ending(reason, C.OutputTokens(actions)));
    ReceiveAppend(IDLE_CLIENT, texts, C.Closing(actions) + frames + E.Ending(reason, C.OutputTokens(actions)));
    var c := ReceiveAll(IDLE_CLIENT, texts);
    ReceiveAppend(c, C.Closing(actions) + frames, E.Ending(reason, C.OutputTokens(actions)));
    ReceiveAppend(c, C.Closing(actions), frames);
    ReceiveClosing(actions);
    var d := IDLE_CLIENT.(blocks := TextPart(actions));
    ReceiveTools(d, C.Table(actions), keys);
    ReceiveTail(d.(blocks := d.blocks + Tools(C.Table(actions), keys)), reason, C.OutputTokens(actions));
  }

  // ---------------------------------------------------------------- slicings of an answer

  /** The answers on which the two paths can be compared. */
  predicate Answerable(codec: Codec, response: OpenAiResponse) {
    && response.choices != []
    && var choice := response.choices[0];
    && choice.message.refusal.None?
    && choice.finishReason.Some? && MapStopReason(choice.finishReason).Ok?
    && forall c | c in choice.message.calls :: c.id != "" && c.name != "" && codec.parse(c.arguments).Some?
  }

  /**
   * The provider streams this answer: text in any pieces, every call under its own index, in list
   * order, its fragments in any pieces and interleaved in any way with everything else.
   */
  ghost predicate SlicingOf(actions: seq<Action>, response: OpenAiResponse, indices: seq<U64>)
    requires response.choices != []
  {
    var choice := response.choices[0];
    var calls := choice.message.calls;
    && (forall a | a in actions :: C.Sound(a))
    && Concat(C.Texts(actions)) == choice.message.content.GetOr("")
    && C.LastUsage(actions) == response.usage
    && C.LastReason(actions) == choice.finishReason
    && |indices| == |calls| && Ascending.Increasing(indices)
    && (forall i: U64 :: i in C.Seen(actions) <==> i in indices)
    && forall j | 0 <= j < |calls| :: Carries(C.History(actions, indices[j]), calls[j])
  }

  predicate Carries(h: seq<CallDelta>, call: OpenAiCall) {
    C.Ids(h) == call.id && C.Names(h) == call.name && C.Arguments(h) == call.arguments
  }

  /** Nothing is added to the id or the name after both first became known. */
  predicate Settled(h: seq<CallDelta>)
    requires C.Named(h)
  {
    var intro := C.Introduction(h);
    C.Ids(intro) == C.Ids(h) && C.Names(intro) == C.Names(h)
  }

  lemma {:induction false} ConcatEmpty(texts: seq<string>)
    requires forall t | t in texts :: t != ""
    ensures Concat(texts) == "" <==> texts == []
  {
    if texts != [] {
      assert texts[|texts| - 1] in texts;
    }
  }

  lemma {:induction false} TextsIn(actions: seq<Action>)
    ensures forall t | t in C.Texts(actions) :: SawText(t) in actions
  {
    if actions != [] {
      TextsIn(actions[..|actions| - 1]);
    }
  }

  lemma {:induction false} ChoiceTexts(choices: seq<Choice>)
    ensures SawText("") !in ChoiceActions(choices)
  {
    if choices != [] {
      CallTexts(choices[0].calls);
      ChoiceTexts(choices[1..]);
    }
  }

  lemma {:induction false} CallTexts(calls: seq<CallDelta>)
    ensures SawText("") !in CallActions(calls)
  {
    if calls != [] {
      CallTexts(calls[1..]);
    }
  }

  /** The reader never passes on an empty text. */
  lemma ChunkTexts(c: Chunk)
    ensures SawText("") !in ChunkActions(c)
  {
    ChoiceTexts(c.choices);
  }

  lemma LineTexts(codec: Codec, line: seq<byte>)
    ensures SawText("") !in LineActions(codec, line)
  {
    match ReadLine(codec, line)
    case Payload(value) => ChunkTexts(ReadChunk(value));
    case _ =>
  }

  lemma {:induction false} NoEmptyText(codec: Codec, lines: seq<seq<byte>>)
    ensures SawText("") !in Actions(codec, lines)
  {
    if lines != [] {
      LineTexts(codec, lines[0]);
      NoEmptyText(codec, lines[1..]);
    }
  }

  function FinishedBlocks(codec: Codec, ps: seq<Partial>): (r: seq<OutputBlock>)
    requires forall p | p in ps :: FinishBlock(codec, p).Some?
    ensures |r| == |ps|
  {
    seq(|ps|, i requires 0 <= i < |ps| => FinishBlock(codec, ps[i]).value)
  }

  lemma {:induction false} FinishEach(codec: Codec, ps: seq<Partial>)
    requires forall p | p in ps :: FinishBlock(codec, p).Some?
    ensures FinishBlocks(codec, ps) == Some(FinishedBlocks(codec, ps))
  {
    if ps != [] {
      FinishEach(codec, ps[1..]);
      assert [FinishBlock(codec, ps[0]).value] + FinishedBlocks(codec, ps[1..]) == FinishedBlocks(codec, ps);
    }
  }

  lemma SlicingSucceeds(codec: Codec, actions: seq<Action>, response: OpenAiResponse, indices: seq<U64>)
    requires Answerable(codec, response) && SlicingOf(actions, response, indices)
    ensures C.Successful(codec, actions) && C.AllNamed(actions)
    ensures Ready(codec, actions, indices)
    ensures Ascending.Keys(C.Seen(actions)) == indices
    ensures indices == [] <==> C.Seen(actions) == {}
  {
    var calls := response.choices[0].message.calls;
    forall i | i in C.Seen(actions)
      ensures C.Named(C.History(actions, i)) && codec.parse(C.Arguments(C.History(actions, i))).Some?
    {
      var j :| 0 <= j < |indices| && indices[j] == i;
      assert Carries(C.History(actions, indices[j]), calls[j]);
      assert calls[j] in calls;
    }
    forall j | 0 <= j < |indices|
      ensures C.Named(C.History(actions, indices[j])) && codec.parse(C.Arguments(C.History(actions, indices[j]))).Some?
    {
      assert indices[j] in C.Seen(actions);
    }
    Ascending.KeysUnique(C.Seen(actions), indices);
    if indices != [] {
      assert indices[0] in indices;
    }
  }

  /** Every call can be delivered. */
  predicate Ready(codec: Codec, actions: seq<Action>, indices: seq<U64>) {
    forall j | 0 <= j < |indices| ::
      var h := C.History(actions, indices[j]);
      C.Named(h) && codec.parse(C.Arguments(h)).Some?
  }

  function DeliveredBlock(codec: Codec, h: seq<CallDelta>): OutputBlock
    requires C.Named(h) && codec.parse(C.Arguments(h)).Some?
  {
    ToolOut(C.Delivered(h).id, C.Delivered(h).name, codec.parse(C.Arguments(h)).value)
  }

  /** The tool blocks the streaming client ends up with. */
  function Streamed(codec: Codec, actions: seq<Action>, indices: seq<U64>): (r: seq<OutputBlock>)
    requires Ready(codec, actions, indices)
    ensures |r| == |indices|
  {
    seq(|indices|, j requires 0 <= j < |indices| => DeliveredBlock(codec, C.History(actions, indices[j])))
  }

  lemma StreamedTools(codec: Codec, actions: seq<Action>, indices: seq<U64>)
    requires C.AllNamed(actions) && Ready(codec, actions, indices)
    requires Ascending.Keys(C.Seen(actions)) == indices
    ensures var tools := Tools(C.Table(actions), indices);
            (forall p | p in tools :: FinishBlock(codec, p).Some?) &&
            FinishedBlocks(codec, tools) == Streamed(codec, actions, indices)
  {
    var tools := Tools(C.Table(actions), indices);
    forall j | 0 <= j < |tools|
      ensures FinishBlock(codec, tools[j]) == Some(DeliveredBlock(codec, C.History(actions, indices[j])))
    {
      assert indices[j] in C.Seen(actions);
    }
    assert FinishedBlocks(codec, tools) == Streamed(codec, actions, indices);
  }

  lemma StreamedText(codec: Codec, actions: seq<Action>, text: Option<string>, tools: seq<OutputBlock>)
    requires Concat(C.Texts(actions)) == text.GetOr("")
    requires SawText("") !in actions
    requires tools == [] <==> C.Seen(actions) == {}
    ensures FinishedBlocks(codec, TextPart(actions)) + tools == ResponseContent(text, tools)
  {
    TextsIn(actions);
    ConcatEmpty(C.Texts(actions));
  }

  lemma FinishedAppend(codec: Codec, a: seq<Partial>, b: seq<Partial>)
    requires forall p | p in a :: FinishBlock(codec, p).Some?
    requires forall p | p in b :: FinishBlock(codec, p).Some?
    ensures FinishBlocks(codec, a + b) == Some(FinishedBlocks(codec, a) + FinishedBlocks(codec, b))
  {
    assert forall p | p in a + b :: FinishBlock(codec, p).Some?;
    FinishEach(codec, a + b);
    assert FinishedBlocks(codec, a + b) == FinishedBlocks(codec, a) + FinishedBlocks(codec, b);
  }

  lemma TextFinished(codec: Codec, actions: seq<Action>)
    ensures forall p | p in TextPart(actions) :: FinishBlock(codec, p).Some?
  {
  }

  /** The blocks of the streaming client, in full. */
  lemma StreamedContent(codec: Codec, actions: seq<Action>, text: Option<string>, indices: seq<U64>)
    requires C.AllNamed(actions) && Ready(codec, actions, indices)
    requires Ascending.Keys(C.Seen(actions)) == indices && (indices == [] <==> C.Seen(actions) == {})
    requires Concat(C.Texts(actions)) == text.GetOr("") && SawText("") !in actions
    ensures FinishBlocks(codec, TextPart(actions) + Tools(C.Table(actions), indices)) ==
            Some(ResponseContent(text, Streamed(codec, actions, indices)))
  {
    var tools := Tools(C.Table(actions), indices);
    TextFinished(codec, actions);
    StreamedTools(codec, actions, indices);
    FinishedAppend(codec, TextPart(actions), tools);
    StreamedText(codec, actions, text, Streamed(codec, actions, indices));
  }

  lemma SameContent(text: Option<string>, a: seq<OutputBlock>, b: seq<OutputBlock>)
    requires |a| == |b|
    ensures ResponseContent(text, a) == ResponseContent(text, b) <==> a == b
  {
    var before := if text.Some? && text.value != "" then [TextOut(text.value)] else [];
    if a != [] {
      assert before + a == before + b ==> a == (before + a)[|before|..] == (before + b)[|before|..] == b;
    }
  }

  predicate AllSettled(actions: seq<Action>, indices: seq<U64>) {
    forall j | 0 <= j < |indices| ::
      C.Named(C.History(actions, indices[j])) && Settled(C.History(actions, indices[j]))
  }

  /** The two lists of calls agree exactly when every id and name was complete at its introduction. */
  lemma SettledAgree(codec: Codec, actions: seq<Action>, calls: seq<OpenAiCall>, indices: seq<U64>)
    requires |indices| == |calls| && Ready(codec, actions, indices)
    requires forall j | 0 <= j < |calls| :: Carries(C.History(actions, indices[j]), calls[j])
    ensures ConvertCalls(codec, calls).Ok? && |ConvertCalls(codec, calls).value| == |calls|
    ensures Streamed(codec, actions, indices) == ConvertCalls(codec, calls).value <==> AllSettled(actions, indices)
  {
    CallsConvert(codec, calls);
    forall c | c in calls ensures codec.parse(c.arguments).Some? {
      var j :| 0 <= j < |calls| && calls[j] == c;
      assert Carries(C.History(actions, indices[j]), calls[j]);
    }
    var direct, streamed := ConvertCalls(codec, calls).value, Streamed(codec, actions, indices);
    forall j | 0 <= j < |indices| ensures streamed[j] == direct[j] <==> Settled(C.History(actions, indices[j])) {
      assert Carries(C.History(actions, indices[j]), calls[j]);
    }
  }

  /** The streaming and the direct answer, compared. */
  predicate Agree(streamed: Option<Answer>, direct: Result<AnthropicResponse, ErrorKind>, sameContent: bool) {
    && streamed.Some? && direct.Ok?
    && streamed.value.stopReason == direct.value.stopReason
    && streamed.value.outputTokens == direct.value.usage.outputTokens
    && (streamed.value.content == direct.value.content <==> sameContent)
  }

  lemma MessageRefines(codec: Codec, actions: seq<Action>, head: Head,
                       response: OpenAiResponse, indices: seq<U64>, model: string)
    requires Answerable(codec, response) && SlicingOf(actions, response, indices)
    requires SawText("") !in actions
    ensures C.Successful(codec, actions) && C.AllNamed(actions) && C.Known(C.LastReason(actions).value).Some?
    ensures Agree(Reassemble(codec, C.Message(head, actions)), ConvertResponse(codec, response, model),
                  AllSettled(actions, indices))
  {
    var choice := response.choices[0];
    SlicingSucceeds(codec, actions, response, indices);
    ReceiveMessage(head, actions);
    StreamedContent(codec, actions, choice.message.content, indices);
    SettledAgree(codec, actions, choice.message.calls, indices);
    SameContent(choice.message.content, Streamed(codec, actions, indices),
                ConvertCalls(codec, choice.message.calls).value);
  }

  /**
   * Streaming refines not streaming. However an answer is sliced, whatever blocks of bytes the
   * transport makes of it, the reassembled stream has the stop reason, the output tokens and
   * the content of the non-streaming answer; the content differs exactly when some id or name
   * went on growing after its tool call was announced.
   */
  lemma StreamingRefines(codec: Codec, bytes: seq<byte>, end: End, head: Head,
                         response: OpenAiResponse, indices: seq<U64>, model: string)
    requires Answerable(codec, response)
    requires Ends(codec, bytes, end)
    requires SlicingOf(SentActions(codec, bytes), response, indices)
    ensures Parse(codec, bytes, end).error == None
    ensures Agree(Reassemble(codec, Transcript(head, Polls(Parse(codec, bytes, end), None))),
                  ConvertResponse(codec, response, model), AllSettled(SentActions(codec, bytes), indices))
  {
    NoEmptyText(codec, Complete(bytes));
    MessageRefines(codec, SentActions(codec, bytes), head, response, indices, model);
    C.StreamSucceeds(codec, bytes, end);
    C.FinishedStream(codec, bytes, end, head);
  }

  /** What the provider sent before `[DONE]`. */
  function SentActions(codec: Codec, bytes: seq<byte>): seq<Action> {
    C.BeforeClose(Actions(codec, Complete(bytes)))
  }

  /** The stream was ended by `[DONE]` or by the end of the input. */
  predicate Ends(codec: Codec, bytes: seq<byte>, end: End) {
    C.Ends(Actions(codec, Complete(bytes)), end)
  }

  // ---------------------------------------------------------------- ids and names delivered whole

  /** Every fragment carries the id (the name) whole or not at all. */
  predicate Whole(h: seq<CallDelta>) {
    forall c | c in h :: c.id.GetOr("") in ["", C.Ids(h)] && c.name.GetOr("") in ["", C.Names(h)]
  }

  lemma {:induction false} IdsOfPrefix(h: seq<CallDelta>, k: nat)
    requires k <= |h|
    ensures C.Ids(h[..k]) <= C.Ids(h) && C.Names(h[..k]) <= C.Names(h)
  {
    if k == |h| {
      assert h[..k] == h;
    } else {
      IdsOfPrefix(h[..|h| - 1], k);
      assert h[..|h| - 1][..k] == h[..k];
    }
  }

  lemma {:induction false} WholeIds(h: seq<CallDelta>, id: string)
    requires forall c | c in h :: c.id.GetOr("") in ["", id]
    requires |C.Ids(h)| <= |id|
    ensures C.Ids(h) in ["", id]
  {
    if h != [] {
      WholeIds(h[..|h| - 1], id);
      assert h[|h| - 1] in h;
      assert "" + id == id && id + "" == id;
    }
  }

  lemma {:induction false} WholeNames(h: seq<CallDelta>, name: string)
    requires forall c | c in h :: c.name.GetOr("") in ["", name]
    requires |C.Names(h)| <= |name|
    ensures C.Names(h) in ["", name]
  {
    if h != [] {
      WholeNames(h[..|h| - 1], name);
      assert h[|h| - 1] in h;
      assert "" + name == name && name + "" == name;
    }
  }

  /** Ids and names delivered whole are complete when they are announced. */
  lemma WholeIsSettled(h: seq<CallDelta>)
    requires C.Named(h) && Whole(h)
    ensures Settled(h)
  {
    var intro := C.Introduction(h);
    IdsOfPrefix(h, |intro|);
    assert h[..|intro|] == intro;
    assert forall c | c in intro :: c in h;
    WholeIds(intro, C.Ids(h));
    WholeNames(intro, C.Names(h));
  }

  /** So when ids and names come whole, the two answers are the same. */
  lemma WholeStreamingEqualsDirect(codec: Codec, bytes: seq<byte>, end: End, head: Head,
                                   response: OpenAiResponse, indices: seq<U64>, model: string)
    requires Answerable(codec, response)
    requires Ends(codec, bytes, end)
    requires SlicingOf(SentActions(codec, bytes), response, indices)
    requires forall j | 0 <= j < |indices| :: Whole(C.History(SentActions(codec, bytes), indices[j]))
    ensures var direct := ConvertResponse(codec, response, model);
            direct.Ok? &&
            Reassemble(codec, Transcript(head, Polls(Parse(codec, bytes, end), None))) ==
            Some(Answer(direct.value.content, direct.value.stopReason, direct.value.usage.outputTokens))
  {
    var actions := SentActions(codec, bytes);
    StreamingRefines(codec, bytes, end, head, response, indices, model);
    SlicingSucceeds(codec, actions, response, indices);
    forall j | 0 <= j < |indices|
      ensures C.Named(C.History(actions, indices[j])) && Settled(C.History(actions, indices[j]))
    {
      assert Whole(C.History(actions, indices[j]));
      WholeIsSettled(C.History(actions, indices[j]));
    }
  }

  lemma Grown(a: string, b: string, more: string)
    requires |a| <= |b|
    ensures a == b + more <==> a == b && more == ""
  {
    assert b + "" == b;
  }

  lemma {:induction false} NoIdAdded(h: seq<CallDelta>, n: nat)
    requires n <= |h|
    ensures C.Ids(h[..n]) == C.Ids(h) <==> forall k | n <= k < |h| :: h[k].id.GetOr("") == ""
  {
    if n == |h| {
      assert h[..n] == h;
    } else {
      var before, last := h[..|h| - 1], h[|h| - 1];
      NoIdAdded(before, n);
      IdsOfPrefix(before, n);
      assert before[..n] == h[..n];
      assert forall k | n <= k < |before| :: before[k] == h[k];
      Grown(C.Ids(h[..n]), C.Ids(before), last.id.GetOr(""));
    }
  }

  lemma {:induction false} NoNameAdded(h: seq<CallDelta>, n: nat)
    requires n <= |h|
    ensures C.Names(h[..n]) == C.Names(h) <==> forall k | n <= k < |h| :: h[k].name.GetOr("") == ""
  {
    if n == |h| {
      assert h[..n] == h;
    } else {
      var before, last := h[..|h| - 1], h[|h| - 1];
      NoNameAdded(before, n);
      IdsOfPrefix(before, n);
      assert before[..n] == h[..n];
      assert forall k | n <= k < |before| :: before[k] == h[k];
      Grown(C.Names(h[..n]), C.Names(before), last.name.GetOr(""));
    }
  }

  /** In terms of the fragments: nothing after the introduction carries any more id or name. */
  lemma SettledMeans(h: seq<CallDelta>)
    requires C.Named(h)
    ensures Settled(h) <==>
            forall k | |C.Introduction(h)| <= k < |h| :: h[k].id.GetOr("") == "" && h[k].name.GetOr("") == ""
  {
    var n := |C.Introduction(h)|;
    assert h[..n] == C.Introduction(h);
    NoIdAdded(h, n);
    NoNameAdded(h, n);
  }

  /** An id that is still growing when the name arrives reaches a streaming client cut short. */
  lemma SplitIdIsCut()
    ensures var h := [CallDelta(Some(0), Some("call_"), Some("f"), None),
                      CallDelta(Some(0), Some("1"), None, Some("{}"))];
            C.Named(h) && !Settled(h) && C.Ids(h) == "call_1" && C.Delivered(h).id == "call_"
  {
    var a, b := CallDelta(Some(0), Some("call_"), Some("f"), None), CallDelta(Some(0), Some("1"), None, Some("{}"));
    assert [a, b][..1] == [a] && [a][..0] == [];
    assert C.Ids([a]) == "call_" && C.Names([a]) == "f";
    assert C.Ids([a, b]) == "call_" + "1";
  }

  // ---------------------------------------------------------------- every answer can be sliced

  function WholeCall(j: U64, call: OpenAiCall): CallDelta {
    CallDelta(Some(j), Some(call.id), Some(call.name), Some(call.arguments))
  }

  function Maybe(on: bool, a: Action): seq<Action> { if on then [a] else [] }

  /** The plainest slicing: one fragment for each part of the answer. */
  function Plain(response: OpenAiResponse): seq<Action>
    requires response.choices != [] && |response.choices[0].message.calls| <= 0x1_0000_0000_0000_0000
    requires response.choices[0].finishReason.Some?
  {
    var choice := response.choices[0];
    var text := choice.message.content.GetOr("");
    Maybe(response.usage.Some?, SawUsage(response.usage.GetOr(Usage(0, 0)))) +
    (Maybe(text != "", SawText(text)) + PlainCalls(choice.message.calls) + [SawFinish(choice.finishReason.value)])
  }

  function PlainCalls(calls: seq<OpenAiCall>): seq<Action>
    requires |calls| <= 0x1_0000_0000_0000_0000
  {
    if calls == [] then [] else
      var n := |calls| - 1;
      PlainCalls(calls[..n]) + [SawCall(WholeCall(n, calls[n]))]
  }

  lemma {:induction false} PlainCallsSay(calls: seq<OpenAiCall>, i: U64)
    requires |calls| <= 0x1_0000_0000_0000_0000
    ensures C.History(PlainCalls(calls), i) == if i < |calls| then [WholeCall(i, calls[i])] else []
    ensures C.Texts(PlainCalls(calls)) == [] && C.LastUsage(PlainCalls(calls)) == None
    ensures forall a | a in PlainCalls(calls) :: C.Sound(a)
  {
    if calls != [] {
      var n := |calls| - 1;
      PlainCallsSay(calls[..n], i);
      C.HistorySnoc(PlainCalls(calls[..n]), SawCall(WholeCall(n, calls[n])), i);
      C.TextsSnoc(PlainCalls(calls[..n]), SawCall(WholeCall(n, calls[n])));
    }
  }

  lemma PlainCarries(call: OpenAiCall, j: U64)
    ensures Carries([WholeCall(j, call)], call) && Whole([WholeCall(j, call)])
  {
    var h := [WholeCall(j, call)];
    assert h[..0] == [];
    assert "" + call.id == call.id && "" + call.name == call.name && "" + call.arguments == call.arguments;
  }

  lemma MaybeSays(on: bool, a: Action, i: U64)
    requires !a.SawCall?
    ensures var m := Maybe(on, a);
            && C.History(m, i) == [] && C.Texts(m) == (if on && a.SawText? then [a.text] else [])
            && C.LastUsage(m) == (if on && a.SawUsage? then Some(a.usage) else None)
            && C.LastReason(m) == (if on && a.SawFinish? then Some(a.reason) else None)
  {
    OneThing(a, i);
  }

  lemma PlainMiddle(calls: seq<OpenAiCall>, text: string, i: U64)
    requires |calls| <= 0x1_0000_0000_0000_0000
    ensures var all := Maybe(text != "", SawText(text)) + PlainCalls(calls);
            && C.History(all, i) == C.History(PlainCalls(calls), i)
            && C.Texts(all) == (if text != "" then [text] else []) && C.LastUsage(all) == None
  {
    var spoken := Maybe(text != "", SawText(text));
    PlainCallsSay(calls, i);
    MaybeSays(text != "", SawText(text), i);
    Stretches(spoken, PlainCalls(calls), i);
    assert [] + C.History(PlainCalls(calls), i) == C.History(PlainCalls(calls), i);
    assert C.Texts(spoken) + [] == C.Texts(spoken);
  }

  lemma PlainEnd(calls: seq<OpenAiCall>, text: string, reason: string, i: U64)
    requires |calls| <= 0x1_0000_0000_0000_0000
    ensures var all := Maybe(text != "", SawText(text)) + PlainCalls(calls) + [SawFinish(reason)];
            && C.History(all, i) == C.History(PlainCalls(calls), i)
            && C.Texts(all) == (if text != "" then [text] else []) && C.LastUsage(all) == None
            && C.LastReason(all) == Some(reason)
  {
    var middle := Maybe(text != "", SawText(text)) + PlainCalls(calls);
    PlainMiddle(calls, text, i);
    Stretches(middle, [SawFinish(reason)], i);
    OneThing(SawFinish(reason), i);
    assert C.History(middle, i) + [] == C.History(middle, i) && C.Texts(middle) + [] == C.Texts(middle);
  }

  lemma PlainHistory(response: OpenAiResponse, i: U64)
    requires response.choices != [] && |response.choices[0].message.calls| <= 0x1_0000_0000_0000_0000
    requires response.choices[0].finishReason.Some?
    ensures C.History(Plain(response), i) == C.History(PlainCalls(response.choices[0].message.calls), i)
    ensures var text := response.choices[0].message.content.GetOr("");
            C.Texts(Plain(response)) == if text != "" then [text] else []
    ensures C.LastUsage(Plain(response)) == response.usage
    ensures C.LastReason(Plain(response)) == response.choices[0].finishReason
  {
    var choice := response.choices[0];
    var text, usage := choice.message.content.GetOr(""), SawUsage(response.usage.GetOr(Usage(0, 0)));
    var end := Maybe(text != "", SawText(text)) + PlainCalls(choice.message.calls) +
        [SawFinish(choice.finishReason.value)];
    PlainEnd(choice.message.calls, text, choice.finishReason.value, i);
    MaybeSays(response.usage.Some?, usage, i);
    Stretches(Maybe(response.usage.Some?, usage), end, i);
  }

  lemma PlainSound(response: OpenAiResponse)
    requires response.choices != [] && |response.choices[0].message.calls| <= 0x1_0000_0000_0000_0000
    requires response.choices[0].finishReason.Some? && MapStopReason(response.choices[0].finishReason).Ok?
    ensures forall a | a in Plain(response) :: C.Sound(a)
  {
    PlainCallsSay(response.choices[0].message.calls, 0);
  }

  /** Every comparable answer has a slicing, with every id and name whole. */
  lemma SlicingExists(codec: Codec, response: OpenAiResponse, indices: seq<U64>)
    requires Answerable(codec, response) && |response.choices[0].message.calls| <= 0x1_0000_0000_0000_0000
    requires |indices| == |response.choices[0].message.calls| && forall j | 0 <= j < |indices| :: indices[j] == j
    ensures SlicingOf(Plain(response), response, indices)
    ensures forall j | 0 <= j < |indices| :: Whole(C.History(Plain(response), indices[j]))
  {
    var calls := response.choices[0].message.calls;
    PlainHistory(response, 0);
    PlainSound(response);
    assert [response.choices[0].message.content.GetOr("")][..0] == [];
    forall i: U64 ensures i in C.Seen(Plain(response)) <==> i in indices {
      PlainHistory(response, i);
      PlainCallsSay(calls, i);
      C.SeenHistory(Plain(response), i);
      if i < |calls| {
        assert indices[i] == i;
      }
    }
    forall j | 0 <= j < |indices|
      ensures Carries(C.History(Plain(response), indices[j]), calls[j]) && Whole(C.History(Plain(response), indices[j]))
    {
      PlainHistory(response, j);
      PlainCallsSay(calls, j);
      PlainCarries(calls[j], j);
    }
  }
}
