/** The provider's side: every slicing of an answer can be sent as bytes that the reader takes for it. */
module Sending {
  import opened Domain
  import opened JsonModel
  import opened Lines
  import opened SseParser
  import opened Response
  import opened Refinement
  import opened PrinterTable
  import opened StreamServer
  import C = Conservation
  import opened Projections

  /** The chunk that says one thing. */
  function ChunkOf(a: Action): Chunk {
    match a
    case SawUsage(usage) => Chunk(Some(usage), [])
    case SawText(text) => Chunk(None, [Choice(Some(text), [], None)])
    case SawCall(call) => Chunk(None, [Choice(None, [call], None)])
    case SawFinish(reason) => Chunk(None, [Choice(None, [], Some(reason))])
    case _ => Chunk(None, [])
  }

  /** What a chunk can say: no error, no end, and no empty text. */
  predicate Sendable(a: Action) { C.Sound(a) && a != SawText("") }

  lemma OneChoice(c: Choice)
    ensures ChoiceActions([c]) == TextAction(c) + CallActions(c.calls) + FinishAction(c)
  {
    assert [c][1..] == [] && ChoiceActions([]) == [];
  }

  lemma OneCall(c: CallDelta)
    ensures CallActions([c]) == [SawCall(c)]
  {
    assert [c][1..] == [];
  }

  lemma ChunkSays(a: Action)
    requires Sendable(a)
    ensures ChunkActions(ChunkOf(a)) == [a]
  {
    match a
    case SawCall(call) =>
      OneChoice(Choice(None, [call], None));
      OneCall(call);
    case SawText(text) => OneChoice(Choice(Some(text), [], None));
    case SawFinish(reason) => OneChoice(Choice(None, [], Some(reason)));
    case SawUsage(_) =>
  }

  // ---------------------------------------------------------------- chunks as bytes

  /** What these chunks say, one after the other; each may say any number of things. */
  function SaidBy(chunks: seq<Chunk>): seq<Action> {
    if chunks == [] then [] else ChunkActions(chunks[0]) + SaidBy(chunks[1..])
  }

  function LineOf(wire: Json -> seq<byte>, c: Chunk): seq<byte> { wire(WriteChunk(c)) }

  /** `wire` prints this chunk as a single line from which the reader gets it back. */
  predicate PrintsOne(codec: Codec, wire: Json -> seq<byte>, c: Chunk) {
    LF !in LineOf(wire, c) && ReadLine(codec, LineOf(wire, c)) == Payload(WriteChunk(c))
  }

  predicate PrintsAll(codec: Codec, wire: Json -> seq<byte>, chunks: seq<Chunk>) {
    forall i | 0 <= i < |chunks| :: PrintsOne(codec, wire, chunks[i])
  }

  /** It does so for all these chunks, and `done` is an end mark on a single line. */
  predicate Prints(codec: Codec, wire: Json -> seq<byte>, done: seq<byte>, chunks: seq<Chunk>) {
    LF !in done && ReadLine(codec, done) == DoneMark && PrintsAll(codec, wire, chunks)
  }

  function LinesOf(wire: Json -> seq<byte>, chunks: seq<Chunk>): seq<seq<byte>> {
    if chunks == [] then [] else [LineOf(wire, chunks[0])] + LinesOf(wire, chunks[1..])
  }

  /** One line for each chunk, and the end mark. */
  function StreamBytes(wire: Json -> seq<byte>, done: seq<byte>, chunks: seq<Chunk>): seq<byte> {
    Join(LinesOf(wire, chunks) + [done])
  }

  lemma LineSays(codec: Codec, wire: Json -> seq<byte>, c: Chunk)
    requires PrintsOne(codec, wire, c)
    ensures LineActions(codec, LineOf(wire, c)) == ChunkActions(c)
  {
    ChunkReadsBack(c);
  }

  lemma OneBare(line: seq<byte>)
    requires LF !in line
    ensures Bare([line])
  {
  }

  lemma FirstLineSays(codec: Codec, wire: Json -> seq<byte>, chunks: seq<Chunk>)
    requires chunks != [] && PrintsAll(codec, wire, chunks)
    ensures LineActions(codec, LineOf(wire, chunks[0])) == ChunkActions(chunks[0])
    ensures PrintsAll(codec, wire, chunks[1..])
  {
    LineSays(codec, wire, chunks[0]);
  }

  lemma {:induction false} LinesSay(codec: Codec, wire: Json -> seq<byte>, chunks: seq<Chunk>)
    requires PrintsAll(codec, wire, chunks)
    ensures Actions(codec, LinesOf(wire, chunks)) == SaidBy(chunks)
  {
    if chunks != [] {
      FirstLineSays(codec, wire, chunks);
      LinesSay(codec, wire, chunks[1..]);
      ActionsCons(codec, LineOf(wire, chunks[0]), LinesOf(wire, chunks[1..]));
    }
  }

  lemma {:induction false} LinesBare(codec: Codec, wire: Json -> seq<byte>, chunks: seq<Chunk>)
    requires PrintsAll(codec, wire, chunks)
    ensures Bare(LinesOf(wire, chunks))
  {
    if chunks != [] {
      LinesBare(codec, wire, chunks[1..]);
      assert PrintsOne(codec, wire, chunks[0]);
      OneBare(LineOf(wire, chunks[0]));
      BareAppend([LineOf(wire, chunks[0])], LinesOf(wire, chunks[1..]));
    }
  }

  lemma OneLine(codec: Codec, line: seq<byte>)
    ensures Actions(codec, [line]) == LineActions(codec, line)
  {
    ActionsCons(codec, line, []);
    assert [line] + [] == [line];
    assert LineActions(codec, line) + [] == LineActions(codec, line);
  }

  lemma LastLineCloses(codec: Codec, lines: seq<seq<byte>>, done: seq<byte>)
    requires LineActions(codec, done) == [Close]
    ensures Actions(codec, lines + [done]) == Actions(codec, lines) + [Close]
  {
    ActionsAppend(codec, lines, [done]);
    OneLine(codec, done);
  }

  lemma JoinedComplete(lines: seq<seq<byte>>)
    requires Bare(lines)
    ensures Complete(Join(lines)) == lines
  {
    SplitUnique(lines, []);
    assert Join(lines) + [] == Join(lines);
  }

  lemma {:induction false} BeforeCloseAppend(actions: seq<Action>)
    requires Close !in actions
    ensures C.BeforeClose(actions + [Close]) == actions
  {
    if actions != [] {
      assert (actions + [Close])[1..] == actions[1..] + [Close];
      BeforeCloseAppend(actions[1..]);
    } else {
      assert actions + [Close] == [Close];
    }
  }

  lemma {:induction false} CallsGoOn(calls: seq<CallDelta>)
    ensures Close !in CallActions(calls)
  {
    if calls != [] {
      CallsGoOn(calls[1..]);
    }
  }

  lemma {:induction false} ChoicesGoOn(choices: seq<Choice>)
    ensures Close !in ChoiceActions(choices)
  {
    if choices != [] {
      CallsGoOn(choices[0].calls);
      ChoicesGoOn(choices[1..]);
    }
  }

  lemma ChunkGoesOn(c: Chunk)
    ensures Close !in ChunkActions(c) && SawText("") !in ChunkActions(c)
  {
    ChoicesGoOn(c.choices);
    ChunkTexts(c);
  }

  /** No chunk ends a stream, and none says an empty text. */
  lemma {:induction false} ChunksGoOn(chunks: seq<Chunk>)
    ensures Close !in SaidBy(chunks) && SawText("") !in SaidBy(chunks)
  {
    if chunks != [] {
      ChunkGoesOn(chunks[0]);
      ChunksGoOn(chunks[1..]);
    }
  }

  /** The reader takes the bytes for exactly what the chunks they were made from say. */
  lemma BytesSay(codec: Codec, wire: Json -> seq<byte>, done: seq<byte>, chunks: seq<Chunk>, end: End)
    requires Prints(codec, wire, done, chunks)
    ensures SentActions(codec, StreamBytes(wire, done, chunks)) == SaidBy(chunks)
    ensures Ends(codec, StreamBytes(wire, done, chunks), end)
  {
    var lines := LinesOf(wire, chunks);
    LinesSay(codec, wire, chunks);
    LinesBare(codec, wire, chunks);
    OneBare(done);
    BareAppend(lines, [done]);
    JoinedComplete(lines + [done]);
    assert LineActions(codec, done) == [Close];
    LastLineCloses(codec, lines, done);
    ChunksGoOn(chunks);
    BeforeCloseAppend(SaidBy(chunks));
    assert Close in SaidBy(chunks) + [Close];
  }

  /** What a client makes of a stream. */
  function Heard(codec: Codec, bytes: seq<byte>, end: End, head: Head): Option<Answer> {
    Reassemble(codec, Transcript(head, Polls(Parse(codec, bytes, end), None)))
  }

  /** Whatever chunks the provider makes of a slicing, the refinement holds of the bytes sent. */
  lemma EverySlicingStreams(codec: Codec, wire: Json -> seq<byte>, done: seq<byte>, chunks: seq<Chunk>, end: End,
                            head: Head, response: OpenAiResponse, indices: seq<U64>, model: string)
    requires Answerable(codec, response) && SlicingOf(SaidBy(chunks), response, indices)
    requires Prints(codec, wire, done, chunks)
    ensures SentActions(codec, StreamBytes(wire, done, chunks)) == SaidBy(chunks) &&
            Ends(codec, StreamBytes(wire, done, chunks), end)
    ensures Agree(Heard(codec, StreamBytes(wire, done, chunks), end, head), ConvertResponse(codec, response, model),
                  AllSettled(SaidBy(chunks), indices))
  {
    BytesSay(codec, wire, done, chunks, end);
    StreamingRefines(codec, StreamBytes(wire, done, chunks), end, head, response, indices, model);
  }

  // ---------------------------------------------------------------- one chunk for each thing, or one for all

  /** One chunk for each thing said. */
  function OneEach(actions: seq<Action>): seq<Chunk> {
    if actions == [] then [] else [ChunkOf(actions[0])] + OneEach(actions[1..])
  }

  /** Every slicing can be said, in the finest chunks. */
  lemma {:induction false} OneEachSays(actions: seq<Action>)
    requires forall i | 0 <= i < |actions| :: Sendable(actions[i])
    ensures SaidBy(OneEach(actions)) == actions
  {
    if actions != [] {
      ChunkSays(actions[0]);
      OneEachSays(actions[1..]);
      assert actions == [actions[0]] + actions[1..];
    }
  }

  /** All the calls of an answer in one delta. */
  function WholeCalls(calls: seq<OpenAiCall>): (r: seq<CallDelta>)
    requires |calls| <= 0x1_0000_0000_0000_0000
    ensures |r| == |calls|
  {
    seq(|calls|, j requires 0 <= j < |calls| => WholeCall(j, calls[j]))
  }

  /** A whole answer in one chunk: usage, text, every call, and the finish reason. */
  function WholeChunk(response: OpenAiResponse): Chunk
    requires response.choices != [] && |response.choices[0].message.calls| <= 0x1_0000_0000_0000_0000
  {
    var choice := response.choices[0];
    Chunk(response.usage, [Choice(choice.message.content, WholeCalls(choice.message.calls), choice.finishReason)])
  }

  lemma {:induction false} CallActionsSnoc(calls: seq<CallDelta>, c: CallDelta)
    ensures CallActions(calls + [c]) == CallActions(calls) + [SawCall(c)]
  {
    if calls == [] {
      assert [] + [c] == [c];
      OneCall(c);
    } else {
      assert (calls + [c])[1..] == calls[1..] + [c];
      CallActionsSnoc(calls[1..], c);
    }
  }

  lemma {:induction false} WholeCallsSay(calls: seq<OpenAiCall>)
    requires |calls| <= 0x1_0000_0000_0000_0000
    ensures CallActions(WholeCalls(calls)) == PlainCalls(calls)
  {
    if calls != [] {
      var n := |calls| - 1;
      WholeCallsSay(calls[..n]);
      CallActionsSnoc(WholeCalls(calls[..n]), WholeCall(n, calls[n]));
      assert WholeCalls(calls) == WholeCalls(calls[..n]) + [WholeCall(n, calls[n])];
    }
  }

  lemma WholeChunkSays(response: OpenAiResponse)
    requires response.choices != [] && |response.choices[0].message.calls| <= 0x1_0000_0000_0000_0000
    requires response.choices[0].finishReason.Some?
    ensures SaidBy([WholeChunk(response)]) == Plain(response)
  {
    var c := WholeChunk(response);
    WholeCallsSay(response.choices[0].message.calls);
    OneChoice(c.choices[0]);
    assert [c][1..] == [];
    assert ChunkActions(c) + SaidBy([]) == ChunkActions(c);
  }

  /** A slicing with whole ids and names lets the client hear the non-streaming answer. */
  lemma PlainStreams(codec: Codec, wire: Json -> seq<byte>, done: seq<byte>, chunks: seq<Chunk>, end: End, head: Head,
                     response: OpenAiResponse, model: string)
    requires Answerable(codec, response) && |response.choices[0].message.calls| <= 0x1_0000_0000_0000_0000
    requires SaidBy(chunks) == Plain(response) && Prints(codec, wire, done, chunks)
    ensures var direct := ConvertResponse(codec, response, model);
            direct.Ok? && Heard(codec, StreamBytes(wire, done, chunks), end, head) ==
                          Some(Answer(direct.value.content, direct.value.stopReason, direct.value.usage.outputTokens))
  {
    var indices := PlainIndices(codec, response);
    BytesSay(codec, wire, done, chunks, end);
    WholeStreamingEqualsDirect(codec, StreamBytes(wire, done, chunks), end, head, response, indices, model);
  }

  /**
   * Every comparable answer can be streamed, in the finest chunks or in a single one, so that the
   * client hears the non-streaming answer.
   */
  lemma EveryAnswerStreams(codec: Codec, wire: Json -> seq<byte>, done: seq<byte>, end: End, head: Head,
                           response: OpenAiResponse, model: string)
    requires Answerable(codec, response) && |response.choices[0].message.calls| <= 0x1_0000_0000_0000_0000
    requires Prints(codec, wire, done, OneEach(Plain(response))) && Prints(codec, wire, done, [WholeChunk(response)])
    ensures var direct := ConvertResponse(codec, response, model);
            && direct.Ok?
            && var answer := Some(Answer(direct.value.content, direct.value.stopReason,
                                         direct.value.usage.outputTokens));
            && Heard(codec, StreamBytes(wire, done, OneEach(Plain(response))), end, head) == answer
            && Heard(codec, StreamBytes(wire, done, [WholeChunk(response)]), end, head) == answer
  {
    PlainSendable(response);
    OneEachSays(Plain(response));
    PlainStreams(codec, wire, done, OneEach(Plain(response)), end, head, response, model);
    WholeChunkSays(response);
    PlainStreams(codec, wire, done, [WholeChunk(response)], end, head, response, model);
  }

  lemma PlainIndices(codec: Codec, response: OpenAiResponse) returns (indices: seq<U64>)
    requires Answerable(codec, response) && |response.choices[0].message.calls| <= 0x1_0000_0000_0000_0000
    ensures SlicingOf(Plain(response), response, indices)
    ensures forall j | 0 <= j < |indices| :: Whole(C.History(Plain(response), indices[j]))
  {
    var calls := response.choices[0].message.calls;
    indices := seq(|calls|, j requires 0 <= j < |calls| => j);
    SlicingExists(codec, response, indices);
  }

  lemma PlainSendable(response: OpenAiResponse)
    requires response.choices != [] && |response.choices[0].message.calls| <= 0x1_0000_0000_0000_0000
    requires response.choices[0].finishReason.Some? && MapStopReason(response.choices[0].finishReason).Ok?
    ensures forall i | 0 <= i < |Plain(response)| :: Sendable(Plain(response)[i])
  {
    PlainSound(response);
    NoTextCalls(response.choices[0].message.calls);
    assert forall i | 0 <= i < |Plain(response)| :: Plain(response)[i] in Plain(response);
  }

  lemma {:induction false} NoTextCalls(calls: seq<OpenAiCall>)
    requires |calls| <= 0x1_0000_0000_0000_0000
    ensures forall a | a in PlainCalls(calls) :: a.SawCall?
  {
    if calls != [] {
      NoTextCalls(calls[..|calls| - 1]);
    }
  }

  // ---------------------------------------------------------------- an id cut short

  const FIRST_HALF := CallDelta(Some(0), Some("call_"), Some("f"), None)
  const SECOND_HALF := CallDelta(Some(0), Some("1"), None, Some("{}"))
  const CUT_STREAM := [SawCall(FIRST_HALF), SawCall(SECOND_HALF), SawFinish("tool_calls")]
  const CUT_ANSWER := OpenAiResponse("r", [OpenAiChoice(OpenAiMessage(None, None, [OpenAiCall("call_1", "f", "{}")]),
                                                        Some("tool_calls"))], None)

  /** Both fragments and the finish reason in one chunk. */
  const CUT_CHUNK := Chunk(None, [Choice(None, [FIRST_HALF, SECOND_HALF], Some("tool_calls"))])

  lemma TwoFragments(a: CallDelta, b: CallDelta, reason: string, i: U64)
    requires a.index == b.index && a.index.Some?
    ensures var actions := [SawCall(a), SawCall(b), SawFinish(reason)];
            && C.History(actions, i) == (if a.index == Some(i) then [a, b] else [])
            && C.Texts(actions) == [] && C.LastUsage(actions) == None && C.LastReason(actions) == Some(reason)
  {
    var x, y, z := SawCall(a), SawCall(b), SawFinish(reason);
    assert [x] + [y] == [x, y] && [x, y] + [z] == [x, y, z];
    OneThing(x, i);
    OneThing(y, i);
    OneThing(z, i);
    Stretches([x], [y], i);
    Stretches([x, y], [z], i);
  }

  lemma TwoInOne(a: CallDelta, b: CallDelta, reason: string)
    ensures SaidBy([Chunk(None, [Choice(None, [a, b], Some(reason))])]) == [SawCall(a), SawCall(b), SawFinish(reason)]
  {
    var c := Choice(None, [a, b], Some(reason));
    OneCall(a);
    CallActionsSnoc([a], b);
    assert [a] + [b] == [a, b];
    OneChoice(c);
    assert [Chunk(None, [c])][1..] == [];
  }

  lemma CutHistory(i: U64)
    ensures C.History(CUT_STREAM, i) == if i == 0 then [FIRST_HALF, SECOND_HALF] else []
    ensures C.Texts(CUT_STREAM) == [] && C.LastUsage(CUT_STREAM) == None &&
            C.LastReason(CUT_STREAM) == Some("tool_calls")
    ensures C.Seen(CUT_STREAM) == {0}
  {
    TwoFragments(FIRST_HALF, SECOND_HALF, "tool_calls", i);
    CutSeen();
  }

  lemma CutSeen()
    ensures C.Seen(CUT_STREAM) == {0}
  {
    assert CUT_STREAM[0] in CUT_STREAM;
    assert forall x | x in CUT_STREAM && x.SawCall? :: x.call.index == Some(0);
  }

  lemma CutSlicing(codec: Codec)
    requires codec.parse("{}").Some?
    ensures Answerable(codec, CUT_ANSWER) && SlicingOf(CUT_STREAM, CUT_ANSWER, [0]) && SawText("") !in CUT_STREAM
    ensures C.Named(C.History(CUT_STREAM, 0)) && C.Delivered(C.History(CUT_STREAM, 0)).id == "call_"
    ensures !AllSettled(CUT_STREAM, [0])
  {
    CutHistory(0);
    SplitIdIsCut();
    var h := [FIRST_HALF, SECOND_HALF];
    assert h[..1] == [FIRST_HALF] && [FIRST_HALF][..0] == [];
    assert C.Names(h) == "f" && C.Arguments(h) == "{}";
    assert Carries(h, OpenAiCall("call_1", "f", "{}"));
    assert MapStopReason(Some("tool_calls")).Ok?;
    assert !Settled(C.History(CUT_STREAM, [0][0]));
  }

  /** What a client hears of a slicing, in full. */
  lemma SlicingHeard(codec: Codec, actions: seq<Action>, head: Head, response: OpenAiResponse, indices: seq<U64>)
    requires Answerable(codec, response) && SlicingOf(actions, response, indices) && SawText("") !in actions
    ensures C.AllNamed(actions) && C.LastReason(actions).Some? && C.Known(C.LastReason(actions).value).Some?
    ensures Ready(codec, actions, indices)
    ensures var heard := Reassemble(codec, C.Message(head, actions));
            heard.Some? && heard.value.content ==
                ResponseContent(response.choices[0].message.content, Streamed(codec, actions, indices))
  {
    SlicingSucceeds(codec, actions, response, indices);
    ReceiveMessage(head, actions);
    StreamedContent(codec, actions, response.choices[0].message.content, indices);
  }

  lemma CutStreamed(codec: Codec)
    requires codec.parse("{}").Some? && Ready(codec, CUT_STREAM, [0])
    ensures Streamed(codec, CUT_STREAM, [0]) == [ToolOut("call_", "f", codec.parse("{}").value)]
  {
    CutHistory(0);
    CutDelivered();
    var h := C.History(CUT_STREAM, [0][0]);
    assert DeliveredBlock(codec, h) == ToolOut("call_", "f", codec.parse("{}").value);
  }

  lemma CutHeard(codec: Codec, head: Head)
    requires codec.parse("{}").Some?
    ensures C.AllNamed(CUT_STREAM) && C.LastReason(CUT_STREAM).Some? && C.Known(C.LastReason(CUT_STREAM).value).Some?
    ensures var heard := Reassemble(codec, C.Message(head, CUT_STREAM));
            heard.Some? && heard.value.content == [ToolOut("call_", "f", codec.parse("{}").value)]
  {
    CutSlicing(codec);
    SlicingHeard(codec, CUT_STREAM, head, CUT_ANSWER, [0]);
    CutStreamed(codec);
  }

  lemma CutDelivered()
    ensures var h := [FIRST_HALF, SECOND_HALF];
            C.Named(h) && C.Delivered(h).id == "call_" && C.Delivered(h).name == "f" && C.Arguments(h) == "{}"
  {
    SplitIdIsCut();
    var h := [FIRST_HALF, SECOND_HALF];
    assert h[..1] == [FIRST_HALF] && [FIRST_HALF][..0] == [];
  }

  lemma CutDirect(codec: Codec, model: string)
    requires codec.parse("{}").Some?
    ensures var direct := ConvertResponse(codec, CUT_ANSWER, model);
            direct.Ok? && direct.value.content == [ToolOut("call_1", "f", codec.parse("{}").value)]
  {
    var calls := [OpenAiCall("call_1", "f", "{}")];
    CallsConvert(codec, calls);
    assert ConvertCalls(codec, calls).value == [ToolOut("call_1", "f", codec.parse("{}").value)];
  }

  /** A stream on which the two answers differ: the client hears of a call `call_`, where it is `call_1`. */
  lemma SplitIdStream(codec: Codec, wire: Json -> seq<byte>, done: seq<byte>, end: End, head: Head, model: string)
    requires codec.parse("{}").Some? && Prints(codec, wire, done, [CUT_CHUNK])
    ensures var heard := Heard(codec, StreamBytes(wire, done, [CUT_CHUNK]), end, head);
            var direct, input := ConvertResponse(codec, CUT_ANSWER, model), codec.parse("{}").value;
            && heard.Some? && heard.value.content == [ToolOut("call_", "f", input)]
            && direct.Ok? && direct.value.content == [ToolOut("call_1", "f", input)]
  {
    var bytes := StreamBytes(wire, done, [CUT_CHUNK]);
    CutSlicing(codec);
    TwoInOne(FIRST_HALF, SECOND_HALF, "tool_calls");
    BytesSay(codec, wire, done, [CUT_CHUNK], end);
    StreamingRefines(codec, bytes, end, head, CUT_ANSWER, [0], model);
    C.FinishedStream(codec, bytes, end, head);
    CutHeard(codec, head);
    CutDirect(codec, model);
  }

  // ---------------------------------------------------------------- such a stream exists

  lemma OnePrinted(c: Chunk) returns (codec: Codec, wire: Json -> seq<byte>)
    ensures codec.parse("{}").Some? && Prints(codec, wire, [4], [c])
  {
    var j := WriteChunk(c);
    codec, wire := TableFor(j, j, j);
    OneIsAll(codec, wire, j, c);
  }

  lemma OneIsAll(codec: Codec, wire: Json -> seq<byte>, j: Json, c: Chunk)
    requires j == WriteChunk(c) && PrintsValue(codec, wire, j)
    ensures PrintsAll(codec, wire, [c])
  {
    assert PrintsOne(codec, wire, c);
  }

  /** So there are bytes from which the client hears less than the whole id. */
  lemma SplitIdHappens(end: End, head: Head, model: string) returns (codec: Codec, bytes: seq<byte>)
    ensures var heard, direct := Heard(codec, bytes, end, head), ConvertResponse(codec, CUT_ANSWER, model);
            && heard.Some? && direct.Ok? && heard.value.content != direct.value.content
            && codec.parse("{}").Some?
            && heard.value.content == [ToolOut("call_", "f", codec.parse("{}").value)]
  {
    var wire;
    codec, wire := OnePrinted(CUT_CHUNK);
    bytes := StreamBytes(wire, [4], [CUT_CHUNK]);
    SplitIdStream(codec, wire, [4], end, head, model);
    assert ToolOut("call_", "f", codec.parse("{}").value) != ToolOut("call_1", "f", codec.parse("{}").value);
  }
}
