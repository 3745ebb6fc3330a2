/** The body stream of `messages_inner` (src/server.rs) and the grammar of what it sends. */
module StreamServer {
  import opened Domain
  import opened Encoder
  import P = SseParser
  import Ascending

  /** `ProxyError::anthropic_type`. */
  function AnthropicType(kind: ErrorKind): string {
    match kind
    case InvalidRequest => "invalid_request_error"
    case Authentication => "authentication_error"
    case Permission => "permission_error"
    case RateLimit => "rate_limit_error"
    case Overloaded => "overloaded_error"
    case Timeout | Upstream | Internal => "api_error"
  }

  /** One turn of the body loop: an upstream item, or no item within the idle timeout. */
  datatype Poll = Event(event: ProviderEvent) | Fault(error: ErrorKind) | Idle

  function Body(s: State, polls: seq<Poll>): seq<Sse>
    decreases polls
  {
    if polls == [] then []
    else match polls[0]
      case Event(event) =>
        var (t, out) := Encode(s, event);
        out + Body(t, polls[1..])
      case Fault(error) => [ErrorEvent(AnthropicType(error))]
      case Idle => [ErrorEvent(AnthropicType(Timeout))]
  }

  datatype Head = Head(id: string, model: string, inputTokens: U64)

  function Transcript(head: Head, polls: seq<Poll>): seq<Sse> {
    [MessageStart(head.id, head.model, head.inputTokens)] + Body(New(head.inputTokens), polls)
  }

  method ServeBody(head: Head, polls: seq<Poll>) returns (out: seq<Sse>)
    ensures out == Transcript(head, polls)
  {
    var encoder := new StreamEncoder(head.inputTokens);
    out := [MessageStart(head.id, head.model, head.inputTokens)];
    var n := 0;
    while n < |polls|
      invariant n <= |polls|
      invariant Transcript(head, polls) == out + Body(encoder.Model(), polls[n..])
    {
      assert polls[n..][1..] == polls[n + 1..];
      match polls[n]
      case Event(event) =>
        var encoded := encoder.EncodeEvent(event);
        assert out + (encoded + Body(encoder.Model(), polls[n + 1..])) ==
               out + encoded + Body(encoder.Model(), polls[n + 1..]);
        out := out + encoded;
        n := n + 1;
      case Fault(error) => return out + [ErrorEvent(AnthropicType(error))];
      case Idle => return out + [ErrorEvent(AnthropicType(Timeout))];
    }
    assert out + [] == out;
  }

  function Events(events: seq<ProviderEvent>): (r: seq<Poll>)
    ensures |r| == |events|
  {
    seq(|events|, i requires 0 <= i < |events| => Event(events[i]))
  }

  /** What the body loop polls when it reads a parsed stream, stalling before item `stall` if there is one. */
  function Polls(output: P.Output, stall: Option<nat>): seq<Poll> {
    var all := Events(output.events) + (if output.error.Some? then [Fault(output.error.value)] else []);
    if stall.Some? && stall.value < |all| then all[..stall.value] + [Idle] else all
  }

  predicate Stalls(output: P.Output, stall: Option<nat>) {
    stall.Some? && stall.value < |output.events| + (if output.error.Some? then 1 else 0)
  }

  // ---------------------------------------------------------------- the grammar

  /**
   * A reader of the stream. Text may only open at index 0, a tool block carries exactly one input
   * delta, every delta and stop names the open block, and nothing follows the end or an error.
   */
  datatype Phase =
    | Begin
    | Between(next: nat)
    | InText
    | InTool(index: nat, filled: bool)
    | Closing
    | Completed
    | Aborted
    | Reject

  function Read(ph: Phase, e: Sse): Phase {
    match ph
    case Begin => if e.MessageStart? then Between(0) else Reject
    case Between(n) =>
      if e.BlockStart? && e.index == n then
        (if e.kind.ToolBlock? then InTool(n, false) else if n == 0 then InText else Reject)
      else if e.MessageDelta? && n > 0 then Closing
      else if e.ErrorEvent? then Aborted
      else Reject
    case InText =>
      if e.BlockDelta? && e.index == 0 && e.delta.TextDelta? then InText
      else if e == BlockStop(0) then Between(1)
      else if e.ErrorEvent? then Aborted
      else Reject
    case InTool(n, filled) =>
      if e.BlockDelta? && e.index == n && e.delta.JsonDelta? && !filled then InTool(n, true)
      else if e == BlockStop(n) && filled then Between(n + 1)
      else Reject
    case Closing => if e.MessageStop? then Completed else Reject
    case Completed => Reject
    case Aborted => Reject
    case Reject => Reject
  }

  function ReadAll(ph: Phase, out: seq<Sse>): Phase
    decreases out
  {
    if out == [] then ph else ReadAll(Read(ph, out[0]), out[1..])
  }

  lemma {:induction false} ReadAppend(ph: Phase, a: seq<Sse>, b: seq<Sse>)
    ensures ReadAll(ph, a + b) == ReadAll(ReadAll(ph, a), b)
    decreases a
  {
    if a == [] {
      assert a + b == b;
    } else {
      assert (a + b)[0] == a[0] && (a + b)[1..] == a[1..] + b;
      ReadAppend(Read(ph, a[0]), a[1..], b);
    }
  }

  lemma ReadOne(ph: Phase, a: Sse)
    ensures ReadAll(ph, [a]) == Read(ph, a)
  {
    assert ReadAll(Read(ph, a), [a][1..]) == Read(ph, a);
  }

  lemma ReadTwo(ph: Phase, a: Sse, b: Sse)
    ensures ReadAll(ph, [a, b]) == Read(Read(ph, a), b)
  {
    assert [a, b][1..] == [b];
    ReadOne(Read(ph, a), b);
  }

  lemma {:induction false} TextFramesRead(texts: seq<string>)
    ensures ReadAll(Between(0), TextFrames(texts)) == if texts == [] then Between(0) else InText
  {
    if |texts| == 1 {
      ReadTwo(Between(0), BlockStart(0, TextBlock), BlockDelta(0, TextDelta(texts[0])));
    } else if |texts| > 1 {
      var n := |texts| - 1;
      TextFramesRead(texts[..n]);
      ReadAppend(Between(0), TextFrames(texts[..n]), [BlockDelta(0, TextDelta(texts[n]))]);
      ReadOne(InText, BlockDelta(0, TextDelta(texts[n])));
    }
  }

  lemma FrameRead(n: nat, tool: BufferedTool)
    ensures ReadAll(Between(n), Frame(n, tool)) == Between(n + 1)
  {
    var f := Frame(n, tool);
    assert f[1..] == [f[1], f[2]];
    ReadTwo(Read(Between(n), f[0]), f[1], f[2]);
  }

  lemma {:induction false} ToolFramesRead(n: nat, tools: map<U64, BufferedTool>, keys: seq<U64>)
    requires forall k | k in keys :: k in tools
    ensures ReadAll(Between(n), ToolFrames(n, tools, keys)) == Between(n + |keys|)
    decreases keys
  {
    if keys != [] {
      FrameRead(n, tools[keys[0]]);
      ReadAppend(Between(n), Frame(n, tools[keys[0]]), ToolFrames(n + 1, tools, keys[1..]));
      ToolFramesRead(n + 1, tools, keys[1..]);
    }
  }

  /** Where the reader stands while the encoder `s` has not finished. */
  function Standing(s: State): Phase { if s.textBlock.None? then Between(0) else InText }

  predicate Running(s: State) {
    && s.nextBlock == (if s.textBlock.None? then 0 else 1)
    && (s.textBlock.Some? ==> s.textBlock.value == 0)
  }

  lemma OpeningRead(s: State)
    requires Running(s)
    ensures ReadAll(Standing(s), Opening(s)) == Between(FirstTool(s))
  {
    if s.textBlock.None? && s.tools == map[] {
      ReadTwo(Between(0), BlockStart(0, TextBlock), BlockStop(0));
    }
  }

  lemma EndingRead(n: nat, reason: StopReason, outputTokens: U64)
    requires n > 0
    ensures ReadAll(Between(n), Ending(reason, outputTokens)) == Completed
  {
    ReadTwo(Between(n), MessageDelta(reason.AsStr(), outputTokens), MessageStop);
  }

  lemma FinishRead(s: State, reason: StopReason, usage: Option<Usage>)
    requires Running(s)
    ensures ReadAll(Standing(s), Encode(s, Finished(reason, usage)).1) == Completed
  {
    var t := WithUsage(s, usage);
    var keys := Ascending.Keys(t.tools.Keys);
    ReadAppend(Standing(t), Blocks(t), Ending(reason, t.outputTokens));
    ReadAppend(Standing(t), Opening(t), ToolFrames(FirstTool(t), t.tools, keys));
    OpeningRead(t);
    ToolFramesRead(FirstTool(t), t.tools, keys);
    if FirstTool(t) == 0 {
      assert t.tools != map[];
      var k :| k in t.tools;
      assert k in keys;
    }
    EndingRead(FirstTool(t) + |keys|, reason, t.outputTokens);
  }

  /** The part of the stream sent before the end, whatever the end is. */
  lemma {:induction false} BodyOfEvents(s: State, events: seq<ProviderEvent>, tail: seq<Poll>)
    ensures var (t, out) := EncodeAll(s, events);
            Body(s, Events(events) + tail) == out + Body(t, tail)
  {
    if events == [] {
      assert Events(events) + tail == tail;
    } else {
      var n := |events| - 1;
      var mid := [Event(events[n])] + tail;
      BodyOfEvents(s, events[..n], mid);
      assert Events(events) + tail == Events(events[..n]) + mid;
      assert mid[1..] == tail;
      var (t, out) := EncodeAll(s, events[..n]);
      var (u, more) := Encode(t, events[n]);
      assert out + (more + Body(u, tail)) == out + more + Body(u, tail);
    }
  }

  lemma EventsRead(head: Head, events: seq<ProviderEvent>)
    requires Unfinished(events)
    ensures var (s, out) := EncodeAll(New(head.inputTokens), events);
            Running(s) && ReadAll(Between(0), out) == Standing(s)
  {
    EncoderReflects(events, head.inputTokens);
    TextFramesRead(Texts(events));
  }

  lemma AfterHead(head: Head, polls: seq<Poll>)
    ensures ReadAll(Begin, Transcript(head, polls)) == ReadAll(Between(0), Body(New(head.inputTokens), polls))
  {
    assert Transcript(head, polls)[1..] == Body(New(head.inputTokens), polls);
  }

  lemma CutShort(head: Head, events: seq<ProviderEvent>, last: Poll)
    requires Unfinished(events) && !last.Event?
    ensures ReadAll(Begin, Transcript(head, Events(events) + [last])) == Aborted
  {
    var s := New(head.inputTokens);
    AfterHead(head, Events(events) + [last]);
    BodyOfEvents(s, events, [last]);
    EventsRead(head, events);
    var (t, out) := EncodeAll(s, events);
    var error := Body(t, [last]);
    ReadAppend(Between(0), out, error);
    assert error[1..] == [];
  }

  lemma ReadToFinish(head: Head, events: seq<ProviderEvent>, finish: ProviderEvent)
    requires Unfinished(events) && finish.Finished?
    ensures ReadAll(Begin, Transcript(head, Events(events) + [Event(finish)])) == Completed
  {
    var s := New(head.inputTokens);
    AfterHead(head, Events(events) + [Event(finish)]);
    BodyOfEvents(s, events, [Event(finish)]);
    EventsRead(head, events);
    var (t, out) := EncodeAll(s, events);
    var more := Encode(t, finish).1;
    assert Body(t, [Event(finish)]) == more + [] == more;
    ReadAppend(Between(0), out, more);
    FinishRead(t, finish.reason, finish.finalUsage);
  }

  /** Splits the polls of a parsed stream into its events before `Finished` and what ends it. */
  lemma PollsSplit(output: P.Output, stall: Option<nat>)
    requires P.WellEnded(output.events, output.error == None)
    ensures Stalls(output, stall) ==>
              stall.value <= |output.events| && Unfinished(output.events[..stall.value]) &&
              Polls(output, stall) == Events(output.events[..stall.value]) + [Idle]
    ensures !Stalls(output, stall) && output.error.Some? ==>
              Unfinished(output.events) && Polls(output, stall) == Events(output.events) + [Fault(output.error.value)]
    ensures !Stalls(output, stall) && output.error.None? ==>
              var n := |output.events| - 1;
              Unfinished(output.events[..n]) &&
              Polls(output, stall) == Events(output.events[..n]) + [Event(output.events[n])]
  {
    if Stalls(output, stall) && output.error.None? {
      var n := |output.events| - 1;
      assert output.events[..stall.value] == output.events[..n][..stall.value];
    }
  }

  /**
   * Every stream read to its end is one complete message, or a message cut short by exactly one
   * error event with nothing after it; which of the two it is depends only on whether the
   * provider's stream failed or stalled.
   */
  lemma OutputGrammar(codec: P.Codec, bytes: seq<P.Lines.byte>, end: P.End, stall: Option<nat>, head: Head)
    ensures var output := P.Parse(codec, bytes, end);
            ReadAll(Begin, Transcript(head, Polls(output, stall))) ==
            if output.error.None? && !Stalls(output, stall) then Completed else Aborted
  {
    var output := P.Parse(codec, bytes, end);
    P.FinishedComesLast(codec, bytes, end);
    PollsSplit(output, stall);
    if Stalls(output, stall) {
      CutShort(head, output.events[..stall.value], Idle);
    } else if output.error.Some? {
      CutShort(head, output.events, Fault(output.error.value));
    } else {
      var n := |output.events| - 1;
      ReadToFinish(head, output.events[..n], output.events[n]);
    }
  }
}
