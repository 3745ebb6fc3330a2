/** What the client is told at the end of an answer, streamed or not, word for word. */
module Outcomes {
  import opened Domain
  import opened JsonModel
  import opened Lines
  import opened SseParser
  import opened Response
  import opened Refinement
  import opened StreamServer
  import E = Encoder
  import C = Conservation

  const FINISH_REASONS: set<string> := {"stop", "length", "tool_calls", "function_call", "content_filter"}

  /** The word for a finish reason. */
  predicate Worded(reason: string, word: string) {
    && (reason == "stop" ==> word == "end_turn")
    && (reason == "length" ==> word == "max_tokens")
    && (reason == "tool_calls" || reason == "function_call" ==> word == "tool_use")
    && (reason == "content_filter" ==> word == "refusal")
  }

  lemma ReasonWorded(reason: string)
    ensures MapStopReason(Some(reason)).Ok? <==> reason in FINISH_REASONS
    ensures reason !in FINISH_REASONS ==> MapStopReason(Some(reason)) == Err(Upstream)
    ensures reason in FINISH_REASONS ==> Worded(reason, MapStopReason(Some(reason)).value.AsStr())
  {
  }

  // ---------------------------------------------------------------- not streamed

  /** The stop reason of an answer that is not streamed; an unknown one is an error of the provider. */
  lemma DirectReason(codec: Codec, response: OpenAiResponse, model: string)
    requires response.choices != []
    requires forall c | c in response.choices[0].message.calls :: codec.parse(c.arguments).Some?
    ensures var out, reason := ConvertResponse(codec, response, model), response.choices[0].finishReason;
            && (reason == None ==> out.Ok? && out.value.stopReason == "end_turn")
            && (reason.Some? && reason.value in FINISH_REASONS ==>
                out.Ok? && Worded(reason.value, out.value.stopReason))
            && (reason.Some? && reason.value !in FINISH_REASONS ==> out == Err(Upstream))
  {
    CallsConvert(codec, response.choices[0].message.calls);
    if response.choices[0].finishReason.Some? {
      ReasonWorded(response.choices[0].finishReason.value);
    }
  }

  /** What a message says: its content, or else its refusal. */
  function Said(m: OpenAiMessage): string {
    if m.content.Some? then m.content.value else if m.refusal.Some? then m.refusal.value else ""
  }

  /** Without a choice, or with a call whose arguments are not JSON, there is no answer. */
  lemma DirectFails(codec: Codec, response: OpenAiResponse, model: string)
    ensures response.choices == [] ==> ConvertResponse(codec, response, model) == Err(Upstream)
    ensures response.choices != [] &&
            (exists c | c in response.choices[0].message.calls :: codec.parse(c.arguments).None?) ==>
              ConvertResponse(codec, response, model) == Err(Upstream)
  {
    if response.choices != [] {
      CallsConvert(codec, response.choices[0].message.calls);
      CallsFailUpstream(codec, response.choices[0].message.calls);
    }
  }

  lemma {:induction false} CallsFailUpstream(codec: Codec, calls: seq<OpenAiCall>)
    ensures ConvertCalls(codec, calls).Err? ==> ConvertCalls(codec, calls) == Err(Upstream)
  {
    if calls != [] {
      CallsFailUpstream(codec, calls[1..]);
    }
  }

  /** The rest of an answer that is not streamed, field by field. */
  lemma DirectAnswer(codec: Codec, response: OpenAiResponse, model: string)
    requires ConvertResponse(codec, response, model).Ok?
    ensures response.choices != []
    ensures var out, m := ConvertResponse(codec, response, model).value, response.choices[0].message;
            var text := if Said(m) != "" || m.calls == [] then 1 else 0;
            && out.id == response.id && out.model == model
            && out.usage.inputTokens == (if response.usage.Some? then response.usage.value.inputTokens else 0)
            && out.usage.outputTokens == (if response.usage.Some? then response.usage.value.outputTokens else 0)
            && |out.content| == text + |m.calls|
            && (text == 1 ==> out.content[0] == TextOut(Said(m)))
            && forall j | 0 <= j < |m.calls| ::
                 codec.parse(m.calls[j].arguments).Some? &&
                 out.content[text + j] ==
                 ToolOut(m.calls[j].id, m.calls[j].name, codec.parse(m.calls[j].arguments).value)
  {
    CallsConvert(codec, response.choices[0].message.calls);
  }

  // ---------------------------------------------------------------- streamed

  /** The stop reason a client hears at the end of a stream is that of the last finish reason sent. */
  lemma StreamReason(codec: Codec, bytes: seq<byte>, end: End, head: Head)
    requires Parse(codec, bytes, end).error == None
    ensures var reason := C.LastReason(SentActions(codec, bytes));
            var heard := ReceiveAll(IDLE_CLIENT, Transcript(head, Polls(Parse(codec, bytes, end), None)));
            reason.Some? && reason.value in FINISH_REASONS && heard.done && Worded(reason.value, heard.stopReason)
  {
    var actions := SentActions(codec, bytes);
    C.FinishedStream(codec, bytes, end, head);
    ReceiveMessage(head, actions);
    ReasonWorded(C.LastReason(actions).value);
  }

  /** How a stream fails: any error in what is read is the provider's, and so is a message that is not whole. */
  lemma StreamFails(codec: Codec, bytes: seq<byte>, end: End)
    ensures var actions, error := SentActions(codec, bytes), Parse(codec, bytes, end).error;
            if !(forall a | a in actions :: C.Sound(a)) then error == Some(Upstream)
            else if !Ends(codec, bytes, end) then error == Some(end.error)
            else if C.Successful(codec, actions) then error == None
            else error == Some(Upstream)
  {
    var actions := SentActions(codec, bytes);
    C.ParseOutcome(codec, bytes, end);
    C.RunSummary(codec, actions);
    C.StoppedBadly(codec, INITIAL, actions);
    C.StreamSucceeds(codec, bytes, end);
  }

  /** What is an error in what is read. */
  lemma Unsound(a: Action)
    ensures C.Sound(a) <==> !a.Malformed? && !a.Close? && (a.SawCall? ==> a.call.index.Some?) &&
                            (a.SawFinish? ==> a.reason in FINISH_REASONS)
  {
    if a.SawFinish? {
      ReasonWorded(a.reason);
    }
  }

  // ---------------------------------------------------------------- the body's own words

  /** The first event carries the message's id, its model and the token estimate, each in its place. */
  lemma FirstWords(head: Head, polls: seq<Poll>)
    ensures Transcript(head, polls) != []
    ensures Transcript(head, polls)[0].MessageStart? && Transcript(head, polls)[0].id == head.id &&
            Transcript(head, polls)[0].model == head.model && Transcript(head, polls)[0].inputTokens == head.inputTokens
  {
  }

  /** The word for an error. */
  function ErrorWord(kind: ErrorKind): string {
    if kind == InvalidRequest then "invalid_request_error"
    else if kind == Authentication then "authentication_error"
    else if kind == Permission then "permission_error"
    else if kind == RateLimit then "rate_limit_error"
    else if kind == Overloaded then "overloaded_error"
    else "api_error"
  }

  /** An error from upstream ends the body with its word, and an idle stream with `api_error`. */
  lemma LastWords(head: Head, events: seq<ProviderEvent>, kind: ErrorKind, later: seq<Poll>)
    ensures var out := Transcript(head, Events(events) + ([Fault(kind)] + later));
            out[|out| - 1] == E.ErrorEvent(ErrorWord(kind))
    ensures var out := Transcript(head, Events(events) + ([Idle] + later));
            out[|out| - 1] == E.ErrorEvent("api_error")
  {
    BodyOfEvents(E.New(head.inputTokens), events, [Fault(kind)] + later);
    BodyOfEvents(E.New(head.inputTokens), events, [Idle] + later);
  }
}
