/**
 * A streamed request from end to end (src/server.rs, `messages_inner`): the router's attempts, the
 * provider's stream through the reader and the relay, and the body sent to the client.
 */
module Serving {
  import opened Domain
  import opened JsonModel
  import opened Requests
  import opened Ordering
  import B = Breaker
  import R = Routing
  import P = SseParser
  import S = StreamServer
  import E = Encoder

  type Item = Result<ProviderEvent, ErrorKind>

  // ---------------------------------------------------------------- reader, relay and body loop

  function Good(events: seq<ProviderEvent>): (r: seq<Item>)
    ensures |r| == |events|
  {
    seq(|events|, i requires 0 <= i < |events| => Ok(events[i]))
  }

  /** What the reader yields, item by item. */
  function Items(output: P.Output): seq<Item> {
    Good(output.events) + (if output.error.Some? then [Err(output.error.value)] else [])
  }

  function PollOf(item: Item): S.Poll {
    match item
    case Ok(event) => S.Event(event)
    case Err(error) => S.Fault(error)
  }

  /** What the body loop polls: the relayed items, and then nothing in time if the stream stalled. */
  function PollsOf(items: seq<Item>, stalled: bool): seq<S.Poll> {
    seq(|items|, i requires 0 <= i < |items| => PollOf(items[i])) + (if stalled then [S.Idle] else [])
  }

  lemma {:induction false} WholeRelayed(events: seq<ProviderEvent>, error: Option<ErrorKind>)
    ensures R.UpToError(Items(P.Output(events, error))) == Items(P.Output(events, error))
  {
    var items := Items(P.Output(events, error));
    if events != [] {
      WholeRelayed(events[1..], error);
      assert items[1..] == Items(P.Output(events[1..], error));
    } else if error.Some? {
      assert items == [Err(error.value)];
    }
  }

  /** The relay passes on exactly what the reader yields, and stalls when the reader does. */
  lemma RelayIsFaithful(output: P.Output, stall: Option<nat>)
    ensures R.StallsIn(Items(output), stall) <==> S.Stalls(output, stall)
    ensures PollsOf(R.Relayed(Items(output), stall), S.Stalls(output, stall)) == S.Polls(output, stall)
  {
    WholeRelayed(output.events, output.error);
  }

  /** What the breaker is told of a stream. */
  function Told(output: P.Output, stall: Option<nat>, now: int): seq<B.Op> {
    R.Verdict(Items(output), stall, now)
  }

  lemma ToldWhat(output: P.Output, stall: Option<nat>, now: int)
    ensures Told(output, stall, now) ==
            if S.Stalls(output, stall) then []
            else if output.error.Some? then [B.Failed(output.error.value, now)]
            else [B.Succeeded(now)]
  {
    WholeRelayed(output.events, output.error);
    if output.error.None? && Items(output) != [] {
      assert Items(output)[|output.events| - 1].Ok?;
    }
  }

  // ---------------------------------------------------------------- what the client and the breaker learn

  lemma CutShortFrame(head: S.Head, events: seq<ProviderEvent>, last: S.Poll)
    requires !last.Event?
    ensures var out := S.Transcript(head, S.Events(events) + [last]);
            out[|out| - 1] == E.ErrorEvent(S.AnthropicType(if last.Fault? then last.error else Timeout))
  {
    S.BodyOfEvents(E.New(head.inputTokens), events, [last]);
  }

  /**
   * The client and the breaker learn the same: the message is complete exactly when the breaker
   * is told of a success; the breaker is told of a failure exactly when the reader failed, and
   * then the client's stream ends with that error; and when the stream stalls the breaker is
   * told nothing and the client's stream ends with a timeout.
   */
  lemma ClientAndBreakerAgree(codec: P.Codec, bytes: seq<P.Lines.byte>, end: P.End, stall: Option<nat>, head: S.Head,
                              now: int)
    ensures var output := P.Parse(codec, bytes, end);
            var out := S.Transcript(head, S.Polls(output, stall));
            var told := Told(output, stall, now);
            var heard := S.ReadAll(S.Begin, out);
            && (heard == S.Completed <==> told == [B.Succeeded(now)])
            && (heard == S.Aborted <==> told != [B.Succeeded(now)])
            && (forall e :: told == [B.Failed(e, now)] <==> output.error == Some(e) && !S.Stalls(output, stall))
            && (forall e :: told == [B.Failed(e, now)] ==> out[|out| - 1] == E.ErrorEvent(S.AnthropicType(e)))
            && (told == [] <==> S.Stalls(output, stall))
            && (told == [] ==> out[|out| - 1] == E.ErrorEvent(S.AnthropicType(Timeout)))
  {
    var output := P.Parse(codec, bytes, end);
    S.OutputGrammar(codec, bytes, end, stall, head);
    ToldWhat(output, stall, now);
    P.FinishedComesLast(codec, bytes, end);
    S.PollsSplit(output, stall);
    if S.Stalls(output, stall) {
      CutShortFrame(head, output.events[..stall.value], S.Idle);
    } else if output.error.Some? {
      CutShortFrame(head, output.events, S.Fault(output.error.value));
    }
  }

  // ---------------------------------------------------------------- the request as it runs

  /** The stream of `input` as the client gets it. */
  function ClientStream(codec: P.Codec, head: S.Head, input: seq<P.Delivery>, stall: Option<nat>): seq<E.Sse> {
    S.Transcript(head, S.Polls(P.Parse(codec, P.Received(input), P.HowEnded(input)), stall))
  }

  function ToldOf(codec: P.Codec, input: seq<P.Delivery>, stall: Option<nat>, now: int): seq<B.Op> {
    Told(P.Parse(codec, P.Received(input), P.HowEnded(input)), stall, now)
  }

  /** Reader, relay and body loop of an established stream. */
  method ServeStream(router: R.Router, codec: P.Codec, id: string, input: seq<P.Delivery>, stall: Option<nat>,
                     head: S.Head, now: int)
    returns (body: seq<E.Sse>)
    requires router.Valid() && id in router.profiles && B.Clock(router.histories[id], now) <= now
    modifies router`histories, router.owned
    ensures router.Valid() && body == ClientStream(codec, head, input, stall)
    ensures router.histories == R.NoteAll(old(router.histories), id, ToldOf(codec, input, stall, now))
  {
    var output := P.ParseSse(codec, input);
    RelayIsFaithful(output, stall);
    var sent := router.Relay(id, Items(output), stall, now);
    body := S.ServeBody(head, PollsOf(sent, S.Stalls(output, stall)));
  }

  /** What a streamed request comes to, given its candidates and the histories after its attempts. */
  ghost predicate Served(codec: P.Codec, candidates: Result<seq<Candidate>, ProxyError>,
                         nets: nat -> R.Net<seq<P.Delivery>>,
                         out: R.Outcome<seq<P.Delivery>>, head: S.Head, stall: Option<nat>, now: int,
                         run: R.Histories, body: Option<seq<E.Sse>>, h: R.Histories)
  {
    match out.result
    case Err(_) => body == None && h == run
    case Ok(input) =>
      && candidates.Ok? && 0 < |out.tried| <= |candidates.value|
      && var last := |out.tried| - 1;
      && nets(last) == R.Answered(input)
      && body == Some(ClientStream(codec, head, input, stall))
      && h == R.NoteAll(run, candidates.value[last].target.provider, ToldOf(codec, input, stall, now))
  }

  /** The provider whose stream the client gets. */
  function Serving(out: R.Outcome<seq<P.Delivery>>): string
    requires out.tried != []
  {
    out.tried[|out.tried| - 1].target.provider
  }

  /** What the rest of a request does, once its attempts have left the histories `run`. */
  ghost predicate Finished(codec: P.Codec, out: R.Outcome<seq<P.Delivery>>, stall: Option<nat>, head: S.Head, now: int,
                           run: R.Histories, body: Option<seq<E.Sse>>, h: R.Histories)
    requires out.result.Ok? ==> out.tried != []
  {
    match out.result
    case Err(_) => body == None && h == run
    case Ok(input) =>
      body == Some(ClientStream(codec, head, input, stall)) &&
          h == R.NoteAll(run, Serving(out), ToldOf(codec, input, stall, now))
  }

  /** The rest of a request: the stream, if one has been established. */
  method Finish(router: R.Router, codec: P.Codec, out: R.Outcome<seq<P.Delivery>>, stall: Option<nat>, head: S.Head,
                now: int)
    returns (body: Option<seq<E.Sse>>)
    requires router.Valid() && R.NotAfter(router.histories, now)
    requires out.result.Ok? ==> out.tried != [] && Serving(out) in router.profiles
    modifies router`histories, router.owned
    ensures router.Valid() && R.NotAfter(router.histories, now)
    ensures Finished(codec, out, stall, head, now, old(router.histories), body, router.histories)
  {
    body := None;
    if out.result.Ok? {
      ghost var told := ToldOf(codec, out.result.value, stall, now);
      ToldWhat(P.Parse(codec, P.Received(out.result.value), P.HowEnded(out.result.value)), stall, now);
      R.ToldNotAfter(router.histories, Serving(out), told, now);
      R.ClockNotAfter(router.histories, now, Serving(out));
      var sent := ServeStream(router, codec, Serving(out), out.result.value, stall, head, now);
      body := Some(sent);
    }
  }

  lemma ServedAll(show: Json -> string, profiles: R.Profiles, codec: P.Codec,
                  candidates: Result<seq<Candidate>, ProxyError>,
                  tokens: Request -> Result<U64, ProxyError>, nets: nat -> R.Net<seq<P.Delivery>>,
                      answers: seq<R.Net<seq<P.Delivery>>>, maxAttempts: nat,
                  out: R.Outcome<seq<P.Delivery>>, stall: Option<nat>, head: S.Head, now: int,
                  run: R.Histories, body: Option<seq<E.Sse>>, h: R.Histories)
    requires candidates.Ok? ==> candidates.value != [] && R.AllKnown(profiles, candidates.value)
    requires R.Answering(show, profiles, candidates, nets, answers)
    requires out == R.Streamed(candidates, tokens, answers, maxAttempts).1
    ensures out.result.Ok? ==> out.tried != [] && Serving(out) in profiles
    ensures (out.result.Ok? ==> out.tried != []) && Finished(codec, out, stall, head, now, run, body, h) ==>
              Served(codec, candidates, nets, out, head, stall, now, run, body, h)
  {
    R.StreamOfLast(show, profiles, candidates, tokens, nets, answers, maxAttempts);
  }

  /**
   * A streamed request: the candidates are tried, and if one establishes a stream the client gets
   * that stream and nothing else, and the breaker of that candidate's provider is told how it
   * went. Other requests act on the breakers between any two steps.
   */
  method ServeRequest(router: R.Router, show: Json -> string, codec: P.Codec, targets: seq<Target>, request: Request,
                      draws: seq<nat>, tokens: Request -> Result<U64, ProxyError>, nets: nat -> R.Net<seq<P.Delivery>>,
                      w: R.World, ghost v: R.View, stall: Option<nat>, messageId: string)
    returns (inputTokens: U64, out: R.Outcome<seq<P.Delivery>>, body: Option<seq<E.Sse>>,
    ghost answers: seq<R.Net<seq<P.Delivery>>>)
    requires router.Valid() && R.Known(router.profiles, targets) && R.Orderly(w) &&
             R.NotAfter(router.histories, w.clock(0))
    requires R.IsUp(v.up, router.settings, show, router.profiles, router.histories, targets, request, w)
    requires R.IsShuffle(v, draws) && R.Drawable(show, router.profiles, v, targets, request)
    modifies router`histories, router.owned
    ensures router.Valid() && R.NotAfter(router.histories, w.clock(|targets| + |out.tried|))
    ensures var candidates := R.Candidates(show, router.profiles, v, targets, request, draws);
            R.Answering(show, router.profiles, candidates, nets, answers) &&
            var run := R.NoteRun(R.NoteChecks(show, router.profiles, old(router.histories), targets, request, w),
                                 candidates,
                                 answers, |out.tried|, true, w, |targets|);
            && (inputTokens, out) == R.Streamed(candidates, tokens, answers, router.maxAttempts)
            && Served(codec, candidates, nets, out, S.Head(messageId, request.model, inputTokens), stall,
                      w.clock(|targets| + |out.tried|), run, body, router.histories)
  {
    ghost var candidates := R.Candidates(show, router.profiles, v, targets, request, draws);
    inputTokens, out, answers := router.Stream(show, targets, request, draws, tokens, nets, w, v);
    ghost var run := router.histories;
    var now, head := w.clock(|targets| + |out.tried|), S.Head(messageId, request.model, inputTokens);
    ServedAll(show, router.profiles, codec, candidates, tokens, nets, answers, router.maxAttempts, out, stall, head,
              now, run, None, run);
    body := Finish(router, codec, out, stall, head, now);
    ServedAll(show, router.profiles, codec, candidates, tokens, nets, answers, router.maxAttempts, out, stall, head,
              now, run, body, router.histories);
  }
}
