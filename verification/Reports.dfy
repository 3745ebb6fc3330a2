/** What a routed request (src/routing.rs) answers and tells the breakers, spelled out. */
module Reports {
  import opened Domain
  import opened JsonModel
  import opened Requests
  import opened Adaptation
  import opened Ordering
  import opened Lines
  import opened Routing
  import Translation
  import B = Breaker

  // ---------------------------------------------------------------- what the breakers are told

  /** What one attempt tells its provider's breaker; a stream that is established tells it later. */
  function Report<R>(answer: Net<R>, streaming: bool, now: int): seq<B.Op> {
    if answer.TimedOut? then [B.Failed(Timeout, now)]
    else if answer.Refused? then [B.Failed(answer.error.kind, now)]
    else if streaming then []
    else [B.Succeeded(now)]
  }

  /** What other requests did to one breaker. */
  function OfOthers(events: seq<Event>, n: nat, id: string): seq<B.Op>
    requires n <= |events|
  {
    if n == 0 then []
    else OfOthers(events, n - 1, id) + (if events[n - 1].id == id then [events[n - 1].op] else [])
  }

  function AllOfOthers(events: seq<Event>, id: string): seq<B.Op> { OfOthers(events, |events|, id) }

  /** Everything that happens to one breaker during the first `n` attempts. */
  function During<R>(order: seq<Candidate>, answers: seq<Net<R>>, n: nat, streaming: bool, w: World, b: nat,
                     id: string): seq<B.Op>
    requires n <= |order| == |answers|
  {
    if n == 0 then []
    else
      During(order, answers, n - 1, streaming, w, b, id) +
      (if order[n - 1].target.provider == id then Report(answers[n - 1], streaming, w.clock(b + n - 1)) else []) +
      AllOfOthers(w.others(b + n - 1), id)
  }

  lemma {:induction false} FirstNoted(h: Histories, events: seq<Event>, n: nat, id: string)
    requires n <= |events| && id in h
    ensures NoteFirst(h, events, n).Keys == h.Keys
    ensures NoteFirst(h, events, n)[id] == h[id] + OfOthers(events, n, id)
  {
    if n == 0 {
      assert h[id] + [] == h[id];
    } else {
      FirstNoted(h, events, n - 1, id);
      var e := events[n - 1];
      if e.id == id {
        Associative(h[id], OfOthers(events, n - 1, id), [e.op]);
      } else {
        assert OfOthers(events, n - 1, id) + [] == OfOthers(events, n - 1, id);
      }
    }
  }

  lemma StepNoted(h: Histories, w: World, j: nat, at: string, ops: seq<B.Op>, id: string)
    requires id in h
    ensures NoteStep(h, w, j, at, ops).Keys == h.Keys
    ensures NoteStep(h, w, j, at, ops)[id] ==
            h[id] + ((if at == id then ops else []) + AllOfOthers(w.others(j), id))
  {
    var told := NoteAll(h, at, ops);
    FirstNoted(told, w.others(j), |w.others(j)|, id);
    if at == id {
      Associative(h[id], ops, AllOfOthers(w.others(j), id));
    } else {
      assert [] + AllOfOthers(w.others(j), id) == AllOfOthers(w.others(j), id);
    }
  }

  lemma ReportIs<R>(answer: Net<R>, streaming: bool, now: int)
    ensures OpsOf(answer, streaming, now) == Report(answer, streaming, now)
  {
  }

  /**
   * During its attempts every breaker is told exactly this: for each attempt on its own provider
   * one failure of the error's kind, or of a timeout, or one success if the answer is not a
   * stream, at the time of that attempt; and whatever other requests did in between.
   */
  lemma {:induction false} AttemptsTell<R>(h: Histories, order: seq<Candidate>, answers: seq<Net<R>>, n: nat,
                                           streaming: bool,
                                           w: World, b: nat, id: string)
    requires n <= |order| == |answers| && id in h
    ensures NoteAttempts(h, order, answers, n, streaming, w, b).Keys == h.Keys
    ensures NoteAttempts(h, order, answers, n, streaming, w, b)[id] ==
            h[id] + During(order, answers, n, streaming, w, b, id)
  {
    if n == 0 {
      assert h[id] + [] == h[id];
    } else {
      var now := w.clock(b + n - 1);
      var before := NoteAttempts(h, order, answers, n - 1, streaming, w, b);
      var at := order[n - 1].target.provider;
      AttemptsTell(h, order, answers, n - 1, streaming, w, b, id);
      ReportIs(answers[n - 1], streaming, now);
      StepNoted(before, w, b + n - 1, at, Report(answers[n - 1], streaming, now), id);
      var mine, theirs := if at ==
          id then Report(answers[n - 1], streaming, now) else [], AllOfOthers(w.others(b + n - 1), id);
      Associative(h[id], During(order, answers, n - 1, streaming, w, b, id), mine + theirs);
      Associative(During(order, answers, n - 1, streaming, w, b, id), mine, theirs);
    }
  }

  /** What other requests did to one breaker during `n` steps. */
  function OthersDuring(w: World, b: nat, n: nat, id: string): seq<B.Op> {
    if n == 0 then [] else OthersDuring(w, b, n - 1, id) + AllOfOthers(w.others(b + n - 1), id)
  }

  /** A provider that was not tried is told nothing by the request itself. */
  lemma {:induction false} UntriedTold<R>(order: seq<Candidate>, answers: seq<Net<R>>, n: nat, streaming: bool,
                                          w: World, b: nat,
                                          id: string)
    requires n <= |order| == |answers| && forall k | 0 <= k < n :: order[k].target.provider != id
    ensures During(order, answers, n, streaming, w, b, id) == OthersDuring(w, b, n, id)
  {
    if n > 0 {
      UntriedTold(order, answers, n - 1, streaming, w, b, id);
      assert OthersDuring(w, b, n - 1, id) + [] == OthersDuring(w, b, n - 1, id);
    }
  }

  /** What the checks tell one breaker. */
  function DuringChecks(show: Json -> string, profiles: Profiles, targets: seq<Target>, request: Request, w: World,
                        id: string)
    : seq<B.Op>
    requires Known(profiles, targets)
  {
    if targets == [] then []
    else
      var n := |targets| - 1;
      DuringChecks(show, profiles, targets[..n], request, w, id) +
      (if targets[n].provider == id && Adapt(show, profiles[id], request).Ok? then [B.Checked(w.clock(n))] else []) +
      AllOfOthers(w.others(n), id)
  }

  /** Each target that the request fits has its provider's breaker checked once, and no other has. */
  lemma {:induction false} ChecksTell(show: Json -> string, profiles: Profiles, h: Histories, targets: seq<Target>,
                                      request: Request,
                                      w: World, id: string)
    requires Known(profiles, targets) && id in h
    ensures NoteChecks(show, profiles, h, targets, request, w).Keys == h.Keys
    ensures NoteChecks(show, profiles, h, targets, request, w)[id] ==
            h[id] + DuringChecks(show, profiles, targets, request, w, id)
  {
    if targets == [] {
      assert h[id] + [] == h[id];
    } else {
      var n := |targets| - 1;
      var before := NoteChecks(show, profiles, h, targets[..n], request, w);
      var ops := CheckOps(show, profiles, targets[n], request, w.clock(n));
      ChecksTell(show, profiles, h, targets[..n], request, w, id);
      StepNoted(before, w, n, targets[n].provider, ops, id);
      var mine, theirs := if targets[n].provider == id then ops else [], AllOfOthers(w.others(n), id);
      Associative(h[id], DuringChecks(show, profiles, targets[..n], request, w, id), mine + theirs);
      Associative(DuringChecks(show, profiles, targets[..n], request, w, id), mine, theirs);
    }
  }

  // ---------------------------------------------------------------- what the request answers

  /** What an answer comes to: the reply, the error, or a timeout that is not retried. */
  ghost predicate ComesTo<R>(answer: Net<R>, result: Result<R, ProxyError>) {
    && (answer.Answered? ==> result == Ok(answer.reply))
    && (answer.Refused? ==> result == Err(answer.error))
    && (answer.TimedOut? ==> result == Err(ProxyError(Timeout, false)))
  }

  /** A request without candidates fails; otherwise it comes to its last attempt, or to nothing tried. */
  lemma RequestAnswers<R>(candidates: Result<seq<Candidate>, ProxyError>, answers: seq<Net<R>>, maxAttempts: nat)
    requires candidates.Ok? ==> |answers| == |candidates.value|
    ensures var out := Run(candidates, answers, maxAttempts);
            var n := |out.tried|;
            && (candidates.Err? ==> n == 0 && out.result == Err(candidates.error))
            && (candidates.Ok? ==> n <= maxAttempts && n <= |answers| && out.tried == candidates.value[..n])
            && (candidates.Ok? && n == 0 ==>
                  (candidates.value == [] || maxAttempts == 0) && out.result == Err(ProxyError(Overloaded, false)))
            && (n > 0 ==> ComesTo(answers[n - 1], out.result))
            && (forall k | 0 <= k < n - 1 :: answers[k].Refused? && answers[k].error.retryable)
            && (0 < n < |answers| && n < maxAttempts ==>
                  !(answers[n - 1].Refused? && answers[n - 1].error.retryable))
  {
    if candidates.Ok? {
      AttemptsAreSafe(candidates.value, answers, maxAttempts);
      forall k | 0 <= k < Tried(answers, maxAttempts) - 1
        ensures answers[k].Refused? && answers[k].error.retryable
      {
        assert Retryable(answers[k]);
      }
    }
  }

  /** A streamed request first counts the tokens of its first candidate, and fails if that fails. */
  lemma StreamCounts<R>(candidates: Result<seq<Candidate>, ProxyError>, tokens: Request -> Result<U64, ProxyError>,
                        answers: seq<Net<R>>, maxAttempts: nat)
    requires candidates.Ok? ==> candidates.value != [] && |answers| == |candidates.value|
    ensures var (inputTokens, out) := Streamed(candidates, tokens, answers, maxAttempts);
            && (candidates.Err? ==> out == Outcome([], Err(candidates.error)))
            && (candidates.Ok? ==>
                  var count := tokens(candidates.value[0].request);
                  && (count.Err? ==> out == Outcome([], Err(count.error)))
                  && (count.Ok? ==> inputTokens == count.value && out == Run(candidates, answers, maxAttempts)))
  {
  }

  /** Why there is no candidate: some target does not fit, or every fitting one has an open circuit. */
  lemma NoCandidates(show: Json -> string, profiles: Profiles, v: View, targets: seq<Target>, request: Request,
                     draws: seq<nat>)
    requires Known(profiles, targets) && IsShuffle(v, draws) && Drawable(show, profiles, v, targets, request)
    ensures var r := Candidates(show, profiles, v, targets, request, draws);
            && (r.Err? <==> forall i: nat | i < |targets| :: NoUse(show, profiles, v.up, targets, request, i))
            && (r.Err? && (exists t :: t in targets && Adapt(show, profiles[t.provider], request).Err?) ==>
                  r.error == ProxyError(InvalidRequest, false))
            && (r.Err? && (forall t | t in targets :: Adapt(show, profiles[t.provider], request).Ok?) ==>
                  r.error == ProxyError(Overloaded, false))
  {
    NoneCompatible(show, profiles, v.up, targets, request);
  }

  /** This target is no candidate. */
  predicate NoUse(show: Json -> string, profiles: Profiles, up: nat -> set<string>, targets: seq<Target>,
                  request: Request, i: nat)
    requires Known(profiles, targets) && i < |targets|
  {
    Adapt(show, profiles[targets[i].provider], request).Err? || targets[i].provider !in up(i)
  }

  lemma LastOfNone(show: Json -> string, profiles: Profiles, up: nat -> set<string>, targets: seq<Target>,
                   request: Request)
    requires Known(profiles, targets) && targets != []
    ensures Compatible(show, profiles, up, targets, request) == [] <==>
            Compatible(show, profiles, up, targets[..|targets| - 1], request) == [] &&
            NoUse(show, profiles, up, targets, request, |targets| - 1)
  {
  }

  lemma {:induction false} NoneCompatible(show: Json -> string, profiles: Profiles, up: nat -> set<string>,
                                          targets: seq<Target>, request: Request)
    requires Known(profiles, targets)
    ensures Compatible(show, profiles, up, targets, request) == [] <==>
            forall i: nat | i < |targets| :: NoUse(show, profiles, up, targets, request, i)
  {
    if targets != [] {
      var n := |targets| - 1;
      LastOfNone(show, profiles, up, targets, request);
      NoneCompatible(show, profiles, up, targets[..n], request);
      forall i: nat | i < n
        ensures NoUse(show, profiles, up, targets[..n], request, i) <==> NoUse(show, profiles, up, targets, request, i)
      {
      }
    }
  }

  /** A candidate is asked over the network unless its conversation cannot be translated. */
  lemma CandidateAsked<R>(show: Json -> string, profiles: Profiles, request: Request, c: Candidate, net: Net<R>)
    requires c.target.provider in profiles && Adapt(show, profiles[c.target.provider], request) == Ok(c.request)
    ensures Try(show, profiles, c, net) ==
            if Translation.Convert(show, c.request.messages).Ok? then
                net else Refused(ProxyError(InvalidRequest, false))
  {
    TrySendsWhatWasChosen(show, profiles, request, c, net);
  }

  // ---------------------------------------------------------------- both together

  /**
   * A request that is answered, not as a stream: its last attempt was answered, and that is the
   * last thing the request did to that provider's breaker, which after it has no failures in a row.
   */
  lemma AnsweredRequestTells<R>(h: Histories, candidates: Result<seq<Candidate>, ProxyError>, answers: seq<Net<R>>,
                                maxAttempts: nat, w: World, b: nat)
    requires candidates.Ok? ==>
             |answers| == |candidates.value| && forall c | c in candidates.value :: c.target.provider in h
    requires Run(candidates, answers, maxAttempts).result.Ok?
    ensures var out := Run(candidates, answers, maxAttempts);
            var n := |out.tried|;
            && candidates.Ok? && 0 < n <= |answers| && answers[n - 1] == Answered(out.result.value)
            && var p, now := out.tried[n - 1].target.provider, w.clock(b + n - 1);
            var before := NoteAttempts(h, candidates.value, answers, n - 1, false, w, b);
            && p in before && B.Streak(before[p] + [B.Succeeded(now)]) == []
            && NoteRun(h, candidates, answers, n, false, w, b) ==
               NoteOthers(before[p := before[p] + [B.Succeeded(now)]], w.others(b + n - 1))
  {
    var out := Run(candidates, answers, maxAttempts);
    var n := |out.tried|;
    RequestAnswers(candidates, answers, maxAttempts);
    var c := candidates.value[n - 1];
    assert c in candidates.value;
    AttemptsTell(h, candidates.value, answers, n - 1, false, w, b, c.target.provider);
    var before := NoteAttempts(h, candidates.value, answers, n - 1, false, w, b);
    B.StreakSnoc(before[c.target.provider], B.Succeeded(w.clock(b + n - 1)));
  }
}
