/** Candidates, fallback and streams (src/routing.rs): a retry loop over providers with breakers. */
module Routing {
  import opened Domain
  import opened JsonModel
  import opened Requests
  import opened Adaptation
  import Translation
  import opened Ordering
  import opened Lines
  import B = Breaker

  type Profiles = map<string, Profile>

  // ---------------------------------------------------------------- candidates

  predicate Known(profiles: Profiles, targets: seq<Target>) {
    forall t | t in targets :: t.provider in profiles
  }

  predicate Fitting(show: Json -> string, profiles: Profiles, t: Target, request: Request)
    requires t.provider in profiles
  {
    Adapt(show, profiles[t.provider], request).Ok?
  }

  /** The targets whose capabilities fit the request and whose circuit is closed; `up(i)` is what is up at check `i`. */
  function Compatible(show: Json -> string, profiles: Profiles, up: nat -> set<string>, targets: seq<Target>,
                      request: Request): seq<Candidate>
    requires Known(profiles, targets)
  {
    if targets == [] then []
    else
      var n := |targets| - 1;
      Compatible(show, profiles, up, targets[..n], request) +
      (if Fitting(show, profiles, targets[n], request) && targets[n].provider in up(n)
       then [Candidate(targets[n], Adapt(show, profiles[targets[n].provider], request).value)] else [])
  }

  predicate SomeMisfit(show: Json -> string, profiles: Profiles, targets: seq<Target>, request: Request)
    requires Known(profiles, targets)
  {
    exists t | t in targets :: !Fitting(show, profiles, t, request)
  }

  /** A capability error if there is one, else the report that every circuit is open. */
  function NoCandidate(show: Json -> string, profiles: Profiles, targets: seq<Target>, request: Request): ProxyError
    requires Known(profiles, targets)
  {
    if SomeMisfit(show, profiles, targets, request) then Invalid() else ProxyError(Overloaded, false)
  }

  /** The order these draws determine, if each is in range. */
  function Drawn(cs: seq<Candidate>, draws: seq<nat>): Option<seq<Candidate>> {
    if Fits(Sort(cs), draws) then Some(Order(Sort(cs), draws)) else None
  }

  /** What one request sees: who is up at each check, and the order its draws make of any candidates. */
  datatype View = View(up: nat -> set<string>, shuffle: seq<Candidate> -> Option<seq<Candidate>>)

  ghost predicate IsShuffle(v: View, draws: seq<nat>) {
    forall cs {:trigger Drawn(cs, draws)} :: v.shuffle(cs) == Drawn(cs, draws)
  }

  /** There is a draw in range for every selection among the candidates. */
  predicate Drawable(show: Json -> string, profiles: Profiles, v: View, targets: seq<Target>, request: Request)
    requires Known(profiles, targets)
  {
    v.shuffle(Compatible(show, profiles, v.up, targets, request)).Some?
  }

  ghost function Candidates(show: Json -> string, profiles: Profiles, v: View, targets: seq<Target>, request: Request,
                            draws: seq<nat>)
    : (r: Result<seq<Candidate>, ProxyError>)
    requires Known(profiles, targets) && IsShuffle(v, draws) && Drawable(show, profiles, v, targets, request)
    ensures r.Ok? ==> r.value != [] && AllKnown(profiles, r.value)
  {
    var compatible := Compatible(show, profiles, v.up, targets, request);
    if compatible == [] then Err(NoCandidate(show, profiles, targets, request))
    else
      ShuffleSuited(show, profiles, v, targets, request, draws);
      Ok(v.shuffle(compatible).value)
  }

  lemma ShuffleSuited(show: Json -> string, profiles: Profiles, v: View, targets: seq<Target>, request: Request,
                      draws: seq<nat>)
    requires Known(profiles, targets) && IsShuffle(v, draws) && Drawable(show, profiles, v, targets, request)
    ensures var compatible := Compatible(show, profiles, v.up, targets, request);
            && Fits(Sort(compatible), draws) && v.shuffle(compatible).value == Order(Sort(compatible), draws)
            && |v.shuffle(compatible).value| == |compatible|
            && forall c | c in v.shuffle(compatible).value :: Suited(show, profiles, request, c)
  {
    assert Drawn(Compatible(show, profiles, v.up, targets, request), draws).Some?;
    OrderSuited(show, profiles, v.up, targets, request, draws);
  }

  lemma FirstSuited(show: Json -> string, profiles: Profiles, v: View, targets: seq<Target>, request: Request,
                    draws: seq<nat>)
    requires Known(profiles, targets) && IsShuffle(v, draws) && Drawable(show, profiles, v, targets, request)
    ensures var r := Candidates(show, profiles, v, targets, request, draws);
            r.Ok? ==> Suited(show, profiles, request, r.value[0])
  {
    ShuffleSuited(show, profiles, v, targets, request, draws);
    var r := Candidates(show, profiles, v, targets, request, draws);
    assert r.Ok? ==> r.value[0] in r.value;
  }

  // ---------------------------------------------------------------- attempts

  /** What comes back from a provider: a reply, an error, or nothing in time. */
  datatype Net<R> = Answered(reply: R) | Refused(error: ProxyError) | TimedOut

  /** `Provider::execute` and `Provider::stream` adapt the request again before they send it. */
  function Try<R>(show: Json -> string, profiles: Profiles, c: Candidate, net: Net<R>): Net<R>
    requires c.target.provider in profiles
  {
    match Adapt(show, profiles[c.target.provider], c.request)
    case Err(e) => Refused(e)
    case Ok(adapted) =>
      match Translation.Convert(show, adapted.messages)
      case Err(e) => Refused(e)
      case Ok(_) => net
  }

  function ResultOf<R>(net: Net<R>): Result<R, ProxyError> {
    match net
    case Answered(reply) => Ok(reply)
    case Refused(e) => Err(e)
    case TimedOut => Err(ProxyError(Timeout, false))
  }

  predicate Retryable<R>(net: Net<R>) { net.Refused? && net.error.retryable }

  datatype Outcome<R> = Outcome(tried: seq<Candidate>, result: Result<R, ProxyError>)

  const NO_TARGET := ProxyError(Overloaded, false)

  predicate AllKnown(profiles: Profiles, order: seq<Candidate>) {
    forall c | c in order :: c.target.provider in profiles
  }

  /** What each candidate in turn would come to; `nets(k)` is what the network answers to attempt `k`. */
  function Answers<R>(show: Json -> string, profiles: Profiles, order: seq<Candidate>,
                      nets: nat -> Net<R>): (r: seq<Net<R>>)
    requires AllKnown(profiles, order)
    ensures |r| == |order|
  {
    seq(|order|, k requires 0 <= k < |order| => Try(show, profiles, order[k], nets(k)))
  }

  ghost predicate AreAnswers<R>(show: Json -> string, profiles: Profiles, order: seq<Candidate>, nets: nat -> Net<R>,
                                answers: seq<Net<R>>)
    requires AllKnown(profiles, order)
  {
    && |answers| == |order|
    && forall k: nat {:trigger Try(show, profiles, order[k], nets(k))} | k < |order| ::
         answers[k] == Try(show, profiles, order[k], nets(k))
  }

  lemma AnswersAre<R>(show: Json -> string, profiles: Profiles, order: seq<Candidate>, nets: nat -> Net<R>)
    requires AllKnown(profiles, order)
    ensures AreAnswers(show, profiles, order, nets, Answers(show, profiles, order, nets))
  {
  }

  /** What each of these candidates, if there are any, would come to. */
  ghost predicate Answering<R>(show: Json -> string, profiles: Profiles, candidates: Result<seq<Candidate>, ProxyError>,
                               nets: nat -> Net<R>, answers: seq<Net<R>>)
    requires candidates.Ok? ==> AllKnown(profiles, candidates.value)
  {
    candidates.Ok? ==> AreAnswers(show, profiles, candidates.value, nets, answers)
  }

  lemma SomeAnswers<R>(show: Json -> string, profiles: Profiles, candidates: Result<seq<Candidate>, ProxyError>,
                       nets: nat -> Net<R>)
    returns (answers: seq<Net<R>>)
    requires candidates.Ok? ==> AllKnown(profiles, candidates.value)
    ensures Answering(show, profiles, candidates, nets, answers)
  {
    answers := [];
    if candidates.Ok? {
      answers := Answers(show, profiles, candidates.value, nets);
      AnswersAre(show, profiles, candidates.value, nets);
    }
  }

  /** The retry loop: on to the next candidate while the answer is a retryable error. */
  function AttemptsFrom<R>(order: seq<Candidate>, answers: seq<Net<R>>, left: nat, k: nat,
                           last: Option<ProxyError>): Outcome<R>
    requires k <= |answers| == |order|
    decreases |order| - k
  {
    if k == |order| || k >= left then Outcome([], Err(last.GetOr(NO_TARGET)))
    else if Retryable(answers[k]) then
      var rest := AttemptsFrom(order, answers, left, k + 1, Some(answers[k].error));
      Outcome([order[k]] + rest.tried, rest.result)
    else
      Outcome([order[k]], ResultOf(answers[k]))
  }

  function Attempts<R>(order: seq<Candidate>, answers: seq<Net<R>>, left: nat): Outcome<R>
    requires |answers| == |order|
  {
    AttemptsFrom(order, answers, left, 0, None)
  }

  /** How many attempts are made from the `k`-th on: up to the first answer that is not a retryable error. */
  function TriedFrom<R>(answers: seq<Net<R>>, left: nat, k: nat): (n: nat)
    requires k <= |answers|
    ensures k <= n <= |answers| && (k <= left ==> n <= left)
    ensures k < |answers| && k < left ==> n > k
    ensures forall i | k <= i < n - 1 :: Retryable(answers[i])
    ensures k < n < |answers| && n < left ==> !Retryable(answers[n - 1])
    decreases |answers| - k
  {
    if k == |answers| || k >= left then k
    else if Retryable(answers[k]) then TriedFrom(answers, left, k + 1)
    else k + 1
  }

  function Tried<R>(answers: seq<Net<R>>, left: nat): (n: nat)
    ensures n <= |answers| && n <= left
    ensures answers != [] && left > 0 ==> n > 0
    ensures forall i | 0 <= i < n - 1 :: Retryable(answers[i])
    ensures 0 < n < |answers| && n < left ==> !Retryable(answers[n - 1])
  {
    TriedFrom(answers, left, 0)
  }

  lemma {:induction false} SafeFrom<R>(order: seq<Candidate>, answers: seq<Net<R>>, left: nat, k: nat,
                                       last: Option<ProxyError>)
    requires k <= |answers| == |order|
    ensures var out, n := AttemptsFrom(order, answers, left, k, last), TriedFrom(answers, left, k);
            && out.tried == order[k..n]
            && out.result == (if n > k then ResultOf(answers[n - 1]) else Err(last.GetOr(NO_TARGET)))
    decreases |order| - k
  {
    if k < |order| && k < left {
      if Retryable(answers[k]) {
        SafeFrom(order, answers, left, k + 1, Some(answers[k].error));
        var n := TriedFrom(answers, left, k);
        assert [order[k]] + order[k + 1..n] == order[k..n];
      } else {
        assert order[k..k + 1] == [order[k]];
      }
    }
  }

  /**
   * Fallback is safe whatever the network answers: the attempts are the first candidates in order,
   * no more than allowed; each but the last failed retryably; the loop stops early only at an
   * answer that is not a retryable error; and the result is that of the last attempt.
   */
  lemma AttemptsAreSafe<R>(order: seq<Candidate>, answers: seq<Net<R>>, left: nat)
    requires |answers| == |order|
    ensures var out, n := Attempts(order, answers, left), Tried(answers, left);
            && out.tried == order[..n]
            && out.result == (if n > 0 then ResultOf(answers[n - 1]) else Err(NO_TARGET))
            && n <= left && n <= |order| && (order != [] && left > 0 ==> n > 0)
            && (forall i | 0 <= i < n - 1 :: Retryable(answers[i]))
            && (0 < n < |order| && n < left ==> !Retryable(answers[n - 1]))
  {
    SafeFrom(order, answers, left, 0, None);
    var n := Tried(answers, left);
    assert order[0..n] == order[..n];
  }

  lemma {:induction false} TriedExactly<R>(answers: seq<Net<R>>, left: nat, j: nat, k: nat)
    requires j <= k <= |answers| && k <= left && forall i | j <= i < k :: Retryable(answers[i])
    requires k < |answers| && k < left ==> !Retryable(answers[k])
    ensures TriedFrom(answers, left, j) == if k < |answers| && k < left then k + 1 else k
    decreases k - j
  {
    if j < k {
      TriedExactly(answers, left, j + 1, k);
    }
  }

  predicate FirstRetryable<R>(answers: seq<Net<R>>, k: nat)
    requires k <= |answers|
  {
    k == 0 || (FirstRetryable(answers, k - 1) && Retryable(answers[k - 1]))
  }

  lemma {:induction false} FirstAreRetryable<R>(answers: seq<Net<R>>, k: nat)
    requires k <= |answers| && FirstRetryable(answers, k)
    ensures forall i | 0 <= i < k :: Retryable(answers[i])
  {
    if k > 0 {
      FirstAreRetryable(answers, k - 1);
    }
  }

  ghost predicate LastRefused<R>(answers: seq<Net<R>>, k: nat, errors: seq<ProxyError>) {
    |errors| == k <= |answers| && (k > 0 ==> answers[k - 1] == Refused(errors[k - 1]))
  }

  /** The loop made `k` retryable attempts and then met `stop`, or ran out. */
  ghost predicate Stops<R>(answers: seq<Net<R>>, left: nat, k: nat, stop: Option<Net<R>>) {
    && k <= |answers| && k <= left && FirstRetryable(answers, k)
    && (if stop.None? then k == |answers| || k == left
        else k < |answers| && k < left && answers[k] == stop.value && !Retryable(answers[k]))
  }

  /** What the loop's end says about the outcome. */
  lemma LoopEnds<R>(order: seq<Candidate>, answers: seq<Net<R>>, left: nat, k: nat, stop: Option<Net<R>>)
    requires |answers| == |order| && Stops(answers, left, k, stop)
    ensures Attempts(order, answers, left) ==
            if stop.Some? then Outcome(order[..k + 1], ResultOf(stop.value))
            else Outcome(order[..k], if k == 0 then Err(NO_TARGET) else ResultOf(answers[k - 1]))
  {
    FirstAreRetryable(answers, k);
    TriedExactly(answers, left, 0, k);
    AttemptsAreSafe(order, answers, left);
  }

  // ---------------------------------------------------------------- candidates and the order of attempts

  function Targets(cs: seq<Candidate>): (r: seq<Target>)
    ensures |r| == |cs|
  {
    seq(|cs|, i requires 0 <= i < |cs| => cs[i].target)
  }

  /** A candidate adapted for its own provider. */
  predicate Suited(show: Json -> string, profiles: Profiles, request: Request, c: Candidate) {
    && c.target.provider in profiles
    && Adapt(show, profiles[c.target.provider], request) == Ok(c.request)
  }

  /** An entry of the route whose circuit was closed when it was checked. */
  predicate WasUp(up: nat -> set<string>, targets: seq<Target>, t: Target) {
    exists i: nat | i < |targets| :: targets[i] == t && t.provider in up(i)
  }

  lemma {:induction false} CompatibleSuited(show: Json -> string, profiles: Profiles, up: nat -> set<string>,
                                            targets: seq<Target>, request: Request)
    requires Known(profiles, targets)
    ensures forall c | c in Compatible(show, profiles, up, targets, request) ::
              Suited(show, profiles, request, c) && WasUp(up, targets, c.target)
  {
    if targets != [] {
      var n := |targets| - 1;
      CompatibleSuited(show, profiles, up, targets[..n], request);
      forall c | c in Compatible(show, profiles, up, targets, request)
        ensures Suited(show, profiles, request, c) && WasUp(up, targets, c.target)
      {
        if c in Compatible(show, profiles, up, targets[..n], request) {
          var i: nat :| i < n && targets[..n][i] == c.target && c.target.provider in up(i);
          assert targets[i] == c.target;
        }
      }
    }
  }

  lemma TargetsSnoc(cs: seq<Candidate>, c: Candidate)
    ensures multiset(Targets(cs + [c])) == multiset(Targets(cs)) + multiset{c.target}
  {
    assert Targets(cs + [c]) == Targets(cs) + [c.target];
  }

  lemma OneMoreAtMost(cs: seq<Candidate>, c: Candidate, targets: seq<Target>, added: bool)
    requires multiset(Targets(cs)) <= multiset(targets)
    ensures multiset(Targets(cs + (if added then [c] else []))) <= multiset(targets + [c.target])
  {
    TargetsSnoc(cs, c);
    assert cs + [] == cs;
    assert multiset(targets + [c.target]) == multiset(targets) + multiset{c.target};
  }

  lemma {:induction false} CompatibleOnce(show: Json -> string, profiles: Profiles, up: nat -> set<string>,
                                          targets: seq<Target>, request: Request)
    requires Known(profiles, targets)
    ensures multiset(Targets(Compatible(show, profiles, up, targets, request))) <= multiset(targets)
  {
    if targets != [] {
      var n := |targets| - 1;
      var before, t := targets[..n], targets[n];
      assert targets == before + [t];
      var adapted := Adapt(show, profiles[t.provider], request);
      CompatibleOnce(show, profiles, up, before, request);
      OneMoreTarget(show, profiles, up, before, t, request);
      OneMoreAtMost(Compatible(show, profiles, up, before, request),
                    Candidate(t, if adapted.Ok? then adapted.value else request),
                    before, Fitting(show, profiles, t, request) && t.provider in up(n));
    }
  }

  lemma {:induction false} SameTargets(a: seq<Candidate>, b: seq<Candidate>)
    requires multiset(a) == multiset(b)
    ensures multiset(Targets(a)) == multiset(Targets(b))
  {
    if a == [] {
      assert |multiset(b)| == 0;
    } else {
      var n := |a| - 1;
      assert |multiset(b)| > 0;
      assert a[n] in multiset(b);
      var i :| 0 <= i < |b| && b[i] == a[n];
      var rest := Without(b, i);
      WithoutKeeps(b, i);
      assert a == a[..n] + [a[n]];
      assert multiset(a[..n]) == multiset(a) - multiset{a[n]} == multiset(rest);
      SameTargets(a[..n], rest);
      TargetsSnoc(a[..n], a[n]);
      TargetsWithout(b, i);
    }
  }

  lemma TargetsWithout(b: seq<Candidate>, i: nat)
    requires i < |b|
    ensures multiset(Targets(b)) == multiset(Targets(Without(b, i))) + multiset{b[i].target}
  {
    var ts := Targets(b);
    assert ts == ts[..i] + [ts[i]] + ts[i + 1..];
    assert Targets(Without(b, i)) == ts[..i] + ts[i + 1..];
  }

  lemma OrderMembers(compatible: seq<Candidate>, draws: seq<nat>)
    requires Fits(Sort(compatible), draws)
    ensures multiset(Order(Sort(compatible), draws)) == multiset(compatible)
    ensures ByPriority(Order(Sort(compatible), draws))
    ensures forall c | c in Order(Sort(compatible), draws) :: c in compatible
  {
    SortSorts(compatible);
    OrderIsPermutation(Sort(compatible), draws);
    forall c | c in Order(Sort(compatible), draws) ensures c in compatible {
      SameMembers(Order(Sort(compatible), draws), compatible, c);
    }
  }

  lemma OrderSuited(show: Json -> string, profiles: Profiles, up: nat -> set<string>, targets: seq<Target>,
                    request: Request, draws: seq<nat>)
    requires Known(profiles, targets)
    requires Fits(Sort(Compatible(show, profiles, up, targets, request)), draws)
    ensures var compatible := Compatible(show, profiles, up, targets, request);
            var order := Order(Sort(compatible), draws);
            |order| == |compatible| && forall c | c in order :: Suited(show, profiles, request, c)
  {
    var compatible := Compatible(show, profiles, up, targets, request);
    OrderMembers(compatible, draws);
    CompatibleSuited(show, profiles, up, targets, request);
    assert |multiset(Order(Sort(compatible), draws))| == |multiset(compatible)|;
  }

  /** Second adaptation never fails and changes nothing, so only the conversion can refuse early. */
  lemma TrySendsWhatWasChosen<R>(show: Json -> string, profiles: Profiles, request: Request, c: Candidate, net: Net<R>)
    requires Suited(show, profiles, request, c)
    ensures Try(show, profiles, c, net) ==
            match Translation.Convert(show, c.request.messages)
            case Err(e) => Refused(e)
            case Ok(_) => net
  {
    AdaptTwice(show, profiles[c.target.provider], request);
  }

  lemma BetterFirst(order: seq<Candidate>, i: nat, c: Candidate)
    requires ByPriority(order) && i < |order| && c.target.priority < order[i].target.priority
    ensures multiset(order[..i])[c] == multiset(order)[c]
  {
    assert order == order[..i] + order[i..];
    forall j | 0 <= j < |order[i..]| ensures order[i..][j] != c {
      assert order[i].target.priority <= order[i + j].target.priority;
    }
    assert c !in order[i..];
    assert multiset(order[i..])[c] == 0;
  }

  lemma TriedOnce(order: seq<Candidate>, n: nat)
    requires n <= |order|
    ensures multiset(Targets(order[..n])) <= multiset(Targets(order))
  {
    assert Targets(order) == Targets(order[..n]) + Targets(order[n..]);
  }

  /** Before a candidate is tried, every copy of every better one has been. */
  predicate BetterTriedFirst(tried: seq<Candidate>, compatible: seq<Candidate>) {
    forall i, c | 0 <= i < |tried| && c in compatible && c.target.priority < tried[i].target.priority ::
      multiset(tried[..i])[c] == multiset(compatible)[c]
  }

  lemma PrefixTried(compatible: seq<Candidate>, order: seq<Candidate>, n: nat)
    requires multiset(order) == multiset(compatible) && ByPriority(order) && n <= |order|
    ensures multiset(Targets(order[..n])) <= multiset(Targets(compatible))
    ensures BetterTriedFirst(order[..n], compatible)
  {
    var tried := order[..n];
    SameTargets(order, compatible);
    TriedOnce(order, n);
    forall i, c | 0 <= i < |tried| && c in compatible && c.target.priority < tried[i].target.priority
      ensures multiset(tried[..i])[c] == multiset(compatible)[c]
    {
      BetterFirst(order, i, c);
      assert tried[..i] == order[..i];
    }
  }

  /**
   * Which targets a run tries: each target entry at most once, only entries that fit the request
   * and whose circuit is closed, and an entry only after every such entry of better priority.
   */
  lemma AttemptOrder<R>(show: Json -> string, profiles: Profiles, v: View, targets: seq<Target>, request: Request,
                        draws: seq<nat>, answers: seq<Net<R>>, left: nat)
    requires Known(profiles, targets) && IsShuffle(v, draws) && Drawable(show, profiles, v, targets, request)
    requires Candidates(show, profiles, v, targets, request, draws).Ok?
    requires |answers| == |Candidates(show, profiles, v, targets, request, draws).value|
    ensures var compatible := Compatible(show, profiles, v.up, targets, request);
            var order := Candidates(show, profiles, v, targets, request, draws).value;
            var tried := Attempts(order, answers, left).tried;
            && tried <= order && multiset(order) == multiset(compatible)
            && (left > 0 ==> tried != [])
            && multiset(Targets(tried)) <= multiset(targets)
            && (forall c | c in tried :: Suited(show, profiles, request, c) && WasUp(v.up, targets, c.target))
            && BetterTriedFirst(tried, compatible)
  {
    var compatible := Compatible(show, profiles, v.up, targets, request);
    var order := Candidates(show, profiles, v, targets, request, draws).value;
    ShuffleSuited(show, profiles, v, targets, request, draws);
    OrderMembers(compatible, draws);
    AttemptsAreSafe(order, answers, left);
    CompatibleSuited(show, profiles, v.up, targets, request);
    CompatibleOnce(show, profiles, v.up, targets, request);
    PrefixTried(compatible, order, Tried(answers, left));
  }

  lemma LastAnswer<R>(order: seq<Candidate>, answers: seq<Net<R>>, left: nat)
    requires |answers| == |order|
    ensures var out := Attempts(order, answers, left);
            out.result.Ok? ==> 0 < |out.tried| <= |order| && out.tried == order[..|out.tried|] &&
                               answers[|out.tried| - 1] == Answered(out.result.value)
  {
    AttemptsAreSafe(order, answers, left);
  }

  lemma AnsweredByNet<R>(show: Json -> string, profiles: Profiles, c: Candidate, net: Net<R>)
    requires c.target.provider in profiles
    ensures Try(show, profiles, c, net).Answered? ==> Try(show, profiles, c, net) == net
  {
  }

  /** A reply is what the network gave to the last candidate tried. */
  lemma ReplyOfLast<R>(show: Json -> string, profiles: Profiles, order: seq<Candidate>, nets: nat -> Net<R>,
                       answers: seq<Net<R>>, left: nat)
    requires AllKnown(profiles, order) && AreAnswers(show, profiles, order, nets, answers)
    ensures var out := Attempts(order, answers, left);
            out.result.Ok? ==> 0 < |out.tried| <= |order| && out.tried == order[..|out.tried|] &&
                               nets(|out.tried| - 1) == Answered(out.result.value)
  {
    var out := Attempts(order, answers, left);
    LastAnswer(order, answers, left);
    if out.result.Ok? {
      var k := |out.tried| - 1;
      assert order[k] in order;
      AnsweredByNet(show, profiles, order[k], nets(k));
    }
  }

  /** A whole request: no candidate, or a run of attempts. */
  function Run<R>(candidates: Result<seq<Candidate>, ProxyError>, answers: seq<Net<R>>, maxAttempts: nat): Outcome<R>
    requires candidates.Ok? ==> |answers| == |candidates.value|
  {
    if candidates.Err? then Outcome([], Err(candidates.error)) else Attempts(candidates.value, answers, maxAttempts)
  }

  /** The token count of the first candidate, if there is one. */
  function Counted(candidates: Result<seq<Candidate>, ProxyError>, tokens: Request -> Result<U64, ProxyError>)
    : Result<U64, ProxyError>
    requires candidates.Ok? ==> candidates.value != []
  {
    if candidates.Err? then Err(candidates.error) else tokens(candidates.value[0].request)
  }

  /** A streamed request: the tokens are counted on the first candidate before any attempt. */
  function Streamed<R>(candidates: Result<seq<Candidate>, ProxyError>, tokens: Request -> Result<U64, ProxyError>,
                       answers: seq<Net<R>>, maxAttempts: nat): (U64, Outcome<R>)
    requires candidates.Ok? ==> candidates.value != [] && |answers| == |candidates.value|
  {
    match Counted(candidates, tokens)
    case Err(e) => (0, Outcome([], Err(e)))
    case Ok(n) => (n, Run(candidates, answers, maxAttempts))
  }

  /** An established stream is the reply of the last candidate tried, one of the candidates. */
  lemma StreamOfLast<R>(show: Json -> string, profiles: Profiles, candidates: Result<seq<Candidate>, ProxyError>,
                        tokens: Request -> Result<U64, ProxyError>, nets: nat -> Net<R>, answers: seq<Net<R>>,
                        maxAttempts: nat)
    requires candidates.Ok? ==> candidates.value != [] && AllKnown(profiles, candidates.value)
    requires Answering(show, profiles, candidates, nets, answers)
    ensures var out := Streamed(candidates, tokens, answers, maxAttempts).1;
            out.result.Ok? ==> candidates.Ok? && 0 < |out.tried| <= |candidates.value| &&
                               out.tried == candidates.value[..|out.tried|] &&
                               out.tried[|out.tried| - 1].target.provider in profiles &&
                               nets(|out.tried| - 1) == Answered(out.result.value)
  {
    if candidates.Ok? {
      var order := candidates.value;
      ReplyOfLast(show, profiles, order, nets, answers, maxAttempts);
      assert forall k: nat | k < |order| :: order[k] in order;
    }
  }

  // ---------------------------------------------------------------- what the breakers are told

  /** What has happened to each provider's breaker. */
  type Histories = map<string, seq<B.Op>>

  function Note(h: Histories, id: string, op: B.Op): Histories {
    if id in h then h[id := h[id] + [op]] else h
  }

  /** Something another request does to a breaker. */
  datatype Event = Event(id: string, op: B.Op)

  /**
   * The surroundings of one request: `clock(j)` is the time of its step `j`, and `others(j)` is what
   * other requests do to the breakers between that step and the next.
   */
  datatype World = World(clock: nat -> int, others: nat -> seq<Event>)

  /** The time after the first `n` events, if it was `lo` before. */
  function TimeAfter(events: seq<Event>, n: nat, lo: int): int
    requires n <= |events|
  {
    if n == 0 then lo else events[n - 1].op.at
  }

  /** These events happen in order, not before `lo` and not after `hi`. */
  predicate Between(events: seq<Event>, lo: int, hi: int) {
    && TimeAfter(events, |events|, lo) <= hi
    && forall i: nat {:trigger TimeAfter(events, i, lo)} | i < |events| :: TimeAfter(events, i, lo) <= events[i].op.at
  }

  /** The steps after which the events are not in order. */
  ghost function Disorder(w: World): iset<nat> {
    iset j: nat | !Between(w.others(j), w.clock(j), w.clock(j + 1))
  }

  ghost predicate Orderly(w: World) { Disorder(w) == iset{} }

  function NoteAll(h: Histories, id: string, ops: seq<B.Op>): Histories {
    if id in h then h[id := h[id] + ops] else h
  }

  /** The first `n` events. */
  function NoteFirst(h: Histories, events: seq<Event>, n: nat): Histories
    requires n <= |events|
  {
    if n == 0 then h else Note(NoteFirst(h, events, n - 1), events[n - 1].id, events[n - 1].op)
  }

  function NoteOthers(h: Histories, events: seq<Event>): Histories { NoteFirst(h, events, |events|) }

  /** One step of the request, and what others do before the next. */
  function NoteStep(h: Histories, w: World, j: nat, id: string, ops: seq<B.Op>): Histories {
    NoteOthers(NoteAll(h, id, ops), w.others(j))
  }

  /** What considering a target tells its provider's breaker: it is checked if the request fits. */
  function CheckOps(show: Json -> string, profiles: Profiles, t: Target, request: Request, now: int): seq<B.Op>
    requires t.provider in profiles
  {
    if Fitting(show, profiles, t, request) then [B.Checked(now)] else []
  }

  /** The targets are considered at steps 0, 1, and so on. */
  function NoteChecks(show: Json -> string, profiles: Profiles, h: Histories, targets: seq<Target>, request: Request,
                      w: World): Histories
    requires Known(profiles, targets)
  {
    if targets == [] then h
    else
      var n := |targets| - 1;
      NoteStep(NoteChecks(show, profiles, h, targets[..n], request, w), w, n, targets[n].provider,
               CheckOps(show, profiles, targets[n], request, w.clock(n)))
  }

  /** The providers whose circuits are closed when target `i` is considered, by the whole history up to then. */
  function UpAt(s: B.Settings, show: Json -> string, profiles: Profiles, h: Histories, targets: seq<Target>,
                request: Request, w: World, i: nat)
    : set<string>
    requires i <= |targets| && Known(profiles, targets[..i])
  {
    var history := NoteChecks(show, profiles, h, targets[..i], request, w);
    set id | id in history && !B.Refused(s, history[id], w.clock(i))
  }

  /** `up(i)` is what is up when target `i` is considered. */
  ghost predicate IsUp(up: nat -> set<string>, s: B.Settings, show: Json -> string, profiles: Profiles, h: Histories,
                       targets: seq<Target>, request: Request, w: World)
    requires Known(profiles, targets)
  {
    forall i: nat {:trigger UpAt(s, show, profiles, h, targets, request, w, i)} | i < |targets| ::
      Known(profiles, targets[..i]) && up(i) == UpAt(s, show, profiles, h, targets, request, w, i)
  }

  /** There is always such a function. */
  lemma SomeUp(s: B.Settings, show: Json -> string, profiles: Profiles, h: Histories, targets: seq<Target>,
               request: Request, w: World)
    returns (up: nat -> set<string>)
    requires Known(profiles, targets)
    ensures IsUp(up, s, show, profiles, h, targets, request, w)
  {
    up := (i: nat) => if i < |targets| then UpAt(s, show, profiles, h, targets, request, w, i) else {};
    assert forall i: nat | i < |targets| :: Known(profiles, targets[..i]);
  }

  /** What an attempt tells its provider's breaker; an established stream reports later. */
  function OpsOf<R>(net: Net<R>, streaming: bool, now: int): seq<B.Op> {
    match net
    case Answered(_) => if streaming then [] else [B.Succeeded(now)]
    case Refused(e) => [B.Failed(e.kind, now)]
    case TimedOut => [B.Failed(Timeout, now)]
  }

  /** The first `n` attempts, made at the steps from `b` on. */
  function NoteAttempts<R>(h: Histories, order: seq<Candidate>, answers: seq<Net<R>>, n: nat, streaming: bool, w: World,
                           b: nat): Histories
    requires n <= |order| == |answers|
  {
    if n == 0 then h
    else
      NoteStep(NoteAttempts(h, order, answers, n - 1, streaming, w, b), w, b + n - 1, order[n - 1].target.provider,
               OpsOf(answers[n - 1], streaming, w.clock(b + n - 1)))
  }

  function NoteRun<R>(h: Histories, candidates: Result<seq<Candidate>, ProxyError>, answers: seq<Net<R>>, n: nat,
                      streaming: bool, w: World, b: nat): Histories
    requires candidates.Ok? ==> |answers| == |candidates.value|
  {
    if candidates.Err? || n > |candidates.value| then h
    else NoteAttempts(h, candidates.value, answers, n, streaming, w, b)
  }

  lemma OneMoreTarget(show: Json -> string, profiles: Profiles, up: nat -> set<string>, done: seq<Target>, t: Target,
                      request: Request)
    requires Known(profiles, done) && t.provider in profiles
    ensures Known(profiles, done + [t])
    ensures Compatible(show, profiles, up, done + [t], request) ==
            Compatible(show, profiles, up, done, request) +
            (if Fitting(show, profiles, t, request) && t.provider in up(|done|)
             then [Candidate(t, Adapt(show, profiles[t.provider], request).value)] else [])
  {
    assert (done + [t])[..|done|] == done;
  }

  lemma OneMoreMisfit(show: Json -> string, profiles: Profiles, done: seq<Target>, t: Target, request: Request)
    requires Known(profiles, done) && t.provider in profiles
    ensures Known(profiles, done + [t])
    ensures SomeMisfit(show, profiles, done + [t], request) <==>
            SomeMisfit(show, profiles, done, request) || !Fitting(show, profiles, t, request)
  {
    assert t in done + [t];
    if u :| u in done && !Fitting(show, profiles, u, request) { assert u in done + [t]; }
  }

  lemma OneMoreCheck(show: Json -> string, profiles: Profiles, h: Histories, done: seq<Target>, t: Target,
                     request: Request, w: World)
    requires Known(profiles, done) && t.provider in profiles
    ensures Known(profiles, done + [t])
    ensures NoteChecks(show, profiles, h, done + [t], request, w) ==
            NoteStep(NoteChecks(show, profiles, h, done, request, w), w, |done|, t.provider,
                     CheckOps(show, profiles, t, request, w.clock(|done|)))
  {
    assert (done + [t])[..|done|] == done;
  }

  // ---------------------------------------------------------------- the breakers' clocks

  /** The breakers to which something has happened after `now`. */
  function Ahead(h: Histories, now: int): set<string> {
    set id | id in h && B.Clock(h[id], now) > now
  }

  /** Nothing has happened to any breaker after `now`. */
  predicate NotAfter(h: Histories, now: int) { Ahead(h, now) == {} }

  lemma ClockNotAfter(h: Histories, now: int, id: string)
    requires NotAfter(h, now) && id in h
    ensures B.Clock(h[id], now) <= now
  {
    assert id !in Ahead(h, now);
  }

  lemma NotAfterLater(h: Histories, now: int, later: int)
    requires NotAfter(h, now) && now <= later
    ensures NotAfter(h, later)
  {
    forall id | id in h ensures B.Clock(h[id], later) <= later {
      ClockNotAfter(h, now, id);
    }
  }

  lemma NoteNotAfter(h: Histories, id: string, op: B.Op, now: int)
    requires NotAfter(h, now) && now <= op.at
    ensures NotAfter(Note(h, id, op), op.at)
  {
    forall x | x in h ensures B.Clock(Note(h, id, op)[x], op.at) <= op.at {
      ClockNotAfter(h, now, x);
    }
  }

  lemma NoteNothing(h: Histories, id: string)
    ensures NoteAll(h, id, []) == h
  {
    if id in h {
      assert h[id] + [] == h[id];
    }
  }

  lemma ToldNotAfter(h: Histories, id: string, ops: seq<B.Op>, now: int)
    requires NotAfter(h, now) && forall op | op in ops :: op.at == now
    ensures NotAfter(NoteAll(h, id, ops), now)
  {
    if ops == [] {
      NoteNothing(h, id);
    } else {
      forall x | x in h ensures B.Clock(NoteAll(h, id, ops)[x], now) <= now {
        ClockNotAfter(h, now, x);
        assert ops[|ops| - 1] in ops;
      }
    }
  }

  lemma {:induction false} FirstNotAfter(h: Histories, events: seq<Event>, n: nat, lo: int, hi: int)
    requires NotAfter(h, lo) && Between(events, lo, hi) && n <= |events|
    ensures NotAfter(NoteFirst(h, events, n), TimeAfter(events, n, lo))
  {
    if n > 0 {
      FirstNotAfter(h, events, n - 1, lo, hi);
      var e := events[n - 1];
      NoteNotAfter(NoteFirst(h, events, n - 1), e.id, e.op, TimeAfter(events, n - 1, lo));
    }
  }

  lemma OthersNotAfter(h: Histories, events: seq<Event>, lo: int, hi: int)
    requires NotAfter(h, lo) && Between(events, lo, hi)
    ensures NotAfter(NoteOthers(h, events), hi)
  {
    FirstNotAfter(h, events, |events|, lo, hi);
    NotAfterLater(NoteOthers(h, events), TimeAfter(events, |events|, lo), hi);
  }

  lemma StepNotAfter(h: Histories, w: World, j: nat, id: string, ops: seq<B.Op>)
    requires Orderly(w) && NotAfter(h, w.clock(j)) && forall op | op in ops :: op.at == w.clock(j)
    ensures NotAfter(NoteAll(h, id, ops), w.clock(j)) && Between(w.others(j), w.clock(j), w.clock(j + 1))
    ensures NotAfter(NoteStep(h, w, j, id, ops), w.clock(j + 1))
  {
    assert j !in Disorder(w);
    ToldNotAfter(h, id, ops, w.clock(j));
    OthersNotAfter(NoteAll(h, id, ops), w.others(j), w.clock(j), w.clock(j + 1));
  }

  // ---------------------------------------------------------------- the loops, step by step

  /** What the targets considered so far have done to the breakers. */
  ghost predicate ChecksMade(show: Json -> string, profiles: Profiles, was: Histories, h: Histories,
                             done: seq<Target>, request: Request, w: World)
    requires Known(profiles, done)
  {
    NotAfter(h, w.clock(|done|)) && h == NoteChecks(show, profiles, was, done, request, w)
  }

  lemma OneMoreChecked(show: Json -> string, profiles: Profiles, was: Histories, h: Histories,
                       done: seq<Target>, t: Target, request: Request, w: World)
    requires Known(profiles, done) && t.provider in profiles && Orderly(w)
    requires ChecksMade(show, profiles, was, h, done, request, w)
    ensures Known(profiles, done + [t])
    ensures ChecksMade(show, profiles, was,
                       NoteStep(h, w, |done|, t.provider, CheckOps(show, profiles, t, request, w.clock(|done|))),
                       done + [t], request, w)
  {
    OneMoreCheck(show, profiles, was, done, t, request, w);
    StepNotAfter(h, w, |done|, t.provider, CheckOps(show, profiles, t, request, w.clock(|done|)));
  }

  /** A provider is up at a step by the history the breakers then have. */
  lemma UpNow(up: nat -> set<string>, s: B.Settings, show: Json -> string, profiles: Profiles, was: Histories,
              h: Histories,
              targets: seq<Target>, i: nat, request: Request, w: World, id: string)
    requires Known(profiles, targets) && i < |targets| && Known(profiles, targets[..i])
    requires IsUp(up, s, show, profiles, was, targets, request, w)
    requires ChecksMade(show, profiles, was, h, targets[..i], request, w) && id in h
    ensures id in up(i) <==> !B.Refused(s, h[id], w.clock(i))
    ensures B.Clock(h[id], w.clock(i)) <= w.clock(i)
  {
    assert up(i) == UpAt(s, show, profiles, was, targets, request, w, i);
    ClockNotAfter(h, w.clock(i), id);
  }

  /** What has been found among them. */
  ghost predicate FoundSoFar(show: Json -> string, profiles: Profiles, up: nat -> set<string>, done: seq<Target>,
                             request: Request,
                             compatible: seq<Candidate>, misfit: bool)
    requires Known(profiles, done)
  {
    compatible == Compatible(show, profiles, up, done, request) &&
        (misfit <==> SomeMisfit(show, profiles, done, request))
  }

  lemma OneMoreFound(show: Json -> string, profiles: Profiles, up: nat -> set<string>, done: seq<Target>, t: Target,
                     request: Request,
                     compatible: seq<Candidate>, misfit: bool)
    requires Known(profiles, done) && t.provider in profiles
    requires FoundSoFar(show, profiles, up, done, request, compatible, misfit)
    ensures Known(profiles, done + [t])
    ensures var fits := Fitting(show, profiles, t, request);
            var found := if fits && t.provider in up(|done|)
                         then [Candidate(t, Adapt(show, profiles[t.provider], request).value)] else [];
            FoundSoFar(show, profiles, up, done + [t], request, compatible + found, misfit || !fits)
  {
    OneMoreTarget(show, profiles, up, done, t, request);
    OneMoreMisfit(show, profiles, done, t, request);
  }

  /** What the first `n` attempts have done to the breakers. */
  ghost predicate Reported<R>(h: Histories, was: Histories, order: seq<Candidate>, answers: seq<Net<R>>, n: nat,
                              streaming: bool, w: World, b: nat)
    requires n <= |order| == |answers|
  {
    NotAfter(h, w.clock(b + n)) && h == NoteAttempts(was, order, answers, n, streaming, w, b)
  }

  lemma OneMoreReported<R>(h: Histories, was: Histories, order: seq<Candidate>, answers: seq<Net<R>>, k: nat,
                           streaming: bool, w: World, b: nat)
    requires k < |order| == |answers| && Orderly(w) && Reported(h, was, order, answers, k, streaming, w, b)
    ensures Reported(NoteStep(h, w, b + k, order[k].target.provider, OpsOf(answers[k], streaming, w.clock(b + k))),
                     was, order, answers, k + 1, streaming, w, b)
  {
    StepNotAfter(h, w, b + k, order[k].target.provider, OpsOf(answers[k], streaming, w.clock(b + k)));
    assert b + (k + 1) == (b + k) + 1;
  }

  /** What the loop knows: `k` retryable attempts, and one more if there is a reason to stop. */
  ghost predicate Asked<R>(answers: seq<Net<R>>, k: nat, stop: Option<Net<R>>, errors: seq<ProxyError>) {
    && k <= |answers| && FirstRetryable(answers, k) && LastRefused(answers, k, errors)
    && (stop.Some? ==> k < |answers| && answers[k] == stop.value && !Retryable(answers[k]))
  }

  lemma OneMoreAsked<R>(answers: seq<Net<R>>, k: nat, errors: seq<ProxyError>)
    requires k < |answers| && Asked(answers, k, None, errors)
    ensures if Retryable(answers[k]) then Asked(answers, k + 1, None, errors + [answers[k].error])
            else Asked(answers, k, Some(answers[k]), errors)
  {
  }

  /** How many attempts have been made. */
  function Made<R>(k: nat, stop: Option<Net<R>>): nat { if stop.Some? then k + 1 else k }

  /** The items of an upstream stream up to its first error, which ends it. */
  function UpToError(items: seq<Result<ProviderEvent, ErrorKind>>): seq<Result<ProviderEvent, ErrorKind>> {
    if items == [] then [] else if items[0].Err? then [items[0]] else [items[0]] + UpToError(items[1..])
  }

  /** What a stream read to its end reports to its provider's breaker. */
  function StreamVerdict(items: seq<Result<ProviderEvent, ErrorKind>>, now: int): B.Op {
    var sent := UpToError(items);
    if sent != [] && sent[|sent| - 1].Err? then B.Failed(sent[|sent| - 1].error, now) else B.Succeeded(now)
  }

  /** What is read of a stream when no item comes in time at position `stall`, if there is such a position. */
  function Relayed(items: seq<Result<ProviderEvent, ErrorKind>>,
                   stall: Option<nat>): seq<Result<ProviderEvent, ErrorKind>> {
    if StallsIn(items, stall) then UpToError(items)[..stall.value] else UpToError(items)
  }

  predicate StallsIn(items: seq<Result<ProviderEvent, ErrorKind>>, stall: Option<nat>) {
    stall.Some? && stall.value < |UpToError(items)|
  }

  /** A stream that is given up before its end reports nothing. */
  function Verdict(items: seq<Result<ProviderEvent, ErrorKind>>, stall: Option<nat>, now: int): seq<B.Op> {
    if StallsIn(items, stall) then [] else [StreamVerdict(items, now)]
  }

  lemma UpToErrorFirst(items: seq<Result<ProviderEvent, ErrorKind>>)
    requires items != []
    ensures UpToError(items) == if items[0].Err? then [items[0]] else [items[0]] + UpToError(items[1..])
  {
  }

  lemma UpToErrorNext(items: seq<Result<ProviderEvent, ErrorKind>>, now: int)
    requires items != [] && items[0].Ok?
    ensures StreamVerdict(items[1..], now) == StreamVerdict(items, now)
  {
    var rest := UpToError(items[1..]);
    if rest != [] {
      assert ([items[0]] + rest)[|rest|] == rest[|rest| - 1];
    }
  }

  // ---------------------------------------------------------------- the router as it runs

  predicate Apart(breakers: map<string, B.CircuitBreaker>) {
    forall i, j {:trigger breakers[i], breakers[j]} | i in breakers && j in breakers && i != j ::
      breakers[i] != breakers[j]
  }

  class Router {
    const profiles: Profiles
    const settings: B.Settings
    const maxAttempts: nat
    const breakers: map<string, B.CircuitBreaker>
    ghost const owned: set<B.CircuitBreaker>
    /** What has happened to each breaker. */
    ghost var histories: Histories

    constructor (profiles: Profiles, settings: B.Settings, maxAttempts: nat)
      ensures Valid() && this.profiles == profiles && this.settings == settings && this.maxAttempts == maxAttempts
      ensures fresh(owned)
      ensures forall id | id in histories :: histories[id] == []
    {
      var made: map<string, B.CircuitBreaker> := map[];
      var todo := profiles.Keys;
      while todo != {}
        invariant made.Keys == profiles.Keys - todo && todo <= profiles.Keys
        invariant forall id | id in made :: fresh(made[id]) && allocated(made[id])
        invariant forall id | id in made :: made[id].Valid() && made[id].settings == settings && made[id].history == []
        invariant Apart(made)
        decreases todo
      {
        var id :| id in todo;
        var breaker := new B.CircuitBreaker(settings);
        made := made[id := breaker];
        todo := todo - {id};
      }
      this.profiles, this.settings, this.maxAttempts := profiles, settings, maxAttempts;
      breakers, owned := made, made.Values;
      histories := map id | id in profiles :: [];
    }

    /** This provider's breaker is in the state its history accounts for. */
    ghost predicate Tied(id: string)
      requires id in breakers && id in histories
      reads this, owned
    {
      breakers[id] in owned && breakers[id].Valid() && breakers[id].settings == settings &&
          breakers[id].history == histories[id]
    }

    /** The providers whose breakers are not in that state. */
    ghost function Astray(): set<string>
      requires breakers.Keys == profiles.Keys && histories.Keys == profiles.Keys
      reads this, owned
    {
      set id | id in profiles && !Tied(id)
    }

    /** Every provider has a breaker of its own, in the state its history accounts for. */
    ghost predicate Valid() reads this, owned {
      breakers.Keys == profiles.Keys && histories.Keys == profiles.Keys && Apart(breakers) && Astray() == {}
    }

    method TellSuccess(id: string, at: int)
      requires Valid() && id in profiles && B.Clock(histories[id], at) <= at
      modifies this`histories, owned
      ensures Valid() && histories == Note(old(histories), id, B.Succeeded(at))
    {
      assert Tied(id) by { assert id !in Astray(); }
      breakers[id].RecordSuccess(at);
      histories := histories[id := histories[id] + [B.Succeeded(at)]];
      forall x | x in profiles ensures Tied(x) {
        assert x !in old(Astray()) && (x != id ==> breakers[x] != breakers[id]);
      }
    }

    method TellFailure(id: string, kind: ErrorKind, at: int)
      requires Valid() && id in profiles && B.Clock(histories[id], at) <= at
      modifies this`histories, owned
      ensures Valid() && histories == Note(old(histories), id, B.Failed(kind, at))
    {
      assert Tied(id) by { assert id !in Astray(); }
      breakers[id].RecordFailure(kind, at);
      histories := histories[id := histories[id] + [B.Failed(kind, at)]];
      forall x | x in profiles ensures Tied(x) {
        assert x !in old(Astray()) && (x != id ==> breakers[x] != breakers[id]);
      }
    }

    method Available(id: string, now: int) returns (available: bool)
      requires Valid() && id in profiles && B.Clock(histories[id], now) <= now
      modifies this`histories, owned
      ensures Valid() && histories == Note(old(histories), id, B.Checked(now))
      ensures available <==> !B.Refused(settings, old(histories)[id], now)
    {
      assert Tied(id) by { assert id !in Astray(); }
      available := breakers[id].Available(now);
      histories := Note(histories, id, B.Checked(now));
      forall x | x in profiles ensures Tied(x) {
        assert x !in old(Astray()) && (x != id ==> breakers[x] != breakers[id]);
      }
    }

    /** One target of the route: does it fit, and is its circuit closed? */
    method Consider(show: Json -> string, t: Target, request: Request, now: int)
      returns (found: seq<Candidate>, fits: bool)
      requires Valid() && t.provider in profiles && B.Clock(histories[t.provider], now) <= now
      modifies this`histories, owned
      ensures Valid()
      ensures fits <==> Fitting(show, profiles, t, request)
      ensures found == if fits && !B.Refused(settings, old(histories)[t.provider], now)
                       then [Candidate(t, Adapt(show, profiles[t.provider], request).value)] else []
      ensures histories == NoteAll(old(histories), t.provider, CheckOps(show, profiles, t, request, now))
    {
      var adapted := AdaptRequest(show, profiles[t.provider], request);
      if adapted.Err? {
        NoteNothing(histories, t.provider);
        return [], false;
      }
      var available := Available(t.provider, now);
      return if available then [Candidate(t, adapted.value)] else [], true;
    }

    /** One thing another request does. */
    method Happen(id: string, op: B.Op)
      requires Valid() && NotAfter(histories, op.at)
      modifies this`histories, owned
      ensures Valid() && histories == Note(old(histories), id, op)
    {
      if id in profiles {
        ClockNotAfter(histories, op.at, id);
        match op {
          case Checked(at) => var _ := Available(id, at);
          case Succeeded(at) => TellSuccess(id, at);
          case Failed(kind, at) => TellFailure(id, kind, at);
        }
      }
    }

    /** Other requests act on the breakers. */
    method Interfere(events: seq<Event>, ghost lo: int, ghost hi: int)
      requires Valid() && NotAfter(histories, lo) && Between(events, lo, hi)
      modifies this`histories, owned
      ensures Valid() && histories == NoteOthers(old(histories), events)
    {
      ghost var was := histories;
      var n := 0;
      while n < |events|
        invariant n <= |events| && Valid() && histories == NoteFirst(was, events, n)
      {
        FirstNotAfter(was, events, n, lo, hi);
        assert TimeAfter(events, n, lo) <= events[n].op.at;
        NotAfterLater(histories, TimeAfter(events, n, lo), events[n].op.at);
        Happen(events[n].id, events[n].op);
        n := n + 1;
      }
    }

    /** The body of the loop over the targets, and what others do before the next. */
    method ConsiderNext(show: Json -> string, targets: seq<Target>, request: Request, w: World, i: nat,
                        ghost was: Histories, ghost up: nat -> set<string>, before: seq<Candidate>, misfitBefore: bool)
      returns (compatible: seq<Candidate>, misfit: bool)
      requires Valid() && i < |targets| && Known(profiles, targets) && Known(profiles, targets[..i]) && Orderly(w)
      requires IsUp(up, settings, show, profiles, was, targets, request, w)
      requires ChecksMade(show, profiles, was, histories, targets[..i], request, w)
      requires FoundSoFar(show, profiles, up, targets[..i], request, before, misfitBefore)
      modifies this`histories, owned
      ensures Valid() && Known(profiles, targets[..i + 1])
      ensures ChecksMade(show, profiles, was, histories, targets[..i + 1], request, w)
      ensures FoundSoFar(show, profiles, up, targets[..i + 1], request, compatible, misfit)
    {
      var t := targets[i];
      assert t in targets && targets[..i + 1] == targets[..i] + [t];
      OneMoreChecked(show, profiles, was, histories, targets[..i], t, request, w);
      OneMoreFound(show, profiles, up, targets[..i], t, request, before, misfitBefore);
      UpNow(up, settings, show, profiles, was, histories, targets, i, request, w, t.provider);
      StepNotAfter(histories, w, i, t.provider, CheckOps(show, profiles, t, request, w.clock(i)));
      var found, fits := Consider(show, t, request, w.clock(i));
      Interfere(w.others(i), w.clock(i), w.clock(i + 1));
      compatible := before + found;
      misfit := misfitBefore || !fits;
    }

    method FindCompatible(show: Json -> string, targets: seq<Target>, request: Request, w: World,
                          ghost up: nat -> set<string>)
      returns (compatible: seq<Candidate>, misfit: bool)
      requires Valid() && Known(profiles, targets) && Orderly(w) && NotAfter(histories, w.clock(0))
      requires IsUp(up, settings, show, profiles, histories, targets, request, w)
      modifies this`histories, owned
      ensures Valid() && NotAfter(histories, w.clock(|targets|))
      ensures compatible == Compatible(show, profiles, up, targets, request)
      ensures misfit <==> SomeMisfit(show, profiles, targets, request)
      ensures histories == NoteChecks(show, profiles, old(histories), targets, request, w)
    {
      compatible, misfit := [], false;
      ghost var was := histories;
      var i := 0;
      assert targets[..0] == [];
      while i < |targets|
        invariant i <= |targets| && Valid() && Known(profiles, targets[..i])
        invariant ChecksMade(show, profiles, was, histories, targets[..i], request, w)
        invariant FoundSoFar(show, profiles, up, targets[..i], request, compatible, misfit)
      {
        compatible, misfit := ConsiderNext(show, targets, request, w, i, was, up, compatible, misfit);
        i := i + 1;
      }
      assert targets[..i] == targets;
    }

    method FindCandidates(show: Json -> string, targets: seq<Target>, request: Request, draws: seq<nat>, w: World,
                          ghost v: View)
      returns (r: Result<seq<Candidate>, ProxyError>)
      requires Valid() && Known(profiles, targets) && Orderly(w) && NotAfter(histories, w.clock(0))
      requires IsUp(v.up, settings, show, profiles, histories, targets, request, w)
      requires IsShuffle(v, draws) && Drawable(show, profiles, v, targets, request)
      modifies this`histories, owned
      ensures Valid() && NotAfter(histories, w.clock(|targets|))
      ensures r == Candidates(show, profiles, v, targets, request, draws)
      ensures histories == NoteChecks(show, profiles, old(histories), targets, request, w)
    {
      ShuffleSuited(show, profiles, v, targets, request, draws);
      var compatible, misfit := FindCompatible(show, targets, request, w, v.up);
      if compatible == [] {
        return Err(if misfit then Invalid() else ProxyError(Overloaded, false));
      }
      var order := WeightedPriorityOrder(compatible, draws);
      return Ok(order);
    }

    method Attempt<R>(show: Json -> string, c: Candidate, net: Net<R>) returns (r: Net<R>)
      requires c.target.provider in profiles
      ensures r == Try(show, profiles, c, net)
    {
      var adapted := AdaptRequest(show, profiles[c.target.provider], c.request);
      if adapted.Err? {
        return Refused(adapted.error);
      }
      var body := Translation.ConvertMessages(show, adapted.value.messages);
      if body.Err? {
        return Refused(body.error);
      }
      return net;
    }

    /** `record_success` or `record_failure` for one attempt. */
    method Record<R>(id: string, net: Net<R>, streaming: bool, now: int)
      requires Valid() && id in profiles && B.Clock(histories[id], now) <= now
      modifies this`histories, owned
      ensures Valid() && histories == NoteAll(old(histories), id, OpsOf(net, streaming, now))
    {
      match net
      case Answered(_) =>
        if !streaming {
          TellSuccess(id, now);
        } else {
          assert histories[id] + [] == histories[id];
        }
      case Refused(e) => TellFailure(id, e.kind, now);
      case TimedOut => TellFailure(id, Timeout, now);
    }

    /** One attempt, what its provider's breaker is told of it, and what others do before the next. */
    method AttemptAndReport<R>(show: Json -> string, c: Candidate, net: Net<R>, w: World, j: nat, streaming: bool)
      returns (r: Net<R>)
      requires Valid() && c.target.provider in profiles && Orderly(w) && NotAfter(histories, w.clock(j))
      modifies this`histories, owned
      ensures r == Try(show, profiles, c, net)
      ensures Valid()
      ensures histories == NoteStep(old(histories), w, j, c.target.provider, OpsOf(r, streaming, w.clock(j)))
    {
      r := Attempt(show, c, net);
      StepNotAfter(histories, w, j, c.target.provider, OpsOf(r, streaming, w.clock(j)));
      ClockNotAfter(histories, w.clock(j), c.target.provider);
      Record(c.target.provider, r, streaming, w.clock(j));
      Interfere(w.others(j), w.clock(j), w.clock(j + 1));
    }

    /** The body of the retry loop. */
    method TryNext<R>(show: Json -> string, order: seq<Candidate>, nets: nat -> Net<R>, streaming: bool, w: World,
                      b: nat, ghost answers: seq<Net<R>>, ghost was: Histories, k: nat, errors: seq<ProxyError>)
      returns (next: nat, stop: Option<Net<R>>, later: seq<ProxyError>)
      requires k < |order| && AllKnown(profiles, order) && Orderly(w)
      requires AreAnswers(show, profiles, order, nets, answers)
      requires Valid() && Reported(histories, was, order, answers, k, streaming, w, b) &&
               Asked(answers, k, None, errors)
      modifies this`histories, owned
      ensures Valid() && Made(next, stop) == k + 1 && Asked(answers, next, stop, later)
      ensures Reported(histories, was, order, answers, Made(next, stop), streaming, w, b)
    {
      assert order[k] in order;
      OneMoreReported(histories, was, order, answers, k, streaming, w, b);
      OneMoreAsked(answers, k, errors);
      var net := AttemptAndReport(show, order[k], nets(k), w, b + k, streaming);
      next := if Retryable(net) then k + 1 else k;
      stop := if Retryable(net) then None else Some(net);
      later := if Retryable(net) then errors + [net.error] else errors;
    }

    /** The retry loop: stops at the first answer that is not a retryable error, or runs out. */
    method RetryLoop<R>(show: Json -> string, order: seq<Candidate>, nets: nat -> Net<R>, streaming: bool, w: World,
                        b: nat, ghost answers: seq<Net<R>>)
      returns (k: nat, stop: Option<Net<R>>, errors: seq<ProxyError>)
      requires Valid() && AllKnown(profiles, order) && Orderly(w) && NotAfter(histories, w.clock(b))
      requires AreAnswers(show, profiles, order, nets, answers)
      modifies this`histories, owned
      ensures Valid() && Made(k, stop) <= |order| && Asked(answers, k, stop, errors)
      ensures Reported(histories, old(histories), order, answers, Made(k, stop), streaming, w, b)
      ensures Made(k, stop) <= maxAttempts && (stop.None? ==> k == |order| || k == maxAttempts)
    {
      ghost var was := histories;
      errors, k, stop := [], 0, None;
      while stop.None? && k < |order| && k < maxAttempts
        invariant Made(k, stop) <= maxAttempts
        invariant Valid() && Made(k, stop) <= |order| && Asked(answers, k, stop, errors)
        invariant Reported(histories, was, order, answers, Made(k, stop), streaming, w, b)
        decreases |order| - Made(k, stop)
      {
        k, stop, errors := TryNext(show, order, nets, streaming, w, b, answers, was, k, errors);
      }
    }

    method RunAttempts<R>(show: Json -> string, order: seq<Candidate>, nets: nat -> Net<R>, streaming: bool, w: World,
                          b: nat, ghost answers: seq<Net<R>>)
      returns (out: Outcome<R>)
      requires Valid() && AllKnown(profiles, order) && Orderly(w) && NotAfter(histories, w.clock(b))
      requires AreAnswers(show, profiles, order, nets, answers)
      modifies this`histories, owned
      ensures Valid() && out == Attempts(order, answers, maxAttempts) && |out.tried| <= |order|
      ensures Reported(histories, old(histories), order, answers, |out.tried|, streaming, w, b)
    {
      var k, stop, errors := RetryLoop(show, order, nets, streaming, w, b, answers);
      LoopEnds(order, answers, maxAttempts, k, stop);
      out := if stop.Some? then Outcome(order[..k + 1], ResultOf(stop.value))
             else Outcome(order[..k], Err(if errors == [] then NO_TARGET else errors[|errors| - 1]));
    }

    /** The attempts on the candidates, if there are any. */
    method TryAll<R>(show: Json -> string, candidates: Result<seq<Candidate>, ProxyError>, nets: nat -> Net<R>,
                     streaming: bool, w: World, b: nat, ghost answers: seq<Net<R>>)
      returns (out: Outcome<R>)
      requires Valid() && Orderly(w) && NotAfter(histories, w.clock(b))
      requires candidates.Ok? ==> AllKnown(profiles, candidates.value)
      requires Answering(show, profiles, candidates, nets, answers)
      modifies this`histories, owned
      ensures Valid() && NotAfter(histories, w.clock(b + |out.tried|))
      ensures out == Run(candidates, answers, maxAttempts)
      ensures histories == NoteRun(old(histories), candidates, answers, |out.tried|, streaming, w, b)
    {
      if candidates.Ok? {
        out := RunAttempts(show, candidates.value, nets, streaming, w, b, answers);
      } else {
        out := Outcome([], Err(candidates.error));
      }
    }

    /** The first candidate's token count, if there is one. */
    method CountFirst(show: Json -> string, candidates: Result<seq<Candidate>, ProxyError>, ghost request: Request,
                      tokens: Request -> Result<U64, ProxyError>)
      returns (r: Result<U64, ProxyError>)
      requires candidates.Ok? ==> candidates.value != [] && Suited(show, profiles, request, candidates.value[0])
      ensures r == Counted(candidates, tokens)
    {
      if candidates.Err? {
        return Err(candidates.error);
      }
      r := CountTokens(show, candidates.value[0], request, tokens);
    }

    /** The attempts of a streamed request, after the token count. */
    method TryStream<R>(show: Json -> string, candidates: Result<seq<Candidate>, ProxyError>, ghost request: Request,
                        tokens: Request -> Result<U64, ProxyError>, nets: nat -> Net<R>, w: World, b: nat,
                        ghost answers: seq<Net<R>>)
      returns (inputTokens: U64, out: Outcome<R>)
      requires Valid() && Orderly(w) && NotAfter(histories, w.clock(b))
      requires candidates.Ok? ==> candidates.value != [] && AllKnown(profiles, candidates.value)
      requires Answering(show, profiles, candidates, nets, answers)
      requires candidates.Ok? ==> Suited(show, profiles, request, candidates.value[0])
      modifies this`histories, owned
      ensures Valid() && NotAfter(histories, w.clock(b + |out.tried|))
      ensures (inputTokens, out) == Streamed(candidates, tokens, answers, maxAttempts)
      ensures histories == NoteRun(old(histories), candidates, answers, |out.tried|, true, w, b)
    {
      var counted := CountFirst(show, candidates, request, tokens);
      if counted.Ok? {
        inputTokens := counted.value;
        out := TryAll(show, candidates, nets, true, w, b, answers);
      } else {
        inputTokens, out := 0, Outcome([], Err(counted.error));
      }
    }

    /** `Router::execute`. */
    method Execute<R>(show: Json -> string, targets: seq<Target>, request: Request, draws: seq<nat>,
                      nets: nat -> Net<R>, w: World, ghost v: View)
      returns (out: Outcome<R>, ghost answers: seq<Net<R>>)
      requires Valid() && Known(profiles, targets) && Orderly(w) && NotAfter(histories, w.clock(0))
      requires IsUp(v.up, settings, show, profiles, histories, targets, request, w)
      requires IsShuffle(v, draws) && Drawable(show, profiles, v, targets, request)
      modifies this`histories, owned
      ensures Valid() && NotAfter(histories, w.clock(|targets| + |out.tried|))
      ensures var candidates := Candidates(show, profiles, v, targets, request, draws);
              && Answering(show, profiles, candidates, nets, answers)
              && out == Run(candidates, answers, maxAttempts)
              && histories == NoteRun(NoteChecks(show, profiles, old(histories), targets, request, w), candidates,
                                      answers, |out.tried|, false, w, |targets|)
    {
      var candidates := FindCandidates(show, targets, request, draws, w, v);
      answers := SomeAnswers(show, profiles, candidates, nets);
      out := TryAll(show, candidates, nets, false, w, |targets|, answers);
    }

    /** `Router::stream`: the first candidate's token count, then an established stream or an error. */
    method Stream<R>(show: Json -> string, targets: seq<Target>, request: Request, draws: seq<nat>,
                     tokens: Request -> Result<U64, ProxyError>, nets: nat -> Net<R>, w: World, ghost v: View)
      returns (inputTokens: U64, out: Outcome<R>, ghost answers: seq<Net<R>>)
      requires Valid() && Known(profiles, targets) && Orderly(w) && NotAfter(histories, w.clock(0))
      requires IsUp(v.up, settings, show, profiles, histories, targets, request, w)
      requires IsShuffle(v, draws) && Drawable(show, profiles, v, targets, request)
      modifies this`histories, owned
      ensures Valid() && NotAfter(histories, w.clock(|targets| + |out.tried|))
      ensures var candidates := Candidates(show, profiles, v, targets, request, draws);
              && Answering(show, profiles, candidates, nets, answers)
              && (inputTokens, out) == Streamed(candidates, tokens, answers, maxAttempts)
              && histories == NoteRun(NoteChecks(show, profiles, old(histories), targets, request, w), candidates,
                                      answers, |out.tried|, true, w, |targets|)
    {
      var candidates := FindCandidates(show, targets, request, draws, w, v);
      FirstSuited(show, profiles, v, targets, request, draws);
      answers := SomeAnswers(show, profiles, candidates, nets);
      inputTokens, out := TryStream(show, candidates, request, tokens, nets, w, |targets|, answers);
    }

    /** `Provider::count_tokens` on a candidate, which adapts its request again. */
    method CountTokens(show: Json -> string, c: Candidate, ghost request: Request,
                       tokens: Request -> Result<U64, ProxyError>)
      returns (r: Result<U64, ProxyError>)
      requires Suited(show, profiles, request, c)
      ensures r == tokens(c.request)
    {
      AdaptTwice(show, profiles[c.target.provider], request);
      var adapted := AdaptRequest(show, profiles[c.target.provider], c.request);
      r := tokens(adapted.value);
    }

    /**
     * The stream handed to the server: one provider's items, and one verdict when it is read to
     * its end. The server gives it up when no item comes in time.
     */
    method Relay(id: string, items: seq<Result<ProviderEvent, ErrorKind>>, stall: Option<nat>, now: int)
      returns (sent: seq<Result<ProviderEvent, ErrorKind>>)
      requires Valid() && id in profiles && B.Clock(histories[id], now) <= now
      modifies this`histories, owned
      ensures Valid() && sent == Relayed(items, stall)
      ensures histories == NoteAll(old(histories), id, Verdict(items, stall, now))
    {
      var error;
      var whole;
      sent, whole, error := ReadItems(items, stall, now);
      if whole {
        if error.Some? {
          TellFailure(id, error.value, now);
        } else {
          TellSuccess(id, now);
        }
      } else {
        assert histories[id] + [] == histories[id];
      }
    }
  }

  /** The relaying loop: what it passes on, whether it reached the end, and with which error. */
  method ReadItems(items: seq<Result<ProviderEvent, ErrorKind>>, stall: Option<nat>, ghost now: int)
    returns (sent: seq<Result<ProviderEvent, ErrorKind>>, whole: bool, error: Option<ErrorKind>)
    ensures sent == Relayed(items, stall)
    ensures whole <==> !StallsIn(items, stall)
    ensures whole ==> StreamVerdict(items, now) == if error.Some? then B.Failed(error.value, now) else B.Succeeded(now)
  {
    sent := [];
    var rest := items;
    while rest != []
      invariant UpToError(items) == sent + UpToError(rest)
      invariant StreamVerdict(items, now) == StreamVerdict(rest, now)
      invariant stall.Some? ==> |sent| <= stall.value
      decreases |rest|
    {
      if stall == Some(|sent|) {
        return sent, false, None;
      }
      UpToErrorFirst(rest);
      if rest[0].Err? {
        return sent + [rest[0]], true, Some(rest[0].error);
      }
      UpToErrorNext(rest, now);
      Associative(sent, [rest[0]], UpToError(rest[1..]));
      sent := sent + [rest[0]];
      rest := rest[1..];
    }
    assert sent + [] == sent;
    return sent, true, None;
  }
}
