/** The sliding-window limiter and the concurrency permit of a client (src/auth.rs). */
module Admission {

  /** Sixty seconds, in nanoseconds. */
  const WINDOW: int := 60_000_000_000

  predicate Ordered(times: seq<int>) {
    forall i, j | 0 <= i < j < |times| :: times[i] <= times[j]
  }

  /** The times in `(now - 60s, now]` and later. */
  function Recent(times: seq<int>, now: int): seq<int> {
    if times == [] then []
    else
      var last := times[|times| - 1];
      Recent(times[..|times| - 1], now) + (if last > now - WINDOW then [last] else [])
  }

  /** The times in `(t - 60s, t]`. */
  function InWindow(times: seq<int>, t: int): seq<int> {
    if times == [] then []
    else
      var last := times[|times| - 1];
      InWindow(times[..|times| - 1], t) + (if t - WINDOW < last <= t then [last] else [])
  }

  lemma {:induction false} RecentIn(times: seq<int>, now: int)
    ensures forall x | x in Recent(times, now) :: x in times && x > now - WINDOW
    ensures |Recent(times, now)| <= |times|
  {
    if times != [] {
      RecentIn(times[..|times| - 1], now);
    }
  }

  lemma {:induction false} RecentAll(times: seq<int>, now: int)
    requires forall i | 0 <= i < |times| :: times[i] > now - WINDOW
    ensures Recent(times, now) == times
  {
    if times != [] {
      RecentAll(times[..|times| - 1], now);
    }
  }

  lemma {:induction false} RecentOrdered(times: seq<int>, now: int)
    requires Ordered(times)
    ensures Ordered(Recent(times, now))
  {
    if times != [] {
      var n := |times| - 1;
      RecentOrdered(times[..n], now);
      RecentIn(times[..n], now);
      var r := Recent(times[..n], now);
      forall k | 0 <= k < |r| ensures r[k] <= times[n] {
        assert r[k] in r;
        var i :| 0 <= i < n && times[..n][i] == r[k];
      }
      assert r + [] == r;
    }
  }

  lemma {:induction false} RecentDrop(times: seq<int>, now: int)
    requires times != [] && times[0] <= now - WINDOW
    ensures Recent(times, now) == Recent(times[1..], now)
  {
    if |times| == 1 {
      assert times[..0] == [] && times[1..] == [];
    } else {
      RecentDrop(times[..|times| - 1], now);
      assert times[..|times| - 1][1..] == times[1..][..|times| - 2];
    }
  }

  lemma {:induction false} RecentTwice(times: seq<int>, before: int, now: int)
    requires before <= now
    ensures Recent(Recent(times, before), now) == Recent(times, now)
  {
    if times != [] {
      var n := |times| - 1;
      RecentTwice(times[..n], before, now);
      var r := Recent(times[..n], before);
      if times[n] > before - WINDOW {
        assert (r + [times[n]])[..|r|] == r;
      } else {
        assert r + [] == r;
      }
    }
  }

  /** Each acceptance, in order, found fewer than `limit` acceptances in the sixty seconds before it. */
  predicate Limited(accepted: seq<int>, limit: nat) {
    accepted == [] ||
    var before, last := accepted[..|accepted| - 1], accepted[|accepted| - 1];
    && Limited(before, limit)
    && (forall x | x in before :: x <= last)
    && |Recent(before, last)| < limit
  }

  lemma {:induction false} LimitedOrdered(accepted: seq<int>, limit: nat)
    requires Limited(accepted, limit)
    ensures Ordered(accepted)
  {
    if accepted != [] {
      LimitedOrdered(accepted[..|accepted| - 1], limit);
      assert forall i | 0 <= i < |accepted| - 1 :: accepted[i] in accepted[..|accepted| - 1];
    }
  }

  lemma {:induction false} InWindowRecent(times: seq<int>, x: int, t: int)
    requires x <= t
    ensures |InWindow(times, t)| <= |Recent(times, x)|
  {
    if times != [] {
      InWindowRecent(times[..|times| - 1], x, t);
    }
  }

  /** So no sixty-second window, wherever it lies, holds more than `limit` acceptances. */
  lemma {:induction false} NoWindowOverLimit(accepted: seq<int>, limit: nat, t: int)
    requires Limited(accepted, limit)
    ensures |InWindow(accepted, t)| <= limit
  {
    if accepted != [] {
      var n := |accepted| - 1;
      if accepted[n] <= t {
        InWindowRecent(accepted[..n], accepted[n], t);
      } else {
        NoWindowOverLimit(accepted[..n], limit, t);
      }
    }
  }

  lemma LimitedSnoc(accepted: seq<int>, limit: nat, now: int)
    requires Limited(accepted, limit) && |Recent(accepted, now)| < limit
    requires forall x | x in accepted :: x <= now
    ensures Limited(accepted + [now], limit)
    ensures Recent(accepted + [now], now) == Recent(accepted, now) + [now]
  {
    assert (accepted + [now])[..|accepted|] == accepted;
  }

  /** A time is recent for less than sixty seconds, counted in nanoseconds. */
  lemma RecentExactly(times: seq<int>, x: int, now: int)
    ensures Recent([], now) == [] && InWindow([], now) == []
    ensures Recent(times + [x], now) ==
            if now - x < 60_000_000_000 then Recent(times, now) + [x] else Recent(times, now)
    ensures InWindow(times + [x], now) ==
            if 0 <= now - x < 60_000_000_000 then InWindow(times, now) + [x] else InWindow(times, now)
  {
    assert (times + [x])[..|times|] == times;
  }

  datatype Verdict = Granted | OverRate | OverConcurrency

  class ClientIdentity {
    const requestsPerMinute: nat
    const permits: nat
    var limiter: seq<int>
    var free: nat
    /** Every time at which the limiter let a call pass, and the time of the last call. */
    ghost var accepted: seq<int>
    ghost var clock: int

    /** The deque is exactly the last minute of the history, and the history respects the limit. */
    ghost predicate Valid() reads this {
      && Limited(accepted, requestsPerMinute) && (forall x | x in accepted :: x <= clock)
      && limiter == Recent(accepted, clock) && free <= permits
    }

    constructor (requestsPerMinute: nat, permits: nat, now: int)
      ensures Valid() && accepted == [] && clock == now && free == permits
      ensures this.requestsPerMinute == requestsPerMinute && this.permits == permits
    {
      this.requestsPerMinute, this.permits, limiter, free := requestsPerMinute, permits, [], permits;
      accepted, clock := [], now;
    }

    /** `acquire`: a call is over the rate exactly when the last minute of the history is full. */
    method Acquire(now: int) returns (verdict: Verdict)
      requires Valid() && clock <= now
      modifies this
      ensures Valid() && clock == now && limiter == Recent(accepted, now)
      ensures verdict == OverRate <==> |Recent(old(accepted), now)| >= requestsPerMinute
      ensures accepted == if verdict == OverRate then old(accepted) else old(accepted) + [now]
      ensures verdict == OverConcurrency <==> |Recent(old(accepted), now)| < requestsPerMinute && old(free) == 0
      ensures free == if verdict == Granted then old(free) - 1 else old(free)
    {
      RecentTwice(accepted, clock, now);
      LimitedOrdered(accepted, requestsPerMinute);
      RecentOrdered(accepted, clock);
      limiter := Evict(limiter, now);
      clock := now;
      if |limiter| >= requestsPerMinute {
        return OverRate;
      }
      LimitedSnoc(accepted, requestsPerMinute, now);
      limiter := limiter + [now];
      accepted := accepted + [now];
      if free == 0 {
        return OverConcurrency;
      }
      free := free - 1;
      return Granted;
    }

    /** Dropping a permit. */
    method Release()
      requires Valid() && free < permits
      modifies this`free
      ensures Valid() && free == old(free) + 1
    {
      free := free + 1;
    }
  }

  /** Pops expired times from the front. */
  method Evict(times: seq<int>, now: int) returns (left: seq<int>)
    requires Ordered(times)
    ensures left == Recent(times, now)
  {
    left := times;
    while left != [] && left[0] <= now - WINDOW
      invariant Recent(times, now) == Recent(left, now) && Ordered(left)
      decreases |left|
    {
      RecentDrop(left, now);
      left := left[1..];
    }
    RecentAll(left, now);
  }
}

/** Client and global permits of interleaved requests (src/server.rs, src/auth.rs). */
module Permits {

  /** How far a request has come; a live stream holds both permits. */
  datatype Holding = ClientOnly(client: string) | Both(client: string)

  datatype State = State(clientFree: map<string, nat>, globalFree: nat, live: map<nat, Holding>)

  /**
   * One request takes its permits in two steps and gives them back in one, whatever ends it:
   * a refusal, an error, a finished answer, a finished stream, or a client that goes away.
   */
  datatype Step =
    | TakeClient(request: nat, client: string)
    | TakeGlobal(request: nat)
    | End(request: nat)

  function GiveClient(s: State, client: string): map<string, nat> {
    if client in s.clientFree then s.clientFree[client := s.clientFree[client] + 1] else s.clientFree
  }

  function Next(s: State, step: Step): State {
    match step
    case TakeClient(r, c) =>
      if r in s.live || c !in s.clientFree || s.clientFree[c] == 0 then s
      else State(s.clientFree[c := s.clientFree[c] - 1], s.globalFree, s.live[r := ClientOnly(c)])
    case TakeGlobal(r) =>
      if r !in s.live || s.live[r].Both? then s
      else if s.globalFree == 0 then State(GiveClient(s, s.live[r].client), s.globalFree, s.live - {r})
      else State(s.clientFree, s.globalFree - 1, s.live[r := Both(s.live[r].client)])
    case End(r) =>
      if r !in s.live then s
      else State(GiveClient(s, s.live[r].client),
                 if s.live[r].Both? then s.globalFree + 1 else s.globalFree, s.live - {r})
  }

  function Run(s: State, steps: seq<Step>): State {
    if steps == [] then s else Next(Run(s, steps[..|steps| - 1]), steps[|steps| - 1])
  }

  function Idle(clientCapacity: map<string, nat>, globalCapacity: nat): State {
    State(clientCapacity, globalCapacity, map[])
  }

  function HeldBy(live: map<nat, Holding>, client: string): set<nat> {
    set r | r in live && live[r].client == client
  }

  function HeldGlobally(live: map<nat, Holding>): set<nat> {
    set r | r in live && live[r].Both?
  }

  /** Free and held permits add up to the capacity, for each client and globally. */
  predicate Conserved(s: State, clientCapacity: map<string, nat>, globalCapacity: nat) {
    && s.clientFree.Keys == clientCapacity.Keys
    && (forall r | r in s.live :: s.live[r].client in clientCapacity)
    && (forall c | c in clientCapacity :: s.clientFree[c] + |HeldBy(s.live, c)| == clientCapacity[c])
    && s.globalFree + |HeldGlobally(s.live)| == globalCapacity
  }

  lemma ByAfterTake(live: map<nat, Holding>, r: nat, h: Holding, c: string)
    requires r !in live
    ensures |HeldBy(live[r := h], c)| == |HeldBy(live, c)| + (if h.client == c then 1 else 0)
  {
    assert HeldBy(live[r := h], c) == if h.client == c then HeldBy(live, c) + {r} else HeldBy(live, c);
  }

  lemma HeldAfterTake(live: map<nat, Holding>, r: nat, h: Holding, c: string)
    requires r !in live
    ensures |HeldBy(live[r := h], c)| == |HeldBy(live, c)| + (if h.client == c then 1 else 0)
    ensures |HeldGlobally(live[r := h])| == |HeldGlobally(live)| + (if h.Both? then 1 else 0)
  {
    ByAfterTake(live, r, h, c);
    assert HeldGlobally(live[r := h]) == if h.Both? then HeldGlobally(live) + {r} else HeldGlobally(live);
  }

  lemma HeldAfterEnd(live: map<nat, Holding>, r: nat, c: string)
    requires r in live
    ensures |HeldBy(live, c)| == |HeldBy(live - {r}, c)| + (if live[r].client == c then 1 else 0)
    ensures |HeldGlobally(live)| == |HeldGlobally(live - {r})| + (if live[r].Both? then 1 else 0)
  {
    var rest := live - {r};
    assert live == rest[r := live[r]];
    HeldAfterTake(rest, r, live[r], c);
  }

  lemma StepConserves(s: State, step: Step, clientCapacity: map<string, nat>, globalCapacity: nat)
    requires Conserved(s, clientCapacity, globalCapacity)
    ensures Conserved(Next(s, step), clientCapacity, globalCapacity)
  {
    var t := Next(s, step);
    if t != s {
      var r := step.request;
      forall c | c in clientCapacity ensures t.clientFree[c] + |HeldBy(t.live, c)| == clientCapacity[c] {
        LiveChange(s, step, c);
      }
      LiveChange(s, step, "");
    }
  }

  /** How one step changes the permits of one client, and the global ones. */
  lemma LiveChange(s: State, step: Step, c: string)
    requires Next(s, step) != s
    requires forall r | r in s.live :: s.live[r].client in s.clientFree
    ensures var t := Next(s, step);
            && t.clientFree.Keys == s.clientFree.Keys
            && (c in s.clientFree ==> t.clientFree[c] + |HeldBy(t.live, c)| == s.clientFree[c] + |HeldBy(s.live, c)|)
            && t.globalFree + |HeldGlobally(t.live)| == s.globalFree + |HeldGlobally(s.live)|
            && forall r | r in t.live :: t.live[r].client in s.clientFree
  {
    match step
    case TakeClient(r, client) => HeldAfterTake(s.live, r, ClientOnly(client), c);
    case End(r) => HeldAfterEnd(s.live, r, c);
    case TakeGlobal(r) =>
      HeldAfterEnd(s.live, r, c);
      if s.globalFree > 0 {
        var both := Both(s.live[r].client);
        HeldAfterTake(s.live - {r}, r, both, c);
        assert (s.live - {r})[r := both] == s.live[r := both];
      }
  }

  /** Permits are conserved under every interleaving of every number of requests. */
  lemma {:induction false} PermitsConserved(clientCapacity: map<string, nat>, globalCapacity: nat, steps: seq<Step>)
    ensures Conserved(Run(Idle(clientCapacity, globalCapacity), steps), clientCapacity, globalCapacity)
  {
    if steps == [] {
      assert HeldGlobally(map[]) == {};
      forall c ensures |HeldBy(map[], c)| == 0 {
        assert HeldBy(map[], c) == {};
      }
    } else {
      var n := |steps| - 1;
      PermitsConserved(clientCapacity, globalCapacity, steps[..n]);
      StepConserves(Run(Idle(clientCapacity, globalCapacity), steps[..n]), steps[n], clientCapacity, globalCapacity);
    }
  }

  /** The steps of other requests leave a request what it holds. */
  lemma {:induction false} OthersLeave(s: State, steps: seq<Step>, r: nat)
    requires forall step | step in steps :: step.request != r
    ensures r in Run(s, steps).live <==> r in s.live
    ensures r in s.live ==> Run(s, steps).live[r] == s.live[r]
  {
    if steps != [] {
      OthersLeave(s, steps[..|steps| - 1], r);
      assert steps[|steps| - 1] in steps;
    }
  }

  lemma {:induction false} RunAppend(s: State, a: seq<Step>, b: seq<Step>)
    ensures Run(s, a + b) == Run(Run(s, a), b)
  {
    if b == [] {
      assert a + b == a;
    } else {
      var n := |b| - 1;
      assert (a + b)[..|a + b| - 1] == a + b[..n];
      RunAppend(s, a, b[..n]);
    }
  }

  /** A new request gets its client permit exactly when fewer than the client's capacity are held. */
  lemma ClientStep(s: State, clientCapacity: map<string, nat>, globalCapacity: nat, r: nat, client: string)
    requires Conserved(s, clientCapacity, globalCapacity) && r !in s.live && client in clientCapacity
    ensures Next(s, TakeClient(r, client)).live ==
            if |HeldBy(s.live, client)| < clientCapacity[client] then s.live[r := ClientOnly(client)] else s.live
  {
    assert s.clientFree[client] + |HeldBy(s.live, client)| == clientCapacity[client];
  }

  /** A request with a client permit gets a global one exactly when fewer than the capacity are held. */
  lemma GlobalStep(s: State, clientCapacity: map<string, nat>, globalCapacity: nat, r: nat)
    requires Conserved(s, clientCapacity, globalCapacity)
    ensures Next(s, TakeGlobal(r)).live ==
            if r !in s.live || s.live[r].Both? then s.live
            else if |HeldGlobally(s.live)| < globalCapacity then s.live[r := Both(s.live[r].client)]
            else s.live - {r}
  {
  }

  /** What a run leaves conserved, one more step and another run leave conserved. */
  lemma StillConserved(clientCapacity: map<string, nat>, globalCapacity: nat, steps: seq<Step>, step: Step,
                       between: seq<Step>)
    ensures var s := Run(Idle(clientCapacity, globalCapacity), steps);
            && Conserved(s, clientCapacity, globalCapacity)
            && Conserved(Run(Next(s, step), between), clientCapacity, globalCapacity)
  {
    var start := Idle(clientCapacity, globalCapacity);
    assert (steps + [step])[..|steps|] == steps;
    RunAppend(start, steps + [step], between);
    PermitsConserved(clientCapacity, globalCapacity, steps);
    PermitsConserved(clientCapacity, globalCapacity, steps + [step] + between);
  }

  lemma AdmittedFrom(s: State, clientCapacity: map<string, nat>, globalCapacity: nat, between: seq<Step>, r: nat,
                     client: string)
    requires Conserved(s, clientCapacity, globalCapacity) && client in clientCapacity && r !in s.live
    requires forall step | step in between :: step.request != r
    ensures var t := Next(s, TakeClient(r, client));
            var u := Run(t, between);
            var room := |HeldBy(s.live, client)| < clientCapacity[client];
            && t.live == (if room then s.live[r := ClientOnly(client)] else s.live)
            && (if room then r in u.live && u.live[r] == ClientOnly(client) else r !in u.live)
  {
    ClientStep(s, clientCapacity, globalCapacity, r, client);
    OthersLeave(Next(s, TakeClient(r, client)), between, r);
  }

  /**
   * After any run a new request holds its client permit exactly when fewer than the client's
   * capacity are held. Whatever other requests do in between, it then becomes a live stream with
   * both permits exactly when fewer than the global capacity are held at that time; refused, it
   * keeps nothing.
   */
  lemma AdmittedExactly(clientCapacity: map<string, nat>, globalCapacity: nat, steps: seq<Step>, between: seq<Step>,
                        r: nat, client: string)
    requires client in clientCapacity && forall step | step in between :: step.request != r
    requires r !in Run(Idle(clientCapacity, globalCapacity), steps).live
    ensures var s := Run(Idle(clientCapacity, globalCapacity), steps);
            var t := Next(s, TakeClient(r, client));
            var u := Run(t, between);
            var room := |HeldBy(s.live, client)| < clientCapacity[client];
            && t.live == (if room then s.live[r := ClientOnly(client)] else s.live)
            && (if room then r in u.live && u.live[r] == ClientOnly(client) else r !in u.live)
            && Next(u, TakeGlobal(r)).live ==
               (if room && |HeldGlobally(u.live)| < globalCapacity then u.live[r := Both(client)] else u.live - {r})
  {
    var s := Run(Idle(clientCapacity, globalCapacity), steps);
    StillConserved(clientCapacity, globalCapacity, steps, TakeClient(r, client), between);
    AdmittedFrom(s, clientCapacity, globalCapacity, between, r, client);
    GlobalStep(Run(Next(s, TakeClient(r, client)), between), clientCapacity, globalCapacity, r);
  }

  /** When nothing is live, every permit is free again. */
  lemma AllReturned(clientCapacity: map<string, nat>, globalCapacity: nat, steps: seq<Step>)
    requires Run(Idle(clientCapacity, globalCapacity), steps).live == map[]
    ensures Run(Idle(clientCapacity, globalCapacity), steps) == Idle(clientCapacity, globalCapacity)
  {
    var s := Run(Idle(clientCapacity, globalCapacity), steps);
    PermitsConserved(clientCapacity, globalCapacity, steps);
    assert HeldGlobally(s.live) == {};
    forall c | c in clientCapacity ensures s.clientFree[c] == clientCapacity[c] {
      assert HeldBy(s.live, c) == {};
    }
  }

  /** Taking a permit and ending, or being refused globally, leaves everything as it was. */
  lemma TakenIsGivenBack(s: State, r: nat, client: string)
    requires r !in s.live
    ensures Next(Next(Next(s, TakeClient(r, client)), TakeGlobal(r)), End(r)) == s
    ensures s.globalFree == 0 ==> Next(Next(s, TakeClient(r, client)), TakeGlobal(r)) == s
  {
    var t := Next(s, TakeClient(r, client));
    if t != s {
      assert t.live - {r} == s.live;
      assert GiveClient(t, client) == s.clientFree;
      var u := Next(t, TakeGlobal(r));
      if s.globalFree > 0 {
        assert u.live - {r} == s.live;
      }
    }
  }
}
