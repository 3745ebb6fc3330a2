/** The circuit breaker of a provider (src/provider.rs): two fields against the whole history. */
module Breaker {
  import opened Domain

  datatype Settings = Settings(threshold: U32, cooldown: nat)

  datatype Circuit = Circuit(failures: U32, openUntil: Option<int>)

  const CLOSED := Circuit(0, None)

  /** What happens to a breaker; times are readings of the process clock. */
  datatype Op = Checked(at: int) | Succeeded(at: int) | Failed(kind: ErrorKind, at: int)

  predicate Counts(kind: ErrorKind) { kind.Upstream? || kind.Timeout? || kind.Overloaded? }

  predicate IsAvailable(c: Circuit, now: int) { c.openUntil.None? || now >= c.openUntil.value }

  function Next(failures: U32): U32 { if failures == 0xFFFF_FFFF then 0 else failures + 1 }

  function Step(s: Settings, c: Circuit, op: Op): Circuit {
    match op
    case Checked(at) => if IsAvailable(c, at) then c.(openUntil := None) else c
    case Succeeded(_) => CLOSED
    case Failed(kind, at) =>
      if !Counts(kind) then c
      else
        var failures := Next(c.failures);
        Circuit(failures, if failures >= s.threshold then Some(at + s.cooldown) else c.openUntil)
  }

  function After(s: Settings, ops: seq<Op>): Circuit {
    if ops == [] then CLOSED else Step(s, After(s, ops[..|ops| - 1]), ops[|ops| - 1])
  }

  // ---------------------------------------------------------------- the history

  predicate Failure(op: Op) { op.Failed? && Counts(op.kind) }

  /** The counted failures since the last success. */
  function Streak(ops: seq<Op>): seq<Op> {
    if ops == [] then []
    else
      var before, last := Streak(ops[..|ops| - 1]), ops[|ops| - 1];
      if last.Succeeded? then [] else if Failure(last) then before + [last] else before
  }

  function AtLeastOne(n: U32): U32 { if n == 0 then 1 else n }

  /** The breaker should refuse: enough failures in a row, and the latest is too recent. */
  predicate Tripped(s: Settings, ops: seq<Op>, now: int) {
    var streak := Streak(ops);
    |streak| >= AtLeastOne(s.threshold) && now < streak[|streak| - 1].at + s.cooldown
  }

  /** The counter is a `u32`; a release build wraps here. */
  const WRAP := 0x1_0000_0000

  /** The `k`-th failure in a row, counted from one, opens the circuit. */
  predicate Opens(s: Settings, k: nat) { k % WRAP >= s.threshold }

  /** The latest of the first `n` failures that opens the circuit, counted from one, or zero. */
  function LatestOpening(s: Settings, n: nat): (k: nat)
    ensures k <= n && (k > 0 ==> Opens(s, k))
    ensures forall j | k < j <= n :: !Opens(s, j)
  {
    if n == 0 || Opens(s, n) then n else LatestOpening(s, n - 1)
  }

  /** What the breaker does refuse: the cooldown after the latest opening failure has not passed. */
  predicate Refused(s: Settings, ops: seq<Op>, now: int) {
    var streak := Streak(ops);
    var k := LatestOpening(s, |streak|);
    k > 0 && now < streak[k - 1].at + s.cooldown
  }

  function Clock(ops: seq<Op>, start: int): int { if ops == [] then start else ops[|ops| - 1].at }

  /** The times do not decrease. */
  predicate Ordered(ops: seq<Op>) {
    ops == [] ||
    var before, last := ops[..|ops| - 1], ops[|ops| - 1];
    Ordered(before) && Clock(before, last.at) <= last.at
  }

  lemma {:induction false} OrderedPairwise(ops: seq<Op>)
    requires forall i | 0 < i < |ops| :: ops[i - 1].at <= ops[i].at
    ensures Ordered(ops)
  {
    if ops != [] {
      OrderedPairwise(ops[..|ops| - 1]);
    }
  }

  lemma {:induction false} NoneLater(ops: seq<Op>)
    requires Ordered(ops)
    ensures forall op | op in ops :: op.at <= ops[|ops| - 1].at
  {
    if |ops| > 1 {
      NoneLater(ops[..|ops| - 1]);
    }
  }

  /** The state in terms of the history. */
  predicate Explained(s: Settings, c: Circuit, ops: seq<Op>) {
    var streak := Streak(ops);
    var k := LatestOpening(s, |streak|);
    && c.failures == |streak| % WRAP
    && match c.openUntil
       case Some(until) => k > 0 && until == streak[k - 1].at + s.cooldown
       case None => k > 0 ==> ops[|ops| - 1].at >= streak[k - 1].at + s.cooldown
  }

  lemma StreakSnoc(ops: seq<Op>, op: Op)
    ensures Streak(ops + [op]) ==
            if op.Succeeded? then [] else if Failure(op) then Streak(ops) + [op] else Streak(ops)
  {
    assert (ops + [op])[..|ops|] == ops;
  }

  lemma {:induction false} StreakNeedsOps(ops: seq<Op>)
    ensures Streak(ops) != [] ==> ops != []
  {
  }

  lemma LatestOpeningNext(s: Settings, n: nat)
    ensures LatestOpening(s, n + 1) == if Opens(s, n + 1) then n + 1 else LatestOpening(s, n)
  {
  }

  lemma ExplainedFailure(s: Settings, c: Circuit, ops: seq<Op>, op: Op)
    requires Explained(s, c, ops) && Failure(op)
    requires ops != [] ==> ops[|ops| - 1].at <= op.at
    ensures Explained(s, Step(s, c, op), ops + [op])
  {
    var streak := Streak(ops);
    var n := |streak|;
    StreakSnoc(ops, op);
    StreakNeedsOps(ops);
    NextCounts(n);
    LatestOpeningNext(s, n);
    assert Opens(s, n + 1) <==> Next(c.failures) >= s.threshold;
    var k := LatestOpening(s, n);
    assert k > 0 ==> (streak + [op])[k - 1] == streak[k - 1];
  }

  lemma ExplainedStep(s: Settings, c: Circuit, ops: seq<Op>, op: Op)
    requires Explained(s, c, ops)
    requires ops != [] ==> ops[|ops| - 1].at <= op.at
    ensures Explained(s, Step(s, c, op), ops + [op])
  {
    if Failure(op) {
      ExplainedFailure(s, c, ops, op);
    } else {
      StreakSnoc(ops, op);
      StreakNeedsOps(ops);
    }
  }

  lemma NextCounts(n: nat)
    ensures Next(n % WRAP) == (n + 1) % WRAP
  {
    assert n == n / WRAP * WRAP + n % WRAP;
  }

  lemma {:induction false} HistoryExplains(s: Settings, ops: seq<Op>)
    requires Ordered(ops)
    ensures Explained(s, After(s, ops), ops)
  {
    if ops != [] {
      var n := |ops| - 1;
      HistoryExplains(s, ops[..n]);
      assert ops[..n] + [ops[n]] == ops;
      ExplainedStep(s, After(s, ops[..n]), ops[..n], ops[n]);
    }
  }

  /**
   * The two fields say what the whole history says, however many availability checks came in
   * between: a provider is refused exactly while the cooldown after the latest failure that
   * opened the circuit has not passed.
   */
  lemma RefusalExplained(s: Settings, ops: seq<Op>, now: int)
    requires Ordered(ops) && Clock(ops, now) <= now
    ensures IsAvailable(After(s, ops), now) <==> !Refused(s, ops, now)
  {
    HistoryExplains(s, ops);
    StreakNeedsOps(ops);
  }

  lemma OpeningIs(s: Settings, n: nat, k: nat)
    requires 0 < k <= n && Opens(s, k) && forall j | k < j <= n :: !Opens(s, j)
    ensures LatestOpening(s, n) == k
  {
  }

  /** Before the counter wraps every failure from the threshold on opens the circuit. */
  lemma OpensUnwrapped(s: Settings, n: nat)
    requires n < WRAP
    ensures LatestOpening(s, n) == if n >= AtLeastOne(s.threshold) then n else 0
  {
    if n >= AtLeastOne(s.threshold) {
      OpeningIs(s, n, n);
    }
  }

  /** After a wrap, and before the threshold is reached again, the latest is the last one before the wrap. */
  lemma OpensWrapped(s: Settings, n: nat)
    requires n >= WRAP && n % WRAP < s.threshold
    ensures LatestOpening(s, n) == n / WRAP * WRAP - 1
  {
    var q := n / WRAP;
    assert n == q * WRAP + n % WRAP;
    forall j | q * WRAP - 1 < j <= n ensures !Opens(s, j) {
      assert j % WRAP == j - q * WRAP;
    }
    assert (q * WRAP - 1) % WRAP == WRAP - 1;
    OpeningIs(s, n, q * WRAP - 1);
  }

  /**
   * The counter has wrapped and not reached the threshold again, the cooldown after the last
   * failure before the wrap has passed, and that after the latest failure has not.
   */
  predicate Forgotten(s: Settings, ops: seq<Op>, now: int) {
    var streak := Streak(ops);
    var n := |streak|;
    && n >= WRAP && n % WRAP < s.threshold
    && streak[n / WRAP * WRAP - 2].at + s.cooldown <= now < streak[n - 1].at + s.cooldown
  }

  /**
   * A provider is refused exactly while at least `threshold` failures have come since the last
   * success and the cooldown after the latest has not passed, unless the counter has wrapped and
   * forgotten them; and then it is not.
   */
  lemma BreakerAgreesWithHistory(s: Settings, ops: seq<Op>, now: int)
    requires Ordered(ops) && Clock(ops, now) <= now
    ensures (IsAvailable(After(s, ops), now) <==> !Tripped(s, ops, now)) <==> !Forgotten(s, ops, now)
  {
    RefusalExplained(s, ops, now);
    RefusedTripped(s, ops, now);
  }

  lemma RefusedTripped(s: Settings, ops: seq<Op>, now: int)
    requires Ordered(ops)
    ensures (Refused(s, ops, now) <==> Tripped(s, ops, now)) <==> !Forgotten(s, ops, now)
  {
    var streak := Streak(ops);
    var n := |streak|;
    if n < WRAP {
      OpensUnwrapped(s, n);
    } else if n % WRAP < s.threshold {
      OpensWrapped(s, n);
      StreakOrdered(ops, n / WRAP * WRAP - 2);
    } else {
      OpeningIs(s, n, n);
    }
  }

  lemma {:induction false} StreakIn(ops: seq<Op>)
    ensures forall op | op in Streak(ops) :: op in ops
  {
    if ops != [] {
      StreakIn(ops[..|ops| - 1]);
    }
  }

  /** Failures in a row come in order. */
  lemma {:induction false} StreakOrdered(ops: seq<Op>, i: nat)
    requires Ordered(ops) && i < |Streak(ops)|
    ensures Streak(ops)[i].at <= Streak(ops)[|Streak(ops)| - 1].at
  {
    var n := |ops| - 1;
    if Failure(ops[n]) {
      StreakIn(ops);
      NoneLater(ops);
    } else {
      StreakOrdered(ops[..n], i);
    }
  }

  lemma {:induction false} StreakOfFailures(ops: seq<Op>)
    requires forall op | op in ops :: Failure(op)
    ensures Streak(ops) == ops
  {
    if ops != [] {
      StreakOfFailures(ops[..|ops| - 1]);
    }
  }

  /**
   * With threshold 1 and a cooldown of 10, after 2^32 failures in a row of which only the last
   * comes at time 10, the breaker lets a request through at time 10.
   */
  lemma WrapForgets()
    ensures var s, ops := Settings(1, 10), seq(WRAP, i => Failed(Upstream, if i < WRAP - 1 then 0 else 10));
            && Ordered(ops) && Clock(ops, 10) <= 10
            && Tripped(s, ops, 10) && IsAvailable(After(s, ops), 10)
  {
    var s, ops := Settings(1, 10), seq(WRAP, i => Failed(Upstream, if i < WRAP - 1 then 0 else 10));
    StreakOfFailures(ops);
    OrderedPairwise(ops);
    BreakerAgreesWithHistory(s, ops, 10);
  }

  /** The counter holds the length of the streak modulo 2^32, even if the clock goes back. */
  lemma {:induction false} FailuresWrap(s: Settings, ops: seq<Op>)
    ensures After(s, ops).failures == |Streak(ops)| % WRAP
  {
    if ops != [] {
      var n := |ops| - 1;
      FailuresWrap(s, ops[..n]);
      NextCounts(|Streak(ops[..n])|);
    }
  }

  /** What each thing does to the two fields: three kinds of error count, and a success forgets them. */
  lemma StepExactly(s: Settings, c: Circuit, now: int)
    ensures forall kind :: kind in {InvalidRequest, Authentication, Permission, RateLimit, Internal} ==>
              Step(s, c, Failed(kind, now)) == c
    ensures forall kind :: kind in {Upstream, Timeout, Overloaded} ==>
              var after := Step(s, c, Failed(kind, now));
              && after.failures == (if c.failures == 0xFFFF_FFFF then 0 else c.failures + 1)
              && after.openUntil == (if after.failures >= s.threshold then Some(now + s.cooldown) else c.openUntil)
    ensures Step(s, c, Succeeded(now)) == Circuit(0, None)
    ensures Step(s, c, Checked(now)) ==
            if c.openUntil.Some? && now >= c.openUntil.value then Circuit(c.failures, None) else c
  {
  }

  /** What counts since the last success. */
  lemma StreakExactly(ops: seq<Op>, kind: ErrorKind, now: int)
    ensures Streak(ops + [Succeeded(now)]) == []
    ensures Streak(ops + [Checked(now)]) == Streak(ops)
    ensures Streak(ops + [Failed(kind, now)]) ==
            if kind in {Upstream, Timeout, Overloaded} then Streak(ops) + [Failed(kind, now)] else Streak(ops)
  {
    StreakSnoc(ops, Succeeded(now));
    StreakSnoc(ops, Checked(now));
    StreakSnoc(ops, Failed(kind, now));
  }

  /** A breaker in the state its history leaves it in. */
  predicate Explains(s: Settings, ops: seq<Op>, c: Circuit) { c == After(s, ops) && Ordered(ops) }

  // ---------------------------------------------------------------- the breaker itself

  class CircuitBreaker {
    const settings: Settings
    var failures: U32
    var openUntil: Option<int>
    ghost var history: seq<Op>

    function State(): Circuit reads this { Circuit(failures, openUntil) }

    ghost predicate Valid() reads this { Explains(settings, history, State()) }

    constructor (settings: Settings)
      ensures Valid() && history == [] && this.settings == settings
    {
      this.settings, failures, openUntil, history := settings, 0, None, [];
    }

    method Available(now: int) returns (available: bool)
      requires Valid() && Clock(history, now) <= now
      modifies this
      ensures Valid() && history == old(history) + [Checked(now)]
      ensures available <==> !Refused(settings, old(history), now)
      ensures (available <==> !Tripped(settings, old(history), now)) <==> !Forgotten(settings, old(history), now)
    {
      RefusalExplained(settings, history, now);
      BreakerAgreesWithHistory(settings, history, now);
      assert (history + [Checked(now)])[..|history|] == history;
      history := history + [Checked(now)];
      if openUntil.Some? {
        if now < openUntil.value {
          return false;
        }
        openUntil := None;
      }
      return true;
    }

    method RecordSuccess(ghost now: int)
      requires Valid() && Clock(history, now) <= now
      modifies this
      ensures Valid() && history == old(history) + [Succeeded(now)] && State() == CLOSED
    {
      assert (history + [Succeeded(now)])[..|history|] == history;
      history := history + [Succeeded(now)];
      failures, openUntil := 0, None;
    }

    method RecordFailure(kind: ErrorKind, now: int)
      requires Valid() && Clock(history, now) <= now
      modifies this
      ensures Valid() && history == old(history) + [Failed(kind, now)]
    {
      assert (history + [Failed(kind, now)])[..|history|] == history;
      history := history + [Failed(kind, now)];
      if !Counts(kind) {
        return;
      }
      failures := Next(failures);
      if failures >= settings.threshold {
        openUntil := Some(now + settings.cooldown);
      }
    }
  }
}
