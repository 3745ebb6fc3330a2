/**
 * The limiter under racing calls (src/auth.rs): `acquire` reads the clock before it takes the
 * lock, so calls can enter in another order than that of their times.
 */
module Racing {
  import opened Admission

  /** A call reads the clock, and later it holds the lock once. */
  datatype Move = Look(call: nat, at: int) | Enter(call: nat)

  datatype State = State(looked: map<nat, int>, deque: seq<int>, accepted: seq<int>)

  const START := State(map[], [], [])

  /** Expired times are popped off the front; one that is not expired stops the popping. */
  function Popped(deque: seq<int>, now: int): seq<int> {
    if deque != [] && deque[0] <= now - WINDOW then Popped(deque[1..], now) else deque
  }

  function Next(limit: nat, s: State, m: Move): State {
    match m
    case Look(call, at) => s.(looked := s.looked[call := at])
    case Enter(call) =>
      if call !in s.looked then s
      else
        var now := s.looked[call];
        var deque := Popped(s.deque, now);
        if |deque| >= limit then s.(deque := deque)
        else s.(deque := deque + [now], accepted := s.accepted + [now])
  }

  function Run(limit: nat, moves: seq<Move>): State {
    if moves == [] then START else Next(limit, Run(limit, moves[..|moves| - 1]), moves[|moves| - 1])
  }

  /** The times with which calls have entered, in the order of the lock. */
  function Entered(limit: nat, moves: seq<Move>): seq<int> {
    if moves == [] then []
    else
      var before, last := moves[..|moves| - 1], moves[|moves| - 1];
      var s := Run(limit, before);
      Entered(limit, before) + (if last.Enter? && last.call in s.looked then [s.looked[last.call]] else [])
  }

  /** The clock itself never goes back. */
  predicate ClockRuns(moves: seq<Move>) {
    forall i, j | 0 <= i < j < |moves| && moves[i].Look? && moves[j].Look? :: moves[i].at <= moves[j].at
  }

  lemma {:induction false} PoppedIsRecent(deque: seq<int>, now: int)
    requires Ordered(deque)
    ensures Popped(deque, now) == Recent(deque, now)
  {
    if deque != [] && deque[0] <= now - WINDOW {
      RecentDrop(deque, now);
      PoppedIsRecent(deque[1..], now);
    } else {
      RecentAll(deque, now);
    }
  }

  /** The limiter agrees with the full history as of `now`, the time of the last entry. */
  predicate Agrees(limit: nat, s: State, now: int) {
    && Limited(s.accepted, limit) && (forall x | x in s.accepted :: x <= now)
    && s.deque == Recent(s.accepted, now)
  }

  lemma EnterAgrees(limit: nat, s: State, before: int, call: nat)
    requires Agrees(limit, s, before) && call in s.looked && before <= s.looked[call]
    ensures Agrees(limit, Next(limit, s, Enter(call)), s.looked[call])
  {
    var now := s.looked[call];
    LimitedOrdered(s.accepted, limit);
    RecentOrdered(s.accepted, before);
    PoppedIsRecent(s.deque, now);
    RecentTwice(s.accepted, before, now);
    if |Popped(s.deque, now)| < limit {
      LimitedSnoc(s.accepted, limit, now);
    }
  }

  function LastEntry(entered: seq<int>, start: int): int {
    if entered == [] then start else entered[|entered| - 1]
  }

  lemma {:induction false} InOrderAgrees(limit: nat, moves: seq<Move>, start: int)
    requires Ordered(Entered(limit, moves))
    ensures Agrees(limit, Run(limit, moves), LastEntry(Entered(limit, moves), start))
  {
    if moves != [] {
      var before, last := moves[..|moves| - 1], moves[|moves| - 1];
      var s, entered := Run(limit, before), Entered(limit, before);
      assert entered <= Entered(limit, moves);
      assert Ordered(entered);
      if last.Enter? && last.call in s.looked {
        var now := s.looked[last.call];
        assert Entered(limit, moves) == entered + [now];
        assert entered != [] ==> entered[|entered| - 1] <= now by {
          if entered != [] {
            assert (entered + [now])[|entered| - 1] <= (entered + [now])[|entered|];
          }
        }
        InOrderAgrees(limit, before, now);
        EnterAgrees(limit, s, LastEntry(entered, now), last.call);
      } else {
        assert Entered(limit, moves) == entered;
        InOrderAgrees(limit, before, start);
      }
    }
  }

  /** As long as calls enter in the order of their times, no window holds more than the limit. */
  lemma InOrderIsLimited(limit: nat, moves: seq<Move>, t: int)
    requires Ordered(Entered(limit, moves))
    ensures |InWindow(Run(limit, moves).accepted, t)| <= limit
  {
    InOrderAgrees(limit, moves, 0);
    NoWindowOverLimit(Run(limit, moves).accepted, limit, t);
  }

  // ---------------------------------------------------------------- a race that exceeds the limit

  const SECOND: int := 1_000_000_000

  /** Call 3 reads 59s, call 4 reads 60s, and call 4 enters first. */
  const RACE: seq<Move> := [Look(1, 0), Enter(1), Look(2, 0), Enter(2), Look(3, 59 * SECOND), Look(4, 60 * SECOND),
                            Enter(4), Enter(3)]

  lemma RunSnoc(limit: nat, moves: seq<Move>, m: Move)
    ensures Run(limit, moves + [m]) == Next(limit, Run(limit, moves), m)
  {
    assert (moves + [m])[..|moves|] == moves;
  }

  lemma RaceRuns()
    ensures Run(2, RACE).accepted == [0, 0, 60 * SECOND, 59 * SECOND]
  {
    var a, b, c, d := Look(1, 0), Enter(1), Look(2, 0), Enter(2);
    var e, f, g, h := Look(3, 59 * SECOND), Look(4, 60 * SECOND), Enter(4), Enter(3);
    assert RACE == [] + [a] + [b] + [c] + [d] + [e] + [f] + [g] + [h];
    RunSnoc(2, [], a);
    RunSnoc(2, [] + [a], b);
    RunSnoc(2, [] + [a] + [b], c);
    RunSnoc(2, [] + [a] + [b] + [c], d);
    RunSnoc(2, [] + [a] + [b] + [c] + [d], e);
    RunSnoc(2, [] + [a] + [b] + [c] + [d] + [e], f);
    RunSnoc(2, [] + [a] + [b] + [c] + [d] + [e] + [f], g);
    RunSnoc(2, [] + [a] + [b] + [c] + [d] + [e] + [f] + [g], h);
    var s := Run(2, [] + [a] + [b] + [c] + [d]);
    assert s.deque == [0, 0] && s.accepted == [0, 0];
    var t := Run(2, [] + [a] + [b] + [c] + [d] + [e] + [f] + [g]);
    assert Popped([0, 0], 60 * SECOND) == Popped([0], 60 * SECOND) == [] by {
      assert [0, 0][1..] == [0] && [0][1..] == [];
    }
    assert t.deque == [60 * SECOND] && t.accepted == [0, 0, 60 * SECOND];
  }

  lemma InWindowSnoc(times: seq<int>, x: int, t: int)
    ensures InWindow(times + [x], t) == if t - WINDOW < x <= t then InWindow(times, t) + [x] else InWindow(times, t)
  {
    assert (times + [x])[..|times|] == times;
  }

  lemma CountSnoc(times: seq<int>, x: int, t: int)
    ensures |InWindow(times + [x], t)| == |InWindow(times, t)| + Inside(x, t)
  {
    InWindowSnoc(times, x, t);
  }

  lemma FourInWindow(a: int, b: int, c: int, d: int, t: int)
    ensures |InWindow([] + [a] + [b] + [c] + [d], t)| == Inside(a, t) + Inside(b, t) + Inside(c, t) + Inside(d, t)
  {
    CountSnoc([], a, t);
    CountSnoc([] + [a], b, t);
    CountSnoc([] + [a] + [b], c, t);
    CountSnoc([] + [a] + [b] + [c], d, t);
  }

  function Inside(x: int, t: int): nat { if t - WINDOW < x <= t then 1 else 0 }

  lemma RaceClockRuns()
    ensures ClockRuns(RACE)
  {
  }

  /** With a limit of 2 calls a minute, three calls are accepted within one minute. */
  lemma RaceExceedsLimit()
    ensures ClockRuns(RACE)
    ensures |InWindow(Run(2, RACE).accepted, 59 * SECOND)| == 3
  {
    RaceClockRuns();
    RaceRuns();
    FourInWindow(0, 0, 60 * SECOND, 59 * SECOND, 59 * SECOND);
    assert [] + [0] + [0] + [60 * SECOND] + [59 * SECOND] == [0, 0, 60 * SECOND, 59 * SECOND];
  }
}
