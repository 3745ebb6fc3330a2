/** `weighted_priority_order` (src/routing.rs): a random order of the targets, tier by tier. */
module Ordering {
  import opened Domain
  import opened Requests

  datatype Target = Target(provider: string, model: string, priority: U32, weight: U32)

  /** A target that can serve the request, with the request adapted for it. */
  datatype Candidate = Candidate(target: Target, request: Request)

  predicate Weighted(cs: seq<Candidate>) {
    forall c | c in cs :: c.target.weight > 0
  }

  predicate ByPriority(cs: seq<Candidate>) {
    forall i, j | 0 <= i < j < |cs| :: cs[i].target.priority <= cs[j].target.priority
  }

  // ---------------------------------------------------------------- the stable sort of the library

  function Insert(c: Candidate, cs: seq<Candidate>): seq<Candidate> {
    if cs == [] || c.target.priority <= cs[0].target.priority then [c] + cs
    else [cs[0]] + Insert(c, cs[1..])
  }

  function Sort(cs: seq<Candidate>): seq<Candidate> {
    if cs == [] then [] else Insert(cs[0], Sort(cs[1..]))
  }

  function OfTier(cs: seq<Candidate>, priority: U32): seq<Candidate> {
    if cs == [] then []
    else (if cs[0].target.priority == priority then [cs[0]] else []) + OfTier(cs[1..], priority)
  }

  lemma Cons(c: Candidate, cs: seq<Candidate>)
    ensures multiset([c] + cs) == multiset{c} + multiset(cs)
  {
  }

  lemma BestFirst(c: Candidate, rest: seq<Candidate>)
    requires ByPriority(rest)
    requires forall d | d in rest :: c.target.priority <= d.target.priority
    ensures ByPriority([c] + rest)
  {
  }

  lemma Best(cs: seq<Candidate>)
    requires cs != [] && ByPriority(cs)
    ensures forall d | d in cs :: cs[0].target.priority <= d.target.priority
  {
    forall d | d in cs ensures cs[0].target.priority <= d.target.priority {
      var i :| 0 <= i < |cs| && cs[i] == d;
    }
  }

  lemma {:induction false} InsertKeeps(c: Candidate, cs: seq<Candidate>)
    ensures multiset(Insert(c, cs)) == multiset{c} + multiset(cs)
    ensures forall x | x in Insert(c, cs) :: x == c || x in cs
  {
    if cs == [] || c.target.priority <= cs[0].target.priority {
      Cons(c, cs);
    } else {
      InsertKeeps(c, cs[1..]);
      Cons(cs[0], Insert(c, cs[1..]));
      Cons(cs[0], cs[1..]);
      assert cs == [cs[0]] + cs[1..];
    }
  }

  lemma {:induction false} InsertSorts(c: Candidate, cs: seq<Candidate>)
    requires ByPriority(cs)
    ensures ByPriority(Insert(c, cs))
  {
    if cs == [] {
      BestFirst(c, cs);
    } else {
      Best(cs);
      if c.target.priority <= cs[0].target.priority {
        BestFirst(c, cs);
      } else {
        InsertSorts(c, cs[1..]);
        InsertKeeps(c, cs[1..]);
        BestFirst(cs[0], Insert(c, cs[1..]));
      }
    }
  }

  lemma {:induction false} InsertStable(c: Candidate, cs: seq<Candidate>, priority: U32)
    requires ByPriority(cs)
    ensures OfTier(Insert(c, cs), priority) == OfTier([c], priority) + OfTier(cs, priority)
  {
    if cs != [] && c.target.priority > cs[0].target.priority {
      InsertStable(c, cs[1..], priority);
      if cs[0].target.priority == priority {
        assert OfTier([c], priority) == [];
      }
    } else {
      assert ([c] + cs)[1..] == cs;
    }
  }

  lemma {:induction false} SortSorts(cs: seq<Candidate>)
    ensures ByPriority(Sort(cs)) && multiset(Sort(cs)) == multiset(cs)
  {
    if cs != [] {
      SortSorts(cs[1..]);
      InsertSorts(cs[0], Sort(cs[1..]));
      InsertKeeps(cs[0], Sort(cs[1..]));
      Cons(cs[0], cs[1..]);
      assert cs == [cs[0]] + cs[1..];
    }
  }

  /** The sort is stable: candidates of one priority keep their order. */
  lemma {:induction false} SortIsStable(cs: seq<Candidate>, priority: U32)
    ensures OfTier(Sort(cs), priority) == OfTier(cs, priority)
  {
    if cs != [] {
      SortSorts(cs[1..]);
      SortIsStable(cs[1..], priority);
      InsertStable(cs[0], Sort(cs[1..]), priority);
      assert OfTier([cs[0]], priority) == if cs[0].target.priority == priority then [cs[0]] else [];
    }
  }

  // ---------------------------------------------------------------- one selection

  /** How many candidates share the priority of the first. */
  function TierLength(cs: seq<Candidate>): (n: nat)
    requires cs != []
    ensures 0 < n <= |cs|
    ensures forall i | 0 <= i < n :: cs[i].target.priority == cs[0].target.priority
    ensures n < |cs| ==> cs[n].target.priority != cs[0].target.priority
  {
    Leading(cs, cs[0].target.priority)
  }

  function Leading(cs: seq<Candidate>, priority: U32): (n: nat)
    ensures n <= |cs|
    ensures forall i | 0 <= i < n :: cs[i].target.priority == priority
    ensures n < |cs| ==> cs[n].target.priority != priority
    ensures cs != [] && cs[0].target.priority == priority ==> n > 0
  {
    if cs == [] || cs[0].target.priority != priority then 0 else 1 + Leading(cs[1..], priority)
  }

  function Tier(cs: seq<Candidate>): seq<Candidate>
    requires cs != []
  {
    cs[..TierLength(cs)]
  }

  function Total(tier: seq<Candidate>): nat {
    if tier == [] then 0 else tier[0].target.weight + Total(tier[1..])
  }

  /** The index a draw selects: the first whose weight is not used up. */
  function Pick(tier: seq<Candidate>, draw: nat): (i: nat)
    requires draw < Total(tier)
    ensures i < |tier|
  {
    if draw < tier[0].target.weight then 0 else 1 + Pick(tier[1..], draw - tier[0].target.weight)
  }

  /** The selection loop; `choice` never goes below zero and the loop always stops at an index. */
  method SelectIndex(tier: seq<Candidate>, draw: nat) returns (selected: nat)
    requires draw < Total(tier)
    ensures selected == Pick(tier, draw)
  {
    var choice: nat := draw;
    selected := 0;
    var index := 0;
    while index < |tier|
      invariant index <= |tier|
      invariant choice < Total(tier[index..])
      invariant Pick(tier, draw) == index + Pick(tier[index..], choice)
    {
      assert tier[index..][1..] == tier[index + 1..];
      if choice < tier[index].target.weight {
        selected := index;
        break;
      }
      choice := choice - tier[index].target.weight;
      index := index + 1;
    }
  }

  /** The weight before an index. */
  function Before(tier: seq<Candidate>, i: nat): nat
    requires i <= |tier|
  {
    Total(tier[..i])
  }

  /** A draw selects exactly the index whose weight interval contains it. */
  lemma {:induction false} PickInterval(tier: seq<Candidate>, draw: nat, i: nat)
    requires draw < Total(tier) && i < |tier|
    ensures Pick(tier, draw) == i <==> Before(tier, i) <= draw < Before(tier, i + 1)
  {
    var w := tier[0].target.weight;
    if i == 0 {
      assert tier[..1][1..] == [];
    } else {
      assert tier[..i][1..] == tier[1..][..i - 1] && tier[..i + 1][1..] == tier[1..][..i];
      if w <= draw {
        PickInterval(tier[1..], draw - w, i - 1);
      }
    }
  }

  lemma {:induction false} BeforeStep(tier: seq<Candidate>, i: nat)
    requires i < |tier|
    ensures Before(tier, i + 1) == Before(tier, i) + tier[i].target.weight
    ensures Before(tier, i + 1) <= Total(tier)
  {
    if i == 0 {
      assert tier[..1][1..] == [];
    } else {
      assert tier[..i][1..] == tier[1..][..i - 1] && tier[..i + 1][1..] == tier[1..][..i];
      BeforeStep(tier[1..], i - 1);
    }
  }

  function Interval(lo: nat, hi: nat): (s: set<nat>)
    requires lo <= hi
    ensures |s| == hi - lo
    ensures forall d: nat :: d in s <==> lo <= d < hi
    decreases hi - lo
  {
    if lo == hi then {} else {lo} + Interval(lo + 1, hi)
  }

  /** Of the `total` possible draws, exactly `weight` many select a candidate. */
  lemma DrawsAreProportional(tier: seq<Candidate>, i: nat, draws: set<nat>)
    requires i < |tier|
    requires forall d: nat :: d in draws <==> d < Total(tier) && Pick(tier, d) == i
    ensures |draws| == tier[i].target.weight
  {
    BeforeStep(tier, i);
    var interval := Interval(Before(tier, i), Before(tier, i + 1));
    forall d: nat ensures d in draws <==> d in interval {
      if d < Total(tier) {
        PickInterval(tier, d, i);
      }
    }
    assert draws == interval;
  }

  // ---------------------------------------------------------------- the whole order

  function Without(cs: seq<Candidate>, i: nat): seq<Candidate>
    requires i < |cs|
  {
    cs[..i] + cs[i + 1..]
  }

  /** One draw for each selection, each below the weight of the current tier. */
  predicate Fits(cs: seq<Candidate>, draws: seq<nat>)
    decreases |cs|
  {
    if cs == [] then draws == []
    else
      && draws != [] && draws[0] < Total(Tier(cs))
      && Fits(Without(cs, Pick(Tier(cs), draws[0])), draws[1..])
  }

  function Order(cs: seq<Candidate>, draws: seq<nat>): seq<Candidate>
    requires Fits(cs, draws)
    decreases |cs|
  {
    if cs == [] then []
    else
      var i := Pick(Tier(cs), draws[0]);
      [cs[i]] + Order(Without(cs, i), draws[1..])
  }

  method WeightedPriorityOrder(candidates: seq<Candidate>, draws: seq<nat>) returns (output: seq<Candidate>)
    requires Fits(Sort(candidates), draws)
    ensures output == Order(Sort(candidates), draws)
  {
    var left, rest := Sort(candidates), draws;
    output := [];
    while left != []
      invariant Fits(left, rest)
      invariant Order(Sort(candidates), draws) == output + Order(left, rest)
      decreases |left|
    {
      var selected := SelectIndex(Tier(left), rest[0]);
      var one := left[selected];
      output := output + [one];
      left := Without(left, selected);
      rest := rest[1..];
    }
    assert output + [] == output;
  }

  lemma WithoutKeeps(cs: seq<Candidate>, i: nat)
    requires i < |cs|
    ensures multiset(cs) == multiset{cs[i]} + multiset(Without(cs, i))
    ensures ByPriority(cs) ==> ByPriority(Without(cs, i))
    ensures Weighted(cs) ==> Weighted(Without(cs, i))
  {
    assert cs == cs[..i] + [cs[i]] + cs[i + 1..];
  }

  /** Draws for the first selections, each below the weight of the tier it is for. */
  predicate InRange(cs: seq<Candidate>, draws: seq<nat>)
    decreases |draws|
  {
    draws == [] ||
    (cs != [] && draws[0] < Total(Tier(cs)) && InRange(Without(cs, Pick(Tier(cs), draws[0])), draws[1..]))
  }

  /** The candidates left after those selections. */
  function Left(cs: seq<Candidate>, draws: seq<nat>): seq<Candidate>
    requires InRange(cs, draws)
    decreases |draws|
  {
    if draws == [] then cs else Left(Without(cs, Pick(Tier(cs), draws[0])), draws[1..])
  }

  /** Without zero weights no selection, however it is reached, draws from an empty range. */
  lemma {:induction false} NeverEmptyRange(cs: seq<Candidate>, draws: seq<nat>)
    requires Weighted(cs) && InRange(cs, draws)
    ensures Left(cs, draws) != [] ==> Total(Tier(Left(cs, draws))) > 0
    decreases |draws|
  {
    if draws != [] {
      var i := Pick(Tier(cs), draws[0]);
      WithoutKeeps(cs, i);
      NeverEmptyRange(Without(cs, i), draws[1..]);
    } else if cs != [] {
      assert Tier(cs)[0] in cs;
    }
  }

  lemma SameMembers(a: seq<Candidate>, b: seq<Candidate>, c: Candidate)
    requires multiset(a) == multiset(b) && c in a
    ensures c in b
  {
    assert c in multiset(b);
  }

  lemma OneSelected(cs: seq<Candidate>, i: nat, rest: seq<Candidate>)
    requires ByPriority(cs) && cs != [] && i < TierLength(cs)
    requires ByPriority(rest) && multiset(rest) == multiset(Without(cs, i))
    ensures ByPriority([cs[i]] + rest) && multiset([cs[i]] + rest) == multiset(cs)
  {
    WithoutKeeps(cs, i);
    Best(cs);
    forall c | c in rest ensures cs[i].target.priority <= c.target.priority {
      SameMembers(rest, Without(cs, i), c);
    }
    BestFirst(cs[i], rest);
    Cons(cs[i], rest);
  }

  /** Every draw sequence gives a permutation, best priority first. */
  lemma {:induction false} OrderIsPermutation(cs: seq<Candidate>, draws: seq<nat>)
    requires ByPriority(cs) && Fits(cs, draws)
    ensures multiset(Order(cs, draws)) == multiset(cs)
    ensures ByPriority(Order(cs, draws))
    decreases |cs|
  {
    if cs != [] {
      var i := Pick(Tier(cs), draws[0]);
      WithoutKeeps(cs, i);
      OrderIsPermutation(Without(cs, i), draws[1..]);
      OneSelected(cs, i, Order(Without(cs, i), draws[1..]));
    }
  }

  lemma {:induction false} TotalPositive(tier: seq<Candidate>, i: nat)
    requires i < |tier| && Weighted(tier)
    ensures Before(tier, i) < Total(tier)
    ensures Pick(tier, Before(tier, i)) == i
  {
    BeforeStep(tier, i);
    assert tier[i] in tier;
    PickInterval(tier, Before(tier, i), i);
  }

  lemma SameLength(a: seq<Candidate>, b: seq<Candidate>)
    requires multiset(a) == multiset(b)
    ensures |a| == |b|
  {
    assert |multiset(a)| == |multiset(b)|;
  }

  lemma RestWanted(cs: seq<Candidate>, wanted: seq<Candidate>) returns (i: nat)
    requires ByPriority(cs) && Weighted(cs) && cs != []
    requires multiset(wanted) == multiset(cs) && ByPriority(wanted)
    ensures wanted != [] && i < TierLength(cs) && cs[i] == wanted[0]
    ensures Before(Tier(cs), i) < Total(Tier(cs)) && Pick(Tier(cs), Before(Tier(cs), i)) == i
    ensures ByPriority(Without(cs, i)) && Weighted(Without(cs, i))
    ensures multiset(wanted[1..]) == multiset(Without(cs, i)) && ByPriority(wanted[1..])
  {
    SameLength(wanted, cs);
    i := FindFirst(cs, wanted);
    TotalPositive(Tier(cs), i);
    WithoutKeeps(cs, i);
    FirstRemoved(cs, wanted, i);
  }

  /** And every permutation that puts better priorities first comes from some draws. */
  lemma {:induction false} EveryOrderPossible(cs: seq<Candidate>, wanted: seq<Candidate>) returns (draws: seq<nat>)
    requires ByPriority(cs) && Weighted(cs)
    requires multiset(wanted) == multiset(cs) && ByPriority(wanted)
    ensures Fits(cs, draws) && Order(cs, draws) == wanted
    decreases |cs|
  {
    if cs == [] {
      SameLength(wanted, cs);
      draws := [];
    } else {
      var i := RestWanted(cs, wanted);
      var rest := EveryOrderPossible(Without(cs, i), wanted[1..]);
      draws := [Before(Tier(cs), i)] + rest;
      OneDraw(cs, i, Before(Tier(cs), i), rest, wanted);
    }
  }

  lemma OneDraw(cs: seq<Candidate>, i: nat, draw: nat, rest: seq<nat>, wanted: seq<Candidate>)
    requires cs != [] && draw < Total(Tier(cs)) && Pick(Tier(cs), draw) == i
    requires wanted != [] && cs[i] == wanted[0]
    requires Fits(Without(cs, i), rest) && Order(Without(cs, i), rest) == wanted[1..]
    ensures Fits(cs, [draw] + rest) && Order(cs, [draw] + rest) == wanted
  {
    assert ([draw] + rest)[1..] == rest;
    assert wanted == [wanted[0]] + wanted[1..];
  }

  lemma FirstRemoved(cs: seq<Candidate>, wanted: seq<Candidate>, i: nat)
    requires i < |cs| && wanted != [] && cs[i] == wanted[0]
    requires multiset(wanted) == multiset(cs)
    ensures multiset(wanted[1..]) == multiset(Without(cs, i))
  {
    WithoutKeeps(cs, i);
    Cons(wanted[0], wanted[1..]);
    assert wanted == [wanted[0]] + wanted[1..];
    assert multiset(wanted[1..]) == multiset(wanted) - multiset{wanted[0]};
    assert multiset(Without(cs, i)) == multiset(cs) - multiset{cs[i]};
  }

  lemma FindFirst(cs: seq<Candidate>, wanted: seq<Candidate>) returns (i: nat)
    requires cs != [] && wanted != [] && ByPriority(cs)
    requires multiset(wanted) == multiset(cs) && ByPriority(wanted)
    ensures i < TierLength(cs) && cs[i] == wanted[0]
  {
    SameMembers(wanted, cs, wanted[0]);
    i :| 0 <= i < |cs| && cs[i] == wanted[0];
    SameMembers(cs, wanted, cs[0]);
    Best(wanted);
    Best(cs);
    assert cs[i].target.priority == cs[0].target.priority;
  }
}
