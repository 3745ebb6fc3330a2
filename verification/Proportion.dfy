/** How often `weighted_priority_order` (src/routing.rs) gives a whole order. */
module Proportion {
  import opened Ordering

  lemma {:induction false} CountPrefixed(d: nat, tails: set<seq<nat>>, all: set<seq<nat>>)
    requires forall ds :: ds in all <==> ds != [] && ds[0] == d && ds[1..] in tails
    ensures |all| == |tails|
  {
    if tails == {} {
      assert all == {};
    } else {
      var t :| t in tails;
      assert ([d] + t)[1..] == t;
      forall ds ensures ds in all - {[d] + t} <==> ds != [] && ds[0] == d && ds[1..] in tails - {t} {
        assert ds != [] ==> ds == [ds[0]] + ds[1..];
      }
      CountPrefixed(d, tails - {t}, all - {[d] + t});
    }
  }

  lemma {:induction false} CountPairs(heads: set<nat>, tails: set<seq<nat>>, all: set<seq<nat>>)
    requires forall ds :: ds in all <==> ds != [] && ds[0] in heads && ds[1..] in tails
    ensures |all| == |heads| * |tails|
    decreases heads
  {
    if heads == {} {
      assert all == {};
    } else {
      var d :| d in heads;
      var those := set ds | ds in all && ds[0] == d;
      CountPrefixed(d, tails, those);
      CountPairs(heads - {d}, tails, all - those);
      assert |all - those| == |all| - |those|;
      assert |heads| == |heads - {d}| + 1;
    }
  }

  predicate Distinct(cs: seq<Candidate>) {
    forall c | c in cs :: multiset(cs)[c] == 1
  }

  function Product(cs: seq<Candidate>): nat {
    if cs == [] then 1 else cs[0].target.weight * Product(cs[1..])
  }

  lemma Twice(cs: seq<Candidate>, i: nat, j: nat)
    requires i < j < |cs| && cs[i] == cs[j]
    ensures multiset(cs)[cs[i]] >= 2
  {
    WithoutKeeps(cs, j);
    assert Without(cs, j)[i] == cs[i];
    assert cs[i] in multiset(Without(cs, j));
  }

  lemma OnlyIndex(cs: seq<Candidate>, i: nat, j: nat)
    requires Distinct(cs) && i < |cs| && j < |cs| && cs[i] == cs[j]
    ensures i == j
  {
    assert multiset(cs)[cs[i]] == 1;
    if i < j {
      Twice(cs, i, j);
    } else if j < i {
      Twice(cs, j, i);
    }
  }

  lemma StillDistinct(cs: seq<Candidate>, i: nat)
    requires Distinct(cs) && i < |cs|
    ensures Distinct(Without(cs, i))
  {
    WithoutKeeps(cs, i);
    forall c | c in Without(cs, i) ensures multiset(Without(cs, i))[c] == 1 {
      assert c in multiset(Without(cs, i));
      assert c in multiset(cs);
      assert multiset(cs)[c] == 1;
    }
  }

  /** These draws give this order. */
  predicate Gives(cs: seq<Candidate>, wanted: seq<Candidate>, draws: seq<nat>) {
    Fits(cs, draws) && Order(cs, draws) == wanted
  }

  /** What it is for draws to give an order, one selection at a time. */
  lemma GivesStep(cs: seq<Candidate>, wanted: seq<Candidate>, draws: seq<nat>)
    requires cs != []
    ensures Gives(cs, wanted, draws) <==>
            draws != [] && draws[0] < Total(Tier(cs)) && wanted != [] &&
            var j := Pick(Tier(cs), draws[0]);
            cs[j] == wanted[0] && Gives(Without(cs, j), wanted[1..], draws[1..])
  {
    if draws != [] && draws[0] < Total(Tier(cs)) {
      var j := Pick(Tier(cs), draws[0]);
      if Fits(Without(cs, j), draws[1..]) {
        var rest := Order(Without(cs, j), draws[1..]);
        assert ([cs[j]] + rest)[0] == cs[j] && ([cs[j]] + rest)[1..] == rest;
        assert wanted != [] ==> wanted == [wanted[0]] + wanted[1..];
      }
    }
  }

  /** The draws that give `wanted` are a first draw in one interval and draws for the rest. */
  lemma FirstOfDraws(cs: seq<Candidate>, wanted: seq<Candidate>, i: nat, draws: seq<nat>)
    requires Distinct(cs) && cs != [] && wanted != [] && i < TierLength(cs) && cs[i] == wanted[0]
    ensures Gives(cs, wanted, draws) <==>
            draws != [] && Before(Tier(cs), i) <= draws[0] < Before(Tier(cs), i + 1) &&
            Gives(Without(cs, i), wanted[1..], draws[1..])
  {
    GivesStep(cs, wanted, draws);
    BeforeStep(Tier(cs), i);
    if draws != [] && draws[0] < Total(Tier(cs)) {
      var j := Pick(Tier(cs), draws[0]);
      PickInterval(Tier(cs), draws[0], i);
      if cs[j] == wanted[0] {
        OnlyIndex(cs, i, j);
      }
    }
  }

  /** The draws for the rest, once the first is fixed. */
  lemma Tails(cs: seq<Candidate>, wanted: seq<Candidate>, i: nat, all: set<seq<nat>>) returns (tails: set<seq<nat>>)
    requires Distinct(cs) && cs != [] && wanted != [] && i < TierLength(cs) && cs[i] == wanted[0]
    requires Before(Tier(cs), i) < Before(Tier(cs), i + 1)
    requires forall draws :: draws in all <==> Gives(cs, wanted, draws)
    ensures forall draws :: draws in tails <==> Gives(Without(cs, i), wanted[1..], draws)
  {
    var lo := Before(Tier(cs), i);
    tails := set ds | ds in all && ds != [] && ds[0] == lo :: ds[1..];
    forall draws ensures draws in tails <==> Gives(Without(cs, i), wanted[1..], draws) {
      var ds := [lo] + draws;
      assert ds[0] == lo && ds[1..] == draws;
      FirstOfDraws(cs, wanted, i, ds);
      if draws in tails {
        var es :| es in all && es != [] && es[0] == lo && es[1..] == draws;
        FirstOfDraws(cs, wanted, i, es);
      }
    }
  }

  lemma HeadsAndTails(cs: seq<Candidate>, wanted: seq<Candidate>, i: nat, all: set<seq<nat>>, tails: set<seq<nat>>)
    requires Distinct(cs) && cs != [] && wanted != [] && i < TierLength(cs) && cs[i] == wanted[0]
    requires forall draws :: draws in all <==> Gives(cs, wanted, draws)
    requires forall draws :: draws in tails <==> Gives(Without(cs, i), wanted[1..], draws)
    ensures |all| == cs[i].target.weight * |tails|
  {
    BeforeStep(Tier(cs), i);
    var heads := Interval(Before(Tier(cs), i), Before(Tier(cs), i + 1));
    forall ds ensures ds in all <==> ds != [] && ds[0] in heads && ds[1..] in tails {
      FirstOfDraws(cs, wanted, i, ds);
    }
    CountPairs(heads, tails, all);
  }

  lemma NoDraws(cs: seq<Candidate>, wanted: seq<Candidate>, i: nat, all: set<seq<nat>>)
    requires Distinct(cs) && cs != [] && wanted != [] && i < TierLength(cs) && cs[i] == wanted[0]
    requires forall draws :: draws in all <==> Gives(cs, wanted, draws)
    requires cs[i].target.weight == 0
    ensures |all| == 0
  {
    BeforeStep(Tier(cs), i);
    forall draws ensures draws !in all {
      FirstOfDraws(cs, wanted, i, draws);
    }
    assert all == {};
  }

  /** A given order is drawn in exactly as many ways as the product of the weights. */
  lemma {:induction false} OrdersAreProportional(cs: seq<Candidate>, wanted: seq<Candidate>, all: set<seq<nat>>)
    requires Distinct(cs) && ByPriority(cs) && ByPriority(wanted) && multiset(wanted) == multiset(cs)
    requires forall draws :: draws in all <==> Gives(cs, wanted, draws)
    ensures |all| == Product(wanted)
    decreases |cs|
  {
    SameLength(wanted, cs);
    if cs == [] {
      assert Gives([], [], []);
      assert all == {[]};
    } else {
      var i := FindFirst(cs, wanted);
      FirstRemoved(cs, wanted, i);
      if cs[i].target.weight == 0 {
        NoDraws(cs, wanted, i, all);
      } else {
        BeforeStep(Tier(cs), i);
        var tails := Tails(cs, wanted, i, all);
        WithoutKeeps(cs, i);
        StillDistinct(cs, i);
        OrdersAreProportional(Without(cs, i), wanted[1..], tails);
        HeadsAndTails(cs, wanted, i, all, tails);
      }
    }
  }
}
