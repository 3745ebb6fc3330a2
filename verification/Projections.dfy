/** What `Conservation` and `Refinement` take from the provider's stream, spelled out. */
module Projections {
  import opened Domain
  import opened JsonModel
  import opened Lines
  import opened SseParser
  import opened Conservation

  /** Two stretches of a stream, one after the other. */
  lemma {:induction false} Stretches(a: seq<Action>, b: seq<Action>, i: U64)
    ensures History(a + b, i) == History(a, i) + History(b, i)
    ensures Texts(a + b) == Texts(a) + Texts(b)
    ensures LastUsage(a + b) == if LastUsage(b).Some? then LastUsage(b) else LastUsage(a)
    ensures LastReason(a + b) == if LastReason(b).Some? then LastReason(b) else LastReason(a)
  {
    if b == [] {
      assert a + b == a;
    } else {
      var before, last := b[..|b| - 1], b[|b| - 1];
      Stretches(a, before, i);
      assert (a + b)[..|a + b| - 1] == a + before && (a + b)[|a + b| - 1] == last;
    }
  }

  /** One thing: a fragment belongs to its own index only, and the latest usage and reason count. */
  lemma OneThing(x: Action, i: U64)
    ensures History([x], i) == if x.SawCall? && x.call.index == Some(i) then [x.call] else []
    ensures Texts([x]) == if x.SawText? then [x.text] else []
    ensures LastUsage([x]) == if x.SawUsage? then Some(x.usage) else None
    ensures LastReason([x]) == if x.SawFinish? then Some(x.reason) else None
  {
    assert [x][..0] == [];
  }

  lemma {:induction false} IdsAppend(g: seq<CallDelta>, h: seq<CallDelta>)
    ensures Ids(g + h) == Ids(g) + Ids(h)
  {
    if h == [] {
      assert g + h == g;
    } else {
      var before, last := h[..|h| - 1], h[|h| - 1];
      IdsAppend(g, before);
      assert (g + h)[..|g + h| - 1] == g + before;
      Associative(Ids(g), Ids(before), last.id.GetOr(""));
    }
  }

  lemma {:induction false} NamesAppend(g: seq<CallDelta>, h: seq<CallDelta>)
    ensures Names(g + h) == Names(g) + Names(h)
  {
    if h == [] {
      assert g + h == g;
    } else {
      var before, last := h[..|h| - 1], h[|h| - 1];
      NamesAppend(g, before);
      assert (g + h)[..|g + h| - 1] == g + before;
      Associative(Names(g), Names(before), last.name.GetOr(""));
    }
  }

  lemma {:induction false} ArgumentsAppend(g: seq<CallDelta>, h: seq<CallDelta>)
    ensures Arguments(g + h) == Arguments(g) + Arguments(h)
  {
    if h == [] {
      assert g + h == g;
    } else {
      var before, last := h[..|h| - 1], h[|h| - 1];
      ArgumentsAppend(g, before);
      assert (g + h)[..|g + h| - 1] == g + before;
      Associative(Arguments(g), Arguments(before), last.arguments.GetOr(""));
    }
  }

  /** Two stretches of the fragments of one call. */
  lemma Fragments(g: seq<CallDelta>, h: seq<CallDelta>)
    ensures Ids(g + h) == Ids(g) + Ids(h)
    ensures Names(g + h) == Names(g) + Names(h)
    ensures Arguments(g + h) == Arguments(g) + Arguments(h)
  {
    IdsAppend(g, h);
    NamesAppend(g, h);
    ArgumentsAppend(g, h);
  }

  lemma OneFragment(c: CallDelta)
    ensures Ids([c]) == if c.id.Some? then c.id.value else ""
    ensures Names([c]) == if c.name.Some? then c.name.value else ""
    ensures Arguments([c]) == if c.arguments.Some? then c.arguments.value else ""
  {
    assert [c][..0] == [];
    assert "" + c.id.GetOr("") == c.id.GetOr("");
    assert "" + c.name.GetOr("") == c.name.GetOr("");
    assert "" + c.arguments.GetOr("") == c.arguments.GetOr("");
  }
}
