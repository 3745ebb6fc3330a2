/** `validate_tool_history` (src/anthropic.rs): which conversations pair calls with results. */
module History {
  import opened Requests

  datatype Entry = Entry(role: Role, block: Block)

  function Tagged(role: Role, blocks: seq<Block>): seq<Entry> {
    if blocks == [] then [] else [Entry(role, blocks[0])] + Tagged(role, blocks[1..])
  }

  /** The conversation, block by block. */
  function Flat(messages: seq<Message>): seq<Entry> {
    if messages == [] then [] else Tagged(messages[0].role, messages[0].blocks) + Flat(messages[1..])
  }

  predicate IsUse(e: Entry, id: string) { e.block.UseBlock? && e.block.id == id }

  predicate IsResult(e: Entry, id: string) { e.block.ResultBlock? && e.block.useId == id }

  predicate Uses(f: seq<Entry>, id: string) { exists j | 0 <= j < |f| :: IsUse(f[j], id) }

  predicate Answers(f: seq<Entry>, id: string) { exists j | 0 <= j < |f| :: IsResult(f[j], id) }

  /** The block at `i` is in order given the blocks before it. */
  predicate InOrder(f: seq<Entry>, i: nat)
    requires i < |f|
  {
    var e := f[i];
    && (e.block.UseBlock? ==> e.role.AssistantRole? && e.block.id != "" && !Uses(f[..i], e.block.id))
    && (e.block.ResultBlock? ==> e.role.UserRole? && Uses(f[..i], e.block.useId) && !Answers(f[..i], e.block.useId))
  }

  /** Call ids are unique and not empty; each result answers one earlier call not yet answered. */
  predicate Paired(f: seq<Entry>) {
    forall i | 0 <= i < |f| :: InOrder(f, i)
  }

  lemma InOrderPrefix(f: seq<Entry>, g: seq<Entry>, i: nat)
    requires i < |f| && f <= g
    ensures InOrder(f, i) <==> InOrder(g, i)
  {
    assert f[..i] == g[..i];
  }

  ghost predicate Collected(f: seq<Entry>, calls: set<string>, results: set<string>) {
    && (forall id :: id in calls <==> Uses(f, id))
    && (forall id :: id in results <==> Answers(f, id))
  }

  predicate Accepted(e: Entry, calls: set<string>, results: set<string>) {
    match e.block
    case UseBlock(id, _, _) => e.role.AssistantRole? && id != "" && id !in calls
    case ResultBlock(id, _, _) => e.role.UserRole? && id in calls && id !in results
    case _ => true
  }

  lemma AcceptedInOrder(f: seq<Entry>, e: Entry, calls: set<string>, results: set<string>)
    requires Collected(f, calls, results)
    ensures InOrder(f + [e], |f|) <==> Accepted(e, calls, results)
  {
    assert (f + [e])[..|f|] == f;
  }

  lemma UsesAppend(f: seq<Entry>, g: seq<Entry>, id: string)
    ensures Uses(f + g, id) <==> Uses(f, id) || Uses(g, id)
    ensures Answers(f + g, id) <==> Answers(f, id) || Answers(g, id)
  {
    var h := f + g;
    assert forall j | 0 <= j < |f| :: h[j] == f[j];
    assert forall j | 0 <= j < |g| :: h[|f| + j] == g[j];
    assert Uses(h, id) ==> Uses(f, id) || Uses(g, id) by {
      if j :| 0 <= j < |h| && IsUse(h[j], id) {
        assert j < |f| || IsUse(g[j - |f|], id);
      }
    }
    assert Answers(h, id) ==> Answers(f, id) || Answers(g, id) by {
      if j :| 0 <= j < |h| && IsResult(h[j], id) {
        assert j < |f| || IsResult(g[j - |f|], id);
      }
    }
  }

  lemma UsesOne(e: Entry, id: string)
    ensures Uses([e], id) <==> IsUse(e, id)
    ensures Answers([e], id) <==> IsResult(e, id)
  {
    assert [e][0] == e;
  }

  lemma CollectedSnoc(f: seq<Entry>, e: Entry, calls: set<string>, results: set<string>)
    requires Collected(f, calls, results)
    ensures Collected(f + [e],
                      if e.block.UseBlock? then calls + {e.block.id} else calls,
                      if e.block.ResultBlock? then results + {e.block.useId} else results)
  {
    forall id
      ensures Uses(f + [e], id) <==> Uses(f, id) || IsUse(e, id)
      ensures Answers(f + [e], id) <==> Answers(f, id) || IsResult(e, id)
    {
      UsesAppend(f, [e], id);
      UsesOne(e, id);
    }
  }

  lemma PairedSnoc(f: seq<Entry>, e: Entry)
    ensures Paired(f + [e]) <==> Paired(f) && InOrder(f + [e], |f|)
  {
    var g := f + [e];
    forall i | 0 <= i < |f| ensures InOrder(f, i) <==> InOrder(g, i) {
      InOrderPrefix(f, g, i);
    }
  }

  lemma PairedPrefix(f: seq<Entry>, g: seq<Entry>)
    requires f <= g && Paired(g)
    ensures Paired(f)
  {
    forall i | 0 <= i < |f| ensures InOrder(f, i) {
      InOrderPrefix(f, g, i);
    }
  }

  lemma {:induction false} TaggedSnoc(role: Role, blocks: seq<Block>, n: nat)
    requires n < |blocks|
    ensures Tagged(role, blocks[..n + 1]) == Tagged(role, blocks[..n]) + [Entry(role, blocks[n])]
  {
    if n == 0 {
      assert blocks[..1] == [blocks[0]] && blocks[..0] == [];
    } else {
      TaggedSnoc(role, blocks[1..], n - 1);
      assert blocks[..n + 1][1..] == blocks[1..][..n] && blocks[..n][1..] == blocks[1..][..n - 1];
    }
  }

  lemma {:induction false} FlatAppend(a: seq<Message>, b: seq<Message>)
    ensures Flat(a + b) == Flat(a) + Flat(b)
  {
    if a == [] {
      assert a + b == b;
    } else {
      assert (a + b)[1..] == a[1..] + b;
      FlatAppend(a[1..], b);
    }
  }

  lemma FlatSnoc(messages: seq<Message>, n: nat)
    requires n < |messages|
    ensures Flat(messages[..n + 1]) == Flat(messages[..n]) + Tagged(messages[n].role, messages[n].blocks)
  {
    assert messages[..n + 1] == messages[..n] + [messages[n]];
    FlatAppend(messages[..n], [messages[n]]);
    assert Flat([messages[n]]) == Tagged(messages[n].role, messages[n].blocks) + Flat([]);
  }

  lemma {:induction false} TaggedPrefix(role: Role, blocks: seq<Block>, n: nat)
    requires n <= |blocks|
    ensures Tagged(role, blocks[..n]) <= Tagged(role, blocks)
  {
    if n > 0 {
      TaggedPrefix(role, blocks[1..], n - 1);
      assert blocks[..n][1..] == blocks[1..][..n - 1];
    }
  }

  lemma FlatPrefix(messages: seq<Message>, n: nat)
    requires n <= |messages|
    ensures Flat(messages[..n]) <= Flat(messages)
  {
    assert messages == messages[..n] + messages[n..];
    FlatAppend(messages[..n], messages[n..]);
  }

  /** The inner loop, over the blocks of one message. */
  method CheckBlocks(ghost before: seq<Entry>, role: Role, blocks: seq<Block>, calls0: set<string>,
                     results0: set<string>)
    returns (ok: bool, calls: set<string>, results: set<string>)
    requires Paired(before) && Collected(before, calls0, results0)
    ensures ok <==> Paired(before + Tagged(role, blocks))
    ensures ok ==> Collected(before + Tagged(role, blocks), calls, results)
  {
    calls, results := calls0, results0;
    assert before + Tagged(role, blocks[..0]) == before;
    for n := 0 to |blocks|
      invariant Paired(before + Tagged(role, blocks[..n]))
      invariant Collected(before + Tagged(role, blocks[..n]), calls, results)
    {
      ghost var f := before + Tagged(role, blocks[..n]);
      ghost var e := Entry(role, blocks[n]);
      TaggedSnoc(role, blocks, n);
      assert before + Tagged(role, blocks[..n + 1]) == f + [e];
      AcceptedInOrder(f, e, calls, results);
      PairedSnoc(f, e);
      CollectedSnoc(f, e, calls, results);
      var bad := false;
      match blocks[n] {
        case UseBlock(id, _, _) =>
          bad := role != AssistantRole || id == "" || id in calls;
          calls := calls + {id};
        case ResultBlock(id, _, _) =>
          bad := role != UserRole || id !in calls || id in results;
          results := results + {id};
        case _ =>
      }
      if bad {
        TaggedPrefix(role, blocks, n + 1);
        if Paired(before + Tagged(role, blocks)) {
          PairedPrefix(f + [e], before + Tagged(role, blocks));
        }
        return false, calls, results;
      }
    }
    assert blocks[..|blocks|] == blocks;
    ok := true;
  }

  method ValidateToolHistory(messages: seq<Message>) returns (ok: bool)
    ensures ok <==> Paired(Flat(messages))
  {
    var calls: set<string>, results: set<string> := {}, {};
    for n := 0 to |messages|
      invariant Paired(Flat(messages[..n]))
      invariant Collected(Flat(messages[..n]), calls, results)
    {
      FlatSnoc(messages, n);
      ok, calls, results := CheckBlocks(Flat(messages[..n]), messages[n].role, messages[n].blocks, calls, results);
      if !ok {
        FlatPrefix(messages, n + 1);
        if Paired(Flat(messages)) {
          PairedPrefix(Flat(messages[..n + 1]), Flat(messages));
        }
        return false;
      }
    }
    assert messages[..|messages|] == messages;
    ok := true;
  }

  // ---------------------------------------------------------------- pairing, pair by pair

  /** Calls are the assistant's and have an id; results are the user's. */
  predicate Proper(f: seq<Entry>) {
    forall i | 0 <= i < |f| ::
      && (f[i].block.UseBlock? ==> f[i].role == AssistantRole && f[i].block.id != "")
      && (f[i].block.ResultBlock? ==> f[i].role == UserRole)
  }

  /** No two calls have one id, and no two results answer one call. */
  predicate Unrepeated(f: seq<Entry>) {
    forall i, j | 0 <= i < j < |f| ::
      && (f[i].block.UseBlock? && f[j].block.UseBlock? ==> f[i].block.id != f[j].block.id)
      && (f[i].block.ResultBlock? && f[j].block.ResultBlock? ==> f[i].block.useId != f[j].block.useId)
  }

  /** Every result comes after the call it answers. */
  predicate Preceded(f: seq<Entry>) {
    forall j | 0 <= j < |f| && f[j].block.ResultBlock? ::
      exists i :: 0 <= i < j && f[i].block.UseBlock? && f[i].block.id == f[j].block.useId
  }

  /** The same for one block. */
  predicate Ruled(f: seq<Entry>, j: nat)
    requires j < |f|
  {
    var b := f[j].block;
    && (b.UseBlock? ==> f[j].role == AssistantRole && b.id != "")
    && (b.UseBlock? ==> forall i | 0 <= i < j && f[i].block.UseBlock? :: f[i].block.id != b.id)
    && (b.ResultBlock? ==> f[j].role == UserRole)
    && (b.ResultBlock? ==> exists i :: 0 <= i < j && f[i].block.UseBlock? && f[i].block.id == b.useId)
    && (b.ResultBlock? ==> forall i | 0 <= i < j && f[i].block.ResultBlock? :: f[i].block.useId != b.useId)
  }

  lemma RuledMeans(f: seq<Entry>, j: nat)
    requires j < |f|
    ensures InOrder(f, j) <==> Ruled(f, j)
  {
    var before := f[..j];
    assert forall i | 0 <= i < j :: before[i] == f[i];
    if f[j].block.UseBlock? {
      assert Uses(before, f[j].block.id) <==> exists i :: 0 <= i < j && IsUse(f[i], f[j].block.id);
    }
    if f[j].block.ResultBlock? {
      assert Uses(before, f[j].block.useId) <==> exists i :: 0 <= i < j && IsUse(f[i], f[j].block.useId);
      assert Answers(before, f[j].block.useId) <==> exists i :: 0 <= i < j && IsResult(f[i], f[j].block.useId);
    }
  }

  lemma RuledAll(f: seq<Entry>)
    ensures (forall j | 0 <= j < |f| :: Ruled(f, j)) <==> Proper(f) && Unrepeated(f) && Preceded(f)
  {
    if forall j | 0 <= j < |f| :: Ruled(f, j) {
      forall i | 0 <= i < |f|
        ensures f[i].block.UseBlock? ==> f[i].role == AssistantRole && f[i].block.id != ""
        ensures f[i].block.ResultBlock? ==> f[i].role == UserRole
      {
        assert Ruled(f, i);
      }
      forall i, j | 0 <= i < j < |f|
        ensures f[i].block.UseBlock? && f[j].block.UseBlock? ==> f[i].block.id != f[j].block.id
        ensures f[i].block.ResultBlock? && f[j].block.ResultBlock? ==> f[i].block.useId != f[j].block.useId
      {
        assert Ruled(f, j);
      }
      forall j | 0 <= j < |f| && f[j].block.ResultBlock?
        ensures exists i :: 0 <= i < j && f[i].block.UseBlock? && f[i].block.id == f[j].block.useId
      {
        assert Ruled(f, j);
      }
    }
  }

  /** Which conversations are accepted, pair by pair. */
  lemma PairedExactly(f: seq<Entry>)
    ensures Paired(f) <==> Proper(f) && Unrepeated(f) && Preceded(f)
  {
    forall j | 0 <= j < |f| ensures InOrder(f, j) <==> Ruled(f, j) {
      RuledMeans(f, j);
    }
    RuledAll(f);
    if Paired(f) {
      forall j | 0 <= j < |f| ensures Ruled(f, j) {
        assert InOrder(f, j);
      }
    }
    if forall j | 0 <= j < |f| :: Ruled(f, j) {
      forall j | 0 <= j < |f| ensures InOrder(f, j) {
        assert Ruled(f, j);
      }
    }
  }

  /** The conversation block by block: every block of every message, in order, with its role. */
  lemma {:induction false} FlatExactly(messages: seq<Message>, role: Role, blocks: seq<Block>, b: Block)
    ensures Flat([]) == [] && Flat(messages + [Message(role, [])]) == Flat(messages)
    ensures Flat(messages + [Message(role, blocks + [b])]) ==
            Flat(messages + [Message(role, blocks)]) + [Entry(role, b)]
  {
    FlatLast(messages, role, []);
    FlatLast(messages, role, blocks);
    FlatLast(messages, role, blocks + [b]);
    TaggedSnoc(role, blocks + [b], |blocks|);
    assert (blocks + [b])[..|blocks| + 1] == blocks + [b] && (blocks + [b])[..|blocks|] == blocks;
  }

  lemma FlatLast(messages: seq<Message>, role: Role, blocks: seq<Block>)
    ensures Flat(messages + [Message(role, blocks)]) == Flat(messages) + Tagged(role, blocks)
  {
    FlatAppend(messages, [Message(role, blocks)]);
    assert Flat([Message(role, blocks)]) == Tagged(role, blocks) + Flat([]);
  }
}
