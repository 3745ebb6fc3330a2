/** What a target without tools is sent all the same (src/provider.rs). */
module Traffic {
  import opened Domain
  import opened JsonModel
  import opened Requests
  import opened Adaptation
  import opened History
  import opened Collecting
  import opened Translation

  predicate ToolTraffic(w: Wire) { w.ToolMessage? || (w.AssistantMessage? && w.calls != []) }

  predicate ToolBlock(e: Entry) { e.block.UseBlock? || e.block.ResultBlock? }

  lemma {:induction false} CollectEmpty<T, U>(f: T -> seq<U>, xs: seq<T>)
    ensures Collect(f, xs) == [] <==> forall x | x in xs :: f(x) == []
  {
    if xs != [] {
      assert xs == [xs[0]] + xs[1..];
      CollectEmpty(f, xs[1..]);
    }
  }

  lemma SomeCollected<S, T, U>(f: S -> seq<U>, xs: seq<S>, g: T -> seq<U>, ys: seq<T>)
    requires Collect(f, xs) == Collect(g, ys)
    ensures (exists x | x in xs :: f(x) != []) <==> exists y | y in ys :: g(y) != []
  {
    CollectEmpty(f, xs);
    CollectEmpty(g, ys);
  }

  predicate Sends(out: seq<Wire>) { exists w | w in out :: ToolTraffic(w) }

  predicate Holds(f: seq<Entry>) { exists e | e in f :: ToolBlock(e) }

  lemma SendsMeans(out: seq<Wire>)
    ensures Sends(out) <==> (exists w | w in out :: ResultSent(w) != []) || exists w | w in out :: CallsSent(w) != []
  {
    if w :| w in out && ToolTraffic(w) {
      assert ResultSent(w) != [] || CallsSent(w) != [];
    }
    if w :| w in out && ResultSent(w) != [] {
      assert ToolTraffic(w);
    }
    if w :| w in out && CallsSent(w) != [] {
      assert ToolTraffic(w);
    }
  }

  lemma HoldsMeans(calls: Entry -> seq<WireCall>, show: Json -> string, f: seq<Entry>)
    requires forall e | e in f :: !Structured(e.block)
    requires forall e :: calls(e) == CallIn(show, e)
    ensures Holds(f) <==> (exists e | e in f :: ResultIn(e) != []) || exists e | e in f :: calls(e) != []
  {
    if e :| e in f && ToolBlock(e) {
      assert ResultIn(e) != [] || calls(e) != [];
    }
    if e :| e in f && ResultIn(e) != [] {
      assert ToolBlock(e);
    }
    if e :| e in f && calls(e) != [] {
      assert ToolBlock(e);
    }
  }

  lemma TrafficMeans(show: Json -> string, messages: seq<Message>)
    requires AllConvertible(messages)
    ensures Sends(ConvertAll(show, messages)) <==> Holds(Flat(messages))
  {
    var out, f := ConvertAll(show, messages), Flat(messages);
    var calls := e => CallIn(show, e);
    LosesNothing(show, messages);
    NoStructured(messages);
    SomeCollected(ResultSent, out, ResultIn, f);
    SomeCollected(CallsSent, out, calls, f);
    SendsMeans(out);
    HoldsMeans(calls, show, f);
  }

  lemma {:induction false} NoStructured(messages: seq<Message>)
    requires AllConvertible(messages)
    ensures forall e | e in Flat(messages) :: !Structured(e.block)
  {
    if messages != [] {
      assert Convertible(messages[0]);
      TaggedFrom(messages[0].role, messages[0].blocks);
      NoStructured(messages[1..]);
    }
  }

  lemma {:induction false} TaggedFrom(role: Role, blocks: seq<Block>)
    ensures forall e | e in Tagged(role, blocks) :: e.block in blocks
  {
    if blocks != [] {
      TaggedFrom(role, blocks[1..]);
    }
  }

  lemma SameToolBlocks(f: seq<Entry>, g: seq<Entry>)
    requires SameShapes(f, g)
    ensures Holds(f) <==> Holds(g)
  {
    if e :| e in f && ToolBlock(e) {
      var i :| 0 <= i < |f| && f[i] == e;
      assert g[i] in g && SameShape(f[i], g[i]);
    }
    if e :| e in g && ToolBlock(e) {
      var i :| 0 <= i < |g| && g[i] == e;
      assert f[i] in f && SameShape(f[i], g[i]);
    }
  }

  /**
   * A target without tools is never sent tool definitions, but it is sent tool calls or tool
   * messages exactly when the conversation holds a call or a result.
   */
  lemma ToolsUntold(show: Json -> string, caps: Profile, r: Request)
    requires !caps.tools && Adapt(show, caps, r).Ok? && Convert(show, Adapt(show, caps, r).value.messages).Ok?
    ensures Adapt(show, caps, r).value.tools == []
    ensures Sends(Convert(show, Adapt(show, caps, r).value.messages).value) <==> Holds(Flat(r.messages))
  {
    TrafficMeans(show, AdaptMessages(show, r.messages));
    FlatShapes(show, r.messages);
    SameToolBlocks(Flat(r.messages), Flat(AdaptMessages(show, r.messages)));
  }

  const NO_TOOLS_TARGET := Profile(false, false, false, true, true, true, 1024, false, false, false, false, false,
                                   false)

  const OLD_CALL := Message(AssistantRole, [UseBlock("call_1", "shell", Obj(map[]))])

  /** For example a conversation that goes on after a call, without offering tools any more. */
  lemma ToolsUntoldHappens(show: Json -> string)
    ensures var r := Request("claude", 100, [OLD_CALL], None, None, [], [], None, false);
            && !NO_TOOLS_TARGET.tools && Paired(Flat(r.messages)) && Adapt(show, NO_TOOLS_TARGET, r) == Ok(r)
            && Convert(show, r.messages) ==
               Ok([AssistantMessage(None, [WireCall("call_1", "shell", show(Obj(map[])))])])
  {
    var b := UseBlock("call_1", "shell", Obj(map[]));
    var r := Request("claude", 100, [OLD_CALL], None, None, [], [], None, false);
    FittingUnchanged(show, NO_TOOLS_TARGET, r);
    CollectOne(TextOf, b);
    CollectOne(x => CallOf(show, x), b);
    CollectOne(m => ConvertOne(show, m), OLD_CALL);
    assert Flat([OLD_CALL]) == Tagged(AssistantRole, [b]) + Flat([]) == [Entry(AssistantRole, b)];
  }
}
