/**
 * What a finished stream contains, in terms of what the provider sent and of nothing in between:
 * parser (src/provider.rs) and encoder (src/anthropic.rs) together conserve text and tool calls.
 */
module Conservation {
  import opened Domain
  import opened JsonModel
  import opened Lines
  import opened SseParser
  import Encoder
  import Ascending
  import StreamServer

  // ---------------------------------------------------------------- what the provider sent

  /** The fragments the provider sent for one tool index, in order of arrival. */
  function History(actions: seq<Action>, index: U64): seq<CallDelta> {
    if actions == [] then [] else
      var last := actions[|actions| - 1];
      History(actions[..|actions| - 1], index) +
      (if last.SawCall? && last.call.index == Some(index) then [last.call] else [])
  }

  function Ids(h: seq<CallDelta>): string {
    if h == [] then "" else Ids(h[..|h| - 1]) + h[|h| - 1].id.GetOr("")
  }

  function Names(h: seq<CallDelta>): string {
    if h == [] then "" else Names(h[..|h| - 1]) + h[|h| - 1].name.GetOr("")
  }

  function Arguments(h: seq<CallDelta>): string {
    if h == [] then "" else Arguments(h[..|h| - 1]) + h[|h| - 1].arguments.GetOr("")
  }

  predicate Named(h: seq<CallDelta>) { Ids(h) != "" && Names(h) != "" }

  /** The fragments up to the moment when id and name first are both known. */
  function Introduction(h: seq<CallDelta>): (r: seq<CallDelta>)
    requires Named(h)
    ensures r <= h && Named(r)
    ensures forall k | 0 <= k < |r| :: !Named(h[..k])
  {
    if Named(h[..|h| - 1]) then
      var r := Introduction(h[..|h| - 1]);
      assert forall k | 0 <= k < |r| :: h[..k] == h[..|h| - 1][..k];
      r
    else
      assert forall k | 0 <= k < |h| :: !Named(h[..k]) by { NotNamedBefore(h); }
      h
  }

  lemma {:induction false} NamedStays(h: seq<CallDelta>, k: nat)
    requires k <= |h| && Named(h[..k])
    ensures Named(h)
  {
    if k < |h| {
      assert h[..k] == h[..|h| - 1][..k];
      NamedStays(h[..|h| - 1], k);
    } else {
      assert h[..k] == h;
    }
  }

  lemma NotNamedBefore(h: seq<CallDelta>)
    requires h != [] && !Named(h[..|h| - 1])
    ensures forall k | 0 <= k < |h| :: !Named(h[..k])
  {
    forall k | 0 <= k < |h| ensures !Named(h[..k]) {
      if Named(h[..k]) {
        assert h[..k] == h[..|h| - 1][..k];
        NamedStays(h[..|h| - 1], k);
      }
    }
  }

  /** The tool call the client must receive for a history. */
  function Delivered(h: seq<CallDelta>): Encoder.BufferedTool
    requires Named(h)
  {
    var intro := Introduction(h);
    Encoder.BufferedTool(Ids(intro), Names(intro), Arguments(h))
  }

  function Texts(actions: seq<Action>): seq<string> {
    if actions == [] then [] else
      var last := actions[|actions| - 1];
      Texts(actions[..|actions| - 1]) + (if last.SawText? then [last.text] else [])
  }

  function LastUsage(actions: seq<Action>): Option<Usage> {
    if actions == [] then None
    else if actions[|actions| - 1].SawUsage? then Some(actions[|actions| - 1].usage)
    else LastUsage(actions[..|actions| - 1])
  }

  function LastReason(actions: seq<Action>): Option<string> {
    if actions == [] then None
    else if actions[|actions| - 1].SawFinish? then Some(actions[|actions| - 1].reason)
    else LastReason(actions[..|actions| - 1])
  }

  function Seen(actions: seq<Action>): set<U64> {
    set a | a in actions && a.SawCall? && a.call.index.Some? :: a.call.index.value
  }

  // ---------------------------------------------------------------- what the parser keeps

  /** No action that stops the reader. */
  predicate Sound(a: Action) {
    match a
    case SawCall(c) => c.index.Some?
    case SawFinish(r) => MapStopReason(Some(r)).Ok?
    case Close => false
    case Malformed => false
    case _ => true
  }

  function Half(h: seq<CallDelta>): StreamedTool {
    StreamedTool(Ids(h), Names(h), Arguments(h), Named(h))
  }

  ghost predicate Summarises(p: Parser, actions: seq<Action>) {
    && p.usage == LastUsage(actions)
    && p.reason == (match LastReason(actions) case None => None case Some(r) => Known(r))
    && forall i: U64 :: ToolAt(p.tools, i) == Half(History(actions, i)) && (i in p.tools <==> History(actions, i) != [])
  }

  function Known(r: string): Option<StopReason> {
    match MapStopReason(Some(r)) case Ok(x) => Some(x) case Err(_) => None
  }

  /** What the encoder holds for one index. */
  function Held(h: seq<CallDelta>): Option<Encoder.BufferedTool> {
    if Named(h) then Some(Delivered(h)) else None
  }

  ghost predicate Mirrors(events: seq<ProviderEvent>, actions: seq<Action>) {
    && Unfinished(events)
    && Encoder.Texts(events) == Texts(actions)
    && Encoder.LastUsage(events) == LastUsage(actions)
    && forall i: U64 :: Encoder.Built(Encoder.Own(events, i)) == Held(History(actions, i))
  }

  lemma HistorySnoc(actions: seq<Action>, a: Action, i: U64)
    ensures History(actions + [a], i) ==
            if a.SawCall? && a.call.index == Some(i) then History(actions, i) + [a.call] else History(actions, i)
  {
    assert (actions + [a])[..|actions|] == actions;
    assert History(actions, i) + [] == History(actions, i);
  }

  lemma AbsorbHalf(h: seq<CallDelta>, c: CallDelta)
    ensures Absorb(Half(h), c) == Half(h + [c])
  {
    assert (h + [c])[..|h|] == h;
  }

  lemma SummaryStep(codec: Codec, p: Parser, actions: seq<Action>, a: Action)
    requires Summarises(p, actions) && Sound(a)
    ensures var s := Apply(codec, p, a);
            s.next.Going? && Summarises(s.next.parser, actions + [a])
  {
    var q := Apply(codec, p, a).next.parser;
    forall i: U64
      ensures ToolAt(q.tools, i) == Half(History(actions + [a], i))
      ensures i in q.tools <==> History(actions + [a], i) != []
    {
      HistorySnoc(actions, a, i);
      assert ToolAt(p.tools, i) == Half(History(actions, i)) && (i in p.tools <==> History(actions, i) != []);
      if a.SawCall? {
        AbsorbHalf(History(actions, i), a.call);
      }
    }
    assert (actions + [a])[..|actions|] == actions;
  }

  lemma {:induction false} OwnAppend(a: seq<ProviderEvent>, b: seq<ProviderEvent>, i: U64)
    ensures Encoder.Own(a + b, i) == Encoder.Own(a, i) + Encoder.Own(b, i)
  {
    if b == [] {
      assert a + b == a;
    } else {
      var n := |b| - 1;
      assert (a + b)[..|a + b| - 1] == a + b[..n];
      OwnAppend(a, b[..n], i);
    }
  }

  /** The events of a fragment concern its own index only, and are all kept there. */
  lemma CallEventsOwn(index: U64, t: StreamedTool, c: CallDelta, i: U64)
    ensures Encoder.Own(CallEvents(index, t, c), i) == if i == index then CallEvents(index, t, c) else []
  {
    AllOwn(CallEvents(index, t, c), index, i);
  }

  lemma {:induction false} AllOwn(events: seq<ProviderEvent>, index: U64, i: U64)
    requires forall e | e in events :: Encoder.Concerns(e, index)
    ensures Encoder.Own(events, i) == if i == index then events else []
  {
    if events != [] {
      AllOwn(events[..|events| - 1], index, i);
      assert Encoder.Concerns(events[|events| - 1], index);
    }
  }

  lemma DeliveredGrows(h: seq<CallDelta>, c: CallDelta)
    requires Named(h)
    ensures Named(h + [c])
    ensures Delivered(h + [c]) == Delivered(h).(arguments := Arguments(h) + c.arguments.GetOr(""))
  {
    assert (h + [c])[..|h|] == h;
  }

  /** Fragments buffered before the introduction are flushed with it; later ones are passed on. */
  lemma HeldStep(own: seq<ProviderEvent>, h: seq<CallDelta>, c: CallDelta, index: U64)
    requires Encoder.Built(own) == Held(h)
    ensures Encoder.Built(own + CallEvents(index, Half(h), c)) == Held(h + [c])
  {
    var t := Half(h);
    assert (h + [c])[..|h|] == h;
    if t.started {
      DeliveredGrows(h, c);
      if c.arguments.Some? {
        Encoder.BuiltSnoc(own, ToolDelta(index, c.arguments.value));
      } else {
        assert own + CallEvents(index, t, c) == own;
        assert Arguments(h) + "" == Arguments(h);
      }
    } else if Starts(t, c) {
      assert Named(h + [c]) && Introduction(h + [c]) == h + [c];
      IntroductionEvents(own, t, c, index);
    } else {
      assert own + CallEvents(index, t, c) == own;
    }
  }

  lemma IntroductionEvents(own: seq<ProviderEvent>, t: StreamedTool, c: CallDelta, index: U64)
    requires Starts(t, c)
    ensures Encoder.Built(own + CallEvents(index, t, c)) ==
            Some(Encoder.BufferedTool(t.id + c.id.GetOr(""), t.name + c.name.GetOr(""),
                                      t.arguments + c.arguments.GetOr("")))
  {
    var id, name := t.id + c.id.GetOr(""), t.name + c.name.GetOr("");
    var one := own + [ToolStart(index, id, name)];
    Encoder.BuiltSnoc(own, ToolStart(index, id, name));
    var flushed := if t.arguments != "" then [ToolDelta(index, t.arguments)] else [];
    assert Encoder.Built(one + flushed) == Some(Encoder.BufferedTool(id, name, t.arguments)) by {
      Encoder.BuiltSnoc(one, ToolDelta(index, t.arguments));
      assert "" + t.arguments == t.arguments && one + [] == one;
    }
    var passed := if c.arguments.Some? then [ToolDelta(index, c.arguments.value)] else [];
    assert own + CallEvents(index, t, c) == one + flushed + passed;
    if c.arguments.Some? {
      Encoder.BuiltSnoc(one + flushed, ToolDelta(index, c.arguments.value));
    } else {
      assert one + flushed + passed == one + flushed;
      assert t.arguments + "" == t.arguments;
    }
  }

  lemma MirrorsOwn(codec: Codec, p: Parser, events: seq<ProviderEvent>, h: seq<CallDelta>, a: Action, i: U64)
    requires ToolAt(p.tools, i) == Half(h)
    requires Encoder.Built(Encoder.Own(events, i)) == Held(h)
    requires Sound(a)
    ensures Encoder.Built(Encoder.Own(events + Apply(codec, p, a).events, i)) ==
            Held(if a.SawCall? && a.call.index == Some(i) then h + [a.call] else h)
  {
    var own, more := Encoder.Own(events, i), Apply(codec, p, a).events;
    OwnAppend(events, more, i);
    if a.SawCall? && a.call.index == Some(i) {
      CallEventsOwn(i, Half(h), a.call, i);
      HeldStep(own, h, a.call, i);
    } else {
      if a.SawCall? {
        CallEventsOwn(a.call.index.value, ToolAt(p.tools, a.call.index.value), a.call, i);
      } else if more != [] {
        AllOther(more[0], i);
      }
      assert own + [] == own;
    }
  }

  lemma AllOther(e: ProviderEvent, i: U64)
    requires !Encoder.Concerns(e, i)
    ensures Encoder.Own([e], i) == []
  {
    assert [e][..0] == [];
  }

  lemma {:induction false} TextsAppend(a: seq<ProviderEvent>, b: seq<ProviderEvent>)
    ensures Encoder.Texts(a + b) == Encoder.Texts(a) + Encoder.Texts(b)
    ensures Encoder.LastUsage(a + b) ==
            if Encoder.LastUsage(b).Some? then Encoder.LastUsage(b) else Encoder.LastUsage(a)
  {
    if b == [] {
      assert a + b == a;
    } else {
      var n := |b| - 1;
      assert (a + b)[..|a + b| - 1] == a + b[..n];
      TextsAppend(a, b[..n]);
    }
  }

  lemma {:induction false} CallEventsSilent(events: seq<ProviderEvent>, index: U64)
    requires forall e | e in events :: Encoder.Concerns(e, index)
    ensures Encoder.Texts(events) == [] && Encoder.LastUsage(events) == None
  {
    if events != [] {
      CallEventsSilent(events[..|events| - 1], index);
      assert Encoder.Concerns(events[|events| - 1], index);
    }
  }

  lemma TextOfOne(e: ProviderEvent)
    ensures Encoder.Texts([e]) == if e.Text? then [e.text] else []
    ensures Encoder.LastUsage([e]) == if e.UsageSeen? then Some(e.usage) else None
  {
    assert [e][..0] == [];
  }

  lemma TextsSnoc(actions: seq<Action>, a: Action)
    ensures Texts(actions + [a]) == if a.SawText? then Texts(actions) + [a.text] else Texts(actions)
    ensures LastUsage(actions + [a]) == if a.SawUsage? then Some(a.usage) else LastUsage(actions)
  {
    assert (actions + [a])[..|actions|] == actions;
    assert Texts(actions) + [] == Texts(actions);
  }

  lemma CallText(index: U64, t: StreamedTool, c: CallDelta)
    ensures var more := CallEvents(index, t, c);
            Unfinished(more) && Encoder.Texts(more) == [] && Encoder.LastUsage(more) == None
  {
    var more := CallEvents(index, t, c);
    assert forall e | e in more :: Encoder.Concerns(e, index);
    CallEventsSilent(more, index);
  }

  lemma ApplyText(codec: Codec, p: Parser, a: Action)
    requires Sound(a)
    ensures var more := Apply(codec, p, a).events;
            && Unfinished(more)
            && Encoder.Texts(more) == (if a.SawText? then [a.text] else [])
            && Encoder.LastUsage(more) == (if a.SawUsage? then Some(a.usage) else None)
  {
    if a.SawCall? {
      CallText(a.call.index.value, ToolAt(p.tools, a.call.index.value), a.call);
    } else if a.SawText? {
      TextOfOne(Text(a.text));
    } else if a.SawUsage? {
      TextOfOne(UsageSeen(a.usage));
    }
  }

  lemma MirrorsText(codec: Codec, p: Parser, events: seq<ProviderEvent>, actions: seq<Action>, a: Action)
    requires Unfinished(events) && Sound(a)
    requires Encoder.Texts(events) == Texts(actions) && Encoder.LastUsage(events) == LastUsage(actions)
    ensures var all := events + Apply(codec, p, a).events;
            && Unfinished(all)
            && Encoder.Texts(all) == Texts(actions + [a])
            && Encoder.LastUsage(all) == LastUsage(actions + [a])
  {
    ApplyText(codec, p, a);
    TextsAppend(events, Apply(codec, p, a).events);
    TextsSnoc(actions, a);
    assert Encoder.Texts(events) + [] == Encoder.Texts(events);
  }

  lemma MirrorsStep(codec: Codec, p: Parser, events: seq<ProviderEvent>, actions: seq<Action>, a: Action)
    requires Summarises(p, actions) && Mirrors(events, actions) && Sound(a)
    ensures Mirrors(events + Apply(codec, p, a).events, actions + [a])
  {
    MirrorsText(codec, p, events, actions, a);
    forall i: U64
      ensures Encoder.Built(Encoder.Own(events + Apply(codec, p, a).events, i)) == Held(History(actions + [a], i))
    {
      HistorySnoc(actions, a, i);
      assert ToolAt(p.tools, i) == Half(History(actions, i));
      assert Encoder.Built(Encoder.Own(events, i)) == Held(History(actions, i));
      MirrorsOwn(codec, p, events, History(actions, i), a, i);
    }
  }

  /** The reader goes on exactly while every action is sound, and then keeps this summary. */
  lemma {:induction false} RunSummary(codec: Codec, actions: seq<Action>)
    ensures var s := Run(codec, INITIAL, actions);
            && (s.next.Going? <==> forall a | a in actions :: Sound(a))
            && (s.next.Going? ==> Summarises(s.next.parser, actions) && Mirrors(s.events, actions))
  {
    if actions != [] {
      var n := |actions| - 1;
      var a := actions[n];
      assert actions == actions[..n] + [a];
      RunSummary(codec, actions[..n]);
      RunAppend(codec, INITIAL, actions[..n], [a]);
      var s := Run(codec, INITIAL, actions[..n]);
      if s.next.Going? {
        RunSingle(codec, s.next.parser, a);
        if Sound(a) {
          SummaryStep(codec, s.next.parser, actions[..n], a);
          MirrorsStep(codec, s.next.parser, s.events, actions[..n], a);
        }
      }
    }
  }

  // ---------------------------------------------------------------- streams that finish

  /** What the reader acts on: everything before the first `[DONE]` line. */
  function BeforeClose(actions: seq<Action>): (r: seq<Action>)
    ensures r <= actions && Close !in r
    ensures |r| < |actions| ==> actions[|r|] == Close
  {
    if actions == [] || actions[0].Close? then [] else [actions[0]] + BeforeClose(actions[1..])
  }

  predicate Ends(actions: seq<Action>, end: End) { Close in actions || end.Eof? }

  /** Every call seen so far has an id, a name, and JSON arguments. */
  predicate Deliverable(codec: Codec, actions: seq<Action>) {
    forall i | i in Seen(actions) :: Named(History(actions, i)) && codec.parse(Arguments(History(actions, i))).Some?
  }

  predicate AllNamed(actions: seq<Action>) {
    forall i | i in Seen(actions) :: Named(History(actions, i))
  }

  predicate Successful(codec: Codec, actions: seq<Action>) {
    && (forall a | a in actions :: Sound(a))
    && LastReason(actions).Some?
    && Deliverable(codec, actions)
  }

  lemma {:induction false} SeenHistory(actions: seq<Action>, i: U64)
    ensures i in Seen(actions) <==> History(actions, i) != []
  {
    if actions != [] {
      var n := |actions| - 1;
      SeenHistory(actions[..n], i);
      assert actions == actions[..n] + [actions[n]];
    }
  }

  lemma {:induction false} LastReasonIn(actions: seq<Action>)
    ensures LastReason(actions).Some? ==> SawFinish(LastReason(actions).value) in actions
  {
    if actions != [] && !actions[|actions| - 1].SawFinish? {
      LastReasonIn(actions[..|actions| - 1]);
    }
  }

  lemma RunToClose(codec: Codec, actions: seq<Action>)
    ensures var t := Run(codec, INITIAL, BeforeClose(actions));
            Run(codec, INITIAL, actions) ==
            if t.next.Going? && Close in actions then Resume(t.events, Finish(codec, t.next.parser)) else t
  {
    var e := BeforeClose(actions);
    assert |e| == |actions| ==> e == actions;
    assert |e| < |actions| ==> actions[|e|] in actions;
    if Close in actions {
      var rest := actions[|e| + 1..];
      assert actions == e + ([Close] + rest);
      RunAppend(codec, INITIAL, e, [Close] + rest);
      var t := Run(codec, INITIAL, e);
      if t.next.Going? {
        RunAppend(codec, t.next.parser, [Close], rest);
        RunSingle(codec, t.next.parser, Close);
      }
    }
  }

  /** The outcome of a stream, decided by what was read before the first `[DONE]`. */
  lemma ParseOutcome(codec: Codec, bytes: seq<byte>, end: End)
    ensures var actions := Actions(codec, Complete(bytes));
            var t := Run(codec, INITIAL, BeforeClose(actions));
            Parse(codec, bytes, end) ==
            if t.next.Stopped? then Output(t.events, t.next.error)
            else if Ends(actions, end) then
              Output(t.events + Finish(codec, t.next.parser).events, Finish(codec, t.next.parser).next.error)
            else Output(t.events, Some(end.error))
  {
    RunToClose(codec, Actions(codec, Complete(bytes)));
  }

  lemma ToolsDeliverable(codec: Codec, p: Parser, actions: seq<Action>)
    requires Summarises(p, actions)
    ensures p.tools.Keys == Seen(actions)
    ensures ToolsValid(codec, p.tools) <==> Deliverable(codec, actions)
  {
    forall i: U64 ensures i in p.tools <==> i in Seen(actions) {
      SeenHistory(actions, i);
    }
    forall i | i in p.tools
      ensures p.tools[i].started == Named(History(actions, i)) && p.tools[i].arguments == Arguments(History(actions, i))
    {
      assert ToolAt(p.tools, i) == Half(History(actions, i));
    }
  }

  lemma {:induction false} StoppedBadly(codec: Codec, p: Parser, actions: seq<Action>)
    requires Close !in actions
    ensures Run(codec, p, actions).next.Stopped? ==> Run(codec, p, actions).next.error == Some(Upstream)
    decreases actions
  {
    if actions != [] {
      var s := Apply(codec, p, actions[0]);
      if s.next.Going? {
        StoppedBadly(codec, s.next.parser, actions[1..]);
      }
    }
  }

  /** A stream ends without an error exactly when what was read before `[DONE]` is a whole message. */
  lemma StreamSucceeds(codec: Codec, bytes: seq<byte>, end: End)
    ensures var actions := Actions(codec, Complete(bytes));
            Parse(codec, bytes, end).error == None <==>
            Ends(actions, end) && Successful(codec, BeforeClose(actions))
  {
    var e := BeforeClose(Actions(codec, Complete(bytes)));
    ParseOutcome(codec, bytes, end);
    RunSummary(codec, e);
    var t := Run(codec, INITIAL, e);
    StoppedBadly(codec, INITIAL, e);
    if t.next.Going? {
      ToolsDeliverable(codec, t.next.parser, e);
      LastReasonIn(e);
    }
  }

  function Table(actions: seq<Action>): map<U64, Encoder.BufferedTool>
    requires AllNamed(actions)
  {
    map i | i in Seen(actions) :: Delivered(History(actions, i))
  }

  function OutputTokens(actions: seq<Action>): U64 {
    match LastUsage(actions) case None => 0 case Some(u) => u.outputTokens
  }

  function Closing(actions: seq<Action>): seq<Encoder.Sse> {
    if Texts(actions) != [] then [Encoder.BlockStop(0)]
    else if Seen(actions) == {} then [Encoder.BlockStart(0, Encoder.TextBlock), Encoder.BlockStop(0)]
    else []
  }

  function FirstTool(actions: seq<Action>): nat {
    if Texts(actions) != [] || Seen(actions) == {} then 1 else 0
  }

  /** The whole client stream for a message: one text block if there is text, then one block a tool. */
  function Message(head: StreamServer.Head, actions: seq<Action>): seq<Encoder.Sse>
    requires AllNamed(actions)
    requires LastReason(actions).Some? && Known(LastReason(actions).value).Some?
  {
    [Encoder.MessageStart(head.id, head.model, head.inputTokens)]
    + (Encoder.TextFrames(Texts(actions)) + Tail(actions, Known(LastReason(actions).value).value))
  }

  function Tail(actions: seq<Action>, reason: StopReason): seq<Encoder.Sse>
    requires AllNamed(actions)
  {
    Closing(actions)
    + Encoder.ToolFrames(FirstTool(actions), Table(actions), Ascending.Keys(Seen(actions)))
    + Encoder.Ending(reason, OutputTokens(actions))
  }

  lemma KeptTools(tools: map<U64, Encoder.BufferedTool>, events: seq<ProviderEvent>, actions: seq<Action>)
    requires forall i: U64 :: Encoder.Find(tools, i) == Encoder.Built(Encoder.Own(events, i))
    requires Mirrors(events, actions)
    requires AllNamed(actions)
    ensures tools == Table(actions)
  {
    forall i: U64 ensures Encoder.Find(tools, i) == Encoder.Find(Table(actions), i) {
      SeenHistory(actions, i);
      assert Encoder.Built(Encoder.Own(events, i)) == Held(History(actions, i));
    }
    Encoder.SameTools(tools, Table(actions));
  }

  lemma LastBlocks(t: Encoder.State, actions: seq<Action>)
    requires AllNamed(actions)
    requires t.tools == Table(actions)
    requires t.nextBlock == (if Texts(actions) == [] then 0 else 1)
    requires t.textBlock == (if Texts(actions) == [] then None else Some(0))
    ensures Encoder.Blocks(t) ==
            Closing(actions) + Encoder.ToolFrames(FirstTool(actions), Table(actions), Ascending.Keys(Seen(actions)))
  {
    assert t.tools.Keys == Seen(actions);
    assert t.tools == map[] <==> t.tools.Keys == {};
  }

  /** What the encoder sends last, from a state that mirrors the provider's stream. */
  lemma LastWords(s: Encoder.State, actions: seq<Action>, reason: StopReason)
    requires AllNamed(actions)
    requires s.tools == Table(actions)
    requires s.nextBlock == (if Texts(actions) == [] then 0 else 1)
    requires s.textBlock == (if Texts(actions) == [] then None else Some(0))
    requires s.outputTokens == OutputTokens(actions)
    ensures Encoder.Encode(s, Finished(reason, LastUsage(actions))).1 == Tail(actions, reason)
  {
    Encoder.FinishFrames(s, reason, LastUsage(actions));
    LastBlocks(s, actions);
  }

  /** What a stream that finishes yields. */
  lemma FinishedEvents(codec: Codec, bytes: seq<byte>, end: End)
    requires Parse(codec, bytes, end).error == None
    ensures var e := BeforeClose(Actions(codec, Complete(bytes)));
            var t := Run(codec, INITIAL, e);
            && Successful(codec, e) && Known(LastReason(e).value).Some?
            && Mirrors(t.events, e)
            && Parse(codec, bytes, end).events == t.events + [Finished(Known(LastReason(e).value).value, LastUsage(e))]
  {
    var e := BeforeClose(Actions(codec, Complete(bytes)));
    StreamSucceeds(codec, bytes, end);
    ParseOutcome(codec, bytes, end);
    RunSummary(codec, e);
    LastReasonIn(e);
  }

  /**
   * Conservation: a stream that finishes tells the client exactly what the provider sent. Each
   * index the provider used gives one tool block, in ascending order, whose input is every argument
   * fragment in order of arrival and whose id and name are those known at its introduction.
   */
  lemma FinishedStream(codec: Codec, bytes: seq<byte>, end: End, head: StreamServer.Head)
    requires Parse(codec, bytes, end).error == None
    ensures var e := BeforeClose(Actions(codec, Complete(bytes)));
            Successful(codec, e) && Known(LastReason(e).value).Some? &&
            StreamServer.Transcript(head, StreamServer.Polls(Parse(codec, bytes, end), None)) == Message(head, e)
  {
    var e := BeforeClose(Actions(codec, Complete(bytes)));
    FinishedEvents(codec, bytes, end);
    var events := Run(codec, INITIAL, e).events;
    var reason := Known(LastReason(e).value).value;
    FinishedTranscript(head, events, e, reason);
    FinishedPolls(events, Finished(reason, LastUsage(e)));
  }

  lemma FinishedPolls(events: seq<ProviderEvent>, finish: ProviderEvent)
    ensures StreamServer.Polls(Output(events + [finish], None), None)
         == StreamServer.Events(events) + [StreamServer.Event(finish)]
  {
  }

  lemma FinishedTranscript(head: StreamServer.Head, events: seq<ProviderEvent>, e: seq<Action>, reason: StopReason)
    requires Mirrors(events, e)
    requires AllNamed(e)
    requires LastReason(e).Some? && Known(LastReason(e).value) == Some(reason)
    ensures StreamServer.Transcript(
              head, StreamServer.Events(events) + [StreamServer.Event(Finished(reason, LastUsage(e)))])
            == Message(head, e)
  {
    var finish := Finished(reason, LastUsage(e));
    var start := Encoder.New(head.inputTokens);
    StreamServer.BodyOfEvents(start, events, [StreamServer.Event(finish)]);
    Encoder.EncoderReflects(events, head.inputTokens);
    var (s, out) := Encoder.EncodeAll(start, events);
    KeptTools(s.tools, events, e);
    LastWords(s, e, reason);
    var last := Encoder.Encode(s, finish).1;
    assert last + [] == last;
    assert StreamServer.Body(s, [StreamServer.Event(finish)]) == last;
  }
}
