/** Collecting a sequence from each element of another. */
module Collecting {

  function Collect<T, U>(f: T -> seq<U>, xs: seq<T>): seq<U> {
    if xs == [] then [] else f(xs[0]) + Collect(f, xs[1..])
  }

  lemma {:induction false} CollectAppend<T, U>(f: T -> seq<U>, xs: seq<T>, ys: seq<T>)
    ensures Collect(f, xs + ys) == Collect(f, xs) + Collect(f, ys)
  {
    if xs == [] {
      assert xs + ys == ys;
    } else {
      assert (xs + ys)[1..] == xs[1..] + ys;
      CollectAppend(f, xs[1..], ys);
    }
  }

  lemma CollectOne<T, U>(f: T -> seq<U>, x: T)
    ensures Collect(f, [x]) == f(x)
  {
    assert [x][1..] == [];
  }

  lemma CollectStep<T, U>(f: T -> seq<U>, xs: seq<T>, n: nat)
    requires n < |xs|
    ensures Collect(f, xs[..n + 1]) == Collect(f, xs[..n]) + f(xs[n])
  {
    assert xs[..n + 1] == xs[..n] + [xs[n]];
    CollectAppend(f, xs[..n], [xs[n]]);
    CollectOne(f, xs[n]);
  }

  lemma {:induction false} CollectNone<T, U>(f: T -> seq<U>, xs: seq<T>)
    requires forall x | x in xs :: f(x) == []
    ensures Collect(f, xs) == []
  {
    if xs != [] {
      CollectNone(f, xs[1..]);
    }
  }

  lemma {:induction false} CollectSelf<T>(f: T -> seq<T>, xs: seq<T>)
    requires forall x | x in xs :: f(x) == [x]
    ensures Collect(f, xs) == xs
  {
    if xs != [] {
      CollectSelf(f, xs[1..]);
    }
  }
}

/** `convert_messages` (src/provider.rs): an Anthropic conversation as Chat Completions messages. */
module Translation {
  import opened Domain
  import opened JsonModel
  import opened Requests
  import opened Adaptation
  import opened History
  import opened Collecting

  datatype Part = TextPart(text: string) | ImagePart(url: string)

  /** A lone text is sent as a string, anything else as a list of parts. */
  datatype Content = Single(text: string) | Many(parts: seq<Part>)

  datatype WireCall = WireCall(id: string, name: string, arguments: string)

  datatype Wire =
    | ToolMessage(callId: string, content: string)
    | ChatMessage(role: Role, body: Content)
    | AssistantMessage(text: Option<string>, calls: seq<WireCall>)

  function ImageUrl(mediaType: string, image: ImageData): string {
    match image
    case Base64(data) => "data:" + mediaType + ";base64," + data
    case Url(url) => url
  }

  function ResultText(value: string, isError: bool): string {
    if isError then "Error: " + value else value
  }

  predicate ChatBlock(b: Block) { !b.UseBlock? && !Structured(b) }

  predicate SpokenBlock(b: Block) { b.TextBlock? || b.UseBlock? }

  predicate Convertible(m: Message) {
    forall b | b in m.blocks :: if m.role.AssistantRole? then SpokenBlock(b) else ChatBlock(b)
  }

  function ResultOf(b: Block): seq<Wire> {
    if b.ResultBlock? && b.content.Str? then [ToolMessage(b.useId, ResultText(b.content.s, b.isError))] else []
  }

  function PartOf(b: Block): seq<Part> {
    match b
    case TextBlock(text) => [TextPart(text)]
    case ImageBlock(mediaType, image) => [ImagePart(ImageUrl(mediaType, image))]
    case _ => []
  }

  function TextOf(b: Block): string { if b.TextBlock? then b.text else "" }

  function CallOf(show: Json -> string, b: Block): seq<WireCall> {
    if b.UseBlock? then [WireCall(b.id, b.name, show(b.input))] else []
  }

  function ResultsOf(blocks: seq<Block>): seq<Wire> { Collect(ResultOf, blocks) }

  function PartsOf(blocks: seq<Block>): seq<Part> { Collect(PartOf, blocks) }

  function TextsOf(blocks: seq<Block>): string { Collect(TextOf, blocks) }

  function CallsOf(show: Json -> string, blocks: seq<Block>): seq<WireCall> { Collect(b => CallOf(show, b), blocks) }

  function ContentOf(parts: seq<Part>): Content {
    if |parts| == 1 && parts[0].TextPart? then Single(parts[0].text) else Many(parts)
  }

  function ChatOf(role: Role, parts: seq<Part>): seq<Wire> {
    if parts == [] then [] else [ChatMessage(role, ContentOf(parts))]
  }

  function SpokenOf(text: string, calls: seq<WireCall>): Wire {
    AssistantMessage(if text == "" then None else Some(text), calls)
  }

  function ConvertOne(show: Json -> string, m: Message): seq<Wire> {
    if m.role.AssistantRole? then [SpokenOf(TextsOf(m.blocks), CallsOf(show, m.blocks))]
    else ResultsOf(m.blocks) + ChatOf(m.role, PartsOf(m.blocks))
  }

  function ConvertAll(show: Json -> string, messages: seq<Message>): seq<Wire> {
    Collect(m => ConvertOne(show, m), messages)
  }

  predicate AllConvertible(messages: seq<Message>) {
    forall m | m in messages :: Convertible(m)
  }

  function Convert(show: Json -> string, messages: seq<Message>): Result<seq<Wire>, ProxyError> {
    if AllConvertible(messages) then Ok(ConvertAll(show, messages)) else Err(Invalid())
  }

  // ---------------------------------------------------------------- the loops

  method ReadChat(blocks: seq<Block>) returns (ok: bool, results: seq<Wire>, content: seq<Part>)
    ensures ok <==> forall b | b in blocks :: ChatBlock(b)
    ensures ok ==> results == ResultsOf(blocks) && content == PartsOf(blocks)
  {
    results, content := [], [];
    for n := 0 to |blocks|
      invariant forall b | b in blocks[..n] :: ChatBlock(b)
      invariant results == ResultsOf(blocks[..n]) && content == PartsOf(blocks[..n])
    {
      CollectStep(ResultOf, blocks, n);
      CollectStep(PartOf, blocks, n);
      var b := blocks[n];
      assert blocks[..n + 1] == blocks[..n] + [b];
      if b.UseBlock? || (b.ResultBlock? && !b.content.Str?) {
        assert !ChatBlock(blocks[n]);
        return false, results, content;
      }
      if b.ResultBlock? {
        results := results + [ToolMessage(b.useId, if b.isError then "Error: " + b.content.s else b.content.s)];
      } else if b.TextBlock? {
        content := content + [TextPart(b.text)];
      } else {
        var url := if b.image.Base64? then "data:" + b.mediaType + ";base64," + b.image.data else b.image.url;
        content := content + [ImagePart(url)];
      }
    }
    assert blocks[..|blocks|] == blocks;
    ok := true;
  }

  method ConvertChat(role: Role, blocks: seq<Block>) returns (out: Option<seq<Wire>>)
    ensures out == if forall b | b in blocks :: ChatBlock(b)
                   then Some(ResultsOf(blocks) + ChatOf(role, PartsOf(blocks))) else None
  {
    var ok, results, content := ReadChat(blocks);
    if !ok {
      return None;
    }
    var messages := results;
    if content != [] {
      var body := if |content| == 1 && content[0].TextPart? then Single(content[0].text) else Many(content);
      messages := messages + [ChatMessage(role, body)];
    }
    assert results + [] == results;
    return Some(messages);
  }

  method ConvertAssistant(show: Json -> string, blocks: seq<Block>) returns (out: Option<Wire>)
    ensures out == if forall b | b in blocks :: SpokenBlock(b)
                   then Some(SpokenOf(TextsOf(blocks), CallsOf(show, blocks))) else None
  {
    var text: string, calls: seq<WireCall> := "", [];
    for n := 0 to |blocks|
      invariant forall b | b in blocks[..n] :: SpokenBlock(b)
      invariant text == TextsOf(blocks[..n]) && calls == CallsOf(show, blocks[..n])
    {
      StepText(show, blocks, n);
      var b := blocks[n];
      assert blocks[..n + 1] == blocks[..n] + [b];
      if !b.TextBlock? && !b.UseBlock? {
        assert !SpokenBlock(blocks[n]);
        return None;
      }
      if b.TextBlock? {
        text := text + b.text;
      } else {
        calls := calls + [WireCall(b.id, b.name, show(b.input))];
      }
    }
    assert blocks[..|blocks|] == blocks;
    return Some(AssistantMessage(if text == "" then None else Some(text), calls));
  }

  lemma StepText(show: Json -> string, blocks: seq<Block>, n: nat)
    requires n < |blocks|
    ensures TextsOf(blocks[..n + 1]) == TextsOf(blocks[..n]) + TextOf(blocks[n])
    ensures CallsOf(show, blocks[..n + 1]) == CallsOf(show, blocks[..n]) + CallOf(show, blocks[n])
  {
    CollectStep(TextOf, blocks, n);
    CollectStep(b => CallOf(show, b), blocks, n);
  }

  method ConvertMessages(show: Json -> string, messages: seq<Message>) returns (r: Result<seq<Wire>, ProxyError>)
    ensures r == Convert(show, messages)
  {
    var out: seq<Wire> := [];
    for n := 0 to |messages|
      invariant AllConvertible(messages[..n])
      invariant out == ConvertAll(show, messages[..n])
    {
      var m := messages[n];
      ConvertStep(show, messages, n);
      assert messages[..n + 1] == messages[..n] + [m];
      assert !Convertible(m) ==> !AllConvertible(messages);
      if m.role.AssistantRole? {
        var one := ConvertAssistant(show, m.blocks);
        if one.None? {
          return Err(Invalid());
        }
        out := out + [one.value];
      } else {
        var some := ConvertChat(m.role, m.blocks);
        if some.None? {
          return Err(Invalid());
        }
        out := out + some.value;
      }
    }
    assert messages[..|messages|] == messages;
    return Ok(out);
  }

  lemma ConvertStep(show: Json -> string, messages: seq<Message>, n: nat)
    requires n < |messages|
    ensures ConvertAll(show, messages[..n + 1]) == ConvertAll(show, messages[..n]) + ConvertOne(show, messages[n])
  {
    CollectStep(m => ConvertOne(show, m), messages, n);
  }

  // ---------------------------------------------------------------- nothing is lost

  function By(role: Role, parts: seq<Part>): (r: seq<(Role, Part)>)
    ensures |r| == |parts|
  {
    seq(|parts|, i requires 0 <= i < |parts| => (role, parts[i]))
  }

  // What one block of the conversation amounts to, by kind.

  function ResultIn(e: Entry): seq<Wire> { ResultOf(e.block) }

  function CallIn(show: Json -> string, e: Entry): seq<WireCall> { CallOf(show, e.block) }

  function SaidIn(e: Entry): seq<(Role, Part)> { By(e.role, if e.role.AssistantRole? then [] else PartOf(e.block)) }

  function SpokenIn(e: Entry): string { if e.role.AssistantRole? then TextOf(e.block) else "" }

  // What one outgoing message amounts to, by kind.

  function ResultSent(w: Wire): seq<Wire> { if w.ToolMessage? then [w] else [] }

  function CallsSent(w: Wire): seq<WireCall> { if w.AssistantMessage? then w.calls else [] }

  function SaidSent(w: Wire): seq<(Role, Part)> {
    if !w.ChatMessage? then [] else By(w.role, if w.body.Single? then [TextPart(w.body.text)] else w.body.parts)
  }

  function SpokenSent(w: Wire): string { if w.AssistantMessage? then w.text.GetOr("") else "" }

  lemma {:induction false} CollectTagged<U>(g: Entry -> seq<U>, h: Block -> seq<U>, role: Role, blocks: seq<Block>)
    requires forall b | b in blocks :: g(Entry(role, b)) == h(b)
    ensures Collect(g, Tagged(role, blocks)) == Collect(h, blocks)
  {
    if blocks != [] {
      assert Tagged(role, blocks)[1..] == Tagged(role, blocks[1..]);
      CollectTagged(g, h, role, blocks[1..]);
    }
  }

  /** If a kind of content survives each message, it survives the conversation. */
  lemma {:induction false} CollectConverted<U>(show: Json -> string, sent: Wire -> seq<U>, said: Entry -> seq<U>,
                                               messages: seq<Message>)
    requires forall m | m in messages :: Collect(sent, ConvertOne(show, m)) == Collect(said, Tagged(m.role, m.blocks))
    ensures Collect(sent, ConvertAll(show, messages)) == Collect(said, Flat(messages))
  {
    if messages != [] {
      var m := messages[0];
      CollectConverted(show, sent, said, messages[1..]);
      CollectAppend(sent, ConvertOne(show, m), ConvertAll(show, messages[1..]));
      CollectAppend(said, Tagged(m.role, m.blocks), Flat(messages[1..]));
    }
  }

  lemma {:induction false} OnlyResults(blocks: seq<Block>)
    ensures forall w | w in ResultsOf(blocks) :: w.ToolMessage?
  {
    if blocks != [] {
      OnlyResults(blocks[1..]);
    }
  }

  lemma ResultsSurvive(show: Json -> string, m: Message)
    requires Convertible(m)
    ensures Collect(ResultSent, ConvertOne(show, m)) == Collect(ResultIn, Tagged(m.role, m.blocks))
  {
    CollectTagged(ResultIn, ResultOf, m.role, m.blocks);
    if m.role.AssistantRole? {
      CollectNone(ResultOf, m.blocks);
      CollectOne(ResultSent, SpokenOf(TextsOf(m.blocks), CallsOf(show, m.blocks)));
    } else {
      OnlyResults(m.blocks);
      CollectAppend(ResultSent, ResultsOf(m.blocks), ChatOf(m.role, PartsOf(m.blocks)));
      CollectSelf(ResultSent, ResultsOf(m.blocks));
      CollectNone(ResultSent, ChatOf(m.role, PartsOf(m.blocks)));
    }
  }

  lemma CallsSurvive(show: Json -> string, m: Message)
    requires Convertible(m)
    ensures Collect(CallsSent, ConvertOne(show, m)) == Collect(e => CallIn(show, e), Tagged(m.role, m.blocks))
  {
    CollectTagged(e => CallIn(show, e), b => CallOf(show, b), m.role, m.blocks);
    if m.role.AssistantRole? {
      CollectOne(CallsSent, SpokenOf(TextsOf(m.blocks), CallsOf(show, m.blocks)));
    } else {
      CollectNone(b => CallOf(show, b), m.blocks);
      OnlyResults(m.blocks);
      CollectNone(CallsSent, ConvertOne(show, m));
    }
  }

  lemma ByAppend(role: Role, a: seq<Part>, b: seq<Part>)
    ensures By(role, a + b) == By(role, a) + By(role, b)
  {
  }

  lemma {:induction false} ByParts(role: Role, blocks: seq<Block>)
    requires !role.AssistantRole?
    ensures Collect(SaidIn, Tagged(role, blocks)) == By(role, PartsOf(blocks))
  {
    if blocks != [] {
      assert Tagged(role, blocks)[1..] == Tagged(role, blocks[1..]);
      ByParts(role, blocks[1..]);
      ByAppend(role, PartOf(blocks[0]), PartsOf(blocks[1..]));
    }
  }

  lemma {:induction false} TaggedRole(role: Role, blocks: seq<Block>)
    ensures forall e | e in Tagged(role, blocks) :: e.role == role
  {
    if blocks != [] {
      TaggedRole(role, blocks[1..]);
    }
  }

  lemma SaidSurvives(show: Json -> string, m: Message)
    requires Convertible(m)
    ensures Collect(SaidSent, ConvertOne(show, m)) == Collect(SaidIn, Tagged(m.role, m.blocks))
  {
    TaggedRole(m.role, m.blocks);
    if m.role.AssistantRole? {
      CollectNone(SaidIn, Tagged(m.role, m.blocks));
      CollectNone(SaidSent, ConvertOne(show, m));
    } else {
      ByParts(m.role, m.blocks);
      OnlyResults(m.blocks);
      var parts := PartsOf(m.blocks);
      CollectAppend(SaidSent, ResultsOf(m.blocks), ChatOf(m.role, parts));
      CollectNone(SaidSent, ResultsOf(m.blocks));
      if parts != [] {
        CollectOne(SaidSent, ChatMessage(m.role, ContentOf(parts)));
      }
    }
  }

  lemma SpokenSurvives(show: Json -> string, m: Message)
    requires Convertible(m)
    ensures Collect(SpokenSent, ConvertOne(show, m)) == Collect(SpokenIn, Tagged(m.role, m.blocks))
  {
    TaggedRole(m.role, m.blocks);
    if m.role.AssistantRole? {
      CollectTagged(SpokenIn, TextOf, m.role, m.blocks);
      CollectOne(SpokenSent, SpokenOf(TextsOf(m.blocks), CallsOf(show, m.blocks)));
    } else {
      OnlyResults(m.blocks);
      CollectNone(SpokenSent, ConvertOne(show, m));
      CollectNone(SpokenIn, Tagged(m.role, m.blocks));
    }
  }

  /**
   * Every result, every call, every text and every image of the conversation reaches the provider,
   * each kind in its original order, said by the one who said it.
   */
  lemma LosesNothing(show: Json -> string, messages: seq<Message>)
    requires AllConvertible(messages)
    ensures var out, f := ConvertAll(show, messages), Flat(messages);
            && Collect(ResultSent, out) == Collect(ResultIn, f)
            && Collect(CallsSent, out) == Collect(e => CallIn(show, e), f)
            && Collect(SaidSent, out) == Collect(SaidIn, f)
            && Collect(SpokenSent, out) == Collect(SpokenIn, f)
  {
    forall m | m in messages
      ensures Collect(ResultSent, ConvertOne(show, m)) == Collect(ResultIn, Tagged(m.role, m.blocks))
      ensures Collect(SaidSent, ConvertOne(show, m)) == Collect(SaidIn, Tagged(m.role, m.blocks))
      ensures Collect(SpokenSent, ConvertOne(show, m)) == Collect(SpokenIn, Tagged(m.role, m.blocks))
    {
      ResultsSurvive(show, m);
      SaidSurvives(show, m);
      SpokenSurvives(show, m);
    }
    CollectConverted(show, ResultSent, ResultIn, messages);
    CollectConverted(show, SaidSent, SaidIn, messages);
    CollectConverted(show, SpokenSent, SpokenIn, messages);
    AllCallsSurvive(show, messages);
  }

  lemma AllCallsSurvive(show: Json -> string, messages: seq<Message>)
    requires AllConvertible(messages)
    ensures Collect(CallsSent, ConvertAll(show, messages)) == Collect(e => CallIn(show, e), Flat(messages))
  {
    var calls := e => CallIn(show, e);
    forall m | m in messages
      ensures Collect(CallsSent, ConvertOne(show, m)) == Collect(calls, Tagged(m.role, m.blocks))
    {
      CallsSurvive(show, m);
    }
    CollectConverted(show, CallsSent, calls, messages);
  }

  // ---------------------------------------------------------------- pairing survives

  predicate HasCall(calls: seq<WireCall>, id: string) { exists k | 0 <= k < |calls| :: calls[k].id == id }

  predicate Makes(w: Wire, id: string) { w.AssistantMessage? && HasCall(w.calls, id) }

  predicate Settles(w: Wire, id: string) { w.ToolMessage? && w.callId == id }

  predicate CallMade(out: seq<Wire>, id: string) { exists i | 0 <= i < |out| :: Makes(out[i], id) }

  predicate CallSettled(out: seq<Wire>, id: string) { exists i | 0 <= i < |out| :: Settles(out[i], id) }

  /** Every tool message names a call made in an earlier assistant message and not settled since. */
  predicate WirePaired(out: seq<Wire>) {
    forall j | 0 <= j < |out| && out[j].ToolMessage? ::
      CallMade(out[..j], out[j].callId) && !CallSettled(out[..j], out[j].callId)
  }

  ghost predicate Linked(out: seq<Wire>, f: seq<Entry>) {
    WirePaired(out) && forall id :: (CallMade(out, id) <==> Uses(f, id)) && (CallSettled(out, id) <==> Answers(f, id))
  }

  lemma MadeSnoc(out: seq<Wire>, w: Wire, id: string)
    ensures CallMade(out + [w], id) <==> CallMade(out, id) || Makes(w, id)
    ensures CallSettled(out + [w], id) <==> CallSettled(out, id) || Settles(w, id)
  {
    var all := out + [w];
    assert all[|out|] == w;
    assert forall i | 0 <= i < |out| :: all[i] == out[i];
    if i :| 0 <= i < |out| && Makes(out[i], id) { assert Makes(all[i], id); }
    if i :| 0 <= i < |out| && Settles(out[i], id) { assert Settles(all[i], id); }
  }

  lemma WirePairedSnoc(out: seq<Wire>, w: Wire)
    requires WirePaired(out)
    requires w.ToolMessage? ==> CallMade(out, w.callId) && !CallSettled(out, w.callId)
    ensures WirePaired(out + [w])
  {
    var all := out + [w];
    forall j | 0 <= j < |all| && all[j].ToolMessage?
      ensures CallMade(all[..j], all[j].callId) && !CallSettled(all[..j], all[j].callId)
    {
      assert all[..j] == out[..j];
      if j == |out| {
        assert all[..j] == out;
      }
    }
  }

  /** One more outgoing message, mirrored by more of the conversation. */
  lemma LinkedSnoc(out: seq<Wire>, w: Wire, f: seq<Entry>, g: seq<Entry>)
    requires Linked(out, f)
    requires w.ToolMessage? ==> Uses(f, w.callId) && !Answers(f, w.callId)
    requires forall id :: (Makes(w, id) <==> Uses(g, id)) && (Settles(w, id) <==> Answers(g, id))
    ensures Linked(out + [w], f + g)
  {
    assert w.ToolMessage? ==>
           (CallMade(out, w.callId) <==> Uses(f, w.callId)) && (CallSettled(out, w.callId) <==> Answers(f, w.callId));
    WirePairedSnoc(out, w);
    forall id
      ensures CallMade(out + [w], id) <==> Uses(f + g, id)
      ensures CallSettled(out + [w], id) <==> Answers(f + g, id)
    {
      MadeSnoc(out, w, id);
      UsesAppend(f, g, id);
      assert Makes(w, id) <==> Uses(g, id);
      assert CallMade(out, id) <==> Uses(f, id);
    }
  }

  lemma LinkedQuiet(out: seq<Wire>, f: seq<Entry>, e: Entry)
    requires Linked(out, f) && !e.block.UseBlock? && !e.block.ResultBlock?
    ensures Linked(out, f + [e])
  {
    forall id
      ensures CallMade(out, id) <==> Uses(f + [e], id)
      ensures CallSettled(out, id) <==> Answers(f + [e], id)
    {
      UsesAppend(f, [e], id);
      UsesOne(e, id);
      assert CallMade(out, id) <==> Uses(f, id);
    }
  }

  lemma LinkedResult(out: seq<Wire>, f: seq<Entry>, e: Entry)
    requires Linked(out, f) && Paired(f + [e]) && ChatBlock(e.block)
    ensures Linked(out + ResultOf(e.block), f + [e])
  {
    if e.block.ResultBlock? {
      var w := ToolMessage(e.block.useId, ResultText(e.block.content.s, e.block.isError));
      assert InOrder(f + [e], |f|);
      assert (f + [e])[..|f|] == f;
      forall id ensures (Makes(w, id) <==> Uses([e], id)) && (Settles(w, id) <==> Answers([e], id)) {
        UsesOne(e, id);
      }
      LinkedSnoc(out, w, f, [e]);
    } else {
      assert out + [] == out;
      LinkedQuiet(out, f, e);
    }
  }

  lemma {:induction false} LinkedResults(out: seq<Wire>, f: seq<Entry>, role: Role, blocks: seq<Block>)
    requires Linked(out, f) && Paired(f + Tagged(role, blocks))
    requires forall b | b in blocks :: ChatBlock(b)
    ensures Linked(out + ResultsOf(blocks), f + Tagged(role, blocks))
    decreases blocks
  {
    if blocks == [] {
      assert out + [] == out && f + [] == f;
    } else {
      var e := Entry(role, blocks[0]);
      var rest := Tagged(role, blocks[1..]);
      assert f + Tagged(role, blocks) == (f + [e]) + rest;
      PairedPrefix(f + [e], f + Tagged(role, blocks));
      LinkedResult(out, f, e);
      LinkedResults(out + ResultOf(blocks[0]), f + [e], role, blocks[1..]);
      assert out + ResultsOf(blocks) == out + ResultOf(blocks[0]) + ResultsOf(blocks[1..]);
    }
  }

  lemma LinkedSilent(out: seq<Wire>, f: seq<Entry>, w: Wire)
    requires Linked(out, f) && w.ChatMessage?
    ensures Linked(out + [w], f)
  {
    forall id ensures (Makes(w, id) <==> Uses([], id)) && (Settles(w, id) <==> Answers([], id)) {
    }
    LinkedSnoc(out, w, f, []);
    assert f + [] == f;
  }

  lemma HasCallAppend(a: seq<WireCall>, b: seq<WireCall>, id: string)
    ensures HasCall(a + b, id) <==> HasCall(a, id) || HasCall(b, id)
  {
    var all := a + b;
    if k :| 0 <= k < |a| && a[k].id == id { assert all[k].id == id; }
    if k :| 0 <= k < |b| && b[k].id == id { assert all[|a| + k].id == id; }
    if k :| 0 <= k < |all| && all[k].id == id {
      assert k < |a| || b[k - |a|].id == id;
    }
  }

  lemma {:induction false} CallsTagged(show: Json -> string, role: Role, blocks: seq<Block>, id: string)
    requires forall b | b in blocks :: SpokenBlock(b)
    ensures HasCall(CallsOf(show, blocks), id) <==> Uses(Tagged(role, blocks), id)
    ensures !Answers(Tagged(role, blocks), id)
  {
    if blocks != [] {
      assert SpokenBlock(blocks[0]);
      var e := Entry(role, blocks[0]);
      CallsTagged(show, role, blocks[1..], id);
      HasCallAppend(CallOf(show, blocks[0]), CallsOf(show, blocks[1..]), id);
      UsesAppend([e], Tagged(role, blocks[1..]), id);
      UsesOne(e, id);
      if blocks[0].UseBlock? {
        assert CallOf(show, blocks[0])[0].id == blocks[0].id;
      }
    }
  }

  lemma LinkedMessage(show: Json -> string, out: seq<Wire>, f: seq<Entry>, m: Message)
    requires Linked(out, f) && Convertible(m) && Paired(f + Tagged(m.role, m.blocks))
    ensures Linked(out + ConvertOne(show, m), f + Tagged(m.role, m.blocks))
  {
    if m.role.AssistantRole? {
      var w := SpokenOf(TextsOf(m.blocks), CallsOf(show, m.blocks));
      forall id
        ensures Makes(w, id) <==> Uses(Tagged(m.role, m.blocks), id)
        ensures Settles(w, id) <==> Answers(Tagged(m.role, m.blocks), id)
      {
        CallsTagged(show, m.role, m.blocks, id);
      }
      LinkedSnoc(out, w, f, Tagged(m.role, m.blocks));
    } else {
      LinkedResults(out, f, m.role, m.blocks);
      var parts := PartsOf(m.blocks);
      assert out + ConvertOne(show, m) == out + ResultsOf(m.blocks) + ChatOf(m.role, parts);
      if parts == [] {
        assert out + ResultsOf(m.blocks) + [] == out + ResultsOf(m.blocks);
      } else {
        LinkedSilent(out + ResultsOf(m.blocks), f + Tagged(m.role, m.blocks), ChatMessage(m.role, ContentOf(parts)));
      }
    }
  }

  lemma LinkedStep(show: Json -> string, messages: seq<Message>, n: nat)
    requires n < |messages| && AllConvertible(messages) && Paired(Flat(messages))
    requires Linked(ConvertAll(show, messages[..n]), Flat(messages[..n]))
    ensures Linked(ConvertAll(show, messages[..n + 1]), Flat(messages[..n + 1]))
  {
    ConvertStep(show, messages, n);
    FlatSnoc(messages, n);
    FlatPrefix(messages, n + 1);
    PairedPrefix(Flat(messages[..n + 1]), Flat(messages));
    assert messages[n] in messages;
    LinkedMessage(show, ConvertAll(show, messages[..n]), Flat(messages[..n]), messages[n]);
  }

  lemma {:induction false} LinkedAll(show: Json -> string, messages: seq<Message>, n: nat)
    requires n <= |messages| && AllConvertible(messages) && Paired(Flat(messages))
    ensures Linked(ConvertAll(show, messages[..n]), Flat(messages[..n]))
  {
    if n > 0 {
      LinkedAll(show, messages, n - 1);
      LinkedStep(show, messages, n - 1);
    }
  }

  /** An accepted conversation stays paired on the wire, although results move to the front. */
  lemma PairingSurvives(show: Json -> string, messages: seq<Message>)
    requires Paired(Flat(messages)) && Convert(show, messages).Ok?
    ensures WirePaired(Convert(show, messages).value)
  {
    LinkedAll(show, messages, |messages|);
    assert messages[..|messages|] == messages;
  }

  // ---------------------------------------------------------------- when translation fails

  predicate SameShape(d: Entry, e: Entry) {
    && d.role == e.role
    && (d.block.UseBlock? <==> e.block.UseBlock?) && (d.block.UseBlock? ==> d.block.id == e.block.id)
    && (d.block.ResultBlock? <==> e.block.ResultBlock?) && (d.block.ResultBlock? ==> d.block.useId == e.block.useId)
  }

  predicate SameShapes(f: seq<Entry>, g: seq<Entry>) {
    |f| == |g| && forall i | 0 <= i < |f| :: SameShape(f[i], g[i])
  }

  lemma SameUses(f: seq<Entry>, g: seq<Entry>, id: string)
    requires SameShapes(f, g)
    ensures Uses(f, id) ==> Uses(g, id)
    ensures Answers(f, id) ==> Answers(g, id)
  {
    if i :| 0 <= i < |f| && IsUse(f[i], id) {
      assert SameShape(f[i], g[i]) && IsUse(g[i], id);
    }
    if i :| 0 <= i < |f| && IsResult(f[i], id) {
      assert SameShape(f[i], g[i]) && IsResult(g[i], id);
    }
  }

  lemma SamePaired(f: seq<Entry>, g: seq<Entry>)
    requires SameShapes(f, g) && Paired(f)
    ensures Paired(g)
  {
    forall i | 0 <= i < |g| ensures InOrder(g, i) {
      assert InOrder(f, i) && SameShape(f[i], g[i]);
      assert SameShapes(f[..i], g[..i]) && SameShapes(g[..i], f[..i]);
      var id := if g[i].block.UseBlock? then g[i].block.id
                else if g[i].block.ResultBlock? then g[i].block.useId else "";
      SameUses(f[..i], g[..i], id);
      SameUses(g[..i], f[..i], id);
    }
  }

  lemma {:induction false} TaggedShapes(show: Json -> string, role: Role, blocks: seq<Block>)
    ensures SameShapes(Tagged(role, blocks), Tagged(role, AdaptBlocks(show, blocks)))
  {
    if blocks != [] {
      TaggedShapes(show, role, blocks[1..]);
      assert AdaptBlocks(show, blocks)[1..] == AdaptBlocks(show, blocks[1..]);
    }
  }

  lemma ShapesAppend(a: seq<Entry>, b: seq<Entry>, c: seq<Entry>, d: seq<Entry>)
    requires SameShapes(a, c) && SameShapes(b, d)
    ensures SameShapes(a + b, c + d)
  {
  }

  lemma {:induction false} FlatShapes(show: Json -> string, messages: seq<Message>)
    ensures SameShapes(Flat(messages), Flat(AdaptMessages(show, messages)))
  {
    if messages != [] {
      var m := messages[0];
      FlatShapes(show, messages[1..]);
      TaggedShapes(show, m.role, m.blocks);
      assert AdaptMessages(show, messages)[1..] == AdaptMessages(show, messages[1..]);
      ShapesAppend(Tagged(m.role, m.blocks), Flat(messages[1..]),
                   Tagged(m.role, AdaptBlocks(show, m.blocks)), Flat(AdaptMessages(show, messages[1..])));
    }
  }

  /** Adaptation does not disturb the pairing of calls and results. */
  lemma AdaptKeepsPairing(show: Json -> string, messages: seq<Message>)
    requires Paired(Flat(messages))
    ensures Paired(Flat(AdaptMessages(show, messages)))
  {
    FlatShapes(show, messages);
    SamePaired(Flat(messages), Flat(AdaptMessages(show, messages)));
  }

  lemma {:induction false} TaggedHas(role: Role, blocks: seq<Block>, b: Block)
    requires b in blocks
    ensures Entry(role, b) in Tagged(role, blocks)
  {
    if b != blocks[0] {
      TaggedHas(role, blocks[1..], b);
    }
  }

  lemma {:induction false} FlatHas(messages: seq<Message>, m: Message, b: Block)
    requires m in messages && b in m.blocks
    ensures Entry(m.role, b) in Flat(messages)
  {
    if m == messages[0] {
      TaggedHas(m.role, m.blocks, b);
    } else {
      FlatHas(messages[1..], m, b);
    }
  }

  predicate ShowsImage(m: Message) { m.role.AssistantRole? && exists b | b in m.blocks :: b.ImageBlock? }

  lemma PairedConvertible(messages: seq<Message>, m: Message)
    requires Paired(Flat(messages)) && m in messages
    requires forall b | b in m.blocks :: !Structured(b)
    ensures Convertible(m) <==> !ShowsImage(m)
  {
    forall b | b in m.blocks
      ensures b.UseBlock? ==> m.role.AssistantRole?
      ensures b.ResultBlock? ==> m.role.UserRole?
    {
      FlatHas(messages, m, b);
      var i :| 0 <= i < |Flat(messages)| && Flat(messages)[i] == Entry(m.role, b);
      assert InOrder(Flat(messages), i);
    }
  }

  /**
   * After validation and adaptation only one thing can stop the translation: an image in an
   * assistant message. Its other error branches are unreachable.
   */
  lemma ConvertFails(show: Json -> string, caps: Profile, r: Request)
    requires Paired(Flat(r.messages)) && Adapt(show, caps, r).Ok?
    ensures Convert(show, Adapt(show, caps, r).value.messages).Err? <==> exists m | m in r.messages :: ShowsImage(m)
  {
    var messages := AdaptMessages(show, r.messages);
    AdaptKeepsPairing(show, r.messages);
    AdaptIsSound(show, caps, r);
    forall i | 0 <= i < |messages| ensures Convertible(messages[i]) <==> !ShowsImage(r.messages[i]) {
      forall b | b in messages[i].blocks ensures !Structured(b) {
        var j :| 0 <= j < |messages[i].blocks| && messages[i].blocks[j] == b;
        assert PlainBlock(caps, messages[i].blocks[j]);
      }
      PairedConvertible(messages, messages[i]);
      SameImages(show, r.messages[i]);
    }
    if m :| m in r.messages && ShowsImage(m) {
      var i :| 0 <= i < |r.messages| && r.messages[i] == m;
      assert !Convertible(messages[i]) && messages[i] in messages;
    } else {
      forall m | m in messages ensures Convertible(m) {
        var i :| 0 <= i < |messages| && messages[i] == m;
        assert r.messages[i] in r.messages;
      }
    }
  }

  lemma SameImages(show: Json -> string, m: Message)
    ensures ShowsImage(Message(m.role, AdaptBlocks(show, m.blocks))) <==> ShowsImage(m)
  {
    var blocks := AdaptBlocks(show, m.blocks);
    if b :| b in m.blocks && b.ImageBlock? {
      var j :| 0 <= j < |m.blocks| && m.blocks[j] == b;
      assert blocks[j] in blocks && blocks[j].ImageBlock?;
    }
    if b :| b in blocks && b.ImageBlock? {
      var j :| 0 <= j < |blocks| && blocks[j] == b;
      assert m.blocks[j] in m.blocks && m.blocks[j].ImageBlock?;
    }
  }
}
