/** Where each block of a conversation ends up in what `convert_messages` (src/provider.rs) sends. */
module Places {
  import opened Domain
  import opened JsonModel
  import opened Requests
  import opened Adaptation
  import opened Collecting
  import opened Lines
  import opened Translation

  datatype Kind = AResult | APart | ACall

  predicate Is(k: Kind, b: Block) {
    match k
    case AResult => b.ResultBlock?
    case APart => b.TextBlock? || b.ImageBlock?
    case ACall => b.UseBlock?
  }

  /** How many of the first `j` blocks are of this kind. */
  function Count(k: Kind, blocks: seq<Block>, j: nat): nat
    requires j <= |blocks|
  {
    if j == 0 then 0 else Count(k, blocks, j - 1) + (if Is(k, blocks[j - 1]) then 1 else 0)
  }

  function All(k: Kind, blocks: seq<Block>): nat { Count(k, blocks, |blocks|) }

  /** How many messages one message becomes. */
  function Width(m: Message): nat {
    if m.role == AssistantRole then 1 else All(AResult, m.blocks) + (if All(APart, m.blocks) > 0 then 1 else 0)
  }

  /** How many messages the first `i` become. */
  function Base(messages: seq<Message>, i: nat): nat
    requires i <= |messages|
  {
    if i == 0 then 0 else Base(messages, i - 1) + Width(messages[i - 1])
  }

  // ---------------------------------------------------------------- within a message

  /** One thing is collected from every block of this kind, and nothing from the others. */
  ghost predicate OneOfEach<U>(k: Kind, f: Block -> seq<U>, blocks: seq<Block>) {
    forall b | b in blocks :: |f(b)| == if Is(k, b) then 1 else 0
  }

  lemma {:induction false} CollectedCount<U>(k: Kind, f: Block -> seq<U>, blocks: seq<Block>, n: nat)
    requires OneOfEach(k, f, blocks) && n <= |blocks|
    ensures |Collect(f, blocks[..n])| == Count(k, blocks, n)
  {
    if n > 0 {
      CollectedCount(k, f, blocks, n - 1);
      CollectStep(f, blocks, n - 1);
      assert blocks[n - 1] in blocks;
    }
  }

  lemma Shifted<T>(a: seq<T>, b: seq<T>, c: seq<T>, k: nat)
    requires k < |b|
    ensures (a + (b + c))[|a| + k] == b[k]
  {
  }

  lemma CollectSplit<U>(f: Block -> seq<U>, blocks: seq<Block>, j: nat)
    requires j < |blocks|
    ensures Collect(f, blocks) == Collect(f, blocks[..j]) + (f(blocks[j]) + Collect(f, blocks[j + 1..]))
  {
    assert blocks == blocks[..j + 1] + blocks[j + 1..];
    CollectStep(f, blocks, j);
    CollectAppend(f, blocks[..j + 1], blocks[j + 1..]);
    Associative(Collect(f, blocks[..j]), f(blocks[j]), Collect(f, blocks[j + 1..]));
  }

  lemma CollectedAt<U>(k: Kind, f: Block -> seq<U>, blocks: seq<Block>, j: nat)
    requires OneOfEach(k, f, blocks) && j < |blocks| && Is(k, blocks[j])
    ensures |Collect(f, blocks)| == All(k, blocks) && Count(k, blocks, j) < All(k, blocks)
    ensures |f(blocks[j])| == 1 && Collect(f, blocks)[Count(k, blocks, j)] == f(blocks[j])[0]
  {
    CollectedCount(k, f, blocks, |blocks|);
    CollectedCount(k, f, blocks, j);
    assert blocks[..|blocks|] == blocks && blocks[j] in blocks;
    CountBelow(k, blocks, j);
    CollectSplit(f, blocks, j);
    Shifted(Collect(f, blocks[..j]), f(blocks[j]), Collect(f, blocks[j + 1..]), 0);
  }

  lemma Counted(k: Kind, blocks: seq<Block>)
    ensures (k == AResult && forall b | b in blocks :: ChatBlock(b)) ==> |ResultsOf(blocks)| == All(k, blocks)
    ensures k == APart ==> |PartsOf(blocks)| == All(k, blocks)
  {
    assert blocks[..|blocks|] == blocks;
    if k == AResult && forall b | b in blocks :: ChatBlock(b) {
      CollectedCount(k, ResultOf, blocks, |blocks|);
    }
    if k == APart {
      CollectedCount(k, PartOf, blocks, |blocks|);
    }
  }

  lemma WidthIs(show: Json -> string, m: Message)
    requires Convertible(m)
    ensures |ConvertOne(show, m)| == Width(m)
  {
    if m.role != AssistantRole {
      Counted(AResult, m.blocks);
      Counted(APart, m.blocks);
    }
  }

  // ---------------------------------------------------------------- within the conversation

  lemma {:induction false} BaseIs(show: Json -> string, messages: seq<Message>, n: nat)
    requires AllConvertible(messages) && n <= |messages|
    ensures |ConvertAll(show, messages[..n])| == Base(messages, n)
  {
    if n > 0 {
      BaseIs(show, messages, n - 1);
      ConvertStep(show, messages, n - 1);
      assert messages[n - 1] in messages;
      WidthIs(show, messages[n - 1]);
    }
  }

  /** Nothing more is sent than one message for each result, turn and answer. */
  lemma TotalSent(show: Json -> string, messages: seq<Message>)
    requires Convert(show, messages).Ok?
    ensures |Convert(show, messages).value| == Base(messages, |messages|)
  {
    BaseIs(show, messages, |messages|);
    assert messages[..|messages|] == messages;
  }

  /** The messages made of one message stand together at its base. */
  lemma SentAt(show: Json -> string, messages: seq<Message>, i: nat, k: nat)
    requires Convert(show, messages).Ok? && i < |messages| && k < Width(messages[i])
    ensures Base(messages, i) + k < |Convert(show, messages).value|
    ensures k < |ConvertOne(show, messages[i])|
    ensures Convert(show, messages).value[Base(messages, i) + k] == ConvertOne(show, messages[i])[k]
  {
    var f := m => ConvertOne(show, m);
    var before, after := messages[..i], messages[i + 1..];
    BaseIs(show, messages, i);
    assert messages[i] in messages;
    WidthIs(show, messages[i]);
    assert messages == before + ([messages[i]] + after);
    CollectAppend(f, before, [messages[i]] + after);
    CollectAppend(f, [messages[i]], after);
    CollectOne(f, messages[i]);
    Shifted(ConvertAll(show, before), ConvertOne(show, messages[i]), ConvertAll(show, after), k);
  }

  lemma CountBelow(k: Kind, blocks: seq<Block>, j: nat)
    requires j < |blocks| && Is(k, blocks[j])
    ensures Count(k, blocks, j) < All(k, blocks)
    decreases |blocks| - j
  {
    CountGrows(k, blocks, j + 1, |blocks|);
  }

  lemma {:induction false} CountGrows(k: Kind, blocks: seq<Block>, i: nat, j: nat)
    requires i <= j <= |blocks|
    ensures Count(k, blocks, i) <= Count(k, blocks, j)
    decreases j
  {
    if i < j {
      CountGrows(k, blocks, i, j - 1);
    }
  }

  // What one message becomes.

  /** The message a result becomes. */
  predicate Returns(w: Wire, b: Block)
    requires b.ResultBlock? && b.content.Str?
  {
    w == ToolMessage(b.useId, if b.isError then "Error: " + b.content.s else b.content.s)
  }

  /** The message that makes this block's call, in its place, and no other calls than its blocks'. */
  predicate Calls(show: Json -> string, w: Wire, m: Message, j: nat)
    requires j < |m.blocks| && m.blocks[j].UseBlock?
  {
    && w.AssistantMessage? && |w.calls| == All(ACall, m.blocks) && Count(ACall, m.blocks, j) < |w.calls|
    && w.calls[Count(ACall, m.blocks, j)] == WireCall(m.blocks[j].id, m.blocks[j].name, show(m.blocks[j].input))
  }

  lemma ResultInOne(show: Json -> string, m: Message, j: nat)
    requires Convertible(m) && j < |m.blocks| && m.blocks[j].ResultBlock?
    ensures m.role != AssistantRole && m.blocks[j].content.Str?
    ensures var at := Count(AResult, m.blocks, j);
            at < Width(m) && at < |ConvertOne(show, m)| && Returns(ConvertOne(show, m)[at], m.blocks[j])
  {
    assert m.blocks[j] in m.blocks;
    CollectedAt(AResult, ResultOf, m.blocks, j);
  }

  /** The part a text or an image becomes. */
  predicate IsSentAs(b: Block, p: Part) {
    && (b.TextBlock? ==> p == TextPart(b.text))
    && (b.ImageBlock? && b.image.Base64? ==> p == ImagePart("data:" + b.mediaType + ";base64," + b.image.data))
    && (b.ImageBlock? && b.image.Url? ==> p == ImagePart(b.image.url))
  }

  /** The message that holds this block's part: the text itself if it is alone, or a list with the part in its place. */
  predicate Holds(w: Wire, m: Message, j: nat)
    requires j < |m.blocks|
  {
    var all := All(APart, m.blocks);
    && w.ChatMessage? && w.role == m.role
    && (if all == 1 && m.blocks[j].TextBlock? then w.body == Single(m.blocks[j].text)
        else
          && w.body.Many? && |w.body.parts| == all && Count(APart, m.blocks, j) < all
          && IsSentAs(m.blocks[j], w.body.parts[Count(APart, m.blocks, j)]))
  }

  lemma PartIs(b: Block)
    requires Is(APart, b)
    ensures |PartOf(b)| == 1 && IsSentAs(b, PartOf(b)[0])
  {
  }

  lemma PartInOne(show: Json -> string, m: Message, j: nat)
    requires Convertible(m) && j < |m.blocks| && m.role != AssistantRole && Is(APart, m.blocks[j])
    ensures var at := All(AResult, m.blocks);
            at < Width(m) && at < |ConvertOne(show, m)| && Holds(ConvertOne(show, m)[at], m, j)
  {
    CountBelow(APart, m.blocks, j);
    Counted(AResult, m.blocks);
    CollectedAt(APart, PartOf, m.blocks, j);
    PartIs(m.blocks[j]);
    var parts := PartsOf(m.blocks);
    assert ConvertOne(show, m)[|ResultsOf(m.blocks)|] == ChatMessage(m.role, ContentOf(parts));
    assert |parts| == 1 ==> parts == [parts[0]];
  }

  lemma CallInOne(show: Json -> string, m: Message, j: nat)
    requires Convertible(m) && j < |m.blocks| && m.blocks[j].UseBlock?
    ensures m.role == AssistantRole && Calls(show, ConvertOne(show, m)[0], m, j)
  {
    assert m.blocks[j] in m.blocks;
    CollectedAt(ACall, b => CallOf(show, b), m.blocks, j);
  }

  // What the conversation becomes.

  /** A result is sent in its place among the results, marked if it is an error. */
  lemma ResultSentAt(show: Json -> string, messages: seq<Message>, i: nat, j: nat)
    requires Convert(show, messages).Ok? && i < |messages| && j < |messages[i].blocks|
    requires messages[i].blocks[j].ResultBlock?
    ensures messages[i].role != AssistantRole && messages[i].blocks[j].content.Str?
    ensures var out, at := Convert(show, messages).value, Base(messages, i) + Count(AResult, messages[i].blocks, j);
            at < |out| && Returns(out[at], messages[i].blocks[j])
  {
    assert messages[i] in messages;
    ResultInOne(show, messages[i], j);
    SentAt(show, messages, i, Count(AResult, messages[i].blocks, j));
  }

  /** A text or image of a system or user message is sent in its place among the parts, after the results. */
  lemma PartSentAt(show: Json -> string, messages: seq<Message>, i: nat, j: nat)
    requires Convert(show, messages).Ok? && i < |messages| && j < |messages[i].blocks|
    requires messages[i].role != AssistantRole && Is(APart, messages[i].blocks[j])
    ensures var out, at := Convert(show, messages).value, Base(messages, i) + All(AResult, messages[i].blocks);
            at < |out| && Holds(out[at], messages[i], j)
  {
    assert messages[i] in messages;
    PartInOne(show, messages[i], j);
    SentAt(show, messages, i, All(AResult, messages[i].blocks));
  }

  /** A call is sent in its place among the calls of its message, with its input printed. */
  lemma CallSentAt(show: Json -> string, messages: seq<Message>, i: nat, j: nat)
    requires Convert(show, messages).Ok? && i < |messages| && j < |messages[i].blocks|
    requires messages[i].blocks[j].UseBlock?
    ensures messages[i].role == AssistantRole
    ensures var out, at := Convert(show, messages).value, Base(messages, i);
            at < |out| && Calls(show, out[at], messages[i], j)
  {
    assert messages[i] in messages;
    CallInOne(show, messages[i], j);
    SentAt(show, messages, i, 0);
  }

  /** The words of an assistant's message: its texts one after the other, or nothing. */
  function Words(m: Message): string { TextsOf(m.blocks) }

  predicate Worded(w: Wire, words: string) {
    w.AssistantMessage? && w.text == if words == "" then None else Some(words)
  }

  lemma WordsSentAt(show: Json -> string, messages: seq<Message>, i: nat)
    requires Convert(show, messages).Ok? && i < |messages| && messages[i].role == AssistantRole
    ensures var out, at := Convert(show, messages).value, Base(messages, i);
            at < |out| && Worded(out[at], Words(messages[i]))
  {
    assert Worded(ConvertOne(show, messages[i])[0], Words(messages[i]));
    SentAt(show, messages, i, 0);
  }

  /** Every text stands in the words where it stood in the message. */
  lemma WordsExactly(blocks: seq<Block>, j: nat)
    requires j < |blocks|
    ensures TextsOf(blocks) ==
            TextsOf(blocks[..j]) + (if blocks[j].TextBlock? then blocks[j].text else "") + TextsOf(blocks[j + 1..])
    ensures TextsOf([]) == ""
  {
    assert blocks == blocks[..j + 1] + blocks[j + 1..];
    CollectStep(TextOf, blocks, j);
    CollectAppend(TextOf, blocks[..j + 1], blocks[j + 1..]);
  }

  /** What cannot be sent: a call by another than the assistant, a structured result, or more than words and calls. */
  predicate Unsendable(role: Role, b: Block) {
    if role == AssistantRole then b.ImageBlock? || b.ResultBlock?
    else b.UseBlock? || (b.ResultBlock? && !b.content.Str?)
  }

  lemma ConvertRefuses(show: Json -> string, messages: seq<Message>)
    ensures Convert(show, messages).Err? <==> exists m, b :: m in messages && b in m.blocks && Unsendable(m.role, b)
    ensures Convert(show, messages).Err? ==> Convert(show, messages).error == ProxyError(InvalidRequest, false)
  {
    if m, b :| m in messages && b in m.blocks && Unsendable(m.role, b) {
      assert !Convertible(m);
    }
    if !AllConvertible(messages) {
      var m :| m in messages && !Convertible(m);
      var b :| b in m.blocks && !(if m.role.AssistantRole? then SpokenBlock(b) else ChatBlock(b));
      assert Unsendable(m.role, b);
    }
  }
}
