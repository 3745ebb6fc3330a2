/** Which conversations `convert_messages` (src/provider.rs) sends alike. */
module NormalForm {
  import opened Domain
  import opened JsonModel
  import opened Requests
  import opened History
  import opened Collecting
  import opened Translation
  import opened Rearrangement

  // ---------------------------------------------------------------- one result

  /** Two results are told apart by call, text and error flag, except that the flag is written into the text. */
  predicate ReadAlike(a: Block, b: Block)
    requires a.ResultBlock? && a.content.Str? && b.ResultBlock? && b.content.Str?
  {
    && a.useId == b.useId
    && (|| (a.isError == b.isError && a.content == b.content)
        || (a.isError && !b.isError && b.content.s == "Error: " + a.content.s)
        || (!a.isError && b.isError && a.content.s == "Error: " + b.content.s))
  }

  lemma SamePrefix(p: string, s: string, t: string)
    requires p + s == p + t
    ensures s == t
  {
    assert s == (p + s)[|p|..] && t == (p + t)[|p|..];
  }

  lemma ResultsSentAlike(a: Block, b: Block)
    requires a.ResultBlock? && a.content.Str? && b.ResultBlock? && b.content.Str?
    ensures ResultOf(a) == ResultOf(b) <==> ReadAlike(a, b)
  {
    assert ResultOf(a) == ResultOf(b) <==> ResultOf(a)[0] == ResultOf(b)[0];
    if a.isError && b.isError && ResultOf(a) == ResultOf(b) {
      SamePrefix("Error: ", a.content.s, b.content.s);
    }
  }

  lemma {:induction false} ResultsReplaced(blocks: seq<Block>, j: nat, b: Block)
    requires j < |blocks|
    ensures ResultsOf(blocks[j := b]) == ResultsOf(blocks[..j]) + ResultOf(b) + ResultsOf(blocks[j + 1..])
    ensures PartsOf(blocks[j := b]) == PartsOf(blocks[..j]) + PartOf(b) + PartsOf(blocks[j + 1..])
  {
    assert blocks[j := b] == blocks[..j] + ([b] + blocks[j + 1..]);
    PartsAppend(blocks[..j], [b] + blocks[j + 1..]);
    PartsAppend([b], blocks[j + 1..]);
    CollectOne(ResultOf, b);
    CollectOne(PartOf, b);
  }

  lemma ConvertSplit(show: Json -> string, messages: seq<Message>, i: nat, m: Message)
    requires i < |messages|
    ensures ConvertAll(show, messages[i := m]) ==
            ConvertAll(show, messages[..i]) + (ConvertOne(show, m) + ConvertAll(show, messages[i + 1..]))
  {
    var f := m => ConvertOne(show, m);
    assert messages[i := m] == messages[..i] + ([m] + messages[i + 1..]);
    CollectAppend(f, messages[..i], [m] + messages[i + 1..]);
    CollectAppend(f, [m], messages[i + 1..]);
    CollectOne(f, m);
  }

  lemma SameMiddle<T>(before: seq<T>, x: seq<T>, y: seq<T>, after: seq<T>)
    requires |x| == |y|
    ensures before + (x + after) == before + (y + after) <==> x == y
  {
    var p, q := before + (x + after), before + (y + after);
    assert p[|before|..][..|x|] == x && q[|before|..][..|y|] == y;
  }

  lemma OneResultMatters(show: Json -> string, m: Message, j: nat, b: Block)
    requires j < |m.blocks| && !m.role.AssistantRole?
    requires m.blocks[j].ResultBlock? && m.blocks[j].content.Str? && b.ResultBlock? && b.content.Str?
    ensures var n := m.(blocks := m.blocks[j := b]);
            |ConvertOne(show, m)| == |ConvertOne(show, n)| &&
            (ConvertOne(show, m) == ConvertOne(show, n) <==> ReadAlike(m.blocks[j], b))
  {
    var a := m.blocks[j];
    assert m.blocks[j := a] == m.blocks;
    ResultsReplaced(m.blocks, j, a);
    ResultsReplaced(m.blocks, j, b);
    ResultsSentAlike(a, b);
    var before, after := ResultsOf(m.blocks[..j]), ResultsOf(m.blocks[j + 1..]);
    var chat := ChatOf(m.role, PartsOf(m.blocks));
    assert before + ResultOf(a) + after + chat == before + (ResultOf(a) + (after + chat));
    assert before + ResultOf(b) + after + chat == before + (ResultOf(b) + (after + chat));
    SameMiddle(before, ResultOf(a), ResultOf(b), after + chat);
  }

  /**
   * Replacing one result of a conversation by another goes unnoticed exactly when the two are for
   * the same call and have the same flag and text, or one is an error whose text, with `Error: `
   * before it, is the text of the other.
   */
  lemma ResultReplaced(show: Json -> string, messages: seq<Message>, i: nat, j: nat, b: Block)
    requires i < |messages| && j < |messages[i].blocks| && !messages[i].role.AssistantRole?
    requires messages[i].blocks[j].ResultBlock? && messages[i].blocks[j].content.Str? && b.ResultBlock? &&
             b.content.Str?
    ensures var other := messages[i := messages[i].(blocks := messages[i].blocks[j := b])];
            && (ConvertAll(show, messages) == ConvertAll(show, other) <==> ReadAlike(messages[i].blocks[j], b))
            && (AllConvertible(messages) ==>
                  (Convert(show, messages) == Convert(show, other) <==> ReadAlike(messages[i].blocks[j], b)))
  {
    var m := messages[i];
    var n := m.(blocks := m.blocks[j := b]);
    assert messages[i := m] == messages;
    ConvertSplit(show, messages, i, m);
    ConvertSplit(show, messages, i, n);
    OneResultMatters(show, m, j, b);
    SameMiddle(ConvertAll(show, messages[..i]), ConvertOne(show, m), ConvertOne(show, n),
               ConvertAll(show, messages[i + 1..]));
    if AllConvertible(messages) {
      StillConvertible(messages, i, j, b);
    }
  }

  lemma StillConvertible(messages: seq<Message>, i: nat, j: nat, b: Block)
    requires i < |messages| && j < |messages[i].blocks| && !messages[i].role.AssistantRole?
    requires AllConvertible(messages) && b.ResultBlock? && b.content.Str?
    ensures AllConvertible(messages[i := messages[i].(blocks := messages[i].blocks[j := b])])
  {
    var n := messages[i].(blocks := messages[i].blocks[j := b]);
    assert Convertible(messages[i]);
    assert forall x | x in n.blocks :: x == b || x in messages[i].blocks;
    assert forall m | m in messages[i := n] :: m == n || m in messages;
  }

  /** An error result and a successful one with the same text as sent: these two conversations are sent alike. */
  lemma ErrorFlagIsText(show: Json -> string, id: string, text: string)
    ensures var failed := [Message(UserRole, [ResultBlock(id, Str(text), true)])];
            var worked := [Message(UserRole, [ResultBlock(id, Str("Error: " + text), false)])];
            failed != worked && Convert(show, failed) == Convert(show, worked)
  {
    var f, w := ResultBlock(id, Str(text), true), ResultBlock(id, Str("Error: " + text), false);
    var failed, worked := [Message(UserRole, [f])], [Message(UserRole, [w])];
    ResultReplaced(show, failed, 0, 0, w);
    assert failed[0].blocks[0 := w] == [w];
    assert failed[0 := failed[0].(blocks := failed[0].blocks[0 := w])] == worked;
    assert failed[0].blocks[0] != worked[0].blocks[0];
  }

  // ---------------------------------------------------------------- the normal form of a conversation

  const OCTETS := "application/octet-stream"

  ghost predicate IsPrint(show: Json -> string, text: string) { exists j :: show(j) == text }

  ghost predicate AllPrints(show: Json -> string, calls: seq<WireCall>) {
    forall i | 0 <= i < |calls| :: IsPrint(show, calls[i].arguments)
  }

  /** One value out of all those printed alike. */
  ghost function Printed(show: Json -> string, text: string): (r: Json)
    ensures IsPrint(show, text) ==> show(r) == text
  {
    if IsPrint(show, text) then
      var j :| show(j) == text;
      j
    else Null
  }

  /** A block with everything the provider cannot see made the same: how an image came, the error flag, equal prints. */
  ghost function NormalBlock(show: Json -> string, b: Block): Block {
    match b
    case TextBlock(_) => b
    case ImageBlock(mediaType, image) => ImageBlock(OCTETS, Url(ImageUrl(mediaType, image)))
    case UseBlock(id, name, input) => UseBlock(id, name, Printed(show, show(input)))
    case ResultBlock(useId, content, isError) =>
      if content.Str? then ResultBlock(useId, Str(ResultText(content.s, isError)), false) else b
  }

  ghost function NormalBlocks(show: Json -> string, blocks: seq<Block>): (r: seq<Block>)
    ensures |r| == |blocks|
  {
    seq(|blocks|, i requires 0 <= i < |blocks| => NormalBlock(show, blocks[i]))
  }

  /** A result in a message of its own. */
  ghost function Alone(show: Json -> string, b: Block): seq<Message> {
    if b.ResultBlock? then [Message(UserRole, [NormalBlock(show, b)])] else []
  }

  ghost function NormalOne(show: Json -> string, m: Message): seq<Message> {
    if m.role.AssistantRole? then [Message(AssistantRole, NormalBlocks(show, RearrangedBlocks(m.role, m.blocks)))]
    else
      var rest := NormalBlocks(show, Collect(NoResult, m.blocks));
      Collect(b => Alone(show, b), m.blocks) + (if rest == [] then [] else [Message(m.role, rest)])
  }

  /**
   * Each result in a user message of its own, before the rest of its message; an assistant's texts
   * merged before its calls; no empty system or user message; and normal blocks.
   */
  ghost function Normal(show: Json -> string, messages: seq<Message>): seq<Message> {
    Collect(m => NormalOne(show, m), messages)
  }

  // ---------------------------------------------------------------- from the wire back to the normal form

  function BlockOfPart(p: Part): Block {
    match p
    case TextPart(text) => TextBlock(text)
    case ImagePart(url) => ImageBlock(OCTETS, Url(url))
  }

  function BlocksOfParts(parts: seq<Part>): (r: seq<Block>)
    ensures |r| == |parts|
  {
    seq(|parts|, i requires 0 <= i < |parts| => BlockOfPart(parts[i]))
  }

  ghost function BlocksOfCalls(show: Json -> string, calls: seq<WireCall>): (r: seq<Block>)
    ensures |r| == |calls|
  {
    seq(|calls|, i requires 0 <= i < |calls| => UseBlock(calls[i].id, calls[i].name, Printed(show, calls[i].arguments)))
  }

  function PartsIn(body: Content): seq<Part> { if body.Single? then [TextPart(body.text)] else body.parts }

  ghost function Back(show: Json -> string, w: Wire): Message {
    match w
    case ToolMessage(callId, content) => Message(UserRole, [ResultBlock(callId, Str(content), false)])
    case ChatMessage(role, body) => Message(role, BlocksOfParts(PartsIn(body)))
    case AssistantMessage(text, calls) => Message(AssistantRole, Merged(text.GetOr("")) + BlocksOfCalls(show, calls))
  }

  ghost function BackAll(show: Json -> string, out: seq<Wire>): (r: seq<Message>)
    ensures |r| == |out|
  {
    seq(|out|, i requires 0 <= i < |out| => Back(show, out[i]))
  }

  lemma BackAppend(show: Json -> string, a: seq<Wire>, b: seq<Wire>)
    ensures BackAll(show, a + b) == BackAll(show, a) + BackAll(show, b)
  {
  }

  lemma {:induction false} AloneBack(show: Json -> string, blocks: seq<Block>)
    requires forall b | b in blocks :: ChatBlock(b)
    ensures Collect(b => Alone(show, b), blocks) == BackAll(show, ResultsOf(blocks))
  {
    if blocks != [] {
      var b := blocks[0];
      assert ChatBlock(b);
      AloneBack(show, blocks[1..]);
      BackAppend(show, ResultOf(b), ResultsOf(blocks[1..]));
      assert Alone(show, b) == BackAll(show, ResultOf(b));
    }
  }

  lemma NormalAppend(show: Json -> string, a: seq<Block>, b: seq<Block>)
    ensures NormalBlocks(show, a + b) == NormalBlocks(show, a) + NormalBlocks(show, b)
  {
  }

  lemma PartBlocksAppend(a: seq<Part>, b: seq<Part>)
    ensures BlocksOfParts(a + b) == BlocksOfParts(a) + BlocksOfParts(b)
  {
  }

  lemma CallBlocksAppend(show: Json -> string, a: seq<WireCall>, b: seq<WireCall>)
    ensures BlocksOfCalls(show, a + b) == BlocksOfCalls(show, a) + BlocksOfCalls(show, b)
  {
  }

  lemma {:induction false} RestBack(show: Json -> string, blocks: seq<Block>)
    requires forall b | b in blocks :: ChatBlock(b)
    ensures NormalBlocks(show, Collect(NoResult, blocks)) == BlocksOfParts(PartsOf(blocks))
  {
    if blocks != [] {
      var b := blocks[0];
      assert ChatBlock(b);
      RestBack(show, blocks[1..]);
      NormalAppend(show, NoResult(b), Collect(NoResult, blocks[1..]));
      PartBlocksAppend(PartOf(b), PartsOf(blocks[1..]));
      assert NormalBlocks(show, NoResult(b)) == BlocksOfParts(PartOf(b));
    }
  }

  lemma {:induction false} UsesBack(show: Json -> string, blocks: seq<Block>)
    ensures NormalBlocks(show, Collect(UseOnly, blocks)) == BlocksOfCalls(show, CallsOf(show, blocks))
  {
    if blocks != [] {
      var b := blocks[0];
      UsesBack(show, blocks[1..]);
      NormalAppend(show, UseOnly(b), Collect(UseOnly, blocks[1..]));
      CallBlocksAppend(show, CallOf(show, b), CallsOf(show, blocks[1..]));
      assert NormalBlocks(show, UseOnly(b)) == BlocksOfCalls(show, CallOf(show, b));
    }
  }

  lemma PartsInContent(parts: seq<Part>)
    ensures PartsIn(ContentOf(parts)) == parts
  {
    assert |parts| == 1 ==> parts == [parts[0]];
  }

  lemma AssistantBack(show: Json -> string, blocks: seq<Block>)
    ensures NormalBlocks(show, RearrangedBlocks(AssistantRole, blocks)) ==
            Merged(TextsOf(blocks)) + BlocksOfCalls(show, CallsOf(show, blocks))
  {
    NormalAppend(show, Merged(TextsOf(blocks)), Collect(UseOnly, blocks));
    UsesBack(show, blocks);
    assert NormalBlocks(show, Merged(TextsOf(blocks))) == Merged(TextsOf(blocks));
  }

  lemma ChatBack(show: Json -> string, role: Role, parts: seq<Part>)
    ensures BackAll(show, ChatOf(role, parts)) == if parts == [] then [] else [Message(role, BlocksOfParts(parts))]
  {
    PartsInContent(parts);
  }

  lemma OneBack(show: Json -> string, m: Message)
    requires Convertible(m)
    ensures NormalOne(show, m) == BackAll(show, ConvertOne(show, m))
  {
    if m.role.AssistantRole? {
      AssistantBack(show, m.blocks);
      assert BackAll(show, ConvertOne(show, m)) == [Back(show, ConvertOne(show, m)[0])];
    } else {
      AloneBack(show, m.blocks);
      RestBack(show, m.blocks);
      ChatBack(show, m.role, PartsOf(m.blocks));
      BackAppend(show, ResultsOf(m.blocks), ChatOf(m.role, PartsOf(m.blocks)));
    }
  }

  /** What is sent determines the normal form. */
  lemma {:induction false} NormalBack(show: Json -> string, messages: seq<Message>)
    requires AllConvertible(messages)
    ensures Normal(show, messages) == BackAll(show, ConvertAll(show, messages))
  {
    if messages != [] {
      NormalBack(show, messages[1..]);
      OneBack(show, messages[0]);
      BackAppend(show, ConvertOne(show, messages[0]), ConvertAll(show, messages[1..]));
    }
  }

  // ---------------------------------------------------------------- the normal form is sent alike

  /** What `convert_messages` can send. */
  ghost predicate Possible(show: Json -> string, w: Wire) {
    match w
    case ToolMessage(_, _) => true
    case ChatMessage(role, body) => !role.AssistantRole? && PartsIn(body) != [] && ContentOf(PartsIn(body)) == body
    case AssistantMessage(text, calls) =>
      text != Some("") && AllPrints(show, calls)
  }

  lemma {:induction false} CallsPrinted(show: Json -> string, blocks: seq<Block>)
    ensures AllPrints(show, CallsOf(show, blocks))
  {
    if blocks != [] {
      var b, rest := blocks[0], CallsOf(show, blocks[1..]);
      CallsPrinted(show, blocks[1..]);
      assert b.UseBlock? ==> IsPrint(show, show(b.input));
      var calls := CallOf(show, b) + rest;
      forall i | 0 <= i < |calls| ensures IsPrint(show, calls[i].arguments) {
        if i >= |CallOf(show, b)| {
          assert calls[i] == rest[i - |CallOf(show, b)|];
        }
      }
      assert CallsOf(show, blocks) == calls;
    }
  }

  lemma OnePossible(show: Json -> string, m: Message)
    ensures forall w | w in ConvertOne(show, m) :: Possible(show, w)
  {
    if m.role.AssistantRole? {
      CallsPrinted(show, m.blocks);
    } else {
      OnlyResults(m.blocks);
      PartsInContent(PartsOf(m.blocks));
      forall w | w in ConvertOne(show, m) ensures Possible(show, w) {
        assert w in ResultsOf(m.blocks) || w in ChatOf(m.role, PartsOf(m.blocks));
      }
    }
  }

  lemma {:induction false} AllPossible(show: Json -> string, messages: seq<Message>)
    ensures forall w | w in ConvertAll(show, messages) :: Possible(show, w)
  {
    if messages != [] {
      OnePossible(show, messages[0]);
      AllPossible(show, messages[1..]);
    }
  }

  lemma {:induction false} PartsOfBlocks(parts: seq<Part>)
    ensures PartsOf(BlocksOfParts(parts)) == parts && ResultsOf(BlocksOfParts(parts)) == []
    ensures forall b | b in BlocksOfParts(parts) :: ChatBlock(b)
  {
    if parts != [] {
      PartsOfBlocks(parts[1..]);
      assert BlocksOfParts(parts) == [BlockOfPart(parts[0])] + BlocksOfParts(parts[1..]);
      PartsAppend([BlockOfPart(parts[0])], BlocksOfParts(parts[1..]));
      CollectOne(PartOf, BlockOfPart(parts[0]));
      CollectOne(ResultOf, BlockOfPart(parts[0]));
    }
  }

  lemma {:induction false} CallsOfBlocks(show: Json -> string, calls: seq<WireCall>)
    requires AllPrints(show, calls)
    ensures CallsOf(show, BlocksOfCalls(show, calls)) == calls && TextsOf(BlocksOfCalls(show, calls)) == ""
    ensures forall b | b in BlocksOfCalls(show, calls) :: SpokenBlock(b)
  {
    if calls != [] {
      var first := UseBlock(calls[0].id, calls[0].name, Printed(show, calls[0].arguments));
      var rest := calls[1..];
      assert forall i | 0 <= i < |rest| :: rest[i] == calls[i + 1];
      CallsOfBlocks(show, rest);
      assert BlocksOfCalls(show, calls) == [first] + BlocksOfCalls(show, rest);
      SpokenAppend(show, [first], BlocksOfCalls(show, rest));
      SpokenOne(show, first);
      assert CallOf(show, first) == [calls[0]];
    }
  }

  lemma SpokenBack(show: Json -> string, text: string, calls: seq<WireCall>)
    requires AllPrints(show, calls)
    ensures var blocks := Merged(text) + BlocksOfCalls(show, calls);
            TextsOf(blocks) == text && CallsOf(show, blocks) == calls && forall b | b in blocks :: SpokenBlock(b)
  {
    CallsOfBlocks(show, calls);
    SpokenAppend(show, Merged(text), BlocksOfCalls(show, calls));
    if text != "" {
      SpokenOne(show, TextBlock(text));
    }
  }

  lemma ThereAndBack(show: Json -> string, w: Wire)
    requires Possible(show, w)
    ensures Convertible(Back(show, w)) && ConvertOne(show, Back(show, w)) == [w]
  {
    match w
    case ToolMessage(callId, content) =>
      var b := ResultBlock(callId, Str(content), false);
      CollectOne(ResultOf, b);
      CollectOne(PartOf, b);
    case ChatMessage(role, body) => PartsOfBlocks(PartsIn(body));
    case AssistantMessage(text, calls) => SpokenBack(show, text.GetOr(""), calls);
  }

  lemma {:induction false} AllThereAndBack(show: Json -> string, out: seq<Wire>)
    requires forall w | w in out :: Possible(show, w)
    ensures AllConvertible(BackAll(show, out)) && ConvertAll(show, BackAll(show, out)) == out
  {
    if out != [] {
      var first, rest := Back(show, out[0]), BackAll(show, out[1..]);
      AllThereAndBack(show, out[1..]);
      ThereAndBack(show, out[0]);
      assert BackAll(show, out) == [first] + rest;
      FirstConverted(show, first, rest);
      assert out == [out[0]] + out[1..];
    }
  }

  lemma FirstConverted(show: Json -> string, first: Message, rest: seq<Message>)
    ensures ConvertAll(show, [first] + rest) == ConvertOne(show, first) + ConvertAll(show, rest)
    ensures Convertible(first) && AllConvertible(rest) ==> AllConvertible([first] + rest)
  {
    assert ([first] + rest)[1..] == rest;
  }

  /** A conversation and its normal form are sent alike. */
  lemma NormalSentAlike(show: Json -> string, messages: seq<Message>)
    requires AllConvertible(messages)
    ensures AllConvertible(Normal(show, messages)) &&
            ConvertAll(show, Normal(show, messages)) == ConvertAll(show, messages)
  {
    NormalBack(show, messages);
    AllPossible(show, messages);
    AllThereAndBack(show, ConvertAll(show, messages));
  }

  /** Two conversations are translated alike exactly when neither can be translated or they have one normal form. */
  lemma SentAlike(show: Json -> string, a: seq<Message>, b: seq<Message>)
    ensures Convert(show, a) == Convert(show, b) <==>
            if AllConvertible(a) then AllConvertible(b) && Normal(show, a) == Normal(show, b) else !AllConvertible(b)
  {
    if AllConvertible(a) && AllConvertible(b) {
      NormalBack(show, a);
      NormalBack(show, b);
      NormalSentAlike(show, a);
      NormalSentAlike(show, b);
    }
  }

  lemma NormalTwice(show: Json -> string, messages: seq<Message>)
    requires AllConvertible(messages)
    ensures Normal(show, Normal(show, messages)) == Normal(show, messages)
  {
    NormalSentAlike(show, messages);
    SentAlike(show, Normal(show, messages), messages);
  }

  ghost predicate TellsApart(show: Json -> string) {
    forall i, j :: show(i) == show(j) ==> i == j
  }

  /** If printing tells all values apart, the normal form keeps every call as it is. */
  lemma CallsKept(show: Json -> string, b: Block)
    requires b.UseBlock? && TellsApart(show)
    ensures NormalBlock(show, b) == b
  {
    assert IsPrint(show, show(b.input));
  }

  /** The calls of a conversation, in order. */
  function UseIn(e: Entry): seq<Block> { UseOnly(e.block) }

  lemma {:induction false} CallsBack(show: Json -> string, f: seq<Entry>)
    requires TellsApart(show)
    ensures BlocksOfCalls(show, Collect(e => CallIn(show, e), f)) == Collect(UseIn, f)
  {
    if f != [] {
      var b := f[0].block;
      CallsBack(show, f[1..]);
      CallBlocksAppend(show, CallOf(show, b), Collect(e => CallIn(show, e), f[1..]));
      if b.UseBlock? {
        CallsKept(show, b);
        assert BlocksOfCalls(show, CallOf(show, b)) == [b];
      } else {
        assert BlocksOfCalls(show, CallOf(show, b)) == [];
      }
    }
  }

  /** Then conversations sent alike make the same calls, input for input. */
  lemma CallsToldApart(show: Json -> string, a: seq<Message>, b: seq<Message>)
    requires TellsApart(show) && AllConvertible(a) && Convert(show, a) == Convert(show, b)
    ensures Collect(UseIn, Flat(a)) == Collect(UseIn, Flat(b))
  {
    LosesNothing(show, a);
    LosesNothing(show, b);
    CallsBack(show, Flat(a));
    CallsBack(show, Flat(b));
  }
}
