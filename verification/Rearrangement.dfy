/**
 * The order of things after `convert_messages` (src/provider.rs): results move to the front of
 * their message, an assistant's texts merge before its calls, and nothing else moves.
 */
module Rearrangement {
  import opened JsonModel
  import opened Requests
  import opened History
  import opened Collecting
  import opened Translation

  /** One thing said, whoever says it and wherever it stands. */
  datatype Atom =
    | Result(callId: string, text: string)
    | Piece(role: Role, part: Part)
    | Words(text: string)
    | Call(call: WireCall)

  // ---------------------------------------------------------------- the outgoing sequence

  function Pieces(role: Role, parts: seq<Part>): (r: seq<Atom>)
    ensures |r| == |parts|
  {
    seq(|parts|, i requires 0 <= i < |parts| => Piece(role, parts[i]))
  }

  function Calls(calls: seq<WireCall>): (r: seq<Atom>)
    ensures |r| == |calls|
  {
    seq(|calls|, i requires 0 <= i < |calls| => Call(calls[i]))
  }

  function Spoken(text: string): seq<Atom> { if text == "" then [] else [Words(text)] }

  function AtomsSent(w: Wire): seq<Atom> {
    match w
    case ToolMessage(callId, content) => [Result(callId, content)]
    case ChatMessage(role, body) => Pieces(role, if body.Single? then [TextPart(body.text)] else body.parts)
    case AssistantMessage(text, calls) => Spoken(text.GetOr("")) + Calls(calls)
  }

  // ---------------------------------------------------------------- the conversation, rearranged

  function AtomsIn(show: Json -> string, e: Entry): seq<Atom> {
    match e.block
    case TextBlock(text) => if e.role.AssistantRole? then Spoken(text) else [Piece(e.role, TextPart(text))]
    case ImageBlock(mediaType, image) => [Piece(e.role, ImagePart(ImageUrl(mediaType, image)))]
    case UseBlock(id, name, input) => [Call(WireCall(id, name, show(input)))]
    case ResultBlock(useId, content, isError) =>
      if content.Str? then [Result(useId, ResultText(content.s, isError))] else []
  }

  function ResultOnly(b: Block): seq<Block> { if b.ResultBlock? then [b] else [] }

  function NoResult(b: Block): seq<Block> { if b.ResultBlock? then [] else [b] }

  function UseOnly(b: Block): seq<Block> { if b.UseBlock? then [b] else [] }

  function Merged(text: string): seq<Block> { if text == "" then [] else [TextBlock(text)] }

  function RearrangedBlocks(role: Role, blocks: seq<Block>): seq<Block> {
    if role.AssistantRole? then Merged(TextsOf(blocks)) + Collect(UseOnly, blocks)
    else Collect(ResultOnly, blocks) + Collect(NoResult, blocks)
  }

  function Rearranged(messages: seq<Message>): (r: seq<Message>)
    ensures |r| == |messages|
  {
    seq(|messages|, i requires 0 <= i < |messages| =>
      Message(messages[i].role, RearrangedBlocks(messages[i].role, messages[i].blocks)))
  }

  // ---------------------------------------------------------------- the two sequences agree

  function AtomsOf(show: Json -> string, role: Role, blocks: seq<Block>): seq<Atom> {
    Collect(b => AtomsIn(show, Entry(role, b)), blocks)
  }

  lemma {:induction false} AtomsTagged(show: Json -> string, role: Role, blocks: seq<Block>)
    ensures Collect(e => AtomsIn(show, e), Tagged(role, blocks)) == AtomsOf(show, role, blocks)
  {
    CollectTagged(e => AtomsIn(show, e), b => AtomsIn(show, Entry(role, b)), role, blocks);
  }

  lemma AtomsAppend(show: Json -> string, role: Role, a: seq<Block>, b: seq<Block>)
    ensures AtomsOf(show, role, a + b) == AtomsOf(show, role, a) + AtomsOf(show, role, b)
  {
    CollectAppend(b => AtomsIn(show, Entry(role, b)), a, b);
  }

  lemma AtomsOne(show: Json -> string, role: Role, b: Block)
    ensures AtomsOf(show, role, [b]) == AtomsIn(show, Entry(role, b))
  {
    CollectOne(b => AtomsIn(show, Entry(role, b)), b);
  }

  lemma {:induction false} ResultAtoms(show: Json -> string, role: Role, blocks: seq<Block>)
    requires forall b | b in blocks :: ChatBlock(b)
    ensures AtomsOf(show, role, Collect(ResultOnly, blocks)) == Collect(AtomsSent, ResultsOf(blocks))
  {
    if blocks != [] {
      var b := blocks[0];
      assert ChatBlock(b);
      ResultAtoms(show, role, blocks[1..]);
      AtomsAppend(show, role, ResultOnly(b), Collect(ResultOnly, blocks[1..]));
      CollectAppend(AtomsSent, ResultOf(b), ResultsOf(blocks[1..]));
      if b.ResultBlock? {
        AtomsOne(show, role, b);
        CollectOne(AtomsSent, ResultOf(b)[0]);
      }
    }
  }

  lemma {:induction false} PieceAtoms(show: Json -> string, role: Role, blocks: seq<Block>)
    requires !role.AssistantRole? && forall b | b in blocks :: ChatBlock(b)
    ensures AtomsOf(show, role, Collect(NoResult, blocks)) == Pieces(role, PartsOf(blocks))
  {
    if blocks != [] {
      var b := blocks[0];
      assert ChatBlock(b);
      PieceAtoms(show, role, blocks[1..]);
      AtomsAppend(show, role, NoResult(b), Collect(NoResult, blocks[1..]));
      if !b.ResultBlock? {
        AtomsOne(show, role, b);
      }
      assert Pieces(role, PartOf(b) + PartsOf(blocks[1..])) ==
             Pieces(role, PartOf(b)) + Pieces(role, PartsOf(blocks[1..]));
    }
  }

  lemma {:induction false} CallAtoms(show: Json -> string, role: Role, blocks: seq<Block>)
    ensures AtomsOf(show, role, Collect(UseOnly, blocks)) == Calls(CallsOf(show, blocks))
  {
    if blocks != [] {
      var b := blocks[0];
      CallAtoms(show, role, blocks[1..]);
      AtomsAppend(show, role, UseOnly(b), Collect(UseOnly, blocks[1..]));
      if b.UseBlock? {
        AtomsOne(show, role, b);
      }
      assert Calls(CallOf(show, b) + CallsOf(show, blocks[1..])) ==
             Calls(CallOf(show, b)) + Calls(CallsOf(show, blocks[1..]));
    }
  }

  lemma ChatAtoms(role: Role, parts: seq<Part>)
    ensures Collect(AtomsSent, ChatOf(role, parts)) == Pieces(role, parts)
  {
    if parts != [] {
      CollectOne(AtomsSent, ChatMessage(role, ContentOf(parts)));
      assert |parts| == 1 ==> parts == [parts[0]];
    }
  }

  lemma MessageAtoms(show: Json -> string, m: Message)
    requires Convertible(m)
    ensures Collect(AtomsSent, ConvertOne(show, m)) == AtomsOf(show, m.role, RearrangedBlocks(m.role, m.blocks))
  {
    if m.role.AssistantRole? {
      var text, calls := TextsOf(m.blocks), CallsOf(show, m.blocks);
      CollectOne(AtomsSent, SpokenOf(text, calls));
      CallAtoms(show, m.role, m.blocks);
      AtomsAppend(show, m.role, Merged(text), Collect(UseOnly, m.blocks));
      if text != "" {
        AtomsOne(show, m.role, TextBlock(text));
      }
    } else {
      CollectAppend(AtomsSent, ResultsOf(m.blocks), ChatOf(m.role, PartsOf(m.blocks)));
      ChatAtoms(m.role, PartsOf(m.blocks));
      ResultAtoms(show, m.role, m.blocks);
      PieceAtoms(show, m.role, m.blocks);
      AtomsAppend(show, m.role, Collect(ResultOnly, m.blocks), Collect(NoResult, m.blocks));
    }
  }

  /**
   * The outgoing sequence of results, texts, images and calls is that of the conversation, once
   * results have moved to the front of their message and texts have merged before the calls.
   */
  lemma {:induction false} OrderIsKept(show: Json -> string, messages: seq<Message>)
    requires AllConvertible(messages)
    ensures Collect(AtomsSent, ConvertAll(show, messages)) == Collect(e => AtomsIn(show, e), Flat(Rearranged(messages)))
  {
    if messages != [] {
      var m, later := messages[0], messages[1..];
      var first := RearrangedBlocks(m.role, m.blocks);
      OrderIsKept(show, later);
      MessageAtoms(show, m);
      AtomsTagged(show, m.role, first);
      assert Rearranged(messages)[1..] == Rearranged(later);
      CollectAppend(AtomsSent, ConvertOne(show, m), ConvertAll(show, later));
      CollectAppend(e => AtomsIn(show, e), Tagged(m.role, first), Flat(Rearranged(later)));
    }
  }

  // ---------------------------------------------------------------- rearranging is invisible

  lemma {:induction false} ResultsSplit(blocks: seq<Block>)
    ensures ResultsOf(Collect(ResultOnly, blocks)) == ResultsOf(blocks) && PartsOf(Collect(ResultOnly, blocks)) == []
    ensures ResultsOf(Collect(NoResult, blocks)) == [] && PartsOf(Collect(NoResult, blocks)) == PartsOf(blocks)
  {
    if blocks != [] {
      var b := blocks[0];
      ResultsSplit(blocks[1..]);
      PartsAppend(ResultOnly(b), Collect(ResultOnly, blocks[1..]));
      PartsAppend(NoResult(b), Collect(NoResult, blocks[1..]));
      CollectOne(ResultOf, b);
      CollectOne(PartOf, b);
    }
  }

  lemma PartsAppend(a: seq<Block>, b: seq<Block>)
    ensures ResultsOf(a + b) == ResultsOf(a) + ResultsOf(b) && PartsOf(a + b) == PartsOf(a) + PartsOf(b)
  {
    CollectAppend(ResultOf, a, b);
    CollectAppend(PartOf, a, b);
  }

  lemma SpokenAppend(show: Json -> string, a: seq<Block>, b: seq<Block>)
    ensures TextsOf(a + b) == TextsOf(a) + TextsOf(b) && CallsOf(show, a + b) == CallsOf(show, a) + CallsOf(show, b)
  {
    CollectAppend(TextOf, a, b);
    CollectAppend(b => CallOf(show, b), a, b);
  }

  lemma SpokenOne(show: Json -> string, b: Block)
    ensures TextsOf([b]) == TextOf(b) && CallsOf(show, [b]) == CallOf(show, b)
  {
    CollectOne(TextOf, b);
    CollectOne(b => CallOf(show, b), b);
  }

  lemma {:induction false} UsesSplit(show: Json -> string, blocks: seq<Block>)
    ensures TextsOf(Collect(UseOnly, blocks)) == "" && CallsOf(show, Collect(UseOnly, blocks)) == CallsOf(show, blocks)
  {
    if blocks != [] {
      var b, rest := blocks[0], Collect(UseOnly, blocks[1..]);
      UsesSplit(show, blocks[1..]);
      assert Collect(UseOnly, blocks) == UseOnly(b) + rest;
      SpokenAppend(show, UseOnly(b), rest);
      SpokenOne(show, b);
      assert CallsOf(show, blocks) == CallOf(show, b) + CallsOf(show, blocks[1..]);
    }
  }

  lemma AssistantAlike(show: Json -> string, blocks: seq<Block>)
    ensures var again := RearrangedBlocks(AssistantRole, blocks);
            TextsOf(again) == TextsOf(blocks) && CallsOf(show, again) == CallsOf(show, blocks)
  {
    var text, uses := TextsOf(blocks), Collect(UseOnly, blocks);
    UsesSplit(show, blocks);
    if text == "" {
      assert Merged(text) + uses == uses;
    } else {
      SpokenAppend(show, [TextBlock(text)], uses);
      SpokenOne(show, TextBlock(text));
      assert text + "" == text && [] + CallsOf(show, uses) == CallsOf(show, uses);
    }
  }

  lemma ChatAlike(blocks: seq<Block>)
    ensures var again := Collect(ResultOnly, blocks) + Collect(NoResult, blocks);
            ResultsOf(again) == ResultsOf(blocks) && PartsOf(again) == PartsOf(blocks)
  {
    ResultsSplit(blocks);
    PartsAppend(Collect(ResultOnly, blocks), Collect(NoResult, blocks));
    assert ResultsOf(blocks) + [] == ResultsOf(blocks) && [] + PartsOf(blocks) == PartsOf(blocks);
  }

  lemma OneAlike(show: Json -> string, m: Message)
    ensures ConvertOne(show, Message(m.role, RearrangedBlocks(m.role, m.blocks))) == ConvertOne(show, m)
  {
    if m.role.AssistantRole? {
      AssistantAlike(show, m.blocks);
    } else {
      ChatAlike(m.blocks);
    }
  }

  /** A conversation and its rearrangement are sent alike. */
  lemma {:induction false} RearrangedSentAlike(show: Json -> string, messages: seq<Message>)
    ensures ConvertAll(show, Rearranged(messages)) == ConvertAll(show, messages)
  {
    if messages != [] {
      RearrangedSentAlike(show, messages[1..]);
      assert Rearranged(messages)[1..] == Rearranged(messages[1..]);
      OneAlike(show, messages[0]);
    }
  }

  lemma CountFirst(b: Block, rest: seq<Block>, x: Block)
    ensures multiset([b] + rest)[x] == multiset(rest)[x] + (if b == x then 1 else 0)
  {
  }

  lemma {:induction false} Kept(blocks: seq<Block>, x: Block)
    ensures multiset(Collect(ResultOnly, blocks))[x] + multiset(Collect(NoResult, blocks))[x] == multiset(blocks)[x]
  {
    if blocks != [] {
      var b, rest := blocks[0], blocks[1..];
      Kept(rest, x);
      assert blocks == [b] + rest;
      CountFirst(b, rest, x);
      if b.ResultBlock? {
        CountFirst(b, Collect(ResultOnly, rest), x);
        assert Collect(NoResult, blocks) == Collect(NoResult, rest);
      } else {
        CountFirst(b, Collect(NoResult, rest), x);
        assert Collect(ResultOnly, blocks) == Collect(ResultOnly, rest);
      }
    }
  }

  /** Outside assistant messages rearranging keeps every block, as often as it was there. */
  lemma SplitKeepsBlocks(role: Role, blocks: seq<Block>)
    requires !role.AssistantRole?
    ensures multiset(RearrangedBlocks(role, blocks)) == multiset(blocks)
  {
    forall x ensures multiset(RearrangedBlocks(role, blocks))[x] == multiset(blocks)[x] {
      Kept(blocks, x);
    }
  }
}
