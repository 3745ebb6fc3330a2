/** What the reader (src/provider.rs, `parse_sse`) takes from a line and from a chunk, spelled out. */
module Reading {
  import opened Domain
  import opened JsonModel
  import opened Lines
  import opened SseParser

  // ---------------------------------------------------------------- lines

  /** The characters that count as white space, by number. */
  predicate White(c: char) {
    var x := c as int;
    || x in {0x9, 0xA, 0xB, 0xC, 0xD, 0x20, 0x85, 0xA0, 0x1680, 0x2028, 0x2029, 0x202F, 0x205F, 0x3000}
    || 0x2000 <= x <= 0x200A
  }

  predicate AllWhite(s: string) { forall c | c in s :: White(c) }

  /** At most one carriage return is dropped, and the rest must be UTF-8. */
  lemma LineDecoded(codec: Codec, line: seq<byte>)
    ensures codec.decode(line).None? ==> ReadLine(codec, line + [CR]) == Garbage
    ensures codec.decode(line).Some? ==> ReadLine(codec, line + [CR]) == ReadText(codec, codec.decode(line).value)
    ensures line == [] || line[|line| - 1] != 13 ==> ReadLine(codec, line) == ReadLine(codec, line + [CR])
  {
    assert StripCr(line + [CR]) == line;
  }

  lemma WhiteIsSpace(c: char)
    ensures White(c) <==> IsSpace(c)
  {
  }

  lemma WhiteIsBlank(s: string)
    requires AllWhite(s)
    ensures Blank(s)
  {
    forall c | c in s ensures IsSpace(c) {
      WhiteIsSpace(c);
    }
  }

  lemma BlankTrimmed(blank: string)
    requires Blank(blank)
    ensures Trim(blank) == ""
  {
    TrimStartBlank(blank, "");
    assert blank + "" == blank;
  }

  /** A line without the prefix, or with nothing but white space after it, is passed over. */
  lemma OtherLines(codec: Codec, text: string, blank: string)
    requires AllWhite(blank)
    ensures !("data:" <= text) ==> ReadText(codec, text) == Ignored
    ensures ReadText(codec, "data:" + blank) == Ignored
  {
    AfterPrefix(codec, blank);
    WhiteIsBlank(blank);
    BlankTrimmed(blank);
  }

  /** The end mark, a chunk, or an error, whatever white space is around it. */
  lemma DataLines(codec: Codec, before: string, data: string, after: string)
    requires AllWhite(before) && AllWhite(after)
    requires data != "" && !White(data[0]) && !White(data[|data| - 1])
    ensures var read := ReadText(codec, "data:" + (before + (data + after)));
            if data == "[DONE]" then read == DoneMark
            else if codec.parse(data).None? then read == Garbage
            else read == Payload(codec.parse(data).value)
  {
    WhiteIsBlank(before);
    WhiteIsBlank(after);
    WhiteIsSpace(data[0]);
    WhiteIsSpace(data[|data| - 1]);
    PaddingIgnored(codec, before, data, after);
  }

  /** The bytes before the first transport failure count, and the failure ends the input. */
  lemma {:induction false} ReceivedUntilFailure(blocks: seq<seq<byte>>, error: ErrorKind, later: seq<Delivery>)
    ensures var input := seq(|blocks|, i requires 0 <= i < |blocks| => Delivery.Bytes(blocks[i]));
            Received(input + ([Failure(error)] + later)) == Flatten(blocks) &&
            HowEnded(input + ([Failure(error)] + later)) == Broken(error)
  {
    var input := seq(|blocks|, i requires 0 <= i < |blocks| => Delivery.Bytes(blocks[i]));
    var all := input + ([Failure(error)] + later);
    if blocks == [] {
      assert all == [Failure(error)] + later;
    } else {
      ReceivedUntilFailure(blocks[1..], error, later);
      var rest := seq(|blocks[1..]|, i requires 0 <= i < |blocks[1..]| => Delivery.Bytes(blocks[1..][i]));
      assert input[1..] == rest;
      assert all[0] == Delivery.Bytes(blocks[0]) && all[1..] == rest + ([Failure(error)] + later);
    }
  }

  // ---------------------------------------------------------------- chunks

  predicate HasText(c: Choice) { c.content.Some? && c.content.value != "" }

  /** How many things a choice says. */
  function Size(c: Choice): nat {
    (if HasText(c) then 1 else 0) + |c.calls| + (if c.finish.Some? then 1 else 0)
  }

  /** The text if there is any, every call in order, and the finish reason if there is one. */
  predicate Spells(said: seq<Action>, c: Choice) {
    var t := if HasText(c) then 1 else 0;
    && |said| == Size(c)
    && (HasText(c) ==> said[0] == SawText(c.content.value))
    && (forall k | 0 <= k < |c.calls| :: said[t + k] == SawCall(c.calls[k]))
    && (c.finish.Some? ==> said[|said| - 1] == SawFinish(c.finish.value))
  }

  /** One choice after the other, and nothing else. */
  predicate SpellsInTurn(said: seq<Action>, choices: seq<Choice>)
    decreases choices
  {
    if choices == [] then said == []
    else
      var n := Size(choices[0]);
      n <= |said| && Spells(said[..n], choices[0]) && SpellsInTurn(said[n..], choices[1..])
  }

  /** The usage first if there is any, then the choices. */
  predicate SpellsChunk(said: seq<Action>, c: Chunk) {
    if c.usage.Some? then said != [] && said[0] == SawUsage(c.usage.value) && SpellsInTurn(said[1..], c.choices)
    else SpellsInTurn(said, c.choices)
  }

  lemma {:induction false} CallsSaid(calls: seq<CallDelta>)
    ensures |CallActions(calls)| == |calls|
    ensures forall k | 0 <= k < |calls| :: CallActions(calls)[k] == SawCall(calls[k])
  {
    if calls != [] {
      CallsSaid(calls[1..]);
    }
  }

  lemma ChoiceSaid(c: Choice)
    ensures |ChoiceAction(c)| == Size(c) && Spells(ChoiceAction(c), c)
  {
    CallsSaid(c.calls);
  }

  lemma Halves<T>(a: seq<T>, b: seq<T>)
    ensures (a + b)[..|a|] == a && (a + b)[|a|..] == b
  {
  }

  lemma {:induction false} ChoicesSaid(choices: seq<Choice>)
    ensures SpellsInTurn(ChoiceActions(choices), choices)
  {
    if choices != [] {
      ChoiceSaid(choices[0]);
      ChoicesSaid(choices[1..]);
      Halves(ChoiceAction(choices[0]), ChoiceActions(choices[1..]));
    }
  }

  /**
   * A chunk says exactly: its usage if there is any; then, choice by choice, the text if it is not
   * empty, every call in order, and the finish reason if there is one.
   */
  lemma ChunkSaysExactly(c: Chunk)
    ensures SpellsChunk(ChunkActions(c), c)
  {
    ChoicesSaid(c.choices);
    Halves(UsageAction(c), ChoiceActions(c.choices));
  }

  /** What a line says: nothing, the end, an error, or what its chunk says. */
  lemma LineSaysExactly(codec: Codec, line: seq<byte>)
    ensures var read, said := ReadLine(codec, line), LineActions(codec, line);
            && (read.Ignored? ==> said == [])
            && (read.DoneMark? ==> said == [Close])
            && (read.Garbage? ==> said == [Malformed])
            && (read.Payload? ==> SpellsChunk(said, ReadChunk(read.value)))
  {
    if ReadLine(codec, line).Payload? {
      ChunkSaysExactly(ReadChunk(ReadLine(codec, line).value));
    }
  }

  /** What lines say: each in turn, and nothing else. */
  lemma LinesSayExactly(codec: Codec, line: seq<byte>, lines: seq<seq<byte>>)
    ensures Actions(codec, []) == []
    ensures Actions(codec, [line] + lines) == LineActions(codec, line) + Actions(codec, lines)
  {
    ActionsCons(codec, line, lines);
  }

  // ---------------------------------------------------------------- values

  predicate IsCount(v: Json, key: string) {
    v.Obj? && key in v.fields && v.fields[key].Num? && 0 <= v.fields[key].n < 0x1_0000_0000_0000_0000
  }

  predicate IsText(v: Json, key: string) { v.Obj? && key in v.fields && v.fields[key].Str? }

  predicate IsList(v: Json, key: string) { v.Obj? && key in v.fields && v.fields[key].Arr? }

  /** Usage counts only when both numbers are there and fit 64 bits; what is not a list has no choices. */
  lemma ChunkRead(v: Json)
    ensures var u := ReadChunk(v).usage;
            if v.Obj? && "usage" in v.fields && IsCount(v.fields["usage"], "prompt_tokens") &&
               IsCount(v.fields["usage"], "completion_tokens")
            then u == Some(Usage(v.fields["usage"].fields["prompt_tokens"].n,
                                 v.fields["usage"].fields["completion_tokens"].n))
            else u == None
    ensures IsList(v, "choices") ==>
              var items := v.fields["choices"].items;
              |ReadChunk(v).choices| == |items| &&
              forall i | 0 <= i < |items| :: ReadChunk(v).choices[i] == ReadChoice(items[i])
    ensures !IsList(v, "choices") ==> ReadChunk(v).choices == []
  {
  }

  lemma ChoiceRead(v: Json)
    ensures var c := ReadChoice(v);
            && c.finish == (if IsText(v, "finish_reason") then Some(v.fields["finish_reason"].s) else None)
            && c.content == (if v.Obj? && "delta" in v.fields && IsText(v.fields["delta"], "content")
                             then Some(v.fields["delta"].fields["content"].s) else None)
    ensures if v.Obj? && "delta" in v.fields && IsList(v.fields["delta"], "tool_calls")
            then var items := v.fields["delta"].fields["tool_calls"].items;
                 |ReadChoice(v).calls| == |items| &&
                 forall i | 0 <= i < |items| :: ReadChoice(v).calls[i] == JsonModel.ReadCall(items[i])
            else ReadChoice(v).calls == []
  {
  }

  lemma CallRead(v: Json)
    ensures var c := JsonModel.ReadCall(v);
            && c.index == (if IsCount(v, "index") then Some(v.fields["index"].n) else None)
            && c.id == (if IsText(v, "id") then Some(v.fields["id"].s) else None)
            && c.name == (if v.Obj? && "function" in v.fields && IsText(v.fields["function"], "name")
                          then Some(v.fields["function"].fields["name"].s) else None)
            && c.arguments == (if v.Obj? && "function" in v.fields && IsText(v.fields["function"], "arguments")
                               then Some(v.fields["function"].fields["arguments"].s) else None)
  {
  }
}
