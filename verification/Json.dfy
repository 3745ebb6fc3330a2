/** JSON values with the accessors the gateway uses, and what it reads from one streamed chunk. */
module JsonModel {
  import opened Domain

  datatype Json =
    | Null
    | Bool(b: bool)
    | Num(n: int)
    | Real(r: real)
    | Str(s: string)
    | Arr(items: seq<Json>)
    | Obj(fields: map<string, Json>)
  {
    function Get(key: string): Option<Json> {
      if Obj? && key in fields then Some(fields[key]) else None
    }

    function Pointer(first: string, second: string): Option<Json> {
      match Get(first)
      case None => None
      case Some(v) => v.Get(second)
    }
  }

  function AsStr(v: Option<Json>): Option<string> {
    if v.Some? && v.value.Str? then Some(v.value.s) else None
  }

  function AsU64(v: Option<Json>): Option<U64> {
    if v.Some? && v.value.Num? && 0 <= v.value.n < 0x1_0000_0000_0000_0000 then Some(v.value.n) else None
  }

  function AsArray(v: Option<Json>): seq<Json> {
    if v.Some? && v.value.Arr? then v.value.items else []
  }

  /** One entry of `delta.tool_calls`. */
  datatype CallDelta = CallDelta(index: Option<U64>, id: Option<string>, name: Option<string>,
                                 arguments: Option<string>)

  datatype Choice = Choice(content: Option<string>, calls: seq<CallDelta>, finish: Option<string>)

  datatype Chunk = Chunk(usage: Option<Usage>, choices: seq<Choice>)

  function ReadUsage(v: Json): Option<Usage> {
    match v.Get("usage")
    case None => None
    case Some(u) =>
      if u.Null? then None
      else
        var input, output := AsU64(u.Get("prompt_tokens")), AsU64(u.Get("completion_tokens"));
        if input.Some? && output.Some? then Some(Usage(input.value, output.value)) else None
  }

  function ReadCall(v: Json): CallDelta {
    CallDelta(AsU64(v.Get("index")), AsStr(v.Get("id")),
              AsStr(v.Pointer("function", "name")), AsStr(v.Pointer("function", "arguments")))
  }

  function ReadChoice(v: Json): Choice {
    var calls := AsArray(v.Pointer("delta", "tool_calls"));
    Choice(AsStr(v.Pointer("delta", "content")),
           seq(|calls|, i requires 0 <= i < |calls| => ReadCall(calls[i])),
           AsStr(v.Get("finish_reason")))
  }

  function ReadChunk(v: Json): Chunk {
    var choices := AsArray(v.Get("choices"));
    Chunk(ReadUsage(v), seq(|choices|, i requires 0 <= i < |choices| => ReadChoice(choices[i])))
  }

  // The provider's side: one JSON value for every chunk.

  function WriteStr(s: Option<string>): Json {
    if s.Some? then Str(s.value) else Null
  }

  function WriteUsage(u: Option<Usage>): Json {
    if u.None? then Null
    else Obj(map["prompt_tokens" := Num(u.value.inputTokens), "completion_tokens" := Num(u.value.outputTokens)])
  }

  function WriteCall(c: CallDelta): Json {
    Obj(map["index" := if c.index.Some? then Num(c.index.value) else Null,
            "id" := WriteStr(c.id),
            "function" := Obj(map["name" := WriteStr(c.name), "arguments" := WriteStr(c.arguments)])])
  }

  function WriteChoice(c: Choice): Json {
    var calls := Arr(seq(|c.calls|, i requires 0 <= i < |c.calls| => WriteCall(c.calls[i])));
    Obj(map["delta" := Obj(map["content" := WriteStr(c.content), "tool_calls" := calls]),
            "finish_reason" := WriteStr(c.finish)])
  }

  function WriteChunk(c: Chunk): Json {
    var choices := Arr(seq(|c.choices|, i requires 0 <= i < |c.choices| => WriteChoice(c.choices[i])));
    Obj(map["usage" := WriteUsage(c.usage), "choices" := choices])
  }

  lemma CallReadsBack(c: CallDelta)
    ensures ReadCall(WriteCall(c)) == c
  {
    var f := Obj(map["name" := WriteStr(c.name), "arguments" := WriteStr(c.arguments)]);
    assert WriteCall(c).Get("function") == Some(f);
  }

  lemma ChoiceReadsBack(c: Choice)
    ensures ReadChoice(WriteChoice(c)) == c
  {
    forall i | 0 <= i < |c.calls| ensures ReadCall(WriteCall(c.calls[i])) == c.calls[i] {
      CallReadsBack(c.calls[i]);
    }
    var calls := Arr(seq(|c.calls|, i requires 0 <= i < |c.calls| => WriteCall(c.calls[i])));
    var delta := Obj(map["content" := WriteStr(c.content), "tool_calls" := calls]);
    assert WriteChoice(c).Get("delta") == Some(delta);
    assert delta.Get("tool_calls") == Some(calls);
    assert ReadChoice(WriteChoice(c)).calls == c.calls;
  }

  /** Every chunk can be sent, and each field is read from where the provider puts it. */
  lemma ChunkReadsBack(c: Chunk)
    ensures ReadChunk(WriteChunk(c)) == c
  {
    forall i | 0 <= i < |c.choices| ensures ReadChoice(WriteChoice(c.choices[i])) == c.choices[i] {
      ChoiceReadsBack(c.choices[i]);
    }
    assert WriteChunk(c).Get("usage") == Some(WriteUsage(c.usage));
    assert ReadChunk(WriteChunk(c)).choices == c.choices;
  }
}
