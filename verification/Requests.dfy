/** Normalised requests (src/domain.rs) and capability profiles (src/config.rs). */
module Requests {
  import opened Domain
  import opened JsonModel

  datatype Role = SystemRole | UserRole | AssistantRole

  datatype ImageData = Base64(data: string) | Url(url: string)

  datatype Block =
    | TextBlock(text: string)
    | ImageBlock(mediaType: string, image: ImageData)
    | UseBlock(id: string, name: string, input: Json)
    | ResultBlock(useId: string, content: Json, isError: bool)

  datatype Message = Message(role: Role, blocks: seq<Block>)

  datatype ToolChoice =
    | Auto(disableParallel: bool)
    | Any(disableParallel: bool)
    | NoTool
    | Tool(name: string, disableParallel: bool)

  datatype ToolDefinition = ToolDefinition(name: string, description: Option<string>, schema: Json)

  datatype Request = Request(
    model: string, maxTokens: U32, messages: seq<Message>, temperature: Option<real>, topP: Option<real>,
    stop: seq<string>, tools: seq<ToolDefinition>, toolChoice: Option<ToolChoice>, stream: bool)

  datatype Profile = Profile(
    vision: bool, tools: bool, parallelTools: bool,
    supportsTemperature: bool, supportsTopP: bool, supportsStop: bool, maxOutputTokens: U32,
    allowMaxTokensClamping: bool, allowTemperatureFallback: bool, allowTopPFallback: bool,
    allowStopFallback: bool, allowParallelToolFallback: bool, allowStructuredToolResultsToString: bool)
}

/** `adapt_request` (src/provider.rs): a request made to fit a provider's capabilities. */
module Adaptation {
  import opened Domain
  import opened JsonModel
  import opened Requests

  predicate AllowsParallel(choice: Option<ToolChoice>) {
    choice.Some? && !choice.value.NoTool? && !choice.value.disableParallel
  }

  function WithoutParallel(choice: Option<ToolChoice>): Option<ToolChoice> {
    if choice.Some? && !choice.value.NoTool? then Some(choice.value.(disableParallel := true)) else choice
  }

  predicate Structured(b: Block) { b.ResultBlock? && !b.content.Str? }

  predicate BlockAccepted(caps: Profile, b: Block) {
    && (b.ImageBlock? ==> caps.vision)
    && (Structured(b) ==> caps.allowStructuredToolResultsToString)
  }

  function AdaptBlock(show: Json -> string, b: Block): Block {
    if Structured(b) then b.(content := Str(show(b.content))) else b
  }

  predicate BlocksAccepted(caps: Profile, blocks: seq<Block>) {
    forall i | 0 <= i < |blocks| :: BlockAccepted(caps, blocks[i])
  }

  function AdaptBlocks(show: Json -> string, blocks: seq<Block>): (r: seq<Block>)
    ensures |r| == |blocks|
  {
    seq(|blocks|, i requires 0 <= i < |blocks| => AdaptBlock(show, blocks[i]))
  }

  predicate MessagesAccepted(caps: Profile, messages: seq<Message>) {
    forall i | 0 <= i < |messages| :: BlocksAccepted(caps, messages[i].blocks)
  }

  function AdaptMessages(show: Json -> string, messages: seq<Message>): (r: seq<Message>)
    ensures |r| == |messages|
  {
    seq(|messages|, i requires 0 <= i < |messages| => Message(messages[i].role, AdaptBlocks(show, messages[i].blocks)))
  }

  /** Whatever is beyond the provider's sampling parameters may be given up. */
  predicate ParametersAdaptable(caps: Profile, r: Request) {
    && (r.maxTokens <= caps.maxOutputTokens || caps.allowMaxTokensClamping)
    && (r.temperature.None? || caps.supportsTemperature || caps.allowTemperatureFallback)
    && (r.topP.None? || caps.supportsTopP || caps.allowTopPFallback)
    && (r.stop == [] || caps.supportsStop || caps.allowStopFallback)
  }

  predicate ToolsAdaptable(caps: Profile, r: Request) {
    && (r.tools == [] || caps.tools)
    && (!AllowsParallel(r.toolChoice) || caps.parallelTools || caps.allowParallelToolFallback)
  }

  predicate Adaptable(caps: Profile, r: Request) {
    ParametersAdaptable(caps, r) && ToolsAdaptable(caps, r) && MessagesAccepted(caps, r.messages)
  }

  function Limit(caps: Profile, n: U32): U32 { if n <= caps.maxOutputTokens then n else caps.maxOutputTokens }

  function Choose(caps: Profile, choice: Option<ToolChoice>): Option<ToolChoice> {
    if AllowsParallel(choice) && !caps.parallelTools then WithoutParallel(choice) else choice
  }

  /** The request with everything unsupported dropped, clamped or turned into text. */
  function Adapted(show: Json -> string, caps: Profile, r: Request): Request {
    Request(r.model, Limit(caps, r.maxTokens), AdaptMessages(show, r.messages),
            if caps.supportsTemperature then r.temperature else None,
            if caps.supportsTopP then r.topP else None,
            if caps.supportsStop then r.stop else [],
            r.tools, Choose(caps, r.toolChoice), r.stream)
  }

  /** All the errors have the same kind, so their order does not show. */
  function Adapt(show: Json -> string, caps: Profile, r: Request): Result<Request, ProxyError> {
    if Adaptable(caps, r) then Ok(Adapted(show, caps, r)) else Err(Invalid())
  }

  /** The loop over the blocks of a message, which edits them in place. */
  method AdaptEachBlock(show: Json -> string, caps: Profile, blocks: seq<Block>) returns (r: Option<seq<Block>>)
    ensures r == if BlocksAccepted(caps, blocks) then Some(AdaptBlocks(show, blocks)) else None
  {
    var edited := blocks;
    for n := 0 to |blocks|
      invariant |edited| == |blocks| && edited[n..] == blocks[n..]
      invariant BlocksAccepted(caps, blocks[..n])
      invariant forall i | 0 <= i < n :: edited[i] == AdaptBlock(show, blocks[i])
    {
      var block := blocks[n];
      if block.ImageBlock? && !caps.vision {
        assert !BlockAccepted(caps, blocks[n]);
        return None;
      }
      if block.ResultBlock? && !block.content.Str? {
        if !caps.allowStructuredToolResultsToString {
          assert !BlockAccepted(caps, blocks[n]);
          return None;
        }
        edited := edited[n := block.(content := Str(show(block.content)))];
      }
      assert blocks[..n + 1] == blocks[..n] + [block];
    }
    assert edited == AdaptBlocks(show, blocks);
    assert blocks[..|blocks|] == blocks;
    return Some(edited);
  }

  method AdaptParameters(caps: Profile, request: Request) returns (r: Option<Request>)
    ensures r.Some? <==> ParametersAdaptable(caps, request)
    ensures r.Some? ==>
              r.value == request.(maxTokens := Limit(caps, request.maxTokens),
                                  temperature := if caps.supportsTemperature then request.temperature else None,
                                  topP := if caps.supportsTopP then request.topP else None,
                                  stop := if caps.supportsStop then request.stop else [])
  {
    var maxTokens, temperature, topP, stop := request.maxTokens, request.temperature, request.topP, request.stop;
    if maxTokens > caps.maxOutputTokens {
      if !caps.allowMaxTokensClamping {
        return None;
      }
      maxTokens := caps.maxOutputTokens;
    }
    if temperature.Some? && !caps.supportsTemperature {
      if !caps.allowTemperatureFallback {
        return None;
      }
      temperature := None;
    }
    if topP.Some? && !caps.supportsTopP {
      if !caps.allowTopPFallback {
        return None;
      }
      topP := None;
    }
    if stop != [] && !caps.supportsStop {
      if !caps.allowStopFallback {
        return None;
      }
      stop := [];
    }
    return Some(request.(maxTokens := maxTokens, temperature := temperature, topP := topP, stop := stop));
  }

  method AdaptRequest(show: Json -> string, caps: Profile, request: Request) returns (r: Result<Request, ProxyError>)
    ensures r == Adapt(show, caps, request)
  {
    var parameters := AdaptParameters(caps, request);
    if parameters.None? {
      return Err(Invalid());
    }
    var adapted := parameters.value;
    if adapted.tools != [] && !caps.tools {
      return Err(Invalid());
    }
    var choice := adapted.toolChoice;
    if AllowsParallel(choice) && !caps.parallelTools {
      if !caps.allowParallelToolFallback {
        return Err(Invalid());
      }
      choice := WithoutParallel(choice);
    }
    var messages := AdaptEachMessage(show, caps, adapted.messages);
    if messages.None? {
      return Err(Invalid());
    }
    return Ok(adapted.(messages := messages.value, toolChoice := choice));
  }

  method AdaptEachMessage(show: Json -> string, caps: Profile, messages: seq<Message>) returns (r: Option<seq<Message>>)
    ensures r == if MessagesAccepted(caps, messages) then Some(AdaptMessages(show, messages)) else None
  {
    var edited := messages;
    for n := 0 to |messages|
      invariant |edited| == |messages| && edited[n..] == messages[n..]
      invariant MessagesAccepted(caps, messages[..n])
      invariant forall i | 0 <= i < n :: edited[i] == Message(messages[i].role, AdaptBlocks(show, messages[i].blocks))
    {
      var blocks := AdaptEachBlock(show, caps, messages[n].blocks);
      if blocks.None? {
        assert !BlocksAccepted(caps, messages[n].blocks);
        return None;
      }
      edited := edited[n := messages[n].(blocks := blocks.value)];
      assert messages[..n + 1] == messages[..n] + [messages[n]];
    }
    assert edited == AdaptMessages(show, messages);
    assert messages[..|messages|] == messages;
    return Some(edited);
  }

  // ---------------------------------------------------------------- what adaptation guarantees

  predicate PlainBlock(caps: Profile, b: Block) { (b.ImageBlock? ==> caps.vision) && !Structured(b) }

  /** Nothing in the request is beyond the provider's declared capabilities. */
  predicate Satisfies(caps: Profile, r: Request) {
    && r.maxTokens <= caps.maxOutputTokens
    && (r.temperature.Some? ==> caps.supportsTemperature)
    && (r.topP.Some? ==> caps.supportsTopP)
    && (r.stop != [] ==> caps.supportsStop)
    && (r.tools != [] ==> caps.tools)
    && (AllowsParallel(r.toolChoice) ==> caps.parallelTools)
    && forall i, j | 0 <= i < |r.messages| && 0 <= j < |r.messages[i].blocks| ::
         PlainBlock(caps, r.messages[i].blocks[j])
  }

  /** What adaptation lets through fits the provider. */
  lemma AdaptIsSound(show: Json -> string, caps: Profile, r: Request)
    requires Adapt(show, caps, r).Ok?
    ensures Satisfies(caps, Adapt(show, caps, r).value)
  {
    var a := Adapted(show, caps, r);
    forall i, j | 0 <= i < |a.messages| && 0 <= j < |a.messages[i].blocks|
      ensures PlainBlock(caps, a.messages[i].blocks[j])
    {
      assert BlocksAccepted(caps, r.messages[i].blocks);
      assert BlockAccepted(caps, r.messages[i].blocks[j]);
    }
  }

  lemma AdaptKeepsBlocks(show: Json -> string, caps: Profile, messages: seq<Message>)
    requires forall i, j | 0 <= i < |messages| && 0 <= j < |messages[i].blocks| ::
               PlainBlock(caps, messages[i].blocks[j])
    ensures MessagesAccepted(caps, messages) && AdaptMessages(show, messages) == messages
  {
    forall i | 0 <= i < |messages| ensures AdaptBlocks(show, messages[i].blocks) == messages[i].blocks {
      forall j | 0 <= j < |messages[i].blocks|
        ensures AdaptBlock(show, messages[i].blocks[j]) == messages[i].blocks[j]
      {
        assert PlainBlock(caps, messages[i].blocks[j]);
      }
    }
  }

  /** A request that fits already is not touched. */
  lemma FittingUnchanged(show: Json -> string, caps: Profile, r: Request)
    requires Satisfies(caps, r)
    ensures Adapt(show, caps, r) == Ok(r)
  {
    AdaptKeepsBlocks(show, caps, r.messages);
  }

  /** The router adapts twice; the second time changes nothing. */
  lemma AdaptTwice(show: Json -> string, caps: Profile, r: Request)
    requires Adapt(show, caps, r).Ok?
    ensures Adapt(show, caps, Adapt(show, caps, r).value) == Adapt(show, caps, r)
  {
    AdaptIsSound(show, caps, r);
    FittingUnchanged(show, caps, Adapt(show, caps, r).value);
  }

  /** With every fallback off, a request passes unchanged or not at all. */
  lemma NoFallbackNoChange(show: Json -> string, caps: Profile, r: Request)
    requires !caps.allowMaxTokensClamping && !caps.allowTemperatureFallback && !caps.allowTopPFallback
    requires !caps.allowStopFallback && !caps.allowParallelToolFallback && !caps.allowStructuredToolResultsToString
    ensures Adapt(show, caps, r) == if Satisfies(caps, r) then Ok(r) else Err(Invalid())
  {
    if Adaptable(caps, r) {
      forall i, j | 0 <= i < |r.messages| && 0 <= j < |r.messages[i].blocks|
        ensures PlainBlock(caps, r.messages[i].blocks[j])
      {
        assert BlocksAccepted(caps, r.messages[i].blocks);
        assert BlockAccepted(caps, r.messages[i].blocks[j]);
      }
    }
    if Satisfies(caps, r) {
      FittingUnchanged(show, caps, r);
    }
  }

  // ---------------------------------------------------------------- adaptation gives up no more than it must

  predicate WeakerChoice(a: Option<ToolChoice>, b: Option<ToolChoice>) { a == b || a == WithoutParallel(b) }

  predicate WeakerBlock(show: Json -> string, a: Block, b: Block) { a == b || a == AdaptBlock(show, b) }

  predicate WeakerMessage(show: Json -> string, a: Message, b: Message) {
    && a.role == b.role && |a.blocks| == |b.blocks|
    && forall j | 0 <= j < |a.blocks| :: WeakerBlock(show, a.blocks[j], b.blocks[j])
  }

  /** `a` asks for the same as `b`, or gives up some of what a provider may lack. */
  predicate Weaker(show: Json -> string, a: Request, b: Request) {
    && a.model == b.model && a.tools == b.tools && a.stream == b.stream
    && a.maxTokens <= b.maxTokens
    && a.temperature in {None, b.temperature} && a.topP in {None, b.topP} && a.stop in {[], b.stop}
    && WeakerChoice(a.toolChoice, b.toolChoice)
    && |a.messages| == |b.messages|
    && forall i | 0 <= i < |a.messages| :: WeakerMessage(show, a.messages[i], b.messages[i])
  }

  lemma AdaptedIsWeaker(show: Json -> string, caps: Profile, r: Request)
    ensures Weaker(show, Adapted(show, caps, r), r)
  {
    var a := Adapted(show, caps, r);
    forall i | 0 <= i < |a.messages| ensures WeakerMessage(show, a.messages[i], r.messages[i]) {
    }
  }

  lemma NothingBetween(show: Json -> string, caps: Profile, m: Message, b: Message)
    requires WeakerMessage(show, b, m)
    requires forall j | 0 <= j < |b.blocks| :: PlainBlock(caps, b.blocks[j])
    ensures b == Message(m.role, AdaptBlocks(show, m.blocks))
  {
    forall j | 0 <= j < |b.blocks| ensures b.blocks[j] == AdaptBlock(show, m.blocks[j]) {
      assert PlainBlock(caps, b.blocks[j]) && WeakerBlock(show, b.blocks[j], m.blocks[j]);
    }
  }

  /** Of all the weaker requests that fit the provider, adaptation gives the strongest. */
  lemma AdaptIsStrongest(show: Json -> string, caps: Profile, r: Request, b: Request)
    requires Adapt(show, caps, r).Ok?
    requires Weaker(show, b, r) && Satisfies(caps, b)
    ensures Weaker(show, Adapt(show, caps, r).value, r)
    ensures Weaker(show, b, Adapt(show, caps, r).value)
  {
    var a := Adapted(show, caps, r);
    AdaptedIsWeaker(show, caps, r);
    forall i | 0 <= i < |b.messages| ensures WeakerMessage(show, b.messages[i], a.messages[i]) {
      assert WeakerMessage(show, b.messages[i], r.messages[i]);
      NothingBetween(show, caps, r.messages[i], b.messages[i]);
    }
  }

  // ---------------------------------------------------------------- adaptation, field by field

  /** Each thing the provider lacks is excused by its own fallback flag, if by any. */
  lemma AdaptRefuses(show: Json -> string, caps: Profile, r: Request)
    ensures Adapt(show, caps, r).Err? <==>
            || (r.maxTokens > caps.maxOutputTokens && !caps.allowMaxTokensClamping)
            || (r.temperature.Some? && !caps.supportsTemperature && !caps.allowTemperatureFallback)
            || (r.topP.Some? && !caps.supportsTopP && !caps.allowTopPFallback)
            || (r.stop != [] && !caps.supportsStop && !caps.allowStopFallback)
            || (r.tools != [] && !caps.tools)
            || (r.toolChoice.Some? && !r.toolChoice.value.NoTool? && !r.toolChoice.value.disableParallel &&
                !caps.parallelTools && !caps.allowParallelToolFallback)
            || exists i, j | 0 <= i < |r.messages| && 0 <= j < |r.messages[i].blocks| ::
                 Refused(caps, r.messages[i].blocks[j])
    ensures Adapt(show, caps, r).Err? ==> Adapt(show, caps, r).error == ProxyError(InvalidRequest, false)
  {
    if MessagesAccepted(caps, r.messages) {
      forall i, j | 0 <= i < |r.messages| && 0 <= j < |r.messages[i].blocks|
        ensures !Refused(caps, r.messages[i].blocks[j])
      {
        assert BlocksAccepted(caps, r.messages[i].blocks);
        assert BlockAccepted(caps, r.messages[i].blocks[j]);
      }
    } else {
      var i :| 0 <= i < |r.messages| && !BlocksAccepted(caps, r.messages[i].blocks);
      var j :| 0 <= j < |r.messages[i].blocks| && !BlockAccepted(caps, r.messages[i].blocks[j]);
      assert Refused(caps, r.messages[i].blocks[j]);
    }
  }

  /** An image where there is no vision, or a structured result that may not become text. */
  predicate Refused(caps: Profile, b: Block) {
    || (b.ImageBlock? && !caps.vision)
    || (b.ResultBlock? && !b.content.Str? && !caps.allowStructuredToolResultsToString)
  }

  /** What becomes of each field of an accepted request. */
  lemma AdaptFields(show: Json -> string, caps: Profile, r: Request)
    requires Adapt(show, caps, r).Ok?
    ensures var a := Adapt(show, caps, r).value;
            && a.model == r.model && a.tools == r.tools && a.stream == r.stream
            && a.maxTokens == (if r.maxTokens < caps.maxOutputTokens then r.maxTokens else caps.maxOutputTokens)
            && a.temperature == (if caps.supportsTemperature then r.temperature else None)
            && a.topP == (if caps.supportsTopP then r.topP else None)
            && a.stop == (if caps.supportsStop then r.stop else [])
    ensures var was, now := r.toolChoice, Adapt(show, caps, r).value.toolChoice;
            && (caps.parallelTools || was == None || was == Some(NoTool) ==> now == was)
            && (!caps.parallelTools && was.Some? && was.value.Auto? ==> now == Some(Auto(true)))
            && (!caps.parallelTools && was.Some? && was.value.Any? ==> now == Some(Any(true)))
            && (!caps.parallelTools && was.Some? && was.value.Tool? ==> now == Some(Tool(was.value.name, true)))
  {
  }

  /** A structured result becomes its print, in its place; everything else stays as it is. */
  lemma AdaptBlocksSay(show: Json -> string, caps: Profile, r: Request, i: nat, j: nat)
    requires Adapt(show, caps, r).Ok? && i < |r.messages| && j < |r.messages[i].blocks|
    ensures var a, was := Adapt(show, caps, r).value, r.messages[i].blocks[j];
            && |a.messages| == |r.messages| && a.messages[i].role == r.messages[i].role
            && |a.messages[i].blocks| == |r.messages[i].blocks|
            && var now := a.messages[i].blocks[j];
            if was.ResultBlock? && !was.content.Str?
            then now == ResultBlock(was.useId, Str(show(was.content)), was.isError)
            else now == was
  {
  }

  /** The `parallel_tool_calls` field of the outgoing body; absent means the provider's default. */
  function ParallelField(choice: Option<ToolChoice>): Option<bool> {
    if choice.None? || choice.value.NoTool? then None else Some(!choice.value.disableParallel)
  }

  /** The field says whether calls may come in parallel, and is left out without a choice or for `none`. */
  lemma ParallelFieldSays(name: string, disabled: bool)
    ensures ParallelField(None) == None && ParallelField(Some(NoTool)) == None
    ensures ParallelField(Some(Auto(disabled))) == Some(!disabled)
    ensures ParallelField(Some(Any(disabled))) == Some(!disabled)
    ensures ParallelField(Some(Tool(name, disabled))) == Some(!disabled)
  {
  }

  /**
   * A target without parallel tools is told so exactly when the client chose a tool policy: a
   * request with tools and no `tool_choice` is passed on and leaves the provider its default.
   */
  lemma ParallelGuard(show: Json -> string, caps: Profile, r: Request)
    requires !caps.parallelTools && Adapt(show, caps, r).Ok?
    ensures ParallelField(Adapt(show, caps, r).value.toolChoice) == Some(false) <==>
            r.toolChoice.Some? && !r.toolChoice.value.NoTool?
  {
  }

  /** So a request with tools and no `tool_choice` gets past the guard. */
  lemma ParallelUnguarded(show: Json -> string, caps: Profile, r: Request)
    requires !caps.parallelTools && caps.tools && r.tools != [] && r.toolChoice == None && Satisfies(caps, r)
    ensures Adapt(show, caps, r) == Ok(r) && ParallelField(r.toolChoice) == None
  {
    FittingUnchanged(show, caps, r);
  }

  const SERIAL_TARGET := Profile(false, true, false, true, true, true, 1024, false, false, false, false, false, false)

  const UNGUARDED_REQUEST := Request("claude", 100, [Message(UserRole, [TextBlock("Run both.")])], None, None, [],
                                     [ToolDefinition("shell", None, Obj(map[]))], None, false)

  /** For example this one, sent to a target that allows one tool call at a time. */
  lemma ParallelUnguardedHappens(show: Json -> string)
    ensures !SERIAL_TARGET.parallelTools && UNGUARDED_REQUEST.tools != []
    ensures Adapt(show, SERIAL_TARGET, UNGUARDED_REQUEST) == Ok(UNGUARDED_REQUEST)
    ensures ParallelField(UNGUARDED_REQUEST.toolChoice) == None
  {
    ParallelUnguarded(show, SERIAL_TARGET, UNGUARDED_REQUEST);
  }
}
