/** Provider-neutral types shared by every part of the gateway (src/domain.rs, src/error.rs). */
module Domain {

  datatype Option<+T> = None | Some(value: T) {
    function GetOr(default: T): T {
      match this
      case None => default
      case Some(v) => v
    }
  }

  datatype Result<+T, +E> = Ok(value: T) | Err(error: E)

  type U64 = x: int | 0 <= x < 0x1_0000_0000_0000_0000
  type U32 = x: int | 0 <= x < 0x1_0000_0000

  datatype ErrorKind =
    | InvalidRequest
    | Authentication
    | Permission
    | RateLimit
    | Overloaded
    | Upstream
    | Timeout
    | Internal

  /** Error messages, request ids and retry hints are not modelled. */
  datatype ProxyError = ProxyError(kind: ErrorKind, retryable: bool)

  function Invalid(): ProxyError { ProxyError(InvalidRequest, false) }

  datatype Usage = Usage(inputTokens: U64, outputTokens: U64)

  datatype StopReason = EndTurn | MaxTokens | ToolUse | Refusal {
    function AsStr(): string {
      match this
      case EndTurn => "end_turn"
      case MaxTokens => "max_tokens"
      case ToolUse => "tool_use"
      case Refusal => "refusal"
    }
  }

  /** What the provider adapter hands to the streaming encoder. */
  datatype ProviderEvent =
    | Text(text: string)
    | ToolStart(index: U64, id: string, name: string)
    | ToolDelta(index: U64, arguments: string)
    | UsageSeen(usage: Usage)
    | Finished(reason: StopReason, finalUsage: Option<Usage>)

  predicate Unfinished(events: seq<ProviderEvent>) {
    forall e | e in events :: !e.Finished?
  }
}
