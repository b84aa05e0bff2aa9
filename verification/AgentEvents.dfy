/** The events of the managed-agents session, the events of an agent run, and the three kinds of pending
    tool call with the replies they build. */
module AgentEvents {
  import opened Common
  import opened JsonValue

  type Args = map<string, Json>
  /** The usage counters a run reads off a model request; any of them may be absent. */
  datatype UsageKey = InputTokens | OutputTokens | CacheCreationInputTokens | CacheReadInputTokens

  type Usage = map<UsageKey, int>

  // ---- What the session sends ----------------------------------------------------------------

  datatype Block = TextBlock(text: string) | OtherBlock

  datatype Envelope = CustomToolUse | ServerToolUse | McpToolUse

  /** Why a session went idle: it waits on tool replies, or it stopped with some kind (possibly none). */
  datatype StopReason = RequiresAction(eventIds: seq<string>) | Stopped(kind: string)

  /** An id of "" stands for a missing one. `Other` covers the known no-op and the unknown event types. */
  datatype SdkEvent =
    | Message(content: seq<Block>)
    | ToolUse(envelope: Envelope, id: string, name: string, input: Args)
    | Idle(stop: StopReason)
    | Terminated
    | SessionError
    | ModelRequestEnd(modelUsage: Usage)
    | Other(kind: string)

  // ---- What a run yields ---------------------------------------------------------------------

  datatype AgentEvent =
    | AgentTextDelta(text: string)
    | AgentToolCall(callId: string, name: string, arguments: Args)
    | AgentToolResult(callId: string, name: string, result: Args, error: Option<string>)
    | AgentFinish(stopReason: string, usage: Usage)

  function FinishReason(kind: string): string {
    if kind == "" then "unknown" else kind
  }

  function Texts(content: seq<Block>): seq<AgentEvent> {
    if content == [] then []
    else
      Texts(content[..|content| - 1])
      + if content[|content| - 1].TextBlock? && content[|content| - 1].text != ""
        then [AgentTextDelta(content[|content| - 1].text)] else []
  }

  function AddUsage(usage: Usage, more: Usage): Usage {
    map k | k in usage.Keys + more.Keys :: (if k in usage then usage[k] else 0) + (if k in more then more[k] else 0)
  }

  // ---- Pending calls and their replies -------------------------------------------------------

  datatype PendingToolCall =
    | CustomToolCall(eventId: string, name: string, arguments: Args)
    | ServerToolCall(eventId: string, name: string)
    | McpToolCall(eventId: string, name: string)

  /** The text of a custom result; serialisation may fail. */
  datatype Payload = Payload(result: Args, error: Option<string>) | Unserializable

  datatype Reply =
    | CustomToolResult(customToolUseId: string, payload: Payload)
    | ToolConfirmation(toolUseId: string)

  function BuildPendingToolCall(envelope: Envelope, id: string, name: string, input: Args): PendingToolCall {
    match envelope
    case CustomToolUse => CustomToolCall(id, name, input)
    case ServerToolUse => ServerToolCall(id, name)
    case McpToolUse => McpToolCall(id, name)
  }

  /** What invoking the tool behind a custom call came to. */
  datatype ToolOutcome = NotRegistered | Returned(result: Args) | ReturnedOther(value: Json) | Raised(message: string)

  function OutcomeResult(o: ToolOutcome): Args {
    match o
    case Returned(r) => r
    case ReturnedOther(v) => map["value" := v]
    case _ => map[]
  }

  function OutcomeError(name: string, o: ToolOutcome): Option<string> {
    match o
    case NotRegistered => Some("tool '" + name + "' not registered")
    case Raised(m) => Some("tool raised: " + m)
    case _ => None
  }

  function ReplyId(r: Reply): string {
    match r
    case CustomToolResult(id, _) => id
    case ToolConfirmation(id) => id
  }

  /** The reply of a custom call, given whether its result serialises. */
  function CustomReply(id: string, name: string, o: ToolOutcome, serializable: bool): Reply {
    CustomToolResult(id, if serializable then Payload(OutcomeResult(o), OutcomeError(name, o)) else Unserializable)
  }

  /** The result and error read back out of a custom reply. */
  function DecodeResult(r: Reply): Args {
    if r.CustomToolResult? && r.payload.Payload? then r.payload.result else map[]
  }

  function DecodeError(r: Reply): Option<string> {
    if !r.CustomToolResult? then None
    else if r.payload.Payload? then r.payload.error
    else Some("unserializable tool result")
  }

  const CONFIRMED: Args := map["confirmed" := JBool(true)]

  // ---- The surroundings of a run -------------------------------------------------------------

  datatype PostOutcome = Accepted | BadRequest | OtherFailure

  /** Everything a run does not decide itself: what the i-th call of a round comes to, given the name and the
      arguments the tool is invoked with, and whether its result serialises; what becomes of each batch; which
      rounds time out; and what the session log lists when asked in a round. */
  datatype Env = Env(
    outcome: (nat, nat, string, Args) -> ToolOutcome,
    serializable: (nat, nat) -> bool,
    post: nat -> PostOutcome,
    timesOut: nat -> bool,
    sessionLog: nat -> seq<SdkEvent>)

  /** One observable action of a run, in order. */
  datatype Act =
    | Yield(event: AgentEvent)
    | Post(requested: seq<string>, replies: seq<Reply>, outcome: PostOutcome)
    | Interrupt

  function Yields(events: seq<AgentEvent>): seq<Act> {
    seq(|events|, i requires 0 <= i < |events| => Yield(events[i]))
  }

  /** The events among a list of actions. */
  function Yielded(log: seq<Act>): seq<AgentEvent> {
    if log == [] then []
    else
      Yielded(log[..|log| - 1])
      + if log[|log| - 1].Yield? then [log[|log| - 1].event] else []
  }

  lemma {:induction false} YieldedAppend(a: seq<Act>, b: seq<Act>)
    ensures Yielded(a + b) == Yielded(a) + Yielded(b)
  {
    if b == [] {
      assert a + b == a;
    } else {
      assert (a + b)[..|a + b| - 1] == a + b[..|b| - 1];
      YieldedAppend(a, b[..|b| - 1]);
    }
  }

  lemma {:induction false} YieldedYields(events: seq<AgentEvent>)
    ensures Yielded(Yields(events)) == events
  {
    if events != [] {
      var init := events[..|events| - 1];
      assert Yields(events)[..|events| - 1] == Yields(init);
      YieldedYields(init);
      assert events == init + [events[|events| - 1]];
    }
  }
}
