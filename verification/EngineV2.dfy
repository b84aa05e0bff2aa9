/** The stream-first backend: one pass over the session's events, answering every `requires_action` round in
    a single batch. */
module EngineV2 {
  import opened Common
  import opened JsonValue
  import opened Ordering
  import opened AgentEvents

  datatype Status = Running | Finished | Crashed

  /** The variables of the streaming loop, and the actions taken so far. */
  datatype V2 = V2(
    buffer: map<string, PendingToolCall>,
    yielded: set<string>,
    usage: Usage,
    cycles: nat,
    status: Status,
    log: seq<Act>)

  const START := V2(map[], {}, map[], 0, Running, [])

  function Finish(s: V2, reason: string): V2 {
    s.(status := Finished, log := s.log + [Yield(AgentFinish(reason, s.usage))])
  }

  function ArgumentsOf(call: PendingToolCall): Args {
    if call.CustomToolCall? then call.arguments else map[]
  }

  // ---- One round -----------------------------------------------------------------------------

  predicate Covered(buffer: map<string, PendingToolCall>, ids: seq<string>) {
    forall i | 0 <= i < |ids| :: ids[i] in buffer
  }

  /** `RequiresActionCycle.calls`: the buffered calls of the requested ids, sorted by id. */
  function Calls(buffer: map<string, PendingToolCall>, ids: seq<string>): seq<PendingToolCall>
    requires Covered(buffer, ids)
  {
    SortedDistinctIsSorted(ids);
    var sorted := SortedDistinct(ids);
    assert forall i | 0 <= i < |sorted| :: sorted[i] in Elements(sorted);
    seq(|sorted|, i requires 0 <= i < |sorted| => buffer[sorted[i]])
  }

  /** Calls not yet shown to the caller are yielded late. */
  function LateYield(s: V2, calls: seq<PendingToolCall>): V2 {
    if calls == [] then s
    else
      var p, call := LateYield(s, calls[..|calls| - 1]), calls[|calls| - 1];
      if call.eventId in p.yielded then p
      else p.(log := p.log + [Yield(AgentToolCall(call.eventId, call.name, ArgumentsOf(call)))],
              yielded := p.yielded + {call.eventId})
  }

  function CallReply(call: PendingToolCall, round: nat, i: nat, env: Env): Reply {
    if call.CustomToolCall?
    then CustomReply(call.eventId, call.name, env.outcome(round, i, call.name, call.arguments), env.serializable(round, i))
    else ToolConfirmation(call.eventId)
  }

  function CallResult(call: PendingToolCall, reply: Reply): AgentEvent {
    if call.CustomToolCall? then AgentToolResult(call.eventId, call.name, DecodeResult(reply), DecodeError(reply))
    else AgentToolResult(call.eventId, call.name, CONFIRMED, None)
  }

  function Replies(calls: seq<PendingToolCall>, round: nat, env: Env): seq<Reply> {
    seq(|calls|, i requires 0 <= i < |calls| => CallReply(calls[i], round, i, env))
  }

  function Results(calls: seq<PendingToolCall>, round: nat, env: Env): seq<AgentEvent> {
    seq(|calls|, i requires 0 <= i < |calls| => CallResult(calls[i], CallReply(calls[i], round, i, env)))
  }

  /** `send_replies` refuses a batch with a reply for an id outside the round. */
  predicate InCycle(ids: seq<string>, replies: seq<Reply>) {
    forall i | 0 <= i < |replies| :: ReplyId(replies[i]) in ids
  }

  function OnRequiresAction(s: V2, ids: seq<string>, env: Env, maxCycles: int): V2 {
    if s.cycles >= maxCycles then
      Finish(s.(log := s.log + [Interrupt]), "policy_max_cycles_exhausted")
    else if env.timesOut(s.cycles) || !Covered(s.buffer, ids) then
      s.(cycles := s.cycles + 1)
    else
      var calls := Calls(s.buffer, ids);
      var late := LateYield(s.(cycles := s.cycles + 1), calls);
      var replies := Replies(calls, s.cycles, env);
      var answered := late.(log := late.log + Yields(Results(calls, s.cycles, env)));
      if !InCycle(ids, replies) then
        Finish(answered.(log := answered.log + [Interrupt]), "out_of_cycle_reply")
      else
        Send(answered, ids, replies, env.post(s.cycles))
  }

  /** The batch goes out in one POST; answered ids leave the buffer only when it was accepted. */
  function Send(s: V2, ids: seq<string>, replies: seq<Reply>, outcome: PostOutcome): V2 {
    var posted := s.(log := s.log + [Post(ids, replies, outcome)]);
    match outcome
    case Accepted => posted.(buffer := posted.buffer - Elements(ids))
    case BadRequest => Finish(posted.(log := posted.log + [Interrupt]), "bad_request")
    case OtherFailure => posted.(status := Crashed)
  }

  // ---- The run -------------------------------------------------------------------------------

  function Step(s: V2, ev: SdkEvent, env: Env, maxCycles: int): V2 {
    match ev
    case Message(content) => s.(log := s.log + Yields(Texts(content)))
    case ToolUse(envelope, id, name, input) =>
      if id == "" then s.(status := Crashed)
      else
        var call := BuildPendingToolCall(envelope, id, name, input);
        s.(buffer := s.buffer[id := call],
           log := s.log + [Yield(AgentToolCall(id, name, ArgumentsOf(call)))],
           yielded := s.yielded + {id})
    case Idle(RequiresAction(ids)) => OnRequiresAction(s, ids, env, maxCycles)
    case Idle(Stopped(kind)) => Finish(s, FinishReason(kind))
    case Terminated => Finish(s, "terminated")
    case SessionError => Finish(s, "error")
    case ModelRequestEnd(more) => s.(usage := AddUsage(s.usage, more))
    case Other(_) => s
  }

  /** The loop leaves at the first event that finishes the run or raises. */
  function Run(events: seq<SdkEvent>, env: Env, maxCycles: int): V2 {
    if events == [] then START
    else
      var s := Run(events[..|events| - 1], env, maxCycles);
      if s.status == Running then Step(s, events[|events| - 1], env, maxCycles) else s
  }

  /** A stream that just ends is finished with `end_turn`. */
  function Complete(events: seq<SdkEvent>, env: Env, maxCycles: int): V2 {
    var s := Run(events, env, maxCycles);
    if s.status == Running then Finish(s, "end_turn") else s
  }

  /** What a run yields to its caller. */
  function Stream(events: seq<SdkEvent>, env: Env, maxCycles: int): seq<AgentEvent> {
    Yielded(Complete(events, env, maxCycles).log)
  }

  // ---- The run as a loop ---------------------------------------------------------------------

  method LateYieldLoop(s: V2, calls: seq<PendingToolCall>) returns (log: seq<Act>, yielded: set<string>)
    ensures LateYield(s, calls) == s.(log := log, yielded := yielded)
  {
    log, yielded := s.log, s.yielded;
    var i := 0;
    while i < |calls|
      invariant 0 <= i <= |calls|
      invariant LateYield(s, calls[..i]) == s.(log := log, yielded := yielded)
    {
      assert calls[..i + 1][..i] == calls[..i];
      var call := calls[i];
      i := i + 1;
      if call.eventId in yielded { continue; }
      log := log + [Yield(AgentToolCall(call.eventId, call.name, ArgumentsOf(call)))];
      yielded := yielded + {call.eventId};
    }
    assert calls[..i] == calls;
  }

  method AnswerLoop(calls: seq<PendingToolCall>, round: nat, env: Env)
    returns (results: seq<AgentEvent>, replies: seq<Reply>)
    ensures results == Results(calls, round, env) && replies == Replies(calls, round, env)
  {
    results, replies := [], [];
    for i := 0 to |calls|
      invariant |results| == |replies| == i
      invariant forall j | 0 <= j < i :: replies[j] == CallReply(calls[j], round, j, env)
      invariant forall j | 0 <= j < i :: results[j] == CallResult(calls[j], replies[j])
    {
      var call := calls[i];
      var reply;
      if call.CustomToolCall? {
        var o := env.outcome(round, i, call.name, call.arguments);
        reply := CustomReply(call.eventId, call.name, o, env.serializable(round, i));
        results := results + [AgentToolResult(call.eventId, call.name, DecodeResult(reply), DecodeError(reply))];
      } else {
        reply := ToolConfirmation(call.eventId);
        results := results + [AgentToolResult(call.eventId, call.name, CONFIRMED, None)];
      }
      replies := replies + [reply];
    }
  }

  /** A `requires_action` round, statement by statement. */
  method RoundImpl(s: V2, ids: seq<string>, env: Env, maxCycles: int) returns (t: V2)
    requires s.status == Running
    ensures t == OnRequiresAction(s, ids, env, maxCycles) && t.usage == s.usage
  {
    var log, yielded := s.log, s.yielded;
    if s.cycles >= maxCycles {
      log := log + [Interrupt] + [Yield(AgentFinish("policy_max_cycles_exhausted", s.usage))];
      return s.(log := log, status := Finished);
    }
    var cycles := s.cycles + 1;
    if env.timesOut(s.cycles) || !Covered(s.buffer, ids) {
      return s.(cycles := cycles);
    }
    var calls := Calls(s.buffer, ids);
    log, yielded := LateYieldLoop(s.(cycles := cycles), calls);
    var results, replies := AnswerLoop(calls, s.cycles, env);
    log := log + Yields(results);
    t := s.(cycles := cycles, yielded := yielded, log := log);
    if !InCycle(ids, replies) {
      return t.(status := Finished, log := log + [Interrupt] + [Yield(AgentFinish("out_of_cycle_reply", s.usage))]);
    }
    var outcome := env.post(s.cycles);
    log := log + [Post(ids, replies, outcome)];
    match outcome {
      case Accepted =>
        t := t.(log := log, buffer := s.buffer - Elements(ids));
      case BadRequest =>
        t := t.(log := log + [Interrupt] + [Yield(AgentFinish("bad_request", s.usage))], status := Finished);
      case OtherFailure =>
        t := t.(log := log, status := Crashed);
    }
  }

  method StreamImpl(events: seq<SdkEvent>, env: Env, maxCycles: int) returns (log: seq<Act>, crashed: bool)
    ensures log == Complete(events, env, maxCycles).log
    ensures crashed <==> Complete(events, env, maxCycles).status == Crashed
  {
    var buffer: map<string, PendingToolCall> := map[];
    var yielded: set<string>, usage: Usage, cycles: nat := {}, map[], 0;
    var finished := false;
    log, crashed := [], false;
    var i := 0;
    while i < |events| && !finished && !crashed
      invariant 0 <= i <= |events|
      invariant !(finished && crashed)
      invariant Run(events[..i], env, maxCycles)
             == V2(buffer, yielded, usage, cycles,
                   if finished then Finished else if crashed then Crashed else Running, log)
    {
      assert events[..i + 1][..i] == events[..i];
      var ev := events[i];
      i := i + 1;
      match ev
      case Message(content) =>
        log := log + Yields(Texts(content));
      case ToolUse(envelope, id, name, input) =>
        if id == "" {
          crashed := true;
        } else {
          var call := BuildPendingToolCall(envelope, id, name, input);
          buffer := buffer[id := call];
          log := log + [Yield(AgentToolCall(id, name, ArgumentsOf(call)))];
          yielded := yielded + {id};
        }
      case Idle(RequiresAction(ids)) =>
        var t := RoundImpl(V2(buffer, yielded, usage, cycles, Running, log), ids, env, maxCycles);
        buffer, yielded, cycles, log := t.buffer, t.yielded, t.cycles, t.log;
        finished, crashed := t.status == Finished, t.status == Crashed;
      case Idle(Stopped(kind)) =>
        log := log + [Yield(AgentFinish(FinishReason(kind), usage))];
        finished := true;
      case Terminated =>
        log := log + [Yield(AgentFinish("terminated", usage))];
        finished := true;
      case SessionError =>
        log := log + [Yield(AgentFinish("error", usage))];
        finished := true;
      case ModelRequestEnd(more) =>
        usage := AddUsage(usage, more);
      case Other(_) =>
    }
    RunStopped(events, i, env, maxCycles);
    if !finished && !crashed {
      log := log + [Yield(AgentFinish("end_turn", usage))];
    }
  }

  /** Once the loop has left, later events change nothing. */
  lemma {:induction false} RunStopped(events: seq<SdkEvent>, n: nat, env: Env, maxCycles: int)
    requires n <= |events|
    requires n == |events| || Run(events[..n], env, maxCycles).status != Running
    ensures Run(events, env, maxCycles) == Run(events[..n], env, maxCycles)
  {
    if n == |events| {
      assert events[..n] == events;
    } else {
      var init := events[..|events| - 1];
      assert init[..n] == events[..n];
      RunStopped(init, n, env, maxCycles);
    }
  }
}
