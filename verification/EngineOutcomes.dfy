/** What becomes of a tool's outcome: in every answered round of either backend, what the caller is shown and what
    the session is sent for each requested id. */
module EngineOutcomes {
  import opened Common
  import opened JsonValue
  import opened Ordering
  import opened AgentEvents
  import opened EngineCounts
  import opened EngineV2
  import opened EngineV2Properties
  import opened EngineV1
  import opened EngineAgreement

  // ---- What an outcome is reported as --------------------------------------------------------

  /** The event that shows an outcome: a returned object is itself the result, anything else returned is wrapped,
      and a failure is an empty result with an error text. */
  ghost predicate Reports(e: AgentEvent, id: string, name: string, o: ToolOutcome) {
    match o
    case Returned(r) => e == AgentToolResult(id, name, r, None)
    case ReturnedOther(v) => e == AgentToolResult(id, name, map["value" := v], None)
    case NotRegistered => e == AgentToolResult(id, name, map[], Some("tool '" + name + "' not registered"))
    case Raised(m) => e == AgentToolResult(id, name, map[], Some("tool raised: " + m))
  }

  /** The payload of a custom reply that serialises. */
  ghost predicate Carries(p: Payload, name: string, o: ToolOutcome) {
    match o
    case Returned(r) => p == Payload(r, None)
    case ReturnedOther(v) => p == Payload(map["value" := v], None)
    case NotRegistered => p == Payload(map[], Some("tool '" + name + "' not registered"))
    case Raised(m) => p == Payload(map[], Some("tool raised: " + m))
  }

  /** The reply to the i-th call of a round: the tool is invoked with the name and the input of its tool use, and a
      server or MCP call is confirmed. */
  ghost predicate RepliesTo(r: Reply, u: SdkEvent, round: nat, i: nat, env: Env)
    requires u.ToolUse?
  {
    if u.envelope != CustomToolUse then r == ToolConfirmation(u.id)
    else
      && r.CustomToolResult? && r.customToolUseId == u.id
      && if env.serializable(round, i) then Carries(r.payload, u.name, env.outcome(round, i, u.name, u.input))
         else r.payload == Unserializable
  }

  /** What the first backend shows: the outcome itself, serialisable or not. */
  ghost predicate Shows1(e: AgentEvent, u: SdkEvent, round: nat, i: nat, env: Env)
    requires u.ToolUse?
  {
    if u.envelope != CustomToolUse then e == AgentToolResult(u.id, u.name, map["confirmed" := JBool(true)], None)
    else Reports(e, u.id, u.name, env.outcome(round, i, u.name, u.input))
  }

  /** The second backend reads it back from the reply, so an outcome that does not serialise is lost. */
  ghost predicate Shows2(e: AgentEvent, u: SdkEvent, round: nat, i: nat, env: Env)
    requires u.ToolUse?
  {
    if u.envelope == CustomToolUse && !env.serializable(round, i)
    then e == AgentToolResult(u.id, u.name, map[], Some("unserializable tool result"))
    else Shows1(e, u, round, i, env)
  }

  // ---- The second backend --------------------------------------------------------------------

  /** The ids a round can cover: used, and not answered since. */
  function Unanswered(events: seq<SdkEvent>, env: Env): set<string> {
    if events == [] then {}
    else
      var init, last := events[..|events| - 1], events[|events| - 1];
      var before := Unanswered(init, env);
      match last
      case ToolUse(_, id, _, _) => before + {id}
      case Idle(RequiresAction(ids)) =>
        if env.timesOut(Rounds(init)) || !(Elements(ids) <= before) then before else before - Elements(ids)
      case _ => before
  }

  /** While a run goes on, its buffer holds the unanswered ids, and it counts every round. */
  lemma {:induction false} RunBuffers(events: seq<SdkEvent>, env: Env, maxCycles: int)
    requires Run(events, env, maxCycles).status == Running
    ensures var s := Run(events, env, maxCycles);
      s.buffer.Keys == Unanswered(events, env) && s.cycles == Rounds(events)
  {
    if events != [] {
      var init, last := events[..|events| - 1], events[|events| - 1];
      StillRunning(events, env, maxCycles);
      RunBuffers(init, env, maxCycles);
      RunBuffer(init, env, maxCycles);
      var s := Run(init, env, maxCycles);
      match last
      case Idle(RequiresAction(ids)) =>
        CoveredIff(s.buffer, ids);
        RoundLeaves(s, init, ids, env, maxCycles);
      case _ =>
    }
  }

  /** What a round that the run survives leaves in the buffer. */
  lemma RoundLeaves(s: V2, events: seq<SdkEvent>, ids: seq<string>, env: Env, maxCycles: int)
    requires BufferOk(s, events) && OnRequiresAction(s, ids, env, maxCycles).status == Running
    ensures var t := OnRequiresAction(s, ids, env, maxCycles);
      && t.cycles == s.cycles + 1
      && t.buffer.Keys == if env.timesOut(s.cycles) || !Covered(s.buffer, ids) then s.buffer.Keys
                          else s.buffer.Keys - Elements(ids)
  {
    if s.cycles < maxCycles && !env.timesOut(s.cycles) && Covered(s.buffer, ids) {
      RoundAnswered(s, events, ids, env, maxCycles);
    }
  }

  lemma CoveredIff(buffer: map<string, PendingToolCall>, ids: seq<string>)
    ensures Covered(buffer, ids) <==> Elements(ids) <= buffer.Keys
  {
    if Covered(buffer, ids) {
      forall id | id in Elements(ids) ensures id in buffer {
        var i :| 0 <= i < |ids| && ids[i] == id;
      }
    } else {
      var i :| 0 <= i < |ids| && ids[i] !in buffer;
      assert ids[i] in Elements(ids);
    }
  }

  /** An answered round: first a result for each requested id in ascending order, then one batch with their
      replies. */
  ghost predicate AnsweredFor(more: seq<Act>, ids: seq<string>, events: seq<SdkEvent>, round: nat, env: Env) {
    var sorted := SortedDistinct(ids);
    var n := |sorted|;
    && |more| > n && more[n].Post? && more[n].requested == ids && more[n].outcome == env.post(round)
    && |more[n].replies| == n
    && forall i | 0 <= i < n ::
         && LatestUse(events, sorted[i]).ToolUse? && more[i].Yield?
         && Shows2(more[i].event, LatestUse(events, sorted[i]), round, i, env)
         && RepliesTo(more[n].replies[i], LatestUse(events, sorted[i]), round, i, env)
  }

  /** Every round of every run. Over the policy's limit it interrupts and finishes; unresolved in time it does
      nothing; otherwise it is answered, and the outcome of the batch decides how the run goes on. */
  lemma RoundMeans(events: seq<SdkEvent>, ids: seq<string>, env: Env, maxCycles: int)
    requires Run(events, env, maxCycles).status == Running
    ensures var s, t := Run(events, env, maxCycles), Run(events + [Idle(RequiresAction(ids))], env, maxCycles);
      var round, n := Rounds(events), |SortedDistinct(ids)|;
      && s.log <= t.log
      && var more := t.log[|s.log|..];
      if round >= maxCycles then
        t.status == Finished && more == [Interrupt, Yield(AgentFinish("policy_max_cycles_exhausted", s.usage))]
      else if env.timesOut(round) || !(Elements(ids) <= Unanswered(events, env)) then t.status == Running && more == []
      else
        && AnsweredFor(more, ids, events, round, env)
        && match env.post(round)
           case Accepted => t.status == Running && |more| == n + 1
           case BadRequest =>
             t.status == Finished && more[n + 1..] == [Interrupt, Yield(AgentFinish("bad_request", s.usage))]
           case OtherFailure => t.status == Crashed && |more| == n + 1
  {
    var s := Run(events, env, maxCycles);
    RunsExtend(events, Idle(RequiresAction(ids)), env, maxCycles);
    RunBuffers(events, env, maxCycles);
    RunBuffer(events, env, maxCycles);
    StillRunning(events, env, maxCycles);
    CoveredIff(s.buffer, ids);
    if s.cycles < maxCycles && !env.timesOut(s.cycles) && Covered(s.buffer, ids) {
      RoundAnswered(s, events, ids, env, maxCycles);
      AnswerMeans(s, events, ids, env);
    }
  }

  lemma AnswerMeans(s: V2, events: seq<SdkEvent>, ids: seq<string>, env: Env)
    requires BufferOk(s, events) && Covered(s.buffer, ids) && s.status == Running
    ensures var t, n := AnswerRound(s, ids, env), |SortedDistinct(ids)|;
      && s.log <= t.log
      && var more := t.log[|s.log|..];
      && AnsweredFor(more, ids, events, s.cycles, env)
      && match env.post(s.cycles)
         case Accepted => t.status == Running && |more| == n + 1
         case BadRequest =>
           t.status == Finished && more[n + 1..] == [Interrupt, Yield(AgentFinish("bad_request", s.usage))]
         case OtherFailure => t.status == Crashed && |more| == n + 1
  {
    var calls, round, sorted := Calls(s.buffer, ids), s.cycles, SortedDistinct(ids);
    var results, replies := Results(calls, round, env), Replies(calls, round, env);
    CallsAreRequested(s, events, ids);
    forall i | 0 <= i < |sorted|
      ensures LatestUse(events, sorted[i]).ToolUse?
      ensures Shows2(results[i], LatestUse(events, sorted[i]), round, i, env)
      ensures RepliesTo(replies[i], LatestUse(events, sorted[i]), round, i, env)
    {
      CallMeans(s, events, sorted[i], round, i, env);
    }
    SendLog(s.log, results, Post(ids, replies, env.post(round)), AgentFinish("bad_request", s.usage));
  }

  lemma CallMeans(s: V2, events: seq<SdkEvent>, id: string, round: nat, i: nat, env: Env)
    requires BufferOk(s, events) && id in s.buffer
    ensures var u, reply := LatestUse(events, id), CallReply(s.buffer[id], round, i, env);
      && u.ToolUse? && Shows2(CallResult(s.buffer[id], reply), u, round, i, env) && RepliesTo(reply, u, round, i, env)
  {
    assert EntryOk(s, events, id);
  }

  /** How results and a batch stand in the log. */
  lemma SendLog(log: seq<Act>, results: seq<AgentEvent>, post: Act, finish: AgentEvent)
    ensures var n, sent := |results|, log + Yields(results) + [post];
      var refused := sent + [Interrupt] + [Yield(finish)];
      && log <= sent && log <= refused
      && sent[|log|..] == Yields(results) + [post]
      && refused[|log|..] == Yields(results) + [post] + [Interrupt, Yield(finish)]
      && refused[|log|..][n + 1..] == [Interrupt, Yield(finish)]
  {
    var sent := log + Yields(results) + [post];
    assert sent + [Interrupt] + [Yield(finish)] == log + (Yields(results) + [post] + [Interrupt, Yield(finish)]);
  }

  // ---- The first backend ---------------------------------------------------------------------

  /** While a run goes on, its buffer holds the latest tool use of each id used and not cited since. */
  lemma {:induction false} RunBuffers1(events: seq<SdkEvent>, env: Env)
    requires Run1(events, env).status == Running
    ensures var s := Run1(events, env);
      && s.pending.Keys == Outstanding(events) && s.rounds == Rounds(events)
      && forall id | id in s.pending :: s.pending[id] == LatestUse(events, id) && s.pending[id].ToolUse?
  {
    if events != [] {
      var init, last := events[..|events| - 1], events[|events| - 1];
      RunBuffers1(init, env);
      var s := Run1(init, env);
      match last
      case Idle(RequiresAction(ids)) => RoundBuffers1(s, ids, env);
      case _ =>
    }
  }

  lemma RoundBuffers1(s: V1, ids: seq<string>, env: Env)
    requires Buffered(s.pending) && s.status == Running && OnRequiresAction1(s, ids, env).status == Running
    ensures var t := OnRequiresAction1(s, ids, env);
      && t.pending.Keys == s.pending.Keys - Elements(ids)
      && (forall id | id in t.pending :: t.pending[id] == s.pending[id])
  {
    var needed, listing := Missing(s.pending, ids), env.sessionLog(s.rounds);
    forall id
      ensures var p := Rehydrate(s.pending, needed, listing);
        && (id in p <==> id in s.pending || (id in needed && id != "" && EngineV1.Listed(listing, id)))
        && (id in s.pending ==> p[id] == s.pending[id])
    {
      RehydrateAdds(s.pending, needed, listing, id);
    }
  }

  /** The first tool use a session log lists with an id. */
  function FirstUse(listing: seq<SdkEvent>, id: string): SdkEvent {
    if listing == [] then Terminated
    else if listing[0].ToolUse? && listing[0].id == id then listing[0]
    else FirstUse(listing[1..], id)
  }

  lemma {:induction false} FirstUseListed(listing: seq<SdkEvent>, id: string)
    ensures FirstUse(listing, id).ToolUse? <==> EngineV1.Listed(listing, id)
    ensures EngineV1.Listed(listing, id) ==> FirstUse(listing, id).id == id
  {
    if listing != [] {
      FirstUseListed(listing[1..], id);
      assert EngineV1.Listed(listing, id)
        <==> (listing[0].ToolUse? && listing[0].id == id) || EngineV1.Listed(listing[1..], id) by {
        assert forall i | 1 <= i < |listing| :: listing[i] == listing[1..][i - 1];
        assert forall i | 0 <= i < |listing| - 1 :: listing[1..][i] == listing[i + 1];
      }
    }
  }

  /** Recovery takes the first tool use listed. */
  lemma {:induction false} RehydrateFirst(pending: map<string, SdkEvent>, needed: set<string>, listing: seq<SdkEvent>,
      id: string)
    requires id in needed && id !in pending && id != "" && EngineV1.Listed(listing, id)
    ensures var p := Rehydrate(pending, needed, listing); id in p && p[id] == FirstUse(listing, id)
    decreases listing
  {
    var ev := listing[0];
    FirstUseListed(listing, id);
    if ev.ToolUse? && ev.id == id {
      RehydrateAdds(pending[id := ev], needed - {id}, listing[1..], id);
    } else {
      FirstUseListed(listing[1..], id);
      if ev.ToolUse? && ev.id != "" && ev.id in needed {
        RehydrateFirst(pending[ev.id := ev], needed - {ev.id}, listing[1..], id);
      } else {
        RehydrateFirst(pending, needed, listing[1..], id);
      }
    }
  }

  /** The tool use behind a requested id: the one still outstanding, or the first the session log lists. */
  function UseBehind(events: seq<SdkEvent>, listing: seq<SdkEvent>, id: string): SdkEvent {
    if id in Outstanding(events) then LatestUse(events, id) else if id == "" then Terminated else FirstUse(listing, id)
  }

  /** What a round of the first backend adds when every id has a tool use behind it. */
  ghost predicate AnsweredFor1(more: seq<Act>, ids: seq<string>, events: seq<SdkEvent>, round: nat, env: Env) {
    var n := |ids|;
    && |more| >= n
    && (n > 0 ==> |more| > n && more[n].Post? && more[n].requested == ids && more[n].outcome == env.post(round)
                  && |more[n].replies| == n)
    && forall i | 0 <= i < n ::
         var u := UseBehind(events, env.sessionLog(round), ids[i]);
         && u.ToolUse? && more[i].Yield? && Shows1(more[i].event, u, round, i, env)
         && RepliesTo(more[n].replies[i], u, round, i, env)
  }

  /** Every round of every run: an id with nothing behind it interrupts and ends the run; otherwise each id is
      answered in the order cited, recovered ones by what the session log lists, and a batch that is not accepted
      ends the run. */
  lemma RoundMeans1(events: seq<SdkEvent>, ids: seq<string>, env: Env)
    requires Run1(events, env).status == Running
    ensures var s, t := Run1(events, env), Run1(events + [Idle(RequiresAction(ids))], env);
      var round, n := Rounds(events), |ids|;
      && s.log <= t.log
      && var more := t.log[|s.log|..];
      var failed := [Interrupt, Yield(AgentFinish("error", s.usage))];
      if exists i :: 0 <= i < n && !UseBehind(events, env.sessionLog(round), ids[i]).ToolUse?
      then t.status == Finished && more == failed
      else
        && AnsweredFor1(more, ids, events, round, env)
        && if ids != [] && env.post(round) != Accepted then t.status == Finished && more[n + 1..] == failed
           else t.status == Running && |more| == if ids == [] then 0 else n + 1
  {
    var s, round := Run1(events, env), Rounds(events);
    RunsExtend(events, Idle(RequiresAction(ids)), env, 0);
    RunBuffers1(events, env);
    var pending := Rehydrate(s.pending, Missing(s.pending, ids), env.sessionLog(round));
    RehydrateBuffered(s.pending, Missing(s.pending, ids), env.sessionLog(round));
    forall i | 0 <= i < |ids|
      ensures ids[i] in pending <==> UseBehind(events, env.sessionLog(round), ids[i]).ToolUse?
      ensures ids[i] in pending ==>
        pending[ids[i]] == UseBehind(events, env.sessionLog(round), ids[i]) && pending[ids[i]].id == ids[i]
    {
      BehindPending(s.pending, events, ids, env.sessionLog(round), i);
    }
    if Known(pending, ids) {
      AnswerMeans1(s.(pending := pending, rounds := round + 1), events, ids, round, env);
    } else {
      assert s.log + [Interrupt] + [Yield(AgentFinish("error", s.usage))]
          == s.log + [Interrupt, Yield(AgentFinish("error", s.usage))];
    }
  }

  /** A round all of whose ids are buffered. */
  lemma AnswerMeans1(s: V1, events: seq<SdkEvent>, ids: seq<string>, round: nat, env: Env)
    requires Buffered(s.pending) && Known(s.pending, ids) && s.status == Running
    requires forall i | 0 <= i < |ids| ::
      s.pending[ids[i]] == UseBehind(events, env.sessionLog(round), ids[i]) && s.pending[ids[i]].id == ids[i]
    ensures var results, replies := Results1(s.pending, ids, round, env), Replies1(s.pending, ids, round, env);
      var t, n := Send1(s.(log := s.log + Yields(results)), ids, replies, env.post(round)), |ids|;
      && s.log <= t.log
      && var more := t.log[|s.log|..];
      && AnsweredFor1(more, ids, events, round, env)
      && if ids != [] && env.post(round) != Accepted
         then t.status == Finished && more[n + 1..] == [Interrupt, Yield(AgentFinish("error", s.usage))]
         else t.status == Running && |more| == if ids == [] then 0 else n + 1
  {
    var results, replies := Results1(s.pending, ids, round, env), Replies1(s.pending, ids, round, env);
    forall i | 0 <= i < |ids|
      ensures Shows1(results[i], s.pending[ids[i]], round, i, env)
      ensures RepliesTo(replies[i], s.pending[ids[i]], round, i, env)
    {
    }
    SendLog(s.log, results, Post(ids, replies, env.post(round)), AgentFinish("error", s.usage));
  }

  lemma BehindPending(pending: map<string, SdkEvent>, events: seq<SdkEvent>, ids: seq<string>, listing: seq<SdkEvent>,
      i: nat)
    requires i < |ids| && pending.Keys == Outstanding(events)
    requires forall id | id in pending :: pending[id] == LatestUse(events, id) && pending[id].ToolUse?
    ensures var p, u := Rehydrate(pending, Missing(pending, ids), listing), UseBehind(events, listing, ids[i]);
      && (ids[i] in p <==> u.ToolUse?) && (ids[i] in p ==> p[ids[i]] == u && u.id == ids[i])
  {
    var id, needed := ids[i], Missing(pending, ids);
    RehydrateAdds(pending, needed, listing, id);
    FirstUseListed(listing, id);
    if id !in pending && id != "" && EngineV1.Listed(listing, id) { RehydrateFirst(pending, needed, listing, id); }
  }

  /** Every tool use as a call, with the input it came with. */
  function UsesWithInput(events: seq<SdkEvent>): seq<AgentEvent> {
    if events == [] then []
    else
      var last := events[|events| - 1];
      UsesWithInput(events[..|events| - 1])
      + if last.ToolUse? && last.id != "" then [AgentToolCall(last.id, last.name, last.input)] else []
  }

  lemma {:induction false} NoCallsAdded(log: seq<Act>, more: seq<Act>)
    requires forall i | 0 <= i < |more| :: more[i].Yield? ==> !more[i].event.AgentToolCall?
    ensures CallEvents(Yielded(log + more)) == CallEvents(Yielded(log))
  {
    if more == [] {
      assert log + more == log;
    } else {
      var init, last := more[..|more| - 1], more[|more| - 1];
      assert log + more == (log + init) + [last];
      NoCallsAdded(log, init);
      YieldedOne(log + init, last);
      var shown := if last.Yield? then [last.event] else [];
      NoCallEvents(shown);
      CallEventsAppend(Yielded(log + init), shown);
    }
  }

  lemma RoundCalls1(s: V1, ids: seq<string>, env: Env)
    requires Buffered(s.pending)
    ensures CallEvents(Yielded(OnRequiresAction1(s, ids, env).log)) == CallEvents(Yielded(s.log))
  {
    RehydrateBuffered(s.pending, Missing(s.pending, ids), env.sessionLog(s.rounds));
    var pending := Rehydrate(s.pending, Missing(s.pending, ids), env.sessionLog(s.rounds));
    if !Known(pending, ids) {
      FinishCalls1(s, "error");
    } else {
      var results := Results1(pending, ids, s.rounds, env);
      NoCallsAdded(s.log, Yields(results));
      SendCalls1(s.(pending := pending, rounds := s.rounds + 1, log := s.log + Yields(results)), ids,
                 Replies1(pending, ids, s.rounds, env), env.post(s.rounds));
    }
  }

  lemma SendCalls1(s: V1, ids: seq<string>, replies: seq<Reply>, outcome: PostOutcome)
    ensures CallEvents(Yielded(Send1(s, ids, replies, outcome).log)) == CallEvents(Yielded(s.log))
  {
    var post := Post(ids, replies, outcome);
    NoCallsAdded(s.log, [post]);
    FinishCalls1(s.(log := s.log + [post]), "error");
  }

  lemma FinishCalls1(s: V1, reason: string)
    ensures CallEvents(Yielded(Finish1(s.(log := s.log + [Interrupt]), reason).log)) == CallEvents(Yielded(s.log))
  {
    NoCallsAdded(s.log, [Interrupt]);
    NoCallsAdded(s.log + [Interrupt], [Yield(AgentFinish(reason, s.usage))]);
  }

  lemma OneUseWithInput(ev: SdkEvent)
    ensures UsesWithInput([ev]) == if ev.ToolUse? && ev.id != "" then [AgentToolCall(ev.id, ev.name, ev.input)] else []
  {
    assert [ev][..0] == [];
  }

  lemma StepCalls1(s: V1, ev: SdkEvent, env: Env)
    requires Buffered(s.pending)
    ensures CallEvents(Yielded(Step1(s, ev, env).log)) == CallEvents(Yielded(s.log)) + UsesWithInput([ev])
  {
    OneUseWithInput(ev);
    assert CallEvents(Yielded(s.log)) + [] == CallEvents(Yielded(s.log));
    match ev
    case Idle(RequiresAction(ids)) => RoundCalls1(s, ids, env);
    case Message(content) =>
      TextsAreTexts(content);
      NoCallsAdded(s.log, Yields(Texts(content)));
    case ToolUse(_, id, name, input) => YieldedOne(s.log, Yield(AgentToolCall(id, name, input)));
    case Idle(Stopped(kind)) => NoCallsAdded(s.log, [Yield(AgentFinish(FinishReason(kind), s.usage))]);
    case Terminated => NoCallsAdded(s.log, [Yield(AgentFinish("terminated", s.usage))]);
    case SessionError => NoCallsAdded(s.log, [Yield(AgentFinish("error", s.usage))]);
    case _ =>
  }

  /** The first backend as well shows the tool uses it consumed, each once and in order. */
  lemma {:induction false} CallsConserved1(events: seq<SdkEvent>, env: Env)
    requires events != [] ==> Run1(events[..|events| - 1], env).status == Running
    ensures CallEvents(Yielded(Run1(events, env).log)) == UsesWithInput(events)
  {
    if events != [] {
      var init, last := events[..|events| - 1], events[|events| - 1];
      WasRunning1(init, env);
      CallsConserved1(init, env);
      StepCalls1(Run1(init, env), last, env);
      OneUseWithInput(last);
    }
  }

  lemma WasRunning1(events: seq<SdkEvent>, env: Env)
    requires Run1(events, env).status == Running
    ensures events != [] ==> Run1(events[..|events| - 1], env).status == Running
  {
  }

  /** How a run of the first backend ends other than by a round: the event that ends it gives the reason. */
  lemma FinishMeans1(events: seq<SdkEvent>, ev: SdkEvent, env: Env)
    requires Run1(events, env).status == Running && Run1(events + [ev], env).status == Finished
    requires !(ev.Idle? && ev.stop.RequiresAction?)
    ensures (ev.Idle? && ev.stop.Stopped?) || ev.Terminated? || ev.SessionError?
    ensures var s := Run1(events, env);
      Run1(events + [ev], env).log == s.log + [Yield(AgentFinish(
        if ev.Terminated? then "terminated" else if ev.SessionError? then "error"
        else if ev.stop.kind == "" then "unknown" else ev.stop.kind, s.usage))]
  {
    RunsExtend(events, ev, env, 0);
  }
}
