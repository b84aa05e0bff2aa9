/** What every run of the stream-first backend keeps. */
module EngineV2Properties {
  import opened Common
  import opened JsonValue
  import opened Ordering
  import opened AgentEvents
  import opened EngineCounts
  import opened EngineV2

  // ---- The buffer ----------------------------------------------------------------------------

  /** Every buffered call is the latest tool use with its id, and was shown to the caller. */
  ghost predicate BufferOk(s: V2, events: seq<SdkEvent>) {
    forall id | id in s.buffer :: EntryOk(s, events, id)
  }

  ghost predicate EntryOk(s: V2, events: seq<SdkEvent>, id: string)
    requires id in s.buffer
  {
    && id != "" && id in s.yielded
    && (var u := LatestUse(events, id);
        u.ToolUse? && s.buffer[id] == BuildPendingToolCall(u.envelope, id, u.name, u.input))
    && Shown(Yielded(s.log), id, s.buffer[id].name)
  }

  ghost predicate Shown(evs: seq<AgentEvent>, id: string, name: string) {
    exists i :: 0 <= i < |evs| && IsCallFor(evs[i], id) && evs[i].name == name
  }

  lemma ShownStays(evs: seq<AgentEvent>, more: seq<AgentEvent>, id: string, name: string)
    requires Shown(evs, id, name)
    ensures Shown(evs + more, id, name)
  {
    var i :| 0 <= i < |evs| && IsCallFor(evs[i], id) && evs[i].name == name;
    assert (evs + more)[i] == evs[i];
  }

  /** The late-yield loop emits nothing. */
  lemma {:induction false} LateYieldNothing(s: V2, calls: seq<PendingToolCall>)
    requires forall i | 0 <= i < |calls| :: calls[i].eventId in s.yielded
    ensures LateYield(s, calls) == s
  {
    if calls != [] {
      LateYieldNothing(s, calls[..|calls| - 1]);
      assert calls[|calls| - 1].eventId in s.yielded;
    }
  }

  /** The calls of a covered round carry exactly the requested ids. */
  lemma CallsAreRequested(s: V2, events: seq<SdkEvent>, ids: seq<string>)
    requires BufferOk(s, events) && Covered(s.buffer, ids)
    ensures var calls := Calls(s.buffer, ids);
      && |calls| == |SortedDistinct(ids)|
      && forall i | 0 <= i < |calls| ::
           && calls[i].eventId == SortedDistinct(ids)[i] && SortedDistinct(ids)[i] in ids
           && SortedDistinct(ids)[i] in s.buffer && calls[i] == s.buffer[SortedDistinct(ids)[i]]
  {
    SortedDistinctIsSorted(ids);
    var sorted := SortedDistinct(ids);
    forall i | 0 <= i < |sorted| ensures sorted[i] in ids { assert sorted[i] in Elements(sorted); }
  }

  /** A covered round: results are yielded and the batch goes out. Nothing is yielded late, and no reply is
      out of cycle. */
  function AnswerRound(s: V2, ids: seq<string>, env: Env): V2
    requires Covered(s.buffer, ids)
  {
    var calls := Calls(s.buffer, ids);
    Send(s.(cycles := s.cycles + 1, log := s.log + Yields(Results(calls, s.cycles, env))),
         ids, Replies(calls, s.cycles, env), env.post(s.cycles))
  }

  lemma RoundAnswered(s: V2, events: seq<SdkEvent>, ids: seq<string>, env: Env, maxCycles: int)
    requires BufferOk(s, events) && Covered(s.buffer, ids)
    requires s.cycles < maxCycles && !env.timesOut(s.cycles)
    ensures OnRequiresAction(s, ids, env, maxCycles) == AnswerRound(s, ids, env)
  {
    RoundIsClean(s, events, ids, env);
    LateYieldNothing(s.(cycles := s.cycles + 1), Calls(s.buffer, ids));
  }

  lemma RoundIsClean(s: V2, events: seq<SdkEvent>, ids: seq<string>, env: Env)
    requires BufferOk(s, events) && Covered(s.buffer, ids)
    ensures var calls := Calls(s.buffer, ids);
      && (forall i | 0 <= i < |calls| :: calls[i].eventId in s.yielded)
      && InCycle(ids, Replies(calls, s.cycles, env))
  {
    var calls := Calls(s.buffer, ids);
    CallsAreRequested(s, events, ids);
    var replies := Replies(calls, s.cycles, env);
    forall i | 0 <= i < |replies| ensures ReplyId(replies[i]) in ids {
      assert ReplyId(replies[i]) == calls[i].eventId;
    }
  }

  /** What one step adds to the log, in one of six shapes. */
  datatype Change =
    | Quiet
    | Said(texts: seq<AgentEvent>)
    | Arrived(call: PendingToolCall)
    | Ended(interrupted: bool, finish: AgentEvent)
    | Answered(ids: seq<string>)
    | Broke

  ghost function ChangeOf(s: V2, ev: SdkEvent, env: Env, maxCycles: int): Change {
    match ev
    case Message(content) => Said(Texts(content))
    case ToolUse(envelope, id, name, input) =>
      if id == "" then Broke else Arrived(BuildPendingToolCall(envelope, id, name, input))
    case Idle(RequiresAction(ids)) =>
      if s.cycles >= maxCycles then Ended(true, AgentFinish("policy_max_cycles_exhausted", s.usage))
      else if env.timesOut(s.cycles) || !Covered(s.buffer, ids) then Quiet
      else Answered(ids)
    case Idle(Stopped(kind)) => Ended(false, AgentFinish(FinishReason(kind), s.usage))
    case Terminated => Ended(false, AgentFinish("terminated", s.usage))
    case SessionError => Ended(false, AgentFinish("error", s.usage))
    case ModelRequestEnd(_) => Quiet
    case Other(_) => Quiet
  }

  ghost predicate StepShape(s: V2, t: V2, env: Env, change: Change) {
    match change
    case Quiet => t.log == s.log && t.buffer == s.buffer && t.yielded == s.yielded && t.status == s.status
                  && s.cycles <= t.cycles
    case Said(texts) => t == s.(log := s.log + Yields(texts))
    case Arrived(call) =>
      t == s.(buffer := s.buffer[call.eventId := call],
              log := s.log + [Yield(AgentToolCall(call.eventId, call.name, ArgumentsOf(call)))],
              yielded := s.yielded + {call.eventId})
    case Ended(interrupted, finish) =>
      t == s.(status := Finished, log := s.log + (if interrupted then [Interrupt] else []) + [Yield(finish)])
    case Answered(ids) => Covered(s.buffer, ids) && t == AnswerRound(s, ids, env)
    case Broke => t == s.(status := Crashed)
  }

  lemma StepHasShape(s: V2, ev: SdkEvent, events: seq<SdkEvent>, env: Env, maxCycles: int)
    requires BufferOk(s, events)
    ensures StepShape(s, Step(s, ev, env, maxCycles), env, ChangeOf(s, ev, env, maxCycles))
    ensures ChangeOf(s, ev, env, maxCycles).Answered? ==> s.cycles < maxCycles
  {
    match ev
    case Idle(RequiresAction(ids)) =>
      if s.cycles < maxCycles && !env.timesOut(s.cycles) && Covered(s.buffer, ids) {
        RoundAnswered(s, events, ids, env, maxCycles);
      }
    case _ =>
  }

  /** The events one step yields. */
  ghost function NewEvents(s: V2, env: Env, change: Change): seq<AgentEvent>
    requires change.Answered? ==> Covered(s.buffer, change.ids)
  {
    match change
    case Said(texts) => texts
    case Arrived(call) => [AgentToolCall(call.eventId, call.name, ArgumentsOf(call))]
    case Ended(_, finish) => [finish]
    case Answered(ids) =>
      var results := Results(Calls(s.buffer, ids), s.cycles, env);
      if env.post(s.cycles) == BadRequest then results + [AgentFinish("bad_request", s.usage)] else results
    case _ => []
  }

  lemma YieldedOne(log: seq<Act>, a: Act)
    ensures Yielded(log + [a]) == Yielded(log) + if a.Yield? then [a.event] else []
  {
    assert (log + [a])[..|log|] == log;
  }

  lemma StepYields(s: V2, t: V2, env: Env, change: Change)
    requires StepShape(s, t, env, change)
    ensures Yielded(t.log) == Yielded(s.log) + NewEvents(s, env, change)
  {
    match change
    case Said(texts) =>
      YieldedAppend(s.log, Yields(texts));
      YieldedYields(texts);
    case Arrived(call) =>
      YieldedOne(s.log, Yield(AgentToolCall(call.eventId, call.name, ArgumentsOf(call))));
    case Ended(interrupted, finish) =>
      YieldedOne(s.log, Interrupt);
      assert s.log + [] == s.log;
      YieldedOne(s.log + (if interrupted then [Interrupt] else []), Yield(finish));
    case Answered(ids) => AnswerYields(s, ids, env);
    case _ =>
  }

  lemma AnswerYields(s: V2, ids: seq<string>, env: Env)
    requires Covered(s.buffer, ids)
    ensures Yielded(AnswerRound(s, ids, env).log) == Yielded(s.log) + NewEvents(s, env, Answered(ids))
  {
    var calls := Calls(s.buffer, ids);
    ResultsThenSend(s, ids, Results(calls, s.cycles, env), Replies(calls, s.cycles, env), env.post(s.cycles));
  }

  lemma ResultsThenSend(s: V2, ids: seq<string>, results: seq<AgentEvent>, replies: seq<Reply>, outcome: PostOutcome)
    ensures var t := Send(s.(cycles := s.cycles + 1, log := s.log + Yields(results)), ids, replies, outcome);
      Yielded(t.log)
      == Yielded(s.log) + if outcome == BadRequest then results + [AgentFinish("bad_request", s.usage)] else results
  {
    YieldedAppend(s.log, Yields(results));
    YieldedYields(results);
    SendYields(s.(cycles := s.cycles + 1, log := s.log + Yields(results)), ids, replies, outcome);
    Associative(Yielded(s.log), results, [AgentFinish("bad_request", s.usage)]);
  }

  lemma SendYields(s: V2, ids: seq<string>, replies: seq<Reply>, outcome: PostOutcome)
    ensures Yielded(Send(s, ids, replies, outcome).log)
         == Yielded(s.log) + if outcome == BadRequest then [AgentFinish("bad_request", s.usage)] else []
  {
    var b := s.log + [Post(ids, replies, outcome)];
    YieldedOne(s.log, Post(ids, replies, outcome));
    YieldedOne(b, Interrupt);
    YieldedOne(b + [Interrupt], Yield(AgentFinish("bad_request", s.usage)));
  }

  lemma BufferStays(s: V2, ev: SdkEvent, events: seq<SdkEvent>, env: Env, maxCycles: int)
    requires BufferOk(s, events)
    ensures BufferOk(Step(s, ev, env, maxCycles), events + [ev])
  {
    var change, t := ChangeOf(s, ev, env, maxCycles), Step(s, ev, env, maxCycles);
    StepHasShape(s, ev, events, env, maxCycles);
    StepYields(s, t, env, change);
    forall id | id in t.buffer ensures EntryOk(t, events + [ev], id) {
      BufferEntry(s, ev, events, env, maxCycles, id);
      if ev.ToolUse? && ev.id == id {
        NewEntry(s, t, events, ev);
      } else {
        OldEntry(s, t, events, ev, NewEvents(s, env, change), id);
      }
    }
  }

  lemma NewEntry(s: V2, t: V2, events: seq<SdkEvent>, ev: SdkEvent)
    requires ev.ToolUse? && ev.id != "" && ev.id in t.buffer && ev.id in t.yielded
    requires t.buffer[ev.id] == BuildPendingToolCall(ev.envelope, ev.id, ev.name, ev.input)
    requires Yielded(t.log) == Yielded(s.log) + [AgentToolCall(ev.id, ev.name, ArgumentsOf(t.buffer[ev.id]))]
    ensures EntryOk(t, events + [ev], ev.id)
  {
    assert (events + [ev])[..|events|] == events;
    assert IsCallFor(Yielded(t.log)[|Yielded(s.log)|], ev.id);
  }

  lemma OldEntry(s: V2, t: V2, events: seq<SdkEvent>, ev: SdkEvent, more: seq<AgentEvent>, id: string)
    requires id in s.buffer && EntryOk(s, events, id) && !(ev.ToolUse? && ev.id == id)
    requires id in t.buffer && id in t.yielded && t.buffer[id] == s.buffer[id]
    requires Yielded(t.log) == Yielded(s.log) + more
    ensures EntryOk(t, events + [ev], id)
  {
    assert (events + [ev])[..|events|] == events;
    ShownStays(Yielded(s.log), more, id, s.buffer[id].name);
  }

  /** Where an entry of the buffer comes from: the event just seen, or the buffer before it. */
  lemma BufferEntry(s: V2, ev: SdkEvent, events: seq<SdkEvent>, env: Env, maxCycles: int, id: string)
    requires BufferOk(s, events) && id in Step(s, ev, env, maxCycles).buffer
    ensures var t := Step(s, ev, env, maxCycles);
      if ev.ToolUse? && ev.id == id then
        id != "" && t.buffer[id] == BuildPendingToolCall(ev.envelope, id, ev.name, ev.input) && id in t.yielded
      else id in s.buffer && t.buffer[id] == s.buffer[id] && id in t.yielded
  {
    StepHasShape(s, ev, events, env, maxCycles);
  }

  lemma {:induction false} RunBuffer(events: seq<SdkEvent>, env: Env, maxCycles: int)
    ensures Run(events, env, maxCycles).status == Running ==> BufferOk(Run(events, env, maxCycles), events)
    ensures events != [] && Run(events[..|events| - 1], env, maxCycles).status == Running
      ==> BufferOk(Run(events, env, maxCycles), events)
  {
    if events != [] {
      var init := events[..|events| - 1];
      RunBuffer(init, env, maxCycles);
      assert events == init + [events[|events| - 1]];
      var s := Run(init, env, maxCycles);
      if s.status == Running { BufferStays(s, events[|events| - 1], init, env, maxCycles); }
    }
  }

  // ---- Counting ------------------------------------------------------------------------------

  predicate Calling(calls: seq<PendingToolCall>, id: string) {
    exists i :: 0 <= i < |calls| && calls[i].eventId == id
  }

  /** Calls with pairwise different ids give each id at most one result and one reply. */
  lemma {:induction false} OneEach(calls: seq<PendingToolCall>, round: nat, env: Env, id: string)
    requires forall i, j | 0 <= i < j < |calls| :: calls[i].eventId != calls[j].eventId
    ensures var n := if Calling(calls, id) then 1 else 0;
      && ResultCount(Results(calls, round, env), id) == n
      && ReplyCount(Replies(calls, round, env), id) == n
    ensures CallCount(Results(calls, round, env), id) == 0
  {
    if calls != [] {
      var k := |calls| - 1;
      OneEach(calls[..k], round, env, id);
      LastCounts(calls, round, env, id);
      LastCalling(calls, id);
    }
  }

  lemma LastCalling(calls: seq<PendingToolCall>, id: string)
    requires calls != []
    requires forall i, j | 0 <= i < j < |calls| :: calls[i].eventId != calls[j].eventId
    ensures var k := |calls| - 1;
      && (Calling(calls, id) <==> calls[k].eventId == id || Calling(calls[..k], id))
      && !(calls[k].eventId == id && Calling(calls[..k], id))
  {
    var k := |calls| - 1;
    if Calling(calls[..k], id) {
      var i :| 0 <= i < k && calls[..k][i].eventId == id;
      assert calls[i].eventId == id;
    }
    if Calling(calls, id) && calls[k].eventId != id {
      var i :| 0 <= i < |calls| && calls[i].eventId == id;
      assert calls[..k][i].eventId == id;
    }
  }

  lemma LastCounts(calls: seq<PendingToolCall>, round: nat, env: Env, id: string)
    requires calls != []
    ensures var k := |calls| - 1;
      var init, one := calls[..k], if calls[k].eventId == id then 1 else 0;
      && ResultCount(Results(calls, round, env), id) == ResultCount(Results(init, round, env), id) + one
      && ReplyCount(Replies(calls, round, env), id) == ReplyCount(Replies(init, round, env), id) + one
      && CallCount(Results(calls, round, env), id) == CallCount(Results(init, round, env), id)
  {
    var k := |calls| - 1;
    var results, replies := Results(calls, round, env), Replies(calls, round, env);
    assert results[..k] == Results(calls[..k], round, env);
    assert replies[..k] == Replies(calls[..k], round, env);
    assert results[k] == CallResult(calls[k], CallReply(calls[k], round, k, env));
    assert replies[k] == CallReply(calls[k], round, k, env);
  }

  /** In a covered round every requested id, and no other, gets one result and one reply. */
  lemma RoundCounts(s: V2, events: seq<SdkEvent>, ids: seq<string>, env: Env, id: string)
    requires BufferOk(s, events) && Covered(s.buffer, ids)
    ensures var calls, n := Calls(s.buffer, ids), if id in ids then 1 else 0;
      && ResultCount(Results(calls, s.cycles, env), id) == n
      && ReplyCount(Replies(calls, s.cycles, env), id) == n
      && CallCount(Results(calls, s.cycles, env), id) == 0
  {
    var calls := Calls(s.buffer, ids);
    var sorted := SortedDistinct(ids);
    CallsAreRequested(s, events, ids);
    SortedDistinctIsSorted(ids);
    forall i, j | 0 <= i < j < |calls| ensures calls[i].eventId != calls[j].eventId {
      LexTotal(sorted[i], sorted[j]);
    }
    OneEach(calls, s.cycles, env, id);
    if id in ids {
      assert id in Elements(sorted);
      var i :| 0 <= i < |sorted| && sorted[i] == id;
      assert calls[i].eventId == id;
    }
  }

  /** Per id: calls are arrivals, results stay behind calls, answers stay behind results. */
  ghost predicate CountsOk(s: V2, events: seq<SdkEvent>, id: string) {
    var evs := Yielded(s.log);
    && CallCount(evs, id) == Arrivals(events, id)
    && ResultCount(evs, id) + (if s.status == Running && id in s.buffer then 1 else 0) <= CallCount(evs, id)
    && Answers(s.log, id) <= ResultCount(evs, id)
  }

  lemma StepCounts(s: V2, ev: SdkEvent, events: seq<SdkEvent>, env: Env, maxCycles: int, id: string)
    requires BufferOk(s, events) && s.status == Running && CountsOk(s, events, id)
    requires ev.ToolUse? ==> ev.id != ""
    ensures CountsOk(Step(s, ev, env, maxCycles), events + [ev], id)
  {
    var change, t := ChangeOf(s, ev, env, maxCycles), Step(s, ev, env, maxCycles);
    StepHasShape(s, ev, events, env, maxCycles);
    StepYields(s, t, env, change);
    CountAppend(Yielded(s.log), NewEvents(s, env, change), id);
    NewCounts(s, ev, events, env, maxCycles, id);
    StepAnswers(s, t, events, env, change, id);
    ArrivalsExtend(events, ev, id);
    WaitingAfter(s, ev, env, maxCycles, id);
  }

  lemma ArrivalsExtend(events: seq<SdkEvent>, ev: SdkEvent, id: string)
    ensures Arrivals(events + [ev], id) == Arrivals(events, id) + if ev.ToolUse? && ev.id == id then 1 else 0
  {
    assert (events + [ev])[..|events|] == events;
  }

  /** Which ids wait for an answer after a step. */
  lemma WaitingAfter(s: V2, ev: SdkEvent, env: Env, maxCycles: int, id: string)
    requires s.status == Running && StepShape(s, Step(s, ev, env, maxCycles), env, ChangeOf(s, ev, env, maxCycles))
    ensures var change, t := ChangeOf(s, ev, env, maxCycles), Step(s, ev, env, maxCycles);
      && (change.Arrived? <==> ev.ToolUse? && ev.id != "") && (change.Arrived? ==> change.call.eventId == ev.id)
      && (t.status == Running && id in t.buffer ==>
            if change.Arrived? && ev.id == id then true
            else id in s.buffer && !(change.Answered? && id in change.ids))
      && (change.Answered? && id in change.ids ==> id in s.buffer)
  {
    var change := ChangeOf(s, ev, env, maxCycles);
    if change.Answered? && id in change.ids {
      var i :| 0 <= i < |change.ids| && change.ids[i] == id;
      assert change.ids[i] in s.buffer;
    }
  }

  /** What one step adds to the counts. */
  lemma NewCounts(s: V2, ev: SdkEvent, events: seq<SdkEvent>, env: Env, maxCycles: int, id: string)
    requires BufferOk(s, events)
    requires var change := ChangeOf(s, ev, env, maxCycles); change.Answered? ==> Covered(s.buffer, change.ids)
    ensures var change := ChangeOf(s, ev, env, maxCycles);
      && CallCount(NewEvents(s, env, change), id) == (if change.Arrived? && change.call.eventId == id then 1 else 0)
      && ResultCount(NewEvents(s, env, change), id) == (if change.Answered? && id in change.ids then 1 else 0)
  {
    var change := ChangeOf(s, ev, env, maxCycles);
    var more := NewEvents(s, env, change);
    match change
    case Answered(ids) => AnsweredCounts(s, events, ids, env, AgentFinish("bad_request", s.usage), id);
    case Said(texts) =>
      TextsAreTexts(ev.content);
      NoCallsNoResults(more, id);
    case Arrived(call) => assert more[..0] == [];
    case _ => NoCallsNoResults(more, id);
  }

  lemma AnsweredCounts(s: V2, events: seq<SdkEvent>, ids: seq<string>, env: Env, finish: AgentEvent, id: string)
    requires BufferOk(s, events) && Covered(s.buffer, ids) && finish.AgentFinish?
    ensures var results := Results(Calls(s.buffer, ids), s.cycles, env);
      && CallCount(results, id) == 0 == CallCount(results + [finish], id)
      && ResultCount(results, id) == (if id in ids then 1 else 0) == ResultCount(results + [finish], id)
  {
    RoundCounts(s, events, ids, env, id);
    CountAppend(Results(Calls(s.buffer, ids), s.cycles, env), [finish], id);
    NoCallsNoResults([finish], id);
  }

  lemma {:induction false} TextsAreTexts(content: seq<Block>)
    ensures forall i | 0 <= i < |Texts(content)| :: Texts(content)[i].AgentTextDelta?
  {
    if content != [] { TextsAreTexts(content[..|content| - 1]); }
  }

  /** What one step adds to the answers: one per requested id when the batch was accepted. */
  lemma StepAnswers(s: V2, t: V2, events: seq<SdkEvent>, env: Env, change: Change, id: string)
    requires BufferOk(s, events) && StepShape(s, t, env, change)
    ensures Answers(t.log, id)
         == Answers(s.log, id) + if change.Answered? && id in change.ids && env.post(s.cycles) == Accepted then 1 else 0
    ensures AcceptedPosts(t.log)
         == AcceptedPosts(s.log) + if change.Answered? && env.post(s.cycles) == Accepted then 1 else 0
  {
    match change
    case Said(texts) =>
      AnswersAppend(s.log, Yields(texts), id);
      NoAnswersInYields(texts, id);
    case Arrived(call) => AnswersOne(s.log, t.log[|s.log|], id);
    case Ended(interrupted, finish) =>
      AnswersOne(s.log, Interrupt, id);
      assert s.log + [] == s.log;
      AnswersOne(s.log + (if interrupted then [Interrupt] else []), Yield(finish), id);
    case Answered(ids) =>
      var calls := Calls(s.buffer, ids);
      RoundCounts(s, events, ids, env, id);
      SendAnswers(s, ids, Results(calls, s.cycles, env), Replies(calls, s.cycles, env), env.post(s.cycles), id);
    case _ =>
  }

  lemma AnswersOne(log: seq<Act>, a: Act, id: string)
    ensures var accepted := a.Post? && a.outcome == Accepted;
      && Answers(log + [a], id) == Answers(log, id) + (if accepted then ReplyCount(a.replies, id) else 0)
      && AcceptedPosts(log + [a]) == AcceptedPosts(log) + if accepted then 1 else 0
  {
    assert (log + [a])[..|log|] == log;
  }

  lemma SendAnswers(s: V2, ids: seq<string>, results: seq<AgentEvent>, replies: seq<Reply>, outcome: PostOutcome, id: string)
    ensures var t := Send(s.(cycles := s.cycles + 1, log := s.log + Yields(results)), ids, replies, outcome);
      && Answers(t.log, id) == Answers(s.log, id) + (if outcome == Accepted then ReplyCount(replies, id) else 0)
      && AcceptedPosts(t.log) == AcceptedPosts(s.log) + if outcome == Accepted then 1 else 0
  {
    var a := s.log + Yields(results);
    AnswersAppend(s.log, Yields(results), id);
    NoAnswersInYields(results, id);
    AnswersOne(a, Post(ids, replies, outcome), id);
    var b := a + [Post(ids, replies, outcome)];
    AnswersOne(b, Interrupt, id);
    AnswersOne(b + [Interrupt], Yield(AgentFinish("bad_request", s.usage)), id);
  }

  /** The events a run consumes: all up to and including the first that stops it. */
  function Consumed(events: seq<SdkEvent>, env: Env, maxCycles: int): (n: nat)
    ensures n <= |events|
  {
    if events == [] then 0
    else if Run(events[..|events| - 1], env, maxCycles).status != Running
    then Consumed(events[..|events| - 1], env, maxCycles)
    else |events|
  }

  /** A run is the run over what it consumes, and it was running until the last of that. */
  lemma {:induction false} RunConsumed(events: seq<SdkEvent>, env: Env, maxCycles: int)
    ensures var n := Consumed(events, env, maxCycles);
      && Run(events, env, maxCycles) == Run(events[..n], env, maxCycles)
      && (n > 0 ==> Run(events[..n - 1], env, maxCycles).status == Running)
  {
    if events != [] {
      var init := events[..|events| - 1];
      if Run(init, env, maxCycles).status != Running {
        RunConsumed(init, env, maxCycles);
        var n := Consumed(init, env, maxCycles);
        assert init[..n] == events[..n];
        assert n > 0 ==> init[..n - 1] == events[..n - 1];
      } else {
        assert events[..|events|] == events;
      }
    }
  }

  ghost predicate WasRunning(events: seq<SdkEvent>, env: Env, maxCycles: int) {
    events != [] ==> Run(events[..|events| - 1], env, maxCycles).status == Running
  }

  lemma {:induction false} RunCounts(events: seq<SdkEvent>, env: Env, maxCycles: int, id: string)
    requires WasRunning(events, env, maxCycles) && Run(events, env, maxCycles).status != Crashed
    ensures CountsOk(Run(events, env, maxCycles), events, id)
  {
    if events != [] {
      var init, last := events[..|events| - 1], events[|events| - 1];
      assert events == init + [last];
      StillRunning(init, env, maxCycles);
      RunCounts(init, env, maxCycles, id);
      RunBuffer(init, env, maxCycles);
      StepCounts(Run(init, env, maxCycles), last, init, env, maxCycles, id);
    }
  }

  lemma {:induction false} StillRunning(events: seq<SdkEvent>, env: Env, maxCycles: int)
    requires Run(events, env, maxCycles).status == Running
    ensures WasRunning(events, env, maxCycles)
  {
  }
}
