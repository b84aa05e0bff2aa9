/** The main results about the stream-first backend: the cycle barrier, the shape of the event stream, and
    what its text and usage add up to. */
module EngineV2Theorems {
  import opened JsonValue
  import opened Ordering
  import opened AgentEvents
  import opened EngineCounts
  import opened EngineV2
  import opened EngineV2Properties

  // ---- The cycle barrier ---------------------------------------------------------------------

  ghost predicate PostedInRound(post: Act, events: seq<SdkEvent>) {
    post.Post? &&
    exists n :: 0 <= n < |events| && events[n] == Idle(RequiresAction(post.requested)) && AnswersRound(post, events[..n])
  }

  lemma PostedStays(post: Act, events: seq<SdkEvent>, ev: SdkEvent)
    requires PostedInRound(post, events)
    ensures PostedInRound(post, events + [ev])
  {
    var n :| 0 <= n < |events| && events[n] == Idle(RequiresAction(post.requested)) && AnswersRound(post, events[..n]);
    assert (events + [ev])[..n] == events[..n] && (events + [ev])[n] == events[n];
  }

  lemma BatchAnswersRound(s: V2, events: seq<SdkEvent>, ids: seq<string>, env: Env)
    requires BufferOk(s, events) && Covered(s.buffer, ids)
    ensures AnswersRound(Post(ids, Replies(Calls(s.buffer, ids), s.cycles, env), env.post(s.cycles)), events)
  {
    CallsAreRequested(s, events, ids);
    var calls := Calls(s.buffer, ids);
    var replies := Replies(calls, s.cycles, env);
    forall i | 0 <= i < |replies|
      ensures ReplyId(replies[i]) == SortedDistinct(ids)[i]
      ensures LatestUse(events, ReplyId(replies[i])).ToolUse?
      ensures replies[i].CustomToolResult? <==> LatestUse(events, ReplyId(replies[i])).envelope == CustomToolUse
    {
      assert replies[i] == CallReply(calls[i], s.cycles, i, env);
    }
  }

  /** The only batch one step can post is the one answering its round. */
  lemma NewPost(s: V2, t: V2, env: Env, change: Change, k: nat)
    requires StepShape(s, t, env, change)
    requires k < |t.log| && t.log[k].Post?
    ensures (k < |s.log| && t.log[k] == s.log[k])
      || (change.Answered?
          && t.log[k] == Post(change.ids, Replies(Calls(s.buffer, change.ids), s.cycles, env), env.post(s.cycles)))
  {
    if change.Answered? {
      var calls := Calls(s.buffer, change.ids);
      PostOfRound(s, change.ids, Results(calls, s.cycles, env), Replies(calls, s.cycles, env), env.post(s.cycles), k);
    }
  }

  lemma PostOfRound(s: V2, ids: seq<string>, results: seq<AgentEvent>, replies: seq<Reply>, outcome: PostOutcome, k: nat)
    requires var t := Send(s.(cycles := s.cycles + 1, log := s.log + Yields(results)), ids, replies, outcome);
      k < |t.log| && t.log[k].Post?
    ensures var t := Send(s.(cycles := s.cycles + 1, log := s.log + Yields(results)), ids, replies, outcome);
      (k < |s.log| && t.log[k] == s.log[k]) || t.log[k] == Post(ids, replies, outcome)
  {
  }

  /** Every batch of every run answers its round: exactly one reply for each requested id and for no other,
      in the envelope of the latest tool-use event with that id. */
  lemma {:induction false} EveryBatchAnswersItsRound(events: seq<SdkEvent>, env: Env, maxCycles: int, k: nat)
    requires k < |Run(events, env, maxCycles).log| && Run(events, env, maxCycles).log[k].Post?
    ensures PostedInRound(Run(events, env, maxCycles).log[k], events)
  {
    if events != [] {
      var init, last := events[..|events| - 1], events[|events| - 1];
      assert events == init + [last] && (init + [last])[..|init|] == init;
      var s := Run(init, env, maxCycles);
      if s.status == Running {
        RunBuffer(init, env, maxCycles);
        var change := ChangeOf(s, last, env, maxCycles);
        StepHasShape(s, last, init, env, maxCycles);
        NewPost(s, Step(s, last, env, maxCycles), env, change, k);
        if change.Answered? { BatchAnswersRound(s, init, change.ids, env); }
      }
      if k < |s.log| && Run(events, env, maxCycles).log[k] == s.log[k] {
        EveryBatchAnswersItsRound(init, env, maxCycles, k);
        PostedStays(s.log[k], init, last);
      } else {
        assert events[|init|] == last && events[..|init|] == init;
      }
    }
  }

  /** Accepted batches never outnumber the rounds, nor the rounds the policy's limit. */
  lemma {:induction false} BatchesWithinPolicy(events: seq<SdkEvent>, env: Env, maxCycles: int)
    ensures var s := Run(events, env, maxCycles);
      AcceptedPosts(s.log) <= s.cycles && (s.cycles == 0 || s.cycles <= maxCycles)
  {
    if events != [] {
      var init := events[..|events| - 1];
      BatchesWithinPolicy(init, env, maxCycles);
      RunBuffer(init, env, maxCycles);
      if Run(init, env, maxCycles).status == Running {
        StepBatches(Run(init, env, maxCycles), events[|events| - 1], init, env, maxCycles);
      }
    }
  }

  lemma StepBatches(s: V2, ev: SdkEvent, events: seq<SdkEvent>, env: Env, maxCycles: int)
    requires BufferOk(s, events) && AcceptedPosts(s.log) <= s.cycles && (s.cycles == 0 || s.cycles <= maxCycles)
    ensures var t := Step(s, ev, env, maxCycles);
      AcceptedPosts(t.log) <= t.cycles && (t.cycles == 0 || t.cycles <= maxCycles)
  {
    var change := ChangeOf(s, ev, env, maxCycles);
    StepHasShape(s, ev, events, env, maxCycles);
    StepAnswers(s, Step(s, ev, env, maxCycles), events, env, change, "");
  }

  /** Over every run, raising or not, an id is answered at most as often as a tool-use event with it arrived. */
  lemma AnswersWithinArrivals(events: seq<SdkEvent>, env: Env, maxCycles: int, id: string)
    ensures Answers(Run(events, env, maxCycles).log, id)
         <= Arrivals(events[..Consumed(events, env, maxCycles)], id)
  {
    var n := Consumed(events, env, maxCycles);
    RunConsumed(events, env, maxCycles);
    if Run(events, env, maxCycles).status != Crashed {
      assert n > 0 ==> events[..n][..n - 1] == events[..n - 1];
      RunCounts(events[..n], env, maxCycles, id);
    } else if n > 0 {
      assert events[..n] == events[..n - 1] + [events[n - 1]];
      CrashedAnswers(events[..n - 1], events[n - 1], env, maxCycles, id);
    }
  }

  lemma CrashedAnswers(init: seq<SdkEvent>, last: SdkEvent, env: Env, maxCycles: int, id: string)
    requires Run(init, env, maxCycles).status == Running && Run(init + [last], env, maxCycles).status == Crashed
    ensures Answers(Run(init + [last], env, maxCycles).log, id) <= Arrivals(init + [last], id)
  {
    assert (init + [last])[..|init|] == init;
    StillRunning(init, env, maxCycles);
    RunCounts(init, env, maxCycles, id);
    RunBuffer(init, env, maxCycles);
    CrashAnswersNothing(Run(init, env, maxCycles), last, init, env, maxCycles, id);
    ArrivalsExtend(init, last, id);
  }

  /** The step that raises answers nothing. */
  lemma CrashAnswersNothing(s: V2, ev: SdkEvent, events: seq<SdkEvent>, env: Env, maxCycles: int, id: string)
    requires BufferOk(s, events) && s.status == Running && Step(s, ev, env, maxCycles).status == Crashed
    ensures Answers(Step(s, ev, env, maxCycles).log, id) == Answers(s.log, id)
  {
    var change := ChangeOf(s, ev, env, maxCycles);
    StepHasShape(s, ev, events, env, maxCycles);
    StepAnswers(s, Step(s, ev, env, maxCycles), events, env, change, id);
  }

  /** In every reachable state a covered round yields nothing late, and no reply is refused as out of cycle. */
  lemma OutOfCycleUnreachable(events: seq<SdkEvent>, ids: seq<string>, env: Env, maxCycles: int)
    requires var s := Run(events, env, maxCycles); s.status == Running && Covered(s.buffer, ids)
    ensures var s := Run(events, env, maxCycles);
      var calls := Calls(s.buffer, ids);
      LateYield(s, calls) == s && InCycle(ids, Replies(calls, s.cycles, env))
  {
    var s := Run(events, env, maxCycles);
    RunBuffer(events, env, maxCycles);
    RoundIsClean(s, events, ids, env);
    LateYieldNothing(s, Calls(s.buffer, ids));
  }

  // ---- The shape of the stream ---------------------------------------------------------------

  ghost predicate NoFinish(evs: seq<AgentEvent>) {
    forall i | 0 <= i < |evs| :: !evs[i].AgentFinish?
  }

  lemma NewEventsFinish(s: V2, ev: SdkEvent, events: seq<SdkEvent>, env: Env, maxCycles: int)
    requires BufferOk(s, events) && s.status == Running
    ensures var t, more := Step(s, ev, env, maxCycles), NewEvents(s, env, ChangeOf(s, ev, env, maxCycles));
      if t.status == Finished then EndsInOneFinish(more) else NoFinish(more)
  {
    StepHasShape(s, ev, events, env, maxCycles);
    var change := ChangeOf(s, ev, env, maxCycles);
    match change
    case Said(_) => TextsAreTexts(ev.content);
    case Answered(ids) =>
      var calls := Calls(s.buffer, ids);
      var results := Results(calls, s.cycles, env);
      forall i | 0 <= i < |results| ensures !results[i].AgentFinish? {
        assert results[i] == CallResult(calls[i], CallReply(calls[i], s.cycles, i, env));
      }
    case _ =>
  }

  /** A finished run yielded one finish, last; any other run none, and none with the reason reserved for a
      reply out of cycle. */
  lemma {:induction false} RunShape(events: seq<SdkEvent>, env: Env, maxCycles: int)
    ensures var s := Run(events, env, maxCycles);
      && (if s.status == Finished then EndsInOneFinish(Yielded(s.log)) else NoFinish(Yielded(s.log)))
  {
    if events != [] {
      var init, last := events[..|events| - 1], events[|events| - 1];
      RunShape(init, env, maxCycles);
      var s := Run(init, env, maxCycles);
      if s.status == Running {
        RunBuffer(init, env, maxCycles);
        StepHasShape(s, last, init, env, maxCycles);
        StepYields(s, Step(s, last, env, maxCycles), env, ChangeOf(s, last, env, maxCycles));
        NewEventsFinish(s, last, init, env, maxCycles);
        FinishAppend(Yielded(s.log), NewEvents(s, env, ChangeOf(s, last, env, maxCycles)));
      }
    }
  }

  lemma FinishAppend(evs: seq<AgentEvent>, more: seq<AgentEvent>)
    requires NoFinish(evs)
    ensures EndsInOneFinish(more) ==> EndsInOneFinish(evs + more)
    ensures NoFinish(more) ==> NoFinish(evs + more)
  {
    if EndsInOneFinish(more) {
      var all := evs + more;
      assert all[|all| - 1] == more[|more| - 1];
      forall i | 0 <= i < |all| - 1 ensures !all[i].AgentFinish? {
        if i >= |evs| { assert all[i] == more[i - |evs|]; }
      }
    }
  }

  /** Every run that does not raise yields exactly one finish, and yields it last. */
  lemma ExactlyOneFinish(events: seq<SdkEvent>, env: Env, maxCycles: int)
    requires Complete(events, env, maxCycles).status != Crashed
    ensures EndsInOneFinish(Stream(events, env, maxCycles))
  {
    RunShape(events, env, maxCycles);
    var s := Run(events, env, maxCycles);
    if s.status == Running {
      YieldedOne(s.log, Yield(AgentFinish("end_turn", s.usage)));
      FinishAppend(Yielded(s.log), [AgentFinish("end_turn", s.usage)]);
    }
  }

  lemma FollowAppend(evs: seq<AgentEvent>, more: seq<AgentEvent>)
    requires ResultsFollowCalls(evs)
    requires forall j | 0 <= j < |more| && more[j].AgentToolResult? :: Shown(evs, more[j].callId, more[j].name)
    ensures ResultsFollowCalls(evs + more)
  {
    var all := evs + more;
    forall j | 0 <= j < |all| && all[j].AgentToolResult?
      ensures exists i :: 0 <= i < j && IsCallFor(all[i], all[j].callId) && all[i].name == all[j].name
    {
      var i: int;
      if j < |evs| {
        i :| 0 <= i < j && IsCallFor(evs[i], evs[j].callId) && evs[i].name == evs[j].name;
      } else {
        assert all[j] == more[j - |evs|];
        i :| 0 <= i < |evs| && IsCallFor(evs[i], all[j].callId) && evs[i].name == all[j].name;
      }
      assert all[i] == evs[i];
    }
  }

  lemma BalancedAppend(evs: seq<AgentEvent>, more: seq<AgentEvent>)
    requires Balanced(evs)
    requires forall id :: CallCount(more, id) == 0 || ResultCount(more, id) == 0
    requires forall id :: ResultCount(evs + more, id) <= CallCount(evs + more, id)
    ensures Balanced(evs + more)
  {
    var all := evs + more;
    forall n: nat, id | n <= |all| ensures ResultCount(all[..n], id) <= CallCount(all[..n], id) {
      if n <= |evs| {
        assert all[..n] == evs[..n];
      } else {
        var k := n - |evs|;
        assert all[..n] == evs + more[..k] && more == more[..k] + more[k..] && evs == evs[..|evs|];
        CountAppend(evs, more[..k], id);
        CountAppend(more[..k], more[k..], id);
        CountAppend(evs, more, id);
      }
    }
  }

  /** Every result of every run follows a call with its id and name, and no id ever has more results than
      calls. */
  lemma {:induction false} ResultsMatchCalls(events: seq<SdkEvent>, env: Env, maxCycles: int)
    ensures ResultsFollowCalls(Yielded(Run(events, env, maxCycles).log))
    ensures Balanced(Yielded(Run(events, env, maxCycles).log))
  {
    if events != [] {
      var init, last := events[..|events| - 1], events[|events| - 1];
      ResultsMatchCalls(init, env, maxCycles);
      var s := Run(init, env, maxCycles);
      if s.status == Running {
        assert events == init + [last];
        RunBuffer(init, env, maxCycles);
        StepMatches(s, last, init, env, maxCycles);
      }
    }
  }

  lemma StepMatches(s: V2, ev: SdkEvent, events: seq<SdkEvent>, env: Env, maxCycles: int)
    requires s == Run(events, env, maxCycles) && s.status == Running && BufferOk(s, events)
    requires ResultsFollowCalls(Yielded(s.log)) && Balanced(Yielded(s.log))
    ensures ResultsFollowCalls(Yielded(Step(s, ev, env, maxCycles).log))
    ensures Balanced(Yielded(Step(s, ev, env, maxCycles).log))
  {
    var change, t := ChangeOf(s, ev, env, maxCycles), Step(s, ev, env, maxCycles);
    var evs, more := Yielded(s.log), NewEvents(s, env, change);
    StepHasShape(s, ev, events, env, maxCycles);
    StepYields(s, t, env, change);
    forall id
      ensures CallCount(more, id) == 0 || ResultCount(more, id) == 0
      ensures ResultCount(evs + more, id) <= CallCount(evs + more, id)
    {
      NewCounts(s, ev, events, env, maxCycles, id);
      CountAppend(evs, more, id);
      StillRunning(events, env, maxCycles);
      RunCounts(events, env, maxCycles, id);
    }
    BalancedAppend(evs, more);
    forall j | 0 <= j < |more| && more[j].AgentToolResult? ensures Shown(evs, more[j].callId, more[j].name) {
      NewResultShown(s, ev, events, env, maxCycles, j);
    }
    FollowAppend(evs, more);
  }

  lemma NewResultShown(s: V2, ev: SdkEvent, events: seq<SdkEvent>, env: Env, maxCycles: int, j: nat)
    requires BufferOk(s, events)
    requires var change := ChangeOf(s, ev, env, maxCycles);
      && (change.Answered? ==> Covered(s.buffer, change.ids))
      && j < |NewEvents(s, env, change)| && NewEvents(s, env, change)[j].AgentToolResult?
    ensures var r := NewEvents(s, env, ChangeOf(s, ev, env, maxCycles))[j];
      Shown(Yielded(s.log), r.callId, r.name)
  {
    var change := ChangeOf(s, ev, env, maxCycles);
    match change
    case Said(_) => TextsAreTexts(ev.content);
    case Answered(ids) =>
      CallsAreRequested(s, events, ids);
      var calls := Calls(s.buffer, ids);
      assert NewEvents(s, env, change)[j] == CallResult(calls[j], CallReply(calls[j], s.cycles, j, env));
    case _ =>
  }

  // ---- Conservation --------------------------------------------------------------------------

  function BlocksText(content: seq<Block>): string {
    if content == [] then ""
    else
      BlocksText(content[..|content| - 1])
      + if content[|content| - 1].TextBlock? then content[|content| - 1].text else ""
  }

  /** The text of every message among the events. */
  function AllText(events: seq<SdkEvent>): string {
    if events == [] then ""
    else
      AllText(events[..|events| - 1])
      + if events[|events| - 1].Message? then BlocksText(events[|events| - 1].content) else ""
  }

  function DeltaText(evs: seq<AgentEvent>): string {
    if evs == [] then ""
    else DeltaText(evs[..|evs| - 1]) + if evs[|evs| - 1].AgentTextDelta? then evs[|evs| - 1].text else ""
  }

  lemma {:induction false} DeltaAppend(a: seq<AgentEvent>, b: seq<AgentEvent>)
    ensures DeltaText(a + b) == DeltaText(a) + DeltaText(b)
  {
    if b == [] {
      assert a + b == a;
    } else {
      assert (a + b)[..|a + b| - 1] == a + b[..|b| - 1];
      DeltaAppend(a, b[..|b| - 1]);
    }
  }

  lemma {:induction false} TextsText(content: seq<Block>)
    ensures DeltaText(Texts(content)) == BlocksText(content)
  {
    if content != [] {
      var init, last := content[..|content| - 1], content[|content| - 1];
      TextsText(init);
      if last.TextBlock? && last.text != "" {
        assert [AgentTextDelta(last.text)][..0] == [];
        assert DeltaText([AgentTextDelta(last.text)]) == "" + last.text == last.text;
        DeltaAppend(Texts(init), [AgentTextDelta(last.text)]);
      } else {
        assert Texts(init) + [] == Texts(init) && BlocksText(init) + "" == BlocksText(init);
      }
    }
  }

  lemma {:induction false} NoDeltas(evs: seq<AgentEvent>)
    requires forall i | 0 <= i < |evs| :: !evs[i].AgentTextDelta?
    ensures DeltaText(evs) == ""
  {
    if evs != [] { NoDeltas(evs[..|evs| - 1]); }
  }

  lemma NewText(s: V2, ev: SdkEvent, events: seq<SdkEvent>, env: Env, maxCycles: int)
    requires BufferOk(s, events)
    ensures var change := ChangeOf(s, ev, env, maxCycles);
      && (change.Answered? ==> Covered(s.buffer, change.ids))
      && DeltaText(NewEvents(s, env, change)) == if ev.Message? then BlocksText(ev.content) else ""
  {
    StepHasShape(s, ev, events, env, maxCycles);
    var change := ChangeOf(s, ev, env, maxCycles);
    match change
    case Said(_) => TextsText(ev.content);
    case Answered(ids) =>
      var calls := Calls(s.buffer, ids);
      var more := NewEvents(s, env, change);
      var results := Results(calls, s.cycles, env);
      forall i | 0 <= i < |more| ensures !more[i].AgentTextDelta? {
        if i < |results| { assert more[i] == CallResult(calls[i], CallReply(calls[i], s.cycles, i, env)); }
      }
      NoDeltas(more);
    case _ => NoDeltas(NewEvents(s, env, change));
  }

  /** No text is dropped, unresolved rounds included: the text yielded is the text of all messages the run
      consumed. */
  lemma {:induction false} TextConserved(events: seq<SdkEvent>, env: Env, maxCycles: int)
    requires WasRunning(events, env, maxCycles)
    ensures DeltaText(Yielded(Run(events, env, maxCycles).log)) == AllText(events)
  {
    if events != [] {
      var init, last := events[..|events| - 1], events[|events| - 1];
      var s := Run(init, env, maxCycles);
      StillRunning(init, env, maxCycles);
      TextConserved(init, env, maxCycles);
      RunBuffer(init, env, maxCycles);
      NewText(s, last, init, env, maxCycles);
      StepHasShape(s, last, init, env, maxCycles);
      StepYields(s, Step(s, last, env, maxCycles), env, ChangeOf(s, last, env, maxCycles));
      DeltaAppend(Yielded(s.log), NewEvents(s, env, ChangeOf(s, last, env, maxCycles)));
    }
  }

  /** The call a step shows. */
  ghost function CallsIn(change: Change): seq<AgentEvent> {
    if change.Arrived? then [AgentToolCall(change.call.eventId, change.call.name, ArgumentsOf(change.call))] else []
  }

  lemma ChangeCalls(s: V2, env: Env, change: Change)
    requires change.Answered? ==> Covered(s.buffer, change.ids)
    requires change.Said? ==> forall i | 0 <= i < |change.texts| :: !change.texts[i].AgentToolCall?
    requires change.Ended? ==> !change.finish.AgentToolCall?
    ensures CallEvents(NewEvents(s, env, change)) == CallsIn(change)
  {
    match change
    case Arrived(call) => OneCall(NewEvents(s, env, change)[0]);
    case Answered(ids) => AnswersNoCalls(s, ids, env);
    case _ => NoCallEvents(NewEvents(s, env, change));
  }

  lemma UseIsCall(s: V2, ev: SdkEvent, env: Env, maxCycles: int)
    ensures var change := ChangeOf(s, ev, env, maxCycles);
      && CallsIn(change) == UsesAsCalls([ev])
      && (change.Ended? ==> !change.finish.AgentToolCall?)
      && (change.Said? ==> forall i | 0 <= i < |change.texts| :: !change.texts[i].AgentToolCall?)
  {
    OneUse(ev);
    if ev.Message? { TextsAreTexts(ev.content); }
  }

  lemma StepCalls(s: V2, ev: SdkEvent, events: seq<SdkEvent>, env: Env, maxCycles: int)
    requires BufferOk(s, events)
    ensures CallEvents(Yielded(Step(s, ev, env, maxCycles).log)) == CallEvents(Yielded(s.log)) + UsesAsCalls([ev])
  {
    var change := ChangeOf(s, ev, env, maxCycles);
    StepHasShape(s, ev, events, env, maxCycles);
    StepYields(s, Step(s, ev, env, maxCycles), env, change);
    UseIsCall(s, ev, env, maxCycles);
    ChangeCalls(s, env, change);
    CallEventsAppend(Yielded(s.log), NewEvents(s, env, change));
  }

  lemma OneUse(ev: SdkEvent)
    ensures UsesAsCalls([ev])
         == if ev.ToolUse? && ev.id != ""
            then [AgentToolCall(ev.id, ev.name, if ev.envelope == CustomToolUse then ev.input else map[])] else []
  {
    assert [ev][..0] == [];
  }

  lemma OneCall(e: AgentEvent)
    requires e.AgentToolCall?
    ensures CallEvents([e]) == [e]
  {
    assert [e][..0] == [];
  }

  lemma AnswersNoCalls(s: V2, ids: seq<string>, env: Env)
    requires Covered(s.buffer, ids)
    ensures CallEvents(NewEvents(s, env, Answered(ids))) == []
  {
    var calls, more := Calls(s.buffer, ids), NewEvents(s, env, Answered(ids));
    var results := Results(calls, s.cycles, env);
    forall i | 0 <= i < |more| ensures !more[i].AgentToolCall? {
      if i < |results| { assert more[i] == CallResult(calls[i], CallReply(calls[i], s.cycles, i, env)); }
    }
    NoCallEvents(more);
  }

  /** Every run shows the tool uses it consumed, each once, in order, with the name it came with and, for a custom
      tool, its input. */
  lemma {:induction false} CallsConserved(events: seq<SdkEvent>, env: Env, maxCycles: int)
    requires WasRunning(events, env, maxCycles)
    ensures CallEvents(Yielded(Run(events, env, maxCycles).log)) == UsesAsCalls(events)
  {
    if events != [] {
      var init, last := events[..|events| - 1], events[|events| - 1];
      var s := Run(init, env, maxCycles);
      StillRunning(init, env, maxCycles);
      CallsConserved(init, env, maxCycles);
      RunBuffer(init, env, maxCycles);
      StepCalls(s, last, init, env, maxCycles);
      OneUse(last);
    }
  }

  function UsageSum(events: seq<SdkEvent>, key: UsageKey): int {
    if events == [] then 0
    else
      var last := events[|events| - 1];
      UsageSum(events[..|events| - 1], key)
      + if last.ModelRequestEnd? && key in last.modelUsage then last.modelUsage[key] else 0
  }

  ghost predicate UsageSeen(events: seq<SdkEvent>, key: UsageKey) {
    exists i :: 0 <= i < |events| && events[i].ModelRequestEnd? && key in events[i].modelUsage
  }

  /** Each reported usage key is the sum over the model requests the run consumed. */
  lemma {:induction false} UsageConserved(events: seq<SdkEvent>, env: Env, maxCycles: int, key: UsageKey)
    requires WasRunning(events, env, maxCycles)
    ensures var usage := Run(events, env, maxCycles).usage;
      && (key in usage <==> UsageSeen(events, key))
      && (key in usage ==> usage[key] == UsageSum(events, key))
      && (key !in usage ==> UsageSum(events, key) == 0)
  {
    if events != [] {
      var init, last := events[..|events| - 1], events[|events| - 1];
      StillRunning(init, env, maxCycles);
      UsageConserved(init, env, maxCycles, key);
      StepUsage(Run(init, env, maxCycles), last, env, maxCycles);
      SeenLast(events, key);
    }
  }

  lemma SeenLast(events: seq<SdkEvent>, key: UsageKey)
    requires events != []
    ensures var last := events[|events| - 1];
      UsageSeen(events, key)
      <==> UsageSeen(events[..|events| - 1], key) || (last.ModelRequestEnd? && key in last.modelUsage)
  {
    var init := events[..|events| - 1];
    assert forall i | 0 <= i < |init| :: events[i] == init[i];
  }

  lemma StepUsage(s: V2, ev: SdkEvent, env: Env, maxCycles: int)
    ensures Step(s, ev, env, maxCycles).usage == if ev.ModelRequestEnd? then AddUsage(s.usage, ev.modelUsage) else s.usage
  {
    match ev
    case Idle(RequiresAction(ids)) =>
      if s.cycles < maxCycles && !env.timesOut(s.cycles) && Covered(s.buffer, ids) {
        LateYieldUsage(s.(cycles := s.cycles + 1), Calls(s.buffer, ids));
      }
    case _ =>
  }

  lemma {:induction false} LateYieldUsage(s: V2, calls: seq<PendingToolCall>)
    ensures LateYield(s, calls).usage == s.usage
  {
    if calls != [] { LateYieldUsage(s, calls[..|calls| - 1]); }
  }

  // ---- Where a run stops ---------------------------------------------------------------------

  /** Events that end a run whatever came before. */
  predicate IsTerminal(ev: SdkEvent) {
    (ev.Idle? && ev.stop.Stopped?) || ev.Terminated? || ev.SessionError?
  }

  /** A run consumes no event past the first terminal one; if it stopped without raising, it stopped at a
      terminal event or at a round over the policy's limit, or with a batch refused. */
  lemma {:induction false} StopsAtTerminal(events: seq<SdkEvent>, env: Env, maxCycles: int)
    requires WasRunning(events, env, maxCycles) && events != []
    ensures forall i | 0 <= i < |events| - 1 :: !IsTerminal(events[i])
    ensures var s, last := Run(events[..|events| - 1], env, maxCycles), events[|events| - 1];
      Run(events, env, maxCycles).status == Finished <==>
        || IsTerminal(last)
        || (last.Idle? && last.stop.RequiresAction?
            && (s.cycles >= maxCycles
                || (!env.timesOut(s.cycles) && Covered(s.buffer, last.stop.eventIds) && env.post(s.cycles) == BadRequest)))
  {
    var init, last := events[..|events| - 1], events[|events| - 1];
    if init != [] {
      StillRunning(init, env, maxCycles);
      StopsAtTerminal(init, env, maxCycles);
      assert !IsTerminal(init[|init| - 1]);
    }
    RunBuffer(init, env, maxCycles);
    StepHasShape(Run(init, env, maxCycles), last, init, env, maxCycles);
  }
}
