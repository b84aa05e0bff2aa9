/** Where the two backends agree, and where they part. */
module EngineAgreement {
  import opened JsonValue
  import opened Ordering
  import opened AgentEvents
  import opened EngineV2
  import opened EngineV2Properties
  import opened EngineV1

  // ---- Traces both backends handle alike -----------------------------------------------------

  /** The ids of tool uses not yet cited by a later round. */
  function Outstanding(events: seq<SdkEvent>): set<string> {
    if events == [] then {}
    else
      var before, last := Outstanding(events[..|events| - 1]), events[|events| - 1];
      match last
      case ToolUse(_, id, _, _) => before + {id}
      case Idle(RequiresAction(ids)) => before - Elements(ids)
      case _ => before
  }

  function Rounds(events: seq<SdkEvent>): nat {
    if events == [] then 0
    else
      Rounds(events[..|events| - 1])
      + if events[|events| - 1].Idle? && events[|events| - 1].stop.RequiresAction? then 1 else 0
  }

  /** A tool use has an id, and only a custom one carries input; a round cites outstanding ids, in strictly
      ascending order. */
  ghost predicate Orderly(events: seq<SdkEvent>) {
    forall i | 0 <= i < |events| :: OrderlyNext(events[..i], events[i])
  }

  ghost predicate OrderlyNext(before: seq<SdkEvent>, ev: SdkEvent) {
    && (ev.ToolUse? ==> ev.id != "" && (ev.envelope != CustomToolUse ==> ev.input == map[]))
    && (ev.Idle? && ev.stop.RequiresAction? ==>
          Ascending(ev.stop.eventIds) && Elements(ev.stop.eventIds) <= Outstanding(before))
  }

  /** No round times out, every batch is accepted, every result serialises. */
  ghost predicate Smooth(env: Env, rounds: nat) {
    forall r: nat | r < rounds :: SmoothRound(env, r)
  }

  ghost predicate SmoothRound(env: Env, r: nat) {
    !env.timesOut(r) && env.post(r) == Accepted && forall i: nat :: env.serializable(r, i)
  }

  /** A log without posts of empty batches: one backend sends them, the other does not. */
  function Sent(log: seq<Act>): seq<Act> {
    if log == [] then []
    else
      var last := log[|log| - 1];
      Sent(log[..|log| - 1]) + if last.Post? && last.replies == [] then [] else [last]
  }

  lemma {:induction false} SentAppend(a: seq<Act>, b: seq<Act>)
    ensures Sent(a + b) == Sent(a) + Sent(b)
  {
    if b == [] {
      assert a + b == a;
    } else {
      assert (a + b)[..|a + b| - 1] == a + b[..|b| - 1];
      SentAppend(a, b[..|b| - 1]);
    }
  }

  lemma {:induction false} SentYielded(log: seq<Act>)
    ensures Yielded(Sent(log)) == Yielded(log)
  {
    if log != [] {
      var last := log[|log| - 1];
      SentYielded(log[..|log| - 1]);
      assert last.Yield? ==> Yielded([last]) == [last.event] by { assert [last][..0] == []; }
      assert !last.Yield? ==> Yielded([last]) == [] by { assert [last][..0] == []; }
      YieldedAppend(Sent(log[..|log| - 1]), if last.Post? && last.replies == [] then [] else [last]);
    }
  }

  // ---- The coupling of the two states --------------------------------------------------------

  ghost predicate Coupled(a: V1, b: V2, events: seq<SdkEvent>) {
    && a.status == b.status && a.usage == b.usage && a.rounds == b.cycles == Rounds(events)
    && Sent(a.log) == Sent(b.log)
    && (a.status == Running ==> SameBuffer(a.pending, b, events))
  }

  ghost predicate SameBuffer(pending: map<string, SdkEvent>, b: V2, events: seq<SdkEvent>) {
    && pending.Keys == b.buffer.Keys == Outstanding(events)
    && forall id | id in pending ::
         && pending[id].ToolUse? && id in b.yielded
         && (pending[id].envelope != CustomToolUse ==> pending[id].input == map[])
         && b.buffer[id] == BuildPendingToolCall(pending[id].envelope, id, pending[id].name, pending[id].input)
  }

  /** In an orderly round both backends run the same calls in the same order. */
  lemma SameRound(pending: map<string, SdkEvent>, b: V2, events: seq<SdkEvent>, ids: seq<string>, env: Env)
    requires SameBuffer(pending, b, events) && Ascending(ids) && Elements(ids) <= Outstanding(events)
    requires forall i: nat :: env.serializable(b.cycles, i)
    ensures Known(pending, ids) && Covered(b.buffer, ids) && Missing(pending, ids) == {}
    ensures Buffered(pending)
    ensures var calls := Calls(b.buffer, ids);
      && Results(calls, b.cycles, env) == Results1(pending, ids, b.cycles, env)
      && Replies(calls, b.cycles, env) == Replies1(pending, ids, b.cycles, env)
      && (forall i | 0 <= i < |calls| :: calls[i].eventId in b.yielded)
      && InCycle(ids, Replies(calls, b.cycles, env))
  {
    SortedDistinctIdentity(ids);
    forall i | 0 <= i < |ids| ensures ids[i] in pending && ids[i] in b.buffer {
      assert ids[i] in Elements(ids);
    }
    var calls := Calls(b.buffer, ids);
    forall i | 0 <= i < |ids|
      ensures calls[i].eventId == ids[i]
      ensures CallReply(calls[i], b.cycles, i, env) == Reply1(pending[ids[i]], ids[i], b.cycles, i, env)
      ensures CallResult(calls[i], CallReply(calls[i], b.cycles, i, env))
           == Result1(pending[ids[i]], ids[i], b.cycles, i, env)
    {
      assert calls[i] == b.buffer[ids[i]];
    }
  }

  lemma SentPost(log: seq<Act>, shown: seq<Act>, post: Act)
    ensures Sent(log + shown) == Sent(log) + Sent(shown)
    ensures Sent(log + shown + [post])
         == Sent(log) + Sent(shown) + if post.Post? && post.replies == [] then [] else [post]
  {
    SentAppend(log, shown);
    assert (log + shown + [post])[..|log + shown|] == log + shown;
  }

  /** An orderly round at the first backend. */
  lemma FirstRound(a: V1, ids: seq<string>, env: Env)
    requires Buffered(a.pending) && Known(a.pending, ids) && Missing(a.pending, ids) == {}
    requires SmoothRound(env, a.rounds)
    ensures OnRequiresAction1(a, ids, env)
         == Send1(a.(rounds := a.rounds + 1, log := a.log + Yields(Results1(a.pending, ids, a.rounds, env))),
                  ids, Replies1(a.pending, ids, a.rounds, env), Accepted)
  {
    SameRehydrate(a.pending, env.sessionLog(a.rounds));
  }

  /** An orderly round at the second backend. */
  lemma SecondRound(b: V2, ids: seq<string>, env: Env, maxCycles: int)
    requires Covered(b.buffer, ids) && b.cycles < maxCycles && SmoothRound(env, b.cycles)
    requires var calls := Calls(b.buffer, ids);
      (forall i | 0 <= i < |calls| :: calls[i].eventId in b.yielded) && InCycle(ids, Replies(calls, b.cycles, env))
    ensures var calls := Calls(b.buffer, ids);
      OnRequiresAction(b, ids, env, maxCycles)
      == Send(b.(cycles := b.cycles + 1, log := b.log + Yields(Results(calls, b.cycles, env))),
              ids, Replies(calls, b.cycles, env), Accepted)
  {
    LateYieldNothing(b.(cycles := b.cycles + 1), Calls(b.buffer, ids));
  }

  /** Both send what they ran, and both forget the answered ids. */
  lemma SendsCoupled(a: V1, b: V2, events: seq<SdkEvent>, ids: seq<string>, results: seq<AgentEvent>, replies: seq<Reply>)
    requires Coupled(a, b, events) && a.status == Running && |replies| == |ids|
    ensures Coupled(Send1(a.(rounds := a.rounds + 1, log := a.log + Yields(results)), ids, replies, Accepted),
                    Send(b.(cycles := b.cycles + 1, log := b.log + Yields(results)), ids, replies, Accepted),
                    events + [Idle(RequiresAction(ids))])
  {
    assert (events + [Idle(RequiresAction(ids))])[..|events|] == events;
    SentPost(a.log, Yields(results), Post(ids, replies, Accepted));
    SentPost(b.log, Yields(results), Post(ids, replies, Accepted));
    assert ids == [] ==> Elements(ids) == {};
  }

  lemma RoundCoupled(a: V1, b: V2, events: seq<SdkEvent>, ids: seq<string>, env: Env, maxCycles: int)
    requires Coupled(a, b, events) && a.status == Running && Buffered(a.pending)
    requires OrderlyNext(events, Idle(RequiresAction(ids))) && b.cycles < maxCycles && Smooth(env, b.cycles + 1)
    ensures Coupled(OnRequiresAction1(a, ids, env), OnRequiresAction(b, ids, env, maxCycles),
                    events + [Idle(RequiresAction(ids))])
  {
    assert Ascending(ids) && Elements(ids) <= Outstanding(events) by {
      assert Idle(RequiresAction(ids)).stop.eventIds == ids;
    }
    assert SmoothRound(env, b.cycles);
    SameRound(a.pending, b, events, ids, env);
    FirstRound(a, ids, env);
    SecondRound(b, ids, env, maxCycles);
    SendsCoupled(a, b, events, ids, Results1(a.pending, ids, b.cycles, env), Replies1(a.pending, ids, b.cycles, env));
  }

  lemma SameRehydrate(pending: map<string, SdkEvent>, listing: seq<SdkEvent>)
    ensures Rehydrate(pending, {}, listing) == pending
  {
  }

  lemma StepCoupled(a: V1, b: V2, events: seq<SdkEvent>, ev: SdkEvent, env: Env, maxCycles: int)
    requires Coupled(a, b, events) && a.status == Running && Buffered(a.pending)
    requires OrderlyNext(events, ev)
    requires Rounds(events + [ev]) <= maxCycles && Smooth(env, Rounds(events + [ev]))
    ensures Coupled(Step1(a, ev, env), Step(b, ev, env, maxCycles), events + [ev])
  {
    assert (events + [ev])[..|events|] == events;
    match ev
    case Idle(RequiresAction(ids)) => RoundCoupled(a, b, events, ids, env, maxCycles);
    case Message(content) =>
      SentAppend(a.log, Yields(Texts(content)));
      SentAppend(b.log, Yields(Texts(content)));
    case ToolUse(_, _, _, _) => UseCoupled(a, b, events, ev, env, maxCycles);
    case _ => FinishCoupled(a, b);
  }

  lemma UseCoupled(a: V1, b: V2, events: seq<SdkEvent>, ev: SdkEvent, env: Env, maxCycles: int)
    requires Coupled(a, b, events) && a.status == Running && Buffered(a.pending) && OrderlyNext(events, ev)
    requires ev.ToolUse?
    ensures Coupled(Step1(a, ev, env), Step(b, ev, env, maxCycles), events + [ev])
  {
    assert (events + [ev])[..|events|] == events;
    assert ArgumentsOf(BuildPendingToolCall(ev.envelope, ev.id, ev.name, ev.input)) == ev.input;
    var act := Yield(AgentToolCall(ev.id, ev.name, ev.input));
    SentAppend(a.log, [act]);
    SentAppend(b.log, [act]);
  }

  lemma FinishCoupled(a: V1, b: V2)
    requires Sent(a.log) == Sent(b.log)
    ensures forall act :: Sent(a.log + [act]) == Sent(b.log + [act])
  {
    forall act ensures Sent(a.log + [act]) == Sent(b.log + [act]) {
      SentAppend(a.log, [act]);
      SentAppend(b.log, [act]);
    }
  }

  lemma {:induction false} RunsCoupled(events: seq<SdkEvent>, env: Env, maxCycles: int)
    requires Orderly(events) && Rounds(events) <= maxCycles && Smooth(env, Rounds(events))
    ensures var a, b := Run1(events, env), Run(events, env, maxCycles);
      && a.status == b.status && a.usage == b.usage && Sent(a.log) == Sent(b.log)
      && (a.status == Running ==> Coupled(a, b, events))
  {
    if events != [] {
      var init, last := events[..|events| - 1], events[|events| - 1];
      assert events == init + [last];
      forall i | 0 <= i < |init| ensures OrderlyNext(init[..i], init[i]) {
        assert init[..i] == events[..i];
        assert OrderlyNext(events[..i], events[i]);
      }
      RunsCoupled(init, env, maxCycles);
      if Run1(init, env).status == Running {
        assert OrderlyNext(events[..|init|], events[|init|]);
        StepCoupled(Run1(init, env), Run(init, env, maxCycles), init, last, env, maxCycles);
      }
    }
  }

  // ---- Agreement -----------------------------------------------------------------------------

  /** Agreement on a trace consumed to its end. */
  lemma AgreeThroughout(events: seq<SdkEvent>, env: Env, maxCycles: int)
    requires Orderly(events) && Rounds(events) <= maxCycles && Smooth(env, Rounds(events))
    ensures var a, b := Run1(events, env), Complete(events, env, maxCycles);
      && Sent(b.log) == Sent(a.log) + (if a.status == Running then [Yield(AgentFinish("end_turn", a.usage))] else [])
      && Stream(events, env, maxCycles)
         == Stream1(events, env) + (if a.status == Running then [AgentFinish("end_turn", a.usage)] else [])
      && a.status != Crashed
  {
    RunsCoupled(events, env, maxCycles);
    NeverCrashes(events, env);
    var a, b := Run1(events, env), Run(events, env, maxCycles);
    SentYielded(a.log);
    SentYielded(b.log);
    if a.status == Running {
      var f := AgentFinish("end_turn", a.usage);
      SentAppend(b.log, [Yield(f)]);
      YieldedAppend(b.log, [Yield(f)]);
      assert Sent([Yield(f)]) == [Yield(f)] by { assert [Yield(f)][..0] == []; }
      assert Yielded([Yield(f)]) == [f] by { assert [Yield(f)][..0] == []; }
    }
  }

  /** On a trace that is orderly as far as it is consumed, within the policy's limit and with smooth
      surroundings, the two backends yield the same events and send the same batches; only a stream that just
      ends tells them apart, by the finish that the first backend leaves out. */
  lemma BackendsAgree(events: seq<SdkEvent>, env: Env, maxCycles: int)
    requires var consumed := events[..Consumed(events, env, maxCycles)];
      Orderly(consumed) && Rounds(consumed) <= maxCycles && Smooth(env, Rounds(consumed))
    ensures var a, b := Run1(events, env), Complete(events, env, maxCycles);
      && Sent(b.log) == Sent(a.log) + (if a.status == Running then [Yield(AgentFinish("end_turn", a.usage))] else [])
      && Stream(events, env, maxCycles)
         == Stream1(events, env) + (if a.status == Running then [AgentFinish("end_turn", a.usage)] else [])
      && a.status != Crashed
  {
    var n := Consumed(events, env, maxCycles);
    AgreeThroughout(events[..n], env, maxCycles);
    RunsCoupled(events[..n], env, maxCycles);
    RunConsumed(events, env, maxCycles);
    StoppedShort(events, env, maxCycles);
    Run1Stopped(events, n, env);
  }

  lemma {:induction false} StoppedShort(events: seq<SdkEvent>, env: Env, maxCycles: int)
    ensures Consumed(events, env, maxCycles) < |events|
      ==> Run(events[..Consumed(events, env, maxCycles)], env, maxCycles).status != Running
  {
    if events != [] {
      var init := events[..|events| - 1];
      StoppedShort(init, env, maxCycles);
      var n := Consumed(init, env, maxCycles);
      assert init[..n] == events[..n];
      assert n == |init| ==> init[..n] == init;
    }
  }

  lemma {:induction false} NeverCrashes(events: seq<SdkEvent>, env: Env)
    requires Orderly(events)
    ensures Run1(events, env).status != Crashed
  {
    if events != [] {
      var init, last := events[..|events| - 1], events[|events| - 1];
      forall i | 0 <= i < |init| ensures OrderlyNext(init[..i], init[i]) {
        assert init[..i] == events[..i];
        assert OrderlyNext(events[..i], events[i]);
      }
      NeverCrashes(init, env);
      assert OrderlyNext(events[..|init|], events[|init|]);
    }
  }

  // ---- Where they part -----------------------------------------------------------------------

  lemma RunsExtend(events: seq<SdkEvent>, ev: SdkEvent, env: Env, maxCycles: int)
    ensures var b := Run(events, env, maxCycles);
      Run(events + [ev], env, maxCycles) == if b.status == Running then Step(b, ev, env, maxCycles) else b
    ensures var a := Run1(events, env);
      Run1(events + [ev], env) == if a.status == Running then Step1(a, ev, env) else a
  {
    assert (events + [ev])[..|events|] == events;
  }

  /** A round citing an id twice: the first backend runs the tool twice and yields two results, the second
      one. */
  lemma RepeatedIdDiffers(u: SdkEvent, env: Env)
    requires u.ToolUse? && u.envelope == CustomToolUse && u.id != ""
    requires Smooth(env, 1)
    ensures var events := [u, Idle(RequiresAction([u.id, u.id]))];
      && |Stream1(events, env)| == 3
      && |Stream(events, env, 1)| == 3
      && Stream(events, env, 1)[2] == AgentFinish("end_turn", map[])
      && Stream1(events, env)[2].AgentToolResult?
  {
    var round := Idle(RequiresAction([u.id, u.id]));
    assert [u, round] == [u] + [round];
    OneUse(u, env);
    RunsExtend([u], round, env, 1);
    RepeatedFirst(Run1([u], env), u, env);
    RepeatedSecond(Run([u], env, 1), u, env);
  }

  /** Both backends after a single custom tool use. */
  lemma OneUse(u: SdkEvent, env: Env)
    requires u.ToolUse? && u.envelope == CustomToolUse && u.id != ""
    ensures var call := [Yield(AgentToolCall(u.id, u.name, u.input))];
      && Run1([u], env) == V1(map[u.id := u], map[], 0, Running, call)
      && Run([u], env, 1) == V2(map[u.id := CustomToolCall(u.id, u.name, u.input)], {u.id}, map[], 0, Running, call)
  {
    assert [u] == [] + [u];
    RunsExtend([], u, env, 1);
  }

  lemma RepeatedFirst(a: V1, u: SdkEvent, env: Env)
    requires u.ToolUse? && u.envelope == CustomToolUse && u.id != "" && Smooth(env, 1)
    requires a == V1(map[u.id := u], map[], 0, Running, [Yield(AgentToolCall(u.id, u.name, u.input))])
    ensures var evs := Yielded(OnRequiresAction1(a, [u.id, u.id], env).log);
      |evs| == 3 && evs[2].AgentToolResult?
  {
    var ids := [u.id, u.id];
    assert SmoothRound(env, 0);
    assert Missing(a.pending, ids) == {};
    var results := Results1(a.pending, ids, 0, env);
    var log := a.log + Yields(results);
    YieldedAppend(a.log, Yields(results));
    YieldedYields(results);
    assert a.log[..0] == [];
    var post := Post(ids, Replies1(a.pending, ids, 0, env), Accepted);
    assert (log + [post])[..|log|] == log;
  }

  lemma RepeatedSecond(b: V2, u: SdkEvent, env: Env)
    requires u.ToolUse? && u.envelope == CustomToolUse && u.id != "" && Smooth(env, 1)
    requires b.cycles == 0 && b.status == Running && b.usage == map[] && b.yielded == {u.id}
    requires b.buffer == map[u.id := CustomToolCall(u.id, u.name, u.input)]
    requires b.log == [Yield(AgentToolCall(u.id, u.name, u.input))]
    ensures var t := OnRequiresAction(b, [u.id, u.id], env, 1);
      && t.status == Running
      && Yielded(Finish(t, "end_turn").log)
         == [AgentToolCall(u.id, u.name, u.input),
             CallResult(CustomToolCall(u.id, u.name, u.input), CallReply(CustomToolCall(u.id, u.name, u.input), 0, 0, env)),
             AgentFinish("end_turn", map[])]
  {
    var ids := [u.id, u.id];
    var call := CustomToolCall(u.id, u.name, u.input);
    assert SmoothRound(env, 0);
    assert ids[1..] == [u.id] && [u.id][1..] == [];
    assert SortedDistinct([u.id][1..]) == [];
    assert SortedDistinct([u.id]) == [u.id];
    assert SortedDistinct(ids) == [u.id];
    assert Calls(b.buffer, ids) == [call];
    LateYieldNothing(b.(cycles := 1), [call]);
    var results := Results([call], 0, env);
    var log := b.log + Yields(results);
    YieldedAppend(b.log, Yields(results));
    YieldedYields(results);
    assert b.log[..0] == [];
    var replies := Replies([call], 0, env);
    assert replies == [CallReply(call, 0, 0, env)] && ReplyId(replies[0]) == u.id;
    var post := Post(ids, replies, Accepted);
    assert (log + [post])[..|log|] == log;
    var f := Yield(AgentFinish("end_turn", map[]));
    assert (log + [post] + [f])[..|log + [post]|] == log + [post];
  }

  /** A round citing an id no event carries: the first backend ends the run, the second goes on. */
  lemma UnknownIdDiffers(id: string, env: Env)
    requires !env.timesOut(0) && env.sessionLog(0) == []
    ensures var events := [Idle(RequiresAction([id]))];
      && Run1(events, env).status == Finished && Stream1(events, env) == [AgentFinish("error", map[])]
      && Run(events, env, 1).status == Running && Stream(events, env, 1) == [AgentFinish("end_turn", map[])]
  {
    var round := Idle(RequiresAction([id]));
    RunsExtend([], round, env, 1);
    assert [] + [round] == [round];
    assert [id][0] !in START1.pending && [id][0] !in START.buffer;
    var f, g := Yield(AgentFinish("error", map[])), Yield(AgentFinish("end_turn", map[]));
    assert Run1([round], env).log == [Interrupt, f];
    assert Complete([round], env, 1).log == [g];
    YieldedOne([], Interrupt);
    YieldedOne([Interrupt], f);
    YieldedOne([], g);
    assert [] + [g] == [g] && [] + [Interrupt] == [Interrupt] && [Interrupt] + [f] == [Interrupt, f];
  }
}
