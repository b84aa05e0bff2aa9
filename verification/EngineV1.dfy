/** The first backend: it fetches missing tool events from the session log, answers rounds in the order the
    session lists the ids, and ends a run softly when something fails. */
module EngineV1 {
  import opened Common
  import opened JsonValue
  import opened Ordering
  import opened AgentEvents
  import opened EngineV2

  datatype V1 = V1(pending: map<string, SdkEvent>, usage: Usage, rounds: nat, status: Status, log: seq<Act>)

  const START1 := V1(map[], map[], 0, Running, [])

  function Finish1(s: V1, reason: string): V1 {
    s.(status := Finished, log := s.log + [Yield(AgentFinish(reason, s.usage))])
  }

  /** Only tool-use events are buffered. */
  ghost predicate Buffered(pending: map<string, SdkEvent>) {
    forall id | id in pending :: pending[id].ToolUse?
  }

  // ---- Recovery from the session log ---------------------------------------------------------

  function Missing(pending: map<string, SdkEvent>, ids: seq<string>): set<string> {
    set id | id in ids && id !in pending
  }

  /** The first tool use listed for each id still needed joins the buffer. */
  function Rehydrate(pending: map<string, SdkEvent>, needed: set<string>, listing: seq<SdkEvent>): map<string, SdkEvent>
    decreases listing
  {
    if listing == [] || needed == {} then pending
    else
      var ev := listing[0];
      if ev.ToolUse? && ev.id != "" && ev.id in needed
      then Rehydrate(pending[ev.id := ev], needed - {ev.id}, listing[1..])
      else Rehydrate(pending, needed, listing[1..])
  }

  predicate Known(pending: map<string, SdkEvent>, ids: seq<string>) {
    forall i | 0 <= i < |ids| :: ids[i] in pending
  }

  // ---- One round -----------------------------------------------------------------------------

  function Result1(u: SdkEvent, id: string, round: nat, i: nat, env: Env): AgentEvent
    requires u.ToolUse?
  {
    if u.envelope != CustomToolUse then AgentToolResult(id, u.name, CONFIRMED, None)
    else
      var o := env.outcome(round, i, u.name, u.input);
      AgentToolResult(id, u.name, OutcomeResult(o), OutcomeError(u.name, o))
  }

  function Reply1(u: SdkEvent, id: string, round: nat, i: nat, env: Env): Reply
    requires u.ToolUse?
  {
    if u.envelope != CustomToolUse then ToolConfirmation(id)
    else CustomReply(id, u.name, env.outcome(round, i, u.name, u.input), env.serializable(round, i))
  }

  function Results1(pending: map<string, SdkEvent>, ids: seq<string>, round: nat, env: Env): seq<AgentEvent>
    requires Known(pending, ids) && Buffered(pending)
  {
    seq(|ids|, i requires 0 <= i < |ids| => Result1(pending[ids[i]], ids[i], round, i, env))
  }

  function Replies1(pending: map<string, SdkEvent>, ids: seq<string>, round: nat, env: Env): seq<Reply>
    requires Known(pending, ids) && Buffered(pending)
  {
    seq(|ids|, i requires 0 <= i < |ids| => Reply1(pending[ids[i]], ids[i], round, i, env))
  }

  /** Any failed post interrupts the session and ends the run; a round without ids posts nothing. */
  function Send1(s: V1, ids: seq<string>, replies: seq<Reply>, outcome: PostOutcome): V1 {
    if ids == [] then s
    else
      var posted := s.(log := s.log + [Post(ids, replies, outcome)]);
      if outcome != Accepted then Finish1(posted.(log := posted.log + [Interrupt]), "error")
      else posted.(pending := posted.pending - Elements(ids))
  }

  function OnRequiresAction1(s: V1, ids: seq<string>, env: Env): (t: V1)
    requires Buffered(s.pending)
    ensures Buffered(t.pending)
  {
    RehydrateBuffered(s.pending, Missing(s.pending, ids), env.sessionLog(s.rounds));
    var pending := Rehydrate(s.pending, Missing(s.pending, ids), env.sessionLog(s.rounds));
    var r := s.(pending := pending, rounds := s.rounds + 1);
    if !Known(pending, ids) then Finish1(r.(log := r.log + [Interrupt]), "error")
    else
      Send1(r.(log := r.log + Yields(Results1(pending, ids, s.rounds, env))),
            ids, Replies1(pending, ids, s.rounds, env), env.post(s.rounds))
  }

  // ---- The run -------------------------------------------------------------------------------

  function Step1(s: V1, ev: SdkEvent, env: Env): (t: V1)
    requires Buffered(s.pending)
    ensures Buffered(t.pending)
  {
    match ev
    case Message(content) => s.(log := s.log + Yields(Texts(content)))
    case ToolUse(_, id, name, input) =>
      if id == "" then s.(status := Crashed)
      else s.(pending := s.pending[id := ev], log := s.log + [Yield(AgentToolCall(id, name, input))])
    case Idle(RequiresAction(ids)) => OnRequiresAction1(s, ids, env)
    case Idle(Stopped(kind)) => Finish1(s, FinishReason(kind))
    case Terminated => Finish1(s, "terminated")
    case SessionError => Finish1(s, "error")
    case ModelRequestEnd(more) => s.(usage := AddUsage(s.usage, more))
    case Other(_) => s
  }

  /** A stream that just ends leaves the run without a finish. */
  function Run1(events: seq<SdkEvent>, env: Env): (s: V1)
    ensures Buffered(s.pending)
  {
    if events == [] then START1
    else
      var s := Run1(events[..|events| - 1], env);
      if s.status == Running then Step1(s, events[|events| - 1], env) else s
  }

  function Stream1(events: seq<SdkEvent>, env: Env): seq<AgentEvent> {
    Yielded(Run1(events, env).log)
  }

  // ---- What recovery does --------------------------------------------------------------------

  lemma {:induction false} RehydrateBuffered(pending: map<string, SdkEvent>, needed: set<string>, listing: seq<SdkEvent>)
    requires Buffered(pending)
    ensures Buffered(Rehydrate(pending, needed, listing))
    decreases listing
  {
    if listing != [] && needed != {} {
      var ev := listing[0];
      if ev.ToolUse? && ev.id != "" && ev.id in needed {
        RehydrateBuffered(pending[ev.id := ev], needed - {ev.id}, listing[1..]);
      } else {
        RehydrateBuffered(pending, needed, listing[1..]);
      }
    }
  }

  ghost predicate Listed(listing: seq<SdkEvent>, id: string) {
    exists i :: 0 <= i < |listing| && listing[i].ToolUse? && listing[i].id == id
  }

  /** Recovery adds exactly the needed ids the log lists a tool use for, each with a tool use of its own id,
      and leaves what was buffered alone. */
  lemma {:induction false} RehydrateAdds(pending: map<string, SdkEvent>, needed: set<string>,
      listing: seq<SdkEvent>, id: string)
    requires id in needed ==> id !in pending
    ensures var p := Rehydrate(pending, needed, listing);
      && (id in p <==> id in pending || (id in needed && id != "" && Listed(listing, id)))
      && (id in pending ==> p[id] == pending[id])
      && (id in p && id !in pending ==> p[id] in listing && p[id].ToolUse? && p[id].id == id)
    decreases listing
  {
    if listing != [] && needed != {} {
      var ev := listing[0];
      assert listing == [ev] + listing[1..];
      assert Listed(listing, id) <==> (ev.ToolUse? && ev.id == id) || Listed(listing[1..], id) by {
        assert listing[0] == ev;
        assert forall i | 1 <= i < |listing| :: listing[i] == listing[1..][i - 1];
      }
      if ev.ToolUse? && ev.id != "" && ev.id in needed {
        RehydrateAdds(pending[ev.id := ev], needed - {ev.id}, listing[1..], id);
      } else {
        RehydrateAdds(pending, needed, listing[1..], id);
      }
    }
  }

  // ---- The run as loops ----------------------------------------------------------------------

  method RehydrateLoop(start: map<string, SdkEvent>, missing: set<string>, listing: seq<SdkEvent>)
    returns (pending: map<string, SdkEvent>)
    ensures pending == Rehydrate(start, missing, listing)
  {
    pending := start;
    var needed, i := missing, 0;
    while i < |listing|
      invariant 0 <= i <= |listing|
      invariant Rehydrate(start, missing, listing) == Rehydrate(pending, needed, listing[i..])
    {
      if needed == {} { break; }
      var ev := listing[i];
      assert listing[i..][1..] == listing[i + 1..];
      i := i + 1;
      if !ev.ToolUse? || ev.id == "" || ev.id !in needed { continue; }
      pending := pending[ev.id := ev];
      needed := needed - {ev.id};
    }
  }

  method ExecuteLoop(pending: map<string, SdkEvent>, ids: seq<string>, round: nat, env: Env)
    returns (results: seq<AgentEvent>)
    requires Known(pending, ids) && Buffered(pending)
    ensures results == Results1(pending, ids, round, env)
  {
    results := [];
    for i := 0 to |ids|
      invariant |results| == i
      invariant forall j | 0 <= j < i :: results[j] == Result1(pending[ids[j]], ids[j], round, j, env)
    {
      var u := pending[ids[i]];
      if u.envelope != CustomToolUse {
        results := results + [AgentToolResult(ids[i], u.name, CONFIRMED, None)];
        continue;
      }
      var o := env.outcome(round, i, u.name, u.input);
      match o {
        case NotRegistered =>
          results := results + [AgentToolResult(ids[i], u.name, map[], Some("tool '" + u.name + "' not registered"))];
        case Raised(m) =>
          results := results + [AgentToolResult(ids[i], u.name, map[], Some("tool raised: " + m))];
        case ReturnedOther(v) =>
          results := results + [AgentToolResult(ids[i], u.name, map["value" := v], None)];
        case Returned(r) =>
          results := results + [AgentToolResult(ids[i], u.name, r, None)];
      }
    }
  }

  method RoundLoop(s: V1, ids: seq<string>, env: Env) returns (t: V1)
    requires Buffered(s.pending)
    ensures t == OnRequiresAction1(s, ids, env)
  {
    RehydrateBuffered(s.pending, Missing(s.pending, ids), env.sessionLog(s.rounds));
    var pending := s.pending;
    var missing := Missing(pending, ids);
    if missing != {} {
      pending := RehydrateLoop(pending, missing, env.sessionLog(s.rounds));
    }
    var r := s.(pending := pending, rounds := s.rounds + 1);
    if !Known(pending, ids) {
      return Finish1(r.(log := r.log + [Interrupt]), "error");
    }
    var results := ExecuteLoop(pending, ids, s.rounds, env);
    t := r.(log := r.log + Yields(results));
    if results != [] {
      var replies := Replies1(pending, ids, s.rounds, env);
      t := t.(log := t.log + [Post(ids, replies, env.post(s.rounds))]);
      if env.post(s.rounds) != Accepted {
        return Finish1(t.(log := t.log + [Interrupt]), "error");
      }
      t := t.(pending := t.pending - Elements(ids));
    }
  }

  method StreamLoop(events: seq<SdkEvent>, env: Env) returns (log: seq<Act>, crashed: bool)
    ensures log == Run1(events, env).log
    ensures crashed <==> Run1(events, env).status == Crashed
  {
    var s := START1;
    var i := 0;
    while i < |events| && s.status == Running
      invariant 0 <= i <= |events|
      invariant s == Run1(events[..i], env)
    {
      assert events[..i + 1][..i] == events[..i];
      var ev := events[i];
      i := i + 1;
      match ev
      case Message(content) =>
        s := s.(log := s.log + Yields(Texts(content)));
      case ToolUse(_, id, name, input) =>
        if id == "" {
          s := s.(status := Crashed);
        } else {
          s := s.(pending := s.pending[id := ev], log := s.log + [Yield(AgentToolCall(id, name, input))]);
        }
      case Idle(RequiresAction(ids)) =>
        s := RoundLoop(s, ids, env);
      case Idle(Stopped(kind)) =>
        s := Finish1(s, FinishReason(kind));
      case Terminated =>
        s := Finish1(s, "terminated");
      case SessionError =>
        s := Finish1(s, "error");
      case ModelRequestEnd(more) =>
        s := s.(usage := AddUsage(s.usage, more));
      case Other(_) =>
    }
    Run1Stopped(events, i, env);
    return s.log, s.status == Crashed;
  }

  lemma {:induction false} Run1Stopped(events: seq<SdkEvent>, n: nat, env: Env)
    requires n <= |events|
    requires n == |events| || Run1(events[..n], env).status != Running
    ensures Run1(events, env) == Run1(events[..n], env)
  {
    if n == |events| {
      assert events[..n] == events;
    } else {
      var init := events[..|events| - 1];
      assert init[..n] == events[..n];
      Run1Stopped(init, n, env);
    }
  }
}
