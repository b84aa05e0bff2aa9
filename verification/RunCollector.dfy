/** `stream` bounds a run in time; `run` drains it into a result. */
module RunCollector {
  import opened Common
  import opened JsonValue
  import opened AgentEvents
  import opened EngineCounts
  import opened EngineV2
  import opened EngineV2Properties
  import opened EngineV2Theorems

  // ---- The time limit ------------------------------------------------------------------------

  const TIMEOUT := AgentFinish("policy_total_timeout", map[])

  /** The outer generator: it passes events on until the deadline cuts it off after some number of them, and
      then adds a finish of its own. `cut` past the end means the deadline did not fire. */
  function Bounded(inner: seq<AgentEvent>, cut: nat, fired: bool): seq<AgentEvent> {
    if fired && cut <= |inner| then inner[..cut] + [TIMEOUT] else inner
  }

  function FinishCount(evs: seq<AgentEvent>): nat {
    if evs == [] then 0
    else FinishCount(evs[..|evs| - 1]) + if evs[|evs| - 1].AgentFinish? then 1 else 0
  }

  lemma {:induction false} FinishCountNone(evs: seq<AgentEvent>)
    requires NoFinish(evs)
    ensures FinishCount(evs) == 0
  {
    if evs != [] { FinishCountNone(evs[..|evs| - 1]); }
  }

  /** Unless the run raises before the deadline cuts it off, the caller sees one finish, last; with the deadline
      there can be a second, which is always the timeout's and comes after the run's own. */
  lemma BoundedShape(events: seq<SdkEvent>, env: Env, maxCycles: int, cut: nat, fired: bool)
    requires var inner := Stream(events, env, maxCycles);
      Complete(events, env, maxCycles).status != Crashed || (fired && cut <= |inner|)
    ensures var inner := Stream(events, env, maxCycles);
      var out := Bounded(inner, cut, fired);
      var second := fired && cut == |inner| && Complete(events, env, maxCycles).status != Crashed;
      && out != [] && out[|out| - 1].AgentFinish?
      && FinishCount(out) == (if second then 2 else 1)
      && (fired && cut <= |inner| ==> out == inner[..cut] + [AgentFinish("policy_total_timeout", map[])])
      && (!(fired && cut <= |inner|) ==> out == inner)
      && forall i | 0 <= i < |out| - 1 :: out[i].AgentFinish? ==> i == |inner| - 1 && second
  {
    var inner := Stream(events, env, maxCycles);
    if Complete(events, env, maxCycles).status != Crashed {
      ExactlyOneFinish(events, env, maxCycles);
      FinishCountNone(inner[..|inner| - 1]);
      if fired && cut < |inner| { CutShort(inner, cut); }
      if fired && cut == |inner| { CutAtEnd(inner); }
    } else {
      RunShape(events, env, maxCycles);
      CutShort(inner, cut);
    }
  }

  /** Cut off before its finish, a run leaves the timeout's as the only one. */
  lemma CutShort(inner: seq<AgentEvent>, cut: nat)
    requires cut <= |inner| && NoFinish(inner[..cut])
    ensures FinishCount(inner[..cut] + [TIMEOUT]) == 1
  {
    FinishCountNone(inner[..cut]);
    assert (inner[..cut] + [TIMEOUT])[..cut] == inner[..cut];
  }

  lemma CutAtEnd(inner: seq<AgentEvent>)
    requires EndsInOneFinish(inner)
    ensures FinishCount(inner + [TIMEOUT]) == 2 && inner[..|inner|] == inner
  {
    FinishCountNone(inner[..|inner| - 1]);
    assert (inner + [TIMEOUT])[..|inner|] == inner;
  }

  // ---- Draining ------------------------------------------------------------------------------

  datatype Entry = Entry(callId: string, name: string, arguments: Args, result: Option<Args>, error: Option<string>)

  datatype AgentRunResult = AgentRunResult(finalText: string, toolCalls: seq<Entry>, stopReason: string, usage: Usage)

  /** The first logged call with this id and no result yet takes the result. */
  function Attach(entries: seq<Entry>, e: AgentEvent): seq<Entry>
    requires e.AgentToolResult?
  {
    if entries == [] then []
    else if entries[0].callId == e.callId && entries[0].result.None? then [Resolved(entries[0], e)] + entries[1..]
    else [entries[0]] + Attach(entries[1..], e)
  }

  function Resolved(entry: Entry, e: AgentEvent): Entry
    requires e.AgentToolResult?
  {
    entry.(result := Some(e.result), error := if e.error.Some? && e.error.value != "" then e.error else entry.error)
  }

  function Collect(evs: seq<AgentEvent>): AgentRunResult {
    if evs == [] then AgentRunResult("", [], "end_turn", map[])
    else
      var r, e := Collect(evs[..|evs| - 1]), evs[|evs| - 1];
      match e
      case AgentTextDelta(text) => r.(finalText := r.finalText + text)
      case AgentToolCall(id, name, arguments) =>
        r.(toolCalls := r.toolCalls + [Entry(id, name, arguments, None, None)])
      case AgentToolResult(_, _, _, _) => r.(toolCalls := Attach(r.toolCalls, e))
      case AgentFinish(reason, usage) => r.(stopReason := reason, usage := usage)
  }

  method AttachLoop(entries: seq<Entry>, e: AgentEvent) returns (updated: seq<Entry>)
    requires e.AgentToolResult?
    ensures updated == Attach(entries, e)
  {
    updated := entries;
    var i := 0;
    while i < |entries|
      invariant 0 <= i <= |entries|
      invariant updated == entries
      invariant Attach(entries, e) == entries[..i] + Attach(entries[i..], e)
    {
      if entries[i].callId == e.callId && entries[i].result.None? {
        updated := updated[i := Resolved(entries[i], e)];
        assert updated == entries[..i] + ([Resolved(entries[i], e)] + entries[i..][1..]);
        return;
      }
      assert entries[i..][1..] == entries[i + 1..];
      assert entries[..i] + ([entries[i]] + Attach(entries[i + 1..], e)) == entries[..i + 1] + Attach(entries[i + 1..], e);
      i := i + 1;
    }
    assert entries[..i] + [] == entries;
  }

  method RunLoop(evs: seq<AgentEvent>) returns (r: AgentRunResult)
    ensures r == Collect(evs)
  {
    var finalText, toolCalls, stopReason, usage := "", [], "end_turn", map[];
    var i := 0;
    while i < |evs|
      invariant 0 <= i <= |evs|
      invariant AgentRunResult(finalText, toolCalls, stopReason, usage) == Collect(evs[..i])
    {
      assert evs[..i + 1][..i] == evs[..i];
      var e := evs[i];
      i := i + 1;
      match e {
        case AgentTextDelta(text) => finalText := finalText + text;
        case AgentToolCall(id, name, arguments) => toolCalls := toolCalls + [Entry(id, name, arguments, None, None)];
        case AgentToolResult(_, _, _, _) => toolCalls := AttachLoop(toolCalls, e);
        case AgentFinish(reason, u) => stopReason, usage := reason, u;
      }
    }
    assert evs[..i] == evs;
    return AgentRunResult(finalText, toolCalls, stopReason, usage);
  }

  // ---- Results meet their calls --------------------------------------------------------------

  function EntriesFor(entries: seq<Entry>, id: string): seq<Entry> {
    if entries == [] then []
    else (if entries[0].callId == id then [entries[0]] else []) + EntriesFor(entries[1..], id)
  }

  function CallsFor(evs: seq<AgentEvent>, id: string): seq<AgentEvent> {
    if evs == [] then []
    else CallsFor(evs[..|evs| - 1], id) + if IsCallFor(evs[|evs| - 1], id) then [evs[|evs| - 1]] else []
  }

  function ResultsFor(evs: seq<AgentEvent>, id: string): seq<AgentEvent> {
    if evs == [] then []
    else ResultsFor(evs[..|evs| - 1], id) + if IsResultFor(evs[|evs| - 1], id) then [evs[|evs| - 1]] else []
  }

  lemma {:induction false} ResultsForCount(evs: seq<AgentEvent>, id: string)
    ensures |ResultsFor(evs, id)| == ResultCount(evs, id)
    ensures forall k | 0 <= k < |ResultsFor(evs, id)| :: ResultsFor(evs, id)[k].AgentToolResult?
    ensures |CallsFor(evs, id)| == CallCount(evs, id)
  {
    if evs != [] { ResultsForCount(evs[..|evs| - 1], id); }
  }

  lemma {:induction false} EntriesForAppend(a: seq<Entry>, b: seq<Entry>, id: string)
    ensures EntriesFor(a + b, id) == EntriesFor(a, id) + EntriesFor(b, id)
  {
    if a == [] {
      assert a + b == b;
    } else {
      assert a + b == [a[0]] + (a[1..] + b) && a == [a[0]] + a[1..];
      EntriesForAppend(a[1..], b, id);
      EntriesForCons(a[0], a[1..] + b, id);
      EntriesForCons(a[0], a[1..], id);
      Associative([a[0]], EntriesFor(a[1..], id), EntriesFor(b, id));
    }
  }

  /** Attaching acts on the entries of its own id only, as if they were the whole log. */
  lemma {:induction false} AttachFilters(entries: seq<Entry>, e: AgentEvent, id: string)
    requires e.AgentToolResult?
    ensures EntriesFor(Attach(entries, e), id)
         == if id == e.callId then Attach(EntriesFor(entries, id), e) else EntriesFor(entries, id)
  {
    if entries != [] {
      AttachFilters(entries[1..], e, id);
      var head, rest := entries[0], entries[1..];
      EntriesForCons(head, rest, id);
      if head.callId == e.callId && head.result.None? {
        EntriesForCons(Resolved(head, e), rest, id);
        if id == e.callId { AttachCons(head, EntriesFor(rest, id), e); }
      } else {
        EntriesForCons(head, Attach(rest, e), id);
        if id == head.callId { AttachCons(head, EntriesFor(rest, id), e); }
      }
    }
  }

  lemma EntriesForCons(head: Entry, rest: seq<Entry>, id: string)
    ensures EntriesFor([head] + rest, id)
         == if head.callId == id then [head] + EntriesFor(rest, id) else EntriesFor(rest, id)
  {
    assert ([head] + rest)[1..] == rest;
  }

  lemma AttachCons(head: Entry, rest: seq<Entry>, e: AgentEvent)
    requires e.AgentToolResult?
    ensures Attach([head] + rest, e)
         == if head.callId == e.callId && head.result.None? then [Resolved(head, e)] + rest else [head] + Attach(rest, e)
  {
    assert ([head] + rest)[1..] == rest;
  }

  /** With the first k entries resolved and the next not, a result goes to entry k. */
  lemma {:induction false} AttachAt(entries: seq<Entry>, e: AgentEvent, k: nat)
    requires e.AgentToolResult? && k < |entries|
    requires forall i | 0 <= i < |entries| :: entries[i].callId == e.callId
    requires forall i | 0 <= i < k :: entries[i].result.Some?
    requires entries[k].result.None?
    ensures Attach(entries, e) == entries[k := Resolved(entries[k], e)]
  {
    if k > 0 { AttachAt(entries[1..], e, k - 1); }
  }

  /** The log of one id after a run: its calls in order, as they were made, the k-th holding the k-th result. */
  ghost predicate Paired(entries: seq<Entry>, calls: seq<AgentEvent>, results: seq<AgentEvent>, id: string) {
    && |results| <= |entries| == |calls|
    && (forall k | 0 <= k < |entries| ::
          calls[k] == AgentToolCall(id, entries[k].name, entries[k].arguments) && entries[k].callId == id)
    && (forall k | 0 <= k < |results| ::
          results[k].AgentToolResult? && entries[k].result == Some(results[k].result)
          && (entries[k].error == if results[k].error == Some("") then None else results[k].error))
    && (forall k | |results| <= k < |entries| :: entries[k].result.None? && entries[k].error.None?)
  }

  lemma {:induction false} CollectPairs(evs: seq<AgentEvent>, id: string)
    requires Balanced(evs)
    ensures Paired(EntriesFor(Collect(evs).toolCalls, id), CallsFor(evs, id), ResultsFor(evs, id), id)
  {
    if evs != [] {
      var init, e := evs[..|evs| - 1], evs[|evs| - 1];
      BalancedBefore(evs);
      CollectPairs(init, id);
      var log := Collect(init).toolCalls;
      if e.AgentToolCall? {
        CallPairs(EntriesFor(log, id), log, CallsFor(init, id), ResultsFor(init, id), e, id);
      } else if e.AgentToolResult? {
        AttachFilters(log, e, id);
        if id == e.callId {
          ResultsForCount(init, id);
          assert ResultCount(evs, id) <= CallCount(evs, id);
          ResultPairs(EntriesFor(log, id), CallsFor(init, id), ResultsFor(init, id), e);
        }
      }
    }
  }

  lemma BalancedBefore(evs: seq<AgentEvent>)
    requires evs != [] && Balanced(evs)
    ensures Balanced(evs[..|evs| - 1])
    ensures forall id :: ResultCount(evs, id) <= CallCount(evs, id)
  {
    var init := evs[..|evs| - 1];
    forall n: nat, x | n <= |init| ensures ResultCount(init[..n], x) <= CallCount(init[..n], x) {
      assert init[..n] == evs[..n];
    }
    assert evs[..|evs|] == evs;
  }

  /** A call adds an open entry for its id. */
  lemma CallPairs(entries: seq<Entry>, log: seq<Entry>, calls: seq<AgentEvent>, results: seq<AgentEvent>, e: AgentEvent,
      id: string)
    requires e.AgentToolCall? && entries == EntriesFor(log, id) && Paired(entries, calls, results, id)
    ensures var entry := Entry(e.callId, e.name, e.arguments, None, None);
      && EntriesFor(log + [entry], id) == (if e.callId == id then entries + [entry] else entries)
      && Paired(EntriesFor(log + [entry], id), if e.callId == id then calls + [e] else calls, results, id)
  {
    var entry := Entry(e.callId, e.name, e.arguments, None, None);
    EntriesForAppend(log, [entry], id);
    EntriesForCons(entry, [], id);
    assert [entry] + [] == [entry] && entries + [] == entries;
    if e.callId == id { PairedOpen(entries, calls, results, entry, id); }
  }

  lemma PairedOpen(entries: seq<Entry>, calls: seq<AgentEvent>, results: seq<AgentEvent>, entry: Entry, id: string)
    requires Paired(entries, calls, results, id) && entry.callId == id && entry.result.None? && entry.error.None?
    ensures Paired(entries + [entry], calls + [AgentToolCall(id, entry.name, entry.arguments)], results, id)
  {
  }

  /** A result closes the first open entry of its id. */
  lemma ResultPairs(entries: seq<Entry>, calls: seq<AgentEvent>, results: seq<AgentEvent>, e: AgentEvent)
    requires e.AgentToolResult? && Paired(entries, calls, results, e.callId) && |results| < |entries|
    ensures |Attach(entries, e)| == |entries| && Paired(Attach(entries, e), calls, results + [e], e.callId)
  {
    AttachAt(entries, e, |results|);
  }

  /** In the result of every completed run, the entries of an id are its calls with their names and arguments, and
      the k-th result for the id is attached to the k-th of them. */
  lemma ResultsReachTheirCalls(events: seq<SdkEvent>, env: Env, maxCycles: int, id: string)
    ensures var evs := Stream(events, env, maxCycles);
      Paired(EntriesFor(Collect(evs).toolCalls, id), CallsFor(evs, id), ResultsFor(evs, id), id)
  {
    ResultsMatchCalls(events, env, maxCycles);
    var s := Run(events, env, maxCycles);
    var evs := Stream(events, env, maxCycles);
    if s.status == Running {
      var f := AgentFinish("end_turn", s.usage);
      YieldedOne(s.log, Yield(f));
      forall x ensures CallCount([f], x) == 0 && ResultCount([f], x) == 0 { NoCallsNoResults([f], x); }
      forall x ensures ResultCount(Yielded(s.log) + [f], x) <= CallCount(Yielded(s.log) + [f], x) {
        CountAppend(Yielded(s.log), [f], x);
        assert Yielded(s.log)[..|Yielded(s.log)|] == Yielded(s.log);
      }
      BalancedAppend(Yielded(s.log), [f]);
    }
    CollectPairs(evs, id);
  }

  /** Entry by entry, the log is the list of calls. */
  ghost predicate Logs(entries: seq<Entry>, calls: seq<AgentEvent>) {
    |entries| == |calls|
    && forall k | 0 <= k < |entries| :: calls[k] == AgentToolCall(entries[k].callId, entries[k].name, entries[k].arguments)
  }

  lemma {:induction false} AttachLogs(entries: seq<Entry>, e: AgentEvent, calls: seq<AgentEvent>)
    requires e.AgentToolResult? && Logs(entries, calls)
    ensures Logs(Attach(entries, e), calls)
  {
    if entries != [] {
      AttachLogs(entries[1..], e, calls[1..]);
      var rest := Attach(entries[1..], e);
      forall k | 1 <= k < |calls|
        ensures |rest| == |calls| - 1
        ensures calls[k] == AgentToolCall(rest[k - 1].callId, rest[k - 1].name, rest[k - 1].arguments)
      {
        assert calls[k] == calls[1..][k - 1];
      }
    }
  }

  lemma {:induction false} CollectLogs(evs: seq<AgentEvent>)
    ensures Logs(Collect(evs).toolCalls, CallEvents(evs))
  {
    if evs != [] {
      var init, e := evs[..|evs| - 1], evs[|evs| - 1];
      CollectLogs(init);
      if e.AgentToolResult? { AttachLogs(Collect(init).toolCalls, e, CallEvents(init)); }
    }
  }

  /** The log of every run that does not raise is the list of the tool uses it consumed, in order. */
  lemma RunLogsUses(events: seq<SdkEvent>, env: Env, maxCycles: int)
    requires Complete(events, env, maxCycles).status != Crashed
    ensures Logs(Collect(Stream(events, env, maxCycles)).toolCalls,
                 UsesAsCalls(events[..Consumed(events, env, maxCycles)]))
  {
    var n := Consumed(events, env, maxCycles);
    var consumed, s := events[..n], Run(events, env, maxCycles);
    RunConsumed(events, env, maxCycles);
    assert n > 0 ==> consumed[..n - 1] == events[..n - 1];
    CallsConserved(consumed, env, maxCycles);
    if s.status == Running {
      var f := AgentFinish("end_turn", s.usage);
      YieldedOne(s.log, Yield(f));
      NoCallEvents([f]);
      CallEventsAppend(Yielded(s.log), [f]);
    }
    CollectLogs(Stream(events, env, maxCycles));
  }

  // ---- Conservation through `run` ------------------------------------------------------------

  lemma {:induction false} CollectText(evs: seq<AgentEvent>)
    ensures Collect(evs).finalText == DeltaText(evs)
  {
    if evs != [] { CollectText(evs[..|evs| - 1]); }
  }

  /** The drained result of every run that does not raise: its text is the text of all messages the run
      consumed, and each usage key is the sum over the model requests it consumed. */
  lemma RunConserves(events: seq<SdkEvent>, env: Env, maxCycles: int, key: UsageKey)
    requires Complete(events, env, maxCycles).status != Crashed
    ensures var result := Collect(Stream(events, env, maxCycles));
      var consumed := events[..Consumed(events, env, maxCycles)];
      && result.finalText == AllText(consumed)
      && (key in result.usage <==> UsageSeen(consumed, key))
      && (key in result.usage ==> result.usage[key] == UsageSum(consumed, key))
  {
    var n := Consumed(events, env, maxCycles);
    var consumed := events[..n];
    RunConsumed(events, env, maxCycles);
    assert n > 0 ==> consumed[..n - 1] == events[..n - 1];
    TextConserved(consumed, env, maxCycles);
    UsageConserved(consumed, env, maxCycles, key);
    CollectText(Stream(events, env, maxCycles));
    CompleteCarries(events, env, maxCycles);
  }

  /** What completing a run leaves as it was: the text, and the usage, which its finish carries. */
  lemma CompleteCarries(events: seq<SdkEvent>, env: Env, maxCycles: int)
    requires Complete(events, env, maxCycles).status != Crashed
    ensures var s, evs := Run(events, env, maxCycles), Stream(events, env, maxCycles);
      DeltaText(evs) == DeltaText(Yielded(s.log)) && Collect(evs).usage == s.usage
  {
    var s := Run(events, env, maxCycles);
    if s.status == Running {
      FinishAddsNothing(s, "end_turn");
    } else {
      FinishCarriesUsage(events, env, maxCycles);
      CollectFinish(Yielded(s.log));
    }
  }

  lemma FinishAddsNothing(s: V2, reason: string)
    ensures var evs := Yielded(Finish(s, reason).log);
      DeltaText(evs) == DeltaText(Yielded(s.log)) && Collect(evs).usage == s.usage
  {
    var f := AgentFinish(reason, s.usage);
    YieldedOne(s.log, Yield(f));
    NoDeltas([f]);
    DeltaAppend(Yielded(s.log), [f]);
    CollectFinish(Yielded(s.log) + [f]);
  }

  lemma CollectFinish(evs: seq<AgentEvent>)
    requires evs != [] && evs[|evs| - 1].AgentFinish?
    ensures Collect(evs).usage == evs[|evs| - 1].usage
  {
  }

  /** A finished run's last event is a finish with the usage accumulated so far. */
  ghost predicate CarriesUsage(s: V2) {
    s.status == Finished ==>
      && Yielded(s.log) != []
      && Yielded(s.log)[|Yielded(s.log)| - 1].AgentFinish?
      && Yielded(s.log)[|Yielded(s.log)| - 1].usage == s.usage
  }

  lemma {:induction false} FinishCarriesUsage(events: seq<SdkEvent>, env: Env, maxCycles: int)
    ensures CarriesUsage(Run(events, env, maxCycles))
  {
    if events != [] {
      var init, last := events[..|events| - 1], events[|events| - 1];
      var s := Run(init, env, maxCycles);
      FinishCarriesUsage(init, env, maxCycles);
      if s.status == Running {
        RunBuffer(init, env, maxCycles);
        StepFinishUsage(s, last, init, env, maxCycles);
      }
    }
  }

  lemma StepFinishUsage(s: V2, ev: SdkEvent, events: seq<SdkEvent>, env: Env, maxCycles: int)
    requires BufferOk(s, events) && s.status == Running
    ensures CarriesUsage(Step(s, ev, env, maxCycles))
  {
    StepHasShape(s, ev, events, env, maxCycles);
    StepUsage(s, ev, env, maxCycles);
    ShapeCarries(s, Step(s, ev, env, maxCycles), env, ChangeOf(s, ev, env, maxCycles));
  }

  lemma ShapeCarries(s: V2, t: V2, env: Env, change: Change)
    requires StepShape(s, t, env, change) && s.status == Running
    requires change.Ended? ==> change.finish.AgentFinish? && change.finish.usage == s.usage
    ensures CarriesUsage(t)
  {
    StepYields(s, t, env, change);
    if t.status == Finished {
      LastNewEvent(s, t, env, change);
      LastOf(Yielded(s.log), NewEvents(s, env, change));
      assert t.usage == s.usage;
    }
  }

  lemma LastOf(evs: seq<AgentEvent>, more: seq<AgentEvent>)
    requires more != []
    ensures (evs + more)[|evs + more| - 1] == more[|more| - 1]
  {
  }

  lemma LastNewEvent(s: V2, t: V2, env: Env, change: Change)
    requires StepShape(s, t, env, change) && s.status == Running && t.status == Finished
    ensures change.Ended? || change.Answered?
    ensures var more := NewEvents(s, env, change);
      more != [] && (change.Answered? ==> more[|more| - 1] == AgentFinish("bad_request", s.usage))
      && (change.Ended? ==> more[|more| - 1] == change.finish)
  {
  }

  // ---- Why a run ended -----------------------------------------------------------------------

  /** The reason an event gives for the end of a run that it ends. */
  function Cause(ev: SdkEvent, overLimit: bool): string {
    match ev
    case Idle(Stopped(kind)) => if kind == "" then "unknown" else kind
    case Terminated => "terminated"
    case SessionError => "error"
    case _ => if overLimit then "policy_max_cycles_exhausted" else "bad_request"
  }

  /** The result of `run` reports why the run ended: `end_turn` for a stream that just ends, and otherwise the
      cause given by the last event consumed; a round is a cause over the policy's limit, or by its batch being
      refused. */
  lemma ReasonReported(events: seq<SdkEvent>, env: Env, maxCycles: int)
    requires Complete(events, env, maxCycles).status != Crashed
    ensures Run(events, env, maxCycles).status != Running ==> Consumed(events, env, maxCycles) > 0
    ensures var n, s := Consumed(events, env, maxCycles), Run(events, env, maxCycles);
      Collect(Stream(events, env, maxCycles)).stopReason
      == if s.status == Running then "end_turn"
         else Cause(events[n - 1], Run(events[..n - 1], env, maxCycles).cycles >= maxCycles)
  {
    var s := Run(events, env, maxCycles);
    if s.status == Running { FinishGivesReason(s, "end_turn"); } else { StoppedCollects(events, env, maxCycles); }
  }

  lemma StoppedCollects(events: seq<SdkEvent>, env: Env, maxCycles: int)
    requires Run(events, env, maxCycles).status == Finished
    ensures var n := Consumed(events, env, maxCycles);
      n > 0 && Collect(Yielded(Run(events, env, maxCycles).log)).stopReason
               == Cause(events[n - 1], Run(events[..n - 1], env, maxCycles).cycles >= maxCycles)
  {
    StoppedReason(events, env, maxCycles);
    CollectReason(Yielded(Run(events, env, maxCycles).log));
  }

  lemma FinishGivesReason(s: V2, reason: string)
    ensures Collect(Yielded(Finish(s, reason).log)).stopReason == reason
  {
    var f := AgentFinish(reason, s.usage);
    YieldedOne(s.log, Yield(f));
    CollectReason(Yielded(s.log) + [f]);
  }

  /** A finished run ends with the reason that the last event it consumed gives. */
  lemma {:induction false} StoppedReason(events: seq<SdkEvent>, env: Env, maxCycles: int)
    requires Run(events, env, maxCycles).status == Finished
    ensures var n := Consumed(events, env, maxCycles);
      n > 0 && EndsWith(Yielded(Run(events, env, maxCycles).log),
                        Cause(events[n - 1], Run(events[..n - 1], env, maxCycles).cycles >= maxCycles))
  {
    var init, last := events[..|events| - 1], events[|events| - 1];
    if Run(init, env, maxCycles).status == Running {
      RunBuffer(init, env, maxCycles);
      StepReason(Run(init, env, maxCycles), last, init, env, maxCycles);
    } else {
      var n := Consumed(init, env, maxCycles);
      StoppedReason(init, env, maxCycles);
      assert Consumed(events, env, maxCycles) == n;
      assert init[..n - 1] == events[..n - 1];
      assert Run(events, env, maxCycles) == Run(init, env, maxCycles);
    }
  }

  lemma CollectReason(evs: seq<AgentEvent>)
    requires evs != [] && evs[|evs| - 1].AgentFinish?
    ensures Collect(evs).stopReason == evs[|evs| - 1].stopReason
  {
  }

  ghost predicate EndsWith(evs: seq<AgentEvent>, reason: string) {
    evs != [] && evs[|evs| - 1].AgentFinish? && evs[|evs| - 1].stopReason == reason
  }

  ghost function ReasonOf(change: Change): string
    requires change.Ended? ==> change.finish.AgentFinish?
  {
    if change.Ended? then change.finish.stopReason else "bad_request"
  }

  lemma StepReason(s: V2, ev: SdkEvent, events: seq<SdkEvent>, env: Env, maxCycles: int)
    requires BufferOk(s, events) && s.status == Running && Step(s, ev, env, maxCycles).status == Finished
    ensures EndsWith(Yielded(Step(s, ev, env, maxCycles).log), Cause(ev, s.cycles >= maxCycles))
  {
    StepHasShape(s, ev, events, env, maxCycles);
    FinishIsFinish(s, ev, env, maxCycles);
    ShapeEnds(s, Step(s, ev, env, maxCycles), env, ChangeOf(s, ev, env, maxCycles));
    ChangeCause(s, ev, env, maxCycles);
  }

  lemma FinishIsFinish(s: V2, ev: SdkEvent, env: Env, maxCycles: int)
    ensures var change := ChangeOf(s, ev, env, maxCycles); change.Ended? ==> change.finish.AgentFinish?
  {
  }

  /** The last event of a finished run, by the shape of its last step. */
  lemma ShapeEnds(s: V2, t: V2, env: Env, change: Change)
    requires StepShape(s, t, env, change) && s.status == Running && t.status == Finished
    requires change.Ended? ==> change.finish.AgentFinish?
    ensures (change.Ended? || change.Answered?) && EndsWith(Yielded(t.log), ReasonOf(change))
  {
    StepYields(s, t, env, change);
    LastNewEvent(s, t, env, change);
    LastOf(Yielded(s.log), NewEvents(s, env, change));
  }

  lemma ChangeCause(s: V2, ev: SdkEvent, env: Env, maxCycles: int)
    requires var change := ChangeOf(s, ev, env, maxCycles);
      (change.Ended? || change.Answered?) && (change.Ended? ==> change.finish.AgentFinish?)
    ensures ReasonOf(ChangeOf(s, ev, env, maxCycles)) == Cause(ev, s.cycles >= maxCycles)
  {
  }
}
