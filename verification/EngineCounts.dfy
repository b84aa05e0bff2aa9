/** Counting calls, results and answers in a run. */
module EngineCounts {
  import opened Ordering
  import opened AgentEvents

  predicate IsCallFor(e: AgentEvent, id: string) { e.AgentToolCall? && e.callId == id }

  predicate IsResultFor(e: AgentEvent, id: string) { e.AgentToolResult? && e.callId == id }

  function CallCount(evs: seq<AgentEvent>, id: string): nat {
    if evs == [] then 0
    else CallCount(evs[..|evs| - 1], id) + if IsCallFor(evs[|evs| - 1], id) then 1 else 0
  }

  function ResultCount(evs: seq<AgentEvent>, id: string): nat {
    if evs == [] then 0
    else ResultCount(evs[..|evs| - 1], id) + if IsResultFor(evs[|evs| - 1], id) then 1 else 0
  }

  /** The calls among the events, in order. */
  function CallEvents(evs: seq<AgentEvent>): seq<AgentEvent> {
    if evs == [] then []
    else CallEvents(evs[..|evs| - 1]) + if evs[|evs| - 1].AgentToolCall? then [evs[|evs| - 1]] else []
  }

  /** The tool uses of a trace as calls: only a custom tool is called with the event's input. */
  function UsesAsCalls(events: seq<SdkEvent>): seq<AgentEvent> {
    if events == [] then []
    else
      var last := events[|events| - 1];
      UsesAsCalls(events[..|events| - 1])
      + if last.ToolUse? && last.id != ""
        then [AgentToolCall(last.id, last.name, if last.envelope == CustomToolUse then last.input else map[])] else []
  }

  /** How often a tool-use event with this id arrived. */
  function Arrivals(events: seq<SdkEvent>, id: string): nat {
    if events == [] then 0
    else
      Arrivals(events[..|events| - 1], id)
      + if events[|events| - 1].ToolUse? && events[|events| - 1].id == id then 1 else 0
  }

  /** How many of a batch's replies answer this id. */
  function ReplyCount(replies: seq<Reply>, id: string): nat {
    if replies == [] then 0
    else ReplyCount(replies[..|replies| - 1], id) + if ReplyId(replies[|replies| - 1]) == id then 1 else 0
  }

  /** How often an id was answered in a batch the session accepted. */
  function Answers(log: seq<Act>, id: string): nat {
    if log == [] then 0
    else
      var last := log[|log| - 1];
      Answers(log[..|log| - 1], id)
      + if last.Post? && last.outcome == Accepted then ReplyCount(last.replies, id) else 0
  }

  function AcceptedPosts(log: seq<Act>): nat {
    if log == [] then 0
    else
      AcceptedPosts(log[..|log| - 1])
      + if log[|log| - 1].Post? && log[|log| - 1].outcome == Accepted then 1 else 0
  }

  lemma {:induction false} CountAppend(a: seq<AgentEvent>, b: seq<AgentEvent>, id: string)
    ensures CallCount(a + b, id) == CallCount(a, id) + CallCount(b, id)
    ensures ResultCount(a + b, id) == ResultCount(a, id) + ResultCount(b, id)
  {
    if b == [] {
      assert a + b == a;
    } else {
      assert (a + b)[..|a + b| - 1] == a + b[..|b| - 1];
      CountAppend(a, b[..|b| - 1], id);
    }
  }

  lemma {:induction false} CallEventsAppend(a: seq<AgentEvent>, b: seq<AgentEvent>)
    ensures CallEvents(a + b) == CallEvents(a) + CallEvents(b)
  {
    if b == [] {
      assert a + b == a;
    } else {
      assert (a + b)[..|a + b| - 1] == a + b[..|b| - 1];
      CallEventsAppend(a, b[..|b| - 1]);
    }
  }

  lemma {:induction false} NoCallEvents(evs: seq<AgentEvent>)
    requires forall i | 0 <= i < |evs| :: !evs[i].AgentToolCall?
    ensures CallEvents(evs) == []
  {
    if evs != [] { NoCallEvents(evs[..|evs| - 1]); }
  }

  lemma {:induction false} AnswersAppend(a: seq<Act>, b: seq<Act>, id: string)
    ensures Answers(a + b, id) == Answers(a, id) + Answers(b, id)
    ensures AcceptedPosts(a + b) == AcceptedPosts(a) + AcceptedPosts(b)
  {
    if b == [] {
      assert a + b == a;
    } else {
      assert (a + b)[..|a + b| - 1] == a + b[..|b| - 1];
      AnswersAppend(a, b[..|b| - 1], id);
    }
  }

  lemma {:induction false} NoAnswersInYields(events: seq<AgentEvent>, id: string)
    ensures Answers(Yields(events), id) == 0 && AcceptedPosts(Yields(events)) == 0
  {
    if events != [] {
      assert Yields(events)[..|events| - 1] == Yields(events[..|events| - 1]);
      NoAnswersInYields(events[..|events| - 1], id);
    }
  }

  lemma {:induction false} NoCallsNoResults(evs: seq<AgentEvent>, id: string)
    ensures (forall i | 0 <= i < |evs| :: !IsCallFor(evs[i], id)) ==> CallCount(evs, id) == 0
    ensures (forall i | 0 <= i < |evs| :: !IsResultFor(evs[i], id)) ==> ResultCount(evs, id) == 0
  {
    if evs != [] { NoCallsNoResults(evs[..|evs| - 1], id); }
  }

  /** At every moment an id has had no more results than calls. */
  ghost predicate Balanced(evs: seq<AgentEvent>) {
    forall n: nat, id | n <= |evs| :: ResultCount(evs[..n], id) <= CallCount(evs[..n], id)
  }

  /** Every result follows a call with its id and name. */
  ghost predicate ResultsFollowCalls(evs: seq<AgentEvent>) {
    forall j | 0 <= j < |evs| && evs[j].AgentToolResult? ::
      exists i :: 0 <= i < j && IsCallFor(evs[i], evs[j].callId) && evs[i].name == evs[j].name
  }

  /** Exactly one finish, and it comes last. */
  ghost predicate EndsInOneFinish(evs: seq<AgentEvent>) {
    evs != [] && evs[|evs| - 1].AgentFinish? && forall i | 0 <= i < |evs| - 1 :: !evs[i].AgentFinish?
  }

  /** The last tool-use event with an id. */
  function LatestUse(events: seq<SdkEvent>, id: string): (u: SdkEvent)
    ensures u == Terminated || (u.ToolUse? && u.id == id)
  {
    if events == [] then Terminated
    else
      var last := events[|events| - 1];
      if last.ToolUse? && last.id == id then last else LatestUse(events[..|events| - 1], id)
  }

  /** A batch that answers its round: one reply for each requested id, in ascending order of ids and for
      no other id, each in the envelope that the latest tool-use event with that id calls for. */
  ghost predicate AnswersRound(post: Act, before: seq<SdkEvent>) {
    && post.Post?
    && |post.replies| == |SortedDistinct(post.requested)|
    && forall i | 0 <= i < |post.replies| ::
         && ReplyId(post.replies[i]) == SortedDistinct(post.requested)[i]
         && LatestUse(before, ReplyId(post.replies[i])).ToolUse?
         && (post.replies[i].CustomToolResult?
             <==> LatestUse(before, ReplyId(post.replies[i])).envelope == CustomToolUse)
  }
}
