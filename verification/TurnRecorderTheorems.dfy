/** The recorder's main results: how text is cut does not matter, replaying records only what is missing, and
    exactly which text a stream leaves unrecorded. */
module TurnRecorderTheorems {
  import opened Common
  import opened JsonValue
  import opened AgentEvents
  import opened SseText
  import opened SseParser
  import opened TurnRecorder
  import opened TurnRecorderSpec

  // ---- Cutting text into deltas --------------------------------------------------------------

  function Deltas(cuts: seq<string>): seq<Op> {
    seq(|cuts|, i requires 0 <= i < |cuts| => Delta(cuts[i]))
  }

  lemma NextOpen(ops: seq<Op>, op: Op)
    ensures OpenText(ops + [op]) == if Completes(op) then "" else OpenText(ops) + TextOf(op)
  {
    assert (ops + [op])[..|ops|] == ops;
  }

  lemma NextTurns(ops: seq<Op>, op: Op, called: (string, Op) -> seq<Turn>)
    ensures TurnsBy(ops + [op], called) == TurnsBy(ops, called) + called(OpenText(ops), op)
  {
    assert (ops + [op])[..|ops|] == ops;
  }

  lemma FirstAcross<T>(a: seq<T>, b: seq<T>)
    requires b != []
    ensures a + b == a + [b[0]] + b[1..]
  {
  }

  lemma LastDelta(before: seq<Op>, cuts: seq<string>)
    requires cuts != []
    ensures var n := |cuts| - 1; before + Deltas(cuts) == before + Deltas(cuts[..n]) + [Delta(cuts[n])]
  {
  }

  /** Histories that are the same to a recorder. */
  ghost predicate Alike(a: seq<Op>, b: seq<Op>, called: (string, Op) -> seq<Turn>) {
    OpenText(a) == OpenText(b) && TurnsBy(a, called) == TurnsBy(b, called)
  }

  /** Histories that are alike stay so when the same operations follow. */
  lemma {:induction false} SameFuture(a: seq<Op>, b: seq<Op>, more: seq<Op>, called: (string, Op) -> seq<Turn>)
    requires Alike(a, b, called)
    ensures Alike(a + more, b + more, called)
    decreases |more|
  {
    if more == [] {
      assert a + more == a && b + more == b;
    } else {
      NextOpen(a, more[0]);
      NextOpen(b, more[0]);
      NextTurns(a, more[0], called);
      NextTurns(b, more[0], called);
      SameFuture(a + [more[0]], b + [more[0]], more[1..], called);
      FirstAcross(a, more);
      FirstAcross(b, more);
    }
  }

  lemma {:induction false} DeltasOpen(before: seq<Op>, cuts: seq<string>, called: (string, Op) -> seq<Turn>)
    requires forall open, text :: called(open, Delta(text)) == []
    ensures OpenText(before + Deltas(cuts)) == OpenText(before) + Concat(cuts)
    ensures TurnsBy(before + Deltas(cuts), called) == TurnsBy(before, called)
  {
    if cuts == [] {
      assert before + Deltas(cuts) == before;
      assert OpenText(before) + "" == OpenText(before);
    } else {
      var n := |cuts| - 1;
      var ops := before + Deltas(cuts[..n]);
      DeltasOpen(before, cuts[..n], called);
      NextOpen(ops, Delta(cuts[n]));
      NextTurns(ops, Delta(cuts[n]), called);
      LastDelta(before, cuts);
      Associative(OpenText(before), Concat(cuts[..n]), cuts[n]);
      assert TurnsBy(before, called) + [] == TurnsBy(before, called);
    }
  }

  /** Two cuts of the same text, anywhere in a history, leave the recorder with the same turns recorded, the
      same open text and the same memory of keys. */
  lemma CutsDoNotMatter(initial: seq<Turn>, before: seq<Op>, a: seq<string>, b: seq<string>, more: seq<Op>, cfg: Config)
    requires Concat(a) == Concat(b)
    ensures var r, s := Run(initial, before + Deltas(a) + more, cfg), Run(initial, before + Deltas(b) + more, cfg);
      && r.window + r.queue == s.window + s.queue
      && Concat(r.fragments) == Concat(s.fragments)
      && r.seen == s.seen
  {
    DeltasOpen(before, a, CalledUnder(cfg));
    DeltasOpen(before, b, CalledUnder(cfg));
    SameFuture(before + Deltas(a), before + Deltas(b), more, CalledUnder(cfg));
    RecorderRefines(initial, before + Deltas(a) + more, cfg);
    RecorderRefines(initial, before + Deltas(b) + more, cfg);
  }

  // ---- Replay --------------------------------------------------------------------------------

  /** Without the turns of the given keys. */
  function Except(turns: seq<Turn>, keys: set<Key>, cfg: Config): seq<Turn> {
    if turns == [] then []
    else
      Except(turns[..|turns| - 1], keys, cfg)
      + if DedupeKey(turns[|turns| - 1], cfg) in keys then [] else [turns[|turns| - 1]]
  }

  lemma ExceptAppend(turns: seq<Turn>, t: Turn, keys: set<Key>, cfg: Config)
    ensures Except(turns + [t], keys, cfg) == Except(turns, keys, cfg) + if DedupeKey(t, cfg) in keys then [] else [t]
  {
    assert (turns + [t])[..|turns|] == turns;
  }

  lemma {:induction false} DedupKnowingMore(known: set<Key>, more: set<Key>, turns: seq<Turn>, cfg: Config)
    ensures Dedup(known + more, turns, cfg) == Except(Dedup(known, turns, cfg), more, cfg)
  {
    if turns != [] {
      var init, last := turns[..|turns| - 1], turns[|turns| - 1];
      DedupKnowingMore(known, more, init, cfg);
      var d := Dedup(known, init, cfg);
      ExceptAppend(d, last, more, cfg);
      assert d + [] == d && Except(d, more, cfg) + [] == Except(d, more, cfg);
    }
  }

  ghost predicate DistinctKeys(turns: seq<Turn>, cfg: Config) {
    forall i, j | 0 <= i < j < |turns| :: DedupeKey(turns[i], cfg) != DedupeKey(turns[j], cfg)
  }

  /** No two recorded turns have the same key, and none has a key known before. */
  lemma {:induction false} DedupDistinct(known: set<Key>, turns: seq<Turn>, cfg: Config)
    ensures DistinctKeys(Dedup(known, turns, cfg), cfg)
    ensures Keys(Dedup(known, turns, cfg), cfg) == Keys(turns, cfg) - known
  {
    if turns != [] {
      var init, last := turns[..|turns| - 1], turns[|turns| - 1];
      DedupDistinct(known, init, cfg);
      assert turns == init + [last];
      KeysAppend(init, last, cfg);
      var d := Dedup(known, init, cfg);
      assert forall i | 0 <= i < |d| :: DedupeKey(d[i], cfg) in Keys(d, cfg);
      KeysAppend(d, last, cfg);
      assert d + [] == d;
    }
  }

  lemma {:induction false} ExceptPrefix(turns: seq<Turn>, k: nat, cfg: Config)
    requires k <= |turns| && DistinctKeys(turns, cfg)
    ensures Except(turns, Keys(turns[..k], cfg), cfg) == turns[k..]
  {
    if k == |turns| {
      ExceptAll(turns, Keys(turns[..k], cfg), cfg);
    } else {
      var n := |turns| - 1;
      assert turns[..n][..k] == turns[..k];
      ExceptPrefix(turns[..n], k, cfg);
      assert turns[k..] == turns[..n][k..] + [turns[n]];
      assert forall i | 0 <= i < k :: DedupeKey(turns[i], cfg) != DedupeKey(turns[n], cfg);
    }
  }

  lemma {:induction false} ExceptAll(turns: seq<Turn>, keys: set<Key>, cfg: Config)
    requires Keys(turns, cfg) <= keys
    ensures Except(turns, keys, cfg) == []
  {
    if turns != [] {
      var init := turns[..|turns| - 1];
      assert turns == init + [turns[|turns| - 1]];
      KeysAppend(init, turns[|turns| - 1], cfg);
      ExceptAll(init, keys, cfg);
    }
  }

  lemma KeysConcat(a: seq<Turn>, b: seq<Turn>, cfg: Config)
    ensures Keys(a + b, cfg) == Keys(a, cfg) + Keys(b, cfg)
  {
    assert forall x :: x in a + b <==> x in a || x in b;
  }

  /** Where a window that grew out of another stands in the list of turns recorded. */
  lemma Split(window: seq<Turn>, queue: seq<Turn>, initial: seq<Turn>, recorded: seq<Turn>)
    requires window + queue == initial + recorded && initial <= window
    ensures var k := |window| - |initial|;
      k <= |recorded| && window == initial + recorded[..k] && queue == recorded[k..]
  {
    var k := |window| - |initial|;
    assert |window + queue| == |initial + recorded|;
    assert window == (window + queue)[..|window|] == (initial + recorded)[..|window|];
    assert queue == (window + queue)[|window|..] == (initial + recorded)[|window|..];
  }

  /** A recorder rebuilt on the window of another and given the same history again records exactly the turns
      whose push had not begun, in their order. */
  lemma ReplayAddsMissing(initial: seq<Turn>, ops: seq<Op>, cfg: Config)
    ensures var r := Run(initial, ops, cfg);
      var again := Run(r.window, ops, cfg);
      again.window + again.queue == r.window + r.queue
  {
    var r, turns := Run(initial, ops, cfg), AllTurns(ops, cfg);
    RunAgrees(initial, ops, cfg);
    ReplayOf(initial, r.window, r.queue, turns, cfg);
    RunAgrees(r.window, ops, cfg);
  }

  lemma ReplayOf(initial: seq<Turn>, window: seq<Turn>, queue: seq<Turn>, turns: seq<Turn>, cfg: Config)
    requires window + queue == initial + Dedup(Keys(initial, cfg), turns, cfg) && initial <= window
    ensures Dedup(Keys(window, cfg), turns, cfg) == queue
  {
    Split(window, queue, initial, Dedup(Keys(initial, cfg), turns, cfg));
    Resumed(initial, window, turns, |window| - |initial|, cfg);
  }

  /** Knowing the first k recorded turns as well leaves the rest to record. */
  lemma Resumed(initial: seq<Turn>, window: seq<Turn>, turns: seq<Turn>, k: nat, cfg: Config)
    requires var d := Dedup(Keys(initial, cfg), turns, cfg); k <= |d| && window == initial + d[..k]
    ensures Dedup(Keys(window, cfg), turns, cfg) == Dedup(Keys(initial, cfg), turns, cfg)[k..]
  {
    var known := Keys(initial, cfg);
    var d := Dedup(known, turns, cfg);
    KeysConcat(initial, d[..k], cfg);
    DedupKnowingMore(known, Keys(d[..k], cfg), turns, cfg);
    DedupDistinct(known, turns, cfg);
    ExceptPrefix(d, k, cfg);
  }

  /** So replaying adds nothing exactly when the pushes were awaited first. */
  lemma ReplayAddsNothingIff(initial: seq<Turn>, ops: seq<Op>, cfg: Config)
    ensures var r := Run(initial, ops, cfg);
      var again := Run(r.window, ops, cfg);
      again.window + again.queue == r.window <==> r.queue == []
  {
    ReplayAddsMissing(initial, ops, cfg);
    var r := Run(initial, ops, cfg);
    assert r.queue == [] ==> r.window + r.queue == r.window;
    assert r.queue != [] ==> |r.window + r.queue| != |r.window|;
  }

  // ---- What a stream leaves behind -----------------------------------------------------------

  function AsOps(stream: seq<AgentEvent>): seq<Op> {
    seq(|stream|, i requires 0 <= i < |stream| => Event(stream[i]))
  }

  lemma {:induction false} RecordedIsRun(initial: seq<Turn>, ops: seq<Op>, stream: seq<AgentEvent>, cfg: Config)
    ensures Recorded(Run(initial, ops, cfg), stream, cfg) == Run(initial, ops + AsOps(stream), cfg)
  {
    if stream == [] {
      assert ops + AsOps(stream) == ops;
    } else {
      var n := |stream| - 1;
      RecordedIsRun(initial, ops, stream[..n], cfg);
      var all := ops + AsOps(stream);
      assert all[..|all| - 1] == ops + AsOps(stream[..n]) && all[|all| - 1] == Event(stream[n]);
    }
  }

  /** The text since the stream's last finish. */
  function TailText(stream: seq<AgentEvent>): string {
    if stream == [] || stream[|stream| - 1].AgentFinish? then ""
    else
      TailText(stream[..|stream| - 1])
      + if stream[|stream| - 1].AgentTextDelta? then stream[|stream| - 1].text else ""
  }

  ghost predicate HasFinish(stream: seq<AgentEvent>) {
    exists i :: 0 <= i < |stream| && stream[i].AgentFinish?
  }

  lemma FinishSeen(stream: seq<AgentEvent>)
    requires stream != []
    ensures HasFinish(stream) <==> HasFinish(stream[..|stream| - 1]) || stream[|stream| - 1].AgentFinish?
  {
    var n := |stream| - 1;
    assert forall i | 0 <= i < n :: stream[..n][i] == stream[i];
    if HasFinish(stream[..n]) {
      var i :| 0 <= i < n && stream[..n][i].AgentFinish?;
      assert stream[i].AgentFinish?;
    }
  }

  lemma {:induction false} StreamTail(ops: seq<Op>, stream: seq<AgentEvent>)
    ensures OpenText(ops + AsOps(stream)) == (if HasFinish(stream) then "" else OpenText(ops)) + TailText(stream)
  {
    if stream == [] {
      assert ops + AsOps(stream) == ops;
      assert OpenText(ops) + "" == OpenText(ops);
    } else {
      var n := |stream| - 1;
      var e, before := stream[n], if HasFinish(stream[..n]) then "" else OpenText(ops);
      StreamTail(ops, stream[..n]);
      assert ops + AsOps(stream) == (ops + AsOps(stream[..n])) + [Event(e)];
      NextOpen(ops + AsOps(stream[..n]), Event(e));
      FinishSeen(stream);
      if !e.AgentFinish? { Associative(before, TailText(stream[..n]), if e.AgentTextDelta? then e.text else ""); }
    }
  }

  /** Recording a stream and awaiting the pushes leaves nothing pending but text: an explicit flush would
      still add a turn exactly when the text after the stream's last finish (together with what was open
      before, if there was no finish) is not blank and makes a turn whose key is new. */
  lemma StreamLeavesTail(initial: seq<Turn>, ops: seq<Op>, stream: seq<AgentEvent>, cfg: Config)
    ensures var r := Recorded(Run(initial, ops, cfg), stream, cfg);
      var open := (if HasFinish(stream) then "" else OpenText(ops)) + TailText(stream);
      && r.window + r.queue == initial + Dedup(Keys(initial, cfg), AllTurns(ops + AsOps(stream), cfg), cfg)
      && (Flushed(r, cfg).window + Flushed(r, cfg).queue != r.window + r.queue
          <==> !Blank(open) && DedupeKey(AssistantTurn(open, cfg), cfg) !in r.seen)
  {
    var r := Recorded(Run(initial, ops, cfg), stream, cfg);
    RecordedIsRun(initial, ops, stream, cfg);
    RecorderRefines(initial, ops + AsOps(stream), cfg);
    StreamTail(ops, stream);
    var open := Concat(r.fragments);
    assert Concat([]) == "";
    if !Blank(open) { PrefixNotBlank(open, cfg); }
    var f := Flushed(r, cfg);
    assert f.window == r.window && (f.queue == r.queue || |f.queue| == |r.queue| + 1);
    assert f.queue != r.queue ==> |f.window + f.queue| != |r.window + r.queue|;
  }

  /** A stream that ends in a finish leaves no text behind. */
  lemma FinishedStreamLeavesNothing(initial: seq<Turn>, ops: seq<Op>, stream: seq<AgentEvent>, cfg: Config)
    requires stream != [] && stream[|stream| - 1].AgentFinish?
    ensures var r := Recorded(Run(initial, ops, cfg), stream, cfg); r.fragments == [] && Flushed(r, cfg) == r
  {
    var n := |stream| - 1;
    var s := Recorded(Run(initial, ops, cfg), stream[..n], cfg);
    assert Recorded(Run(initial, ops, cfg), stream, cfg) == Flushed(s, cfg);
  }
}
