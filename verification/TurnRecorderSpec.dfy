/** What a recorder has recorded, stated on the history of operations alone. */
module TurnRecorderSpec {
  import opened Common
  import opened JsonValue
  import opened AgentEvents
  import opened SseText
  import opened SseParser
  import opened TurnRecorder

  // ---- The turns a history calls for ---------------------------------------------------------

  /** The assistant text an operation carries. */
  function TextOf(op: Op): string {
    match op
    case Delta(text) => text
    case Event(AgentTextDelta(text)) => text
    case _ => ""
  }

  /** Operations that complete the assistant's turn. */
  predicate Completes(op: Op) {
    op.RecordUser? || op.FlushAssistant? || (op.Event? && op.event.AgentFinish?)
  }

  /** The assistant text since the turn was last completed. */
  function OpenText(ops: seq<Op>): string {
    if ops == [] || Completes(ops[|ops| - 1]) then "" else OpenText(ops[..|ops| - 1]) + TextOf(ops[|ops| - 1])
  }

  function Unless(blank: bool, turn: Turn): seq<Turn> { if blank then [] else [turn] }

  /** The turns an operation calls for, given the open text before it: the assistant's, trimmed and named by the
      author, then the user's under the user's speaker; or a tool event's under no name. */
  function Called(open: string, op: Op, cfg: Config): seq<Turn> {
    var prefix := if cfg.includeAuthorPrefix && cfg.author != "" then "[author=" + cfg.author + "]\n" else "";
    if Completes(op) then
      Unless(Blank(open), Turn(Assistant, prefix + Trim(Python, open), if cfg.author == "" then None else Some(cfg.author)))
      + if op.RecordUser? then Unless(Blank(op.content), Turn(User, op.content, Some(cfg.userSpeaker))) else []
    else if op.Event? && !op.event.AgentTextDelta? && cfg.includeToolEvents then
      Unless(Blank(cfg.toolText(op.event)), Turn(System, cfg.toolText(op.event), None))
    else []
  }

  /** Turns of one role whose first 500 characters have one digest. */
  predicate Duplicates(a: Turn, b: Turn, cfg: Config) {
    a.role == b.role && cfg.digest(First500(a.content)) == cfg.digest(First500(b.content))
  }

  function First500(s: string): (head: string)
    ensures head <= s && |head| == if |s| < 500 then |s| else 500
  {
    if |s| <= 500 then s else s[..500]
  }

  /** The turns that duplicate neither a known one nor one before them. */
  function WithoutDuplicates(known: seq<Turn>, turns: seq<Turn>, cfg: Config): seq<Turn> {
    if turns == [] then []
    else
      var init, last := turns[..|turns| - 1], turns[|turns| - 1];
      WithoutDuplicates(known, init, cfg)
      + if exists t | t in known + init :: Duplicates(t, last, cfg) then [] else [last]
  }

  /** What the operations of a history call for, in order. */
  function TurnsBy(ops: seq<Op>, called: (string, Op) -> seq<Turn>): seq<Turn> {
    if ops == [] then []
    else
      var init := ops[..|ops| - 1];
      TurnsBy(init, called) + called(OpenText(init), ops[|ops| - 1])
  }

  function CalledUnder(cfg: Config): (string, Op) -> seq<Turn> { (open, op) => Called(open, op, cfg) }

  function AllTurns(ops: seq<Op>, cfg: Config): seq<Turn> { TurnsBy(ops, CalledUnder(cfg)) }

  /** The first turn of each key not known before. */
  function Dedup(known: set<Key>, turns: seq<Turn>, cfg: Config): seq<Turn> {
    if turns == [] then []
    else
      var init, last := turns[..|turns| - 1], turns[|turns| - 1];
      Dedup(known, init, cfg) + if DedupeKey(last, cfg) in known + Keys(init, cfg) then [] else [last]
  }

  lemma KeyMeans(a: Turn, b: Turn, cfg: Config)
    ensures DedupeKey(a, cfg) == DedupeKey(b, cfg) <==> Duplicates(a, b, cfg)
  {
  }

  /** Duplicates are told by their keys. */
  lemma {:induction false} DedupMeans(known: seq<Turn>, turns: seq<Turn>, cfg: Config)
    ensures Dedup(Keys(known, cfg), turns, cfg) == WithoutDuplicates(known, turns, cfg)
  {
    if turns != [] {
      var init, last := turns[..|turns| - 1], turns[|turns| - 1];
      DedupMeans(known, init, cfg);
      forall t ensures DedupeKey(t, cfg) == DedupeKey(last, cfg) <==> Duplicates(t, last, cfg) { KeyMeans(t, last, cfg); }
      assert DedupeKey(last, cfg) in Keys(known, cfg) + Keys(init, cfg)
        <==> exists t | t in known + init :: Duplicates(t, last, cfg);
    }
  }

  // ---- Refinement ----------------------------------------------------------------------------

  lemma DedupAppend(known: set<Key>, turns: seq<Turn>, t: Turn, cfg: Config)
    ensures Dedup(known, turns + [t], cfg)
         == Dedup(known, turns, cfg) + if DedupeKey(t, cfg) in known + Keys(turns, cfg) then [] else [t]
  {
    assert (turns + [t])[..|turns|] == turns;
  }

  /** A recorder agrees with a list of turns it was asked to record. */
  ghost predicate Agrees(r: Recorder, initial: seq<Turn>, turns: seq<Turn>, cfg: Config) {
    && r.window + r.queue == initial + Dedup(Keys(initial, cfg), turns, cfg)
    && r.seen == Keys(initial, cfg) + Keys(turns, cfg)
    && initial <= r.window
  }

  lemma RecordAgrees(r: Recorder, turn: Turn, initial: seq<Turn>, turns: seq<Turn>, cfg: Config)
    requires Agrees(r, initial, turns, cfg)
    ensures Agrees(Record(r, turn, cfg), initial, turns + Unless(Blank(turn.content), turn), cfg)
    ensures Record(r, turn, cfg).fragments == r.fragments
  {
    if Blank(turn.content) {
      assert turns + [] == turns;
    } else {
      DedupAppend(Keys(initial, cfg), turns, turn, cfg);
      KeysAppend(turns, turn, cfg);
      var d := Dedup(Keys(initial, cfg), turns, cfg);
      assert d + [] == d;
      Associative(initial, d, [turn]);
      Associative(r.window, r.queue, [turn]);
    }
  }

  /** A prefix does not make a body blank. */
  lemma PrefixNotBlank(text: string, cfg: Config)
    requires !Blank(text)
    ensures !Blank(AssistantTurn(text, cfg).content)
  {
    var body := Trim(Python, text);
    if cfg.includeAuthorPrefix && cfg.author != "" {
      TrimKeepsFirst("[author=" + cfg.author + "]\n" + body);
    } else {
      TrimTwice(text);
    }
  }

  lemma {:induction false} RightEnds(s: string)
    ensures var t := TrimRight(Python, s); t != "" ==> !IsSpace(Python, t[|t| - 1])
    ensures TrimRight(Python, s) <= s
  {
    if s != "" && IsSpace(Python, s[|s| - 1]) { RightEnds(s[..|s| - 1]); }
  }

  lemma {:induction false} LeftStarts(s: string)
    ensures var t := TrimLeft(Python, s); t != "" ==> !IsSpace(Python, t[0])
  {
    if s != "" && IsSpace(Python, s[0]) { LeftStarts(s[1..]); }
  }

  lemma {:induction false} KeepsNonSpace(s: string)
    requires s != "" && !IsSpace(Python, s[0])
    ensures TrimRight(Python, s) != ""
  {
    if IsSpace(Python, s[|s| - 1]) { KeepsNonSpace(s[..|s| - 1]); }
  }

  lemma TrimKeepsFirst(s: string)
    requires s != "" && !IsSpace(Python, s[0])
    ensures !Blank(s)
  {
    KeepsNonSpace(s);
  }

  lemma TrimTwice(s: string)
    requires !Blank(s)
    ensures !Blank(Trim(Python, s))
  {
    LeftStarts(s);
    RightEnds(TrimLeft(Python, s));
    var t := Trim(Python, s);
    assert t != "" && !IsSpace(Python, t[0]);
    TrimKeepsFirst(t);
  }

  lemma FlushAgrees(r: Recorder, initial: seq<Turn>, turns: seq<Turn>, cfg: Config)
    requires Agrees(r, initial, turns, cfg)
    ensures var text := Concat(r.fragments);
      Agrees(Flushed(r, cfg), initial, turns + Unless(Blank(text), AssistantTurn(text, cfg)), cfg)
    ensures Flushed(r, cfg).fragments == []
  {
    var text := Concat(r.fragments);
    if Blank(text) {
      assert turns + [] == turns;
    } else {
      PrefixNotBlank(text, cfg);
      assert r.fragments != [] by { assert Concat([]) == ""; }
      RecordAgrees(r.(fragments := []), AssistantTurn(text, cfg), initial, turns, cfg);
    }
  }

  lemma BufferedText(r: Recorder, text: string)
    ensures Concat(Buffered(r, text).fragments) == Concat(r.fragments) + text
  {
    if text != "" { assert (r.fragments + [text])[..|r.fragments|] == r.fragments; }
  }

  /** What the recorder is asked to record for an operation. */
  function Recording(open: string, op: Op, cfg: Config): seq<Turn> {
    if Completes(op) then
      Unless(Blank(open), AssistantTurn(open, cfg))
      + if op.RecordUser? then Unless(Blank(op.content), UserTurn(op.content, cfg)) else []
    else if op.Event? && !op.event.AgentTextDelta? && cfg.includeToolEvents then
      Unless(Blank(cfg.toolText(op.event)), ToolTurn(op.event, cfg))
    else []
  }

  /** It is what the history calls for. */
  lemma RecordingIsCalled(open: string, op: Op, cfg: Config)
    ensures Recording(open, op, cfg) == Called(open, op, cfg)
  {
    assert "" + Trim(Python, open) == Trim(Python, open);
    assert "[author=" + cfg.author + "]\n" + Trim(Python, open) == ("[author=" + cfg.author + "]\n") + Trim(Python, open);
  }

  lemma StepAgrees(r: Recorder, op: Op, initial: seq<Turn>, turns: seq<Turn>, cfg: Config)
    requires Agrees(r, initial, turns, cfg)
    ensures Agrees(Step(r, op, cfg), initial, turns + Recording(Concat(r.fragments), op, cfg), cfg)
    ensures Concat(Step(r, op, cfg).fragments) == if Completes(op) then "" else Concat(r.fragments) + TextOf(op)
  {
    var open := Concat(r.fragments);
    assert turns + [] == turns && open + "" == open;
    if Completes(op) {
      FlushAgrees(r, initial, turns, cfg);
      var assistant := Unless(Blank(open), AssistantTurn(open, cfg));
      assert assistant + [] == assistant;
      if op.RecordUser? {
        RecordAgrees(Flushed(r, cfg), UserTurn(op.content, cfg), initial, turns + assistant, cfg);
        Associative(turns, assistant, Unless(Blank(op.content), UserTurn(op.content, cfg)));
      }
    } else if op.PushStarts? {
      PushAgrees(r, initial, turns, cfg);
    } else if op.Delta? {
      BufferedText(r, op.text);
    } else if op.event.AgentTextDelta? {
      BufferedText(r, op.event.text);
    } else if cfg.includeToolEvents {
      RecordAgrees(r, ToolTurn(op.event, cfg), initial, turns, cfg);
    }
  }

  lemma PushAgrees(r: Recorder, initial: seq<Turn>, turns: seq<Turn>, cfg: Config)
    requires Agrees(r, initial, turns, cfg)
    ensures Agrees(Step(r, PushStarts, cfg), initial, turns, cfg)
  {
    if r.queue != [] {
      assert r.queue == [r.queue[0]] + r.queue[1..];
      Associative(r.window, [r.queue[0]], r.queue[1..]);
    }
  }

  /** In every reachable state the window followed by the queue of pending pushes is the initial window
      followed by the history's coalesced turns, but for duplicates of what the window had or of each other. */
  lemma RecorderRefines(initial: seq<Turn>, ops: seq<Op>, cfg: Config)
    ensures var r := Run(initial, ops, cfg);
      && r.window + r.queue == initial + WithoutDuplicates(initial, AllTurns(ops, cfg), cfg)
      && initial <= r.window
      && Agrees(r, initial, AllTurns(ops, cfg), cfg)
      && Concat(r.fragments) == OpenText(ops)
  {
    RunAgrees(initial, ops, cfg);
    DedupMeans(initial, AllTurns(ops, cfg), cfg);
  }

  lemma {:induction false} RunAgrees(initial: seq<Turn>, ops: seq<Op>, cfg: Config)
    ensures var r := Run(initial, ops, cfg);
      Agrees(r, initial, AllTurns(ops, cfg), cfg) && Concat(r.fragments) == OpenText(ops)
  {
    if ops == [] {
      assert Keys([], cfg) == {};
      assert initial + [] == initial;
    } else {
      var init := ops[..|ops| - 1];
      RunAgrees(initial, init, cfg);
      StepAgrees(Run(initial, init, cfg), ops[|ops| - 1], initial, AllTurns(init, cfg), cfg);
      RecordingIsCalled(OpenText(init), ops[|ops| - 1], cfg);
    }
  }
}
