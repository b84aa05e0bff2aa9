/** The turn recorder: it coalesces assistant deltas into turns, drops turns recorded before, and pushes the
    rest into a context window in the background. */
module TurnRecorder {
  import opened Common
  import opened JsonValue
  import opened AgentEvents
  import opened SseText
  import opened SseParser

  datatype Role = User | Assistant | System

  datatype Turn = Turn(role: Role, content: string, name: Option<string>)

  /** The settings, with the two things the recorder computes by other means: the digest of a body and the
      text of a tool event. */
  datatype Config = Config(
    includeToolEvents: bool,
    author: string,
    includeAuthorPrefix: bool,
    userSpeaker: string,
    digest: string -> string,
    toolText: AgentEvent -> string)

  datatype Key = Key(role: Role, digest: string)

  /** Only the first 500 characters of a body count. */
  function DedupeKey(turn: Turn, cfg: Config): Key {
    Key(turn.role, cfg.digest(if |turn.content| <= 500 then turn.content else turn.content[..500]))
  }

  function Keys(turns: seq<Turn>, cfg: Config): set<Key> {
    set t | t in turns :: DedupeKey(t, cfg)
  }

  predicate Blank(s: string) { Trim(Python, s) == "" }

  /** What is done to a recorder; `PushStarts` is the event loop running the oldest background push. */
  datatype Op =
    | RecordUser(content: string)
    | Delta(text: string)
    | FlushAssistant
    | Event(event: AgentEvent)
    | PushStarts

  // ---- The recorder --------------------------------------------------------------------------

  /** `queue` holds the turns whose push has been scheduled and has not begun, oldest first. */
  datatype Recorder = Recorder(seen: set<Key>, fragments: seq<string>, queue: seq<Turn>, window: seq<Turn>)

  function Fresh(window: seq<Turn>, cfg: Config): Recorder {
    Recorder(Keys(window, cfg), [], [], window)
  }

  function Record(r: Recorder, turn: Turn, cfg: Config): Recorder {
    if Blank(turn.content) || DedupeKey(turn, cfg) in r.seen then r
    else r.(seen := r.seen + {DedupeKey(turn, cfg)}, queue := r.queue + [turn])
  }

  /** The assistant turn a stretch of text makes, if it is not blank. */
  function AssistantTurn(text: string, cfg: Config): Turn {
    var body := Trim(Python, text);
    Turn(Assistant,
         if cfg.includeAuthorPrefix && cfg.author != "" then "[author=" + cfg.author + "]\n" + body else body,
         if cfg.author == "" then None else Some(cfg.author))
  }

  function Flushed(r: Recorder, cfg: Config): Recorder {
    if r.fragments == [] then r
    else
      var text := Concat(r.fragments);
      if Blank(text) then r.(fragments := []) else Record(r.(fragments := []), AssistantTurn(text, cfg), cfg)
  }

  function Buffered(r: Recorder, text: string): Recorder {
    if text == "" then r else r.(fragments := r.fragments + [text])
  }

  function UserTurn(content: string, cfg: Config): Turn { Turn(User, content, Some(cfg.userSpeaker)) }

  function ToolTurn(e: AgentEvent, cfg: Config): Turn { Turn(System, cfg.toolText(e), None) }

  function Step(r: Recorder, op: Op, cfg: Config): Recorder {
    match op
    case RecordUser(content) => Record(Flushed(r, cfg), UserTurn(content, cfg), cfg)
    case Delta(text) => Buffered(r, text)
    case FlushAssistant => Flushed(r, cfg)
    case Event(AgentTextDelta(text)) => Buffered(r, text)
    case Event(AgentFinish(_, _)) => Flushed(r, cfg)
    case Event(e) => if cfg.includeToolEvents then Record(r, ToolTurn(e, cfg), cfg) else r
    case PushStarts =>
      if r.queue == [] then r else r.(queue := r.queue[1..], window := r.window + [r.queue[0]])
  }

  function Run(window: seq<Turn>, ops: seq<Op>, cfg: Config): Recorder {
    if ops == [] then Fresh(window, cfg)
    else Step(Run(window, ops[..|ops| - 1], cfg), ops[|ops| - 1], cfg)
  }

  // ---- The recorder as an object -------------------------------------------------------------

  class ContextWindow {
    var turns: seq<Turn>

    constructor (initialTurns: seq<Turn>)
      ensures turns == initialTurns
    {
      turns := initialTurns;
    }

    method AddTurn(turn: Turn)
      modifies this
      ensures turns == old(turns) + [turn]
    {
      turns := turns + [turn];
    }

    method GetTurns() returns (copy: seq<Turn>)
      ensures copy == turns
    {
      return turns;
    }
  }

  class CopassTurnRecorder {
    const cfg: Config
    const window: ContextWindow
    var seen: set<Key>
    var pendingAssistantText: seq<string>
    var pendingPushes: seq<Turn>

    ghost function View(): Recorder
      reads this, window
    {
      Recorder(seen, pendingAssistantText, pendingPushes, window.turns)
    }

    /** A recorder knows the turns its window already has. */
    constructor (window: ContextWindow, cfg: Config)
      ensures this.window == window && this.cfg == cfg
      ensures View() == Fresh(window.turns, cfg)
    {
      this.window := window;
      this.cfg := cfg;
      seen, pendingAssistantText, pendingPushes := {}, [], [];
      new;
      for i := 0 to |window.turns|
        invariant pendingAssistantText == [] && pendingPushes == []
        invariant seen == Keys(window.turns[..i], cfg)
      {
        assert window.turns[..i + 1] == window.turns[..i] + [window.turns[i]];
        KeysAppend(window.turns[..i], window.turns[i], cfg);
        seen := seen + {DedupeKey(window.turns[i], cfg)};
      }
      assert window.turns[..|window.turns|] == window.turns;
    }

    method RecordTurn(turn: Turn)
      modifies this
      ensures View() == Record(old(View()), turn, cfg)
    {
      if Blank(turn.content) { return; }
      var key := DedupeKey(turn, cfg);
      if key in seen { return; }
      seen := seen + {key};
      pendingPushes := pendingPushes + [turn];
    }

    method FlushPending()
      modifies this
      ensures View() == Flushed(old(View()), cfg)
    {
      if pendingAssistantText == [] { return; }
      var text := Trim(Python, Concat(pendingAssistantText));
      pendingAssistantText := [];
      if text == "" { return; }
      if cfg.includeAuthorPrefix && cfg.author != "" { text := "[author=" + cfg.author + "]\n" + text; }
      RecordTurn(Turn(Assistant, text, if cfg.author == "" then None else Some(cfg.author)));
    }

    method RecordUserTurn(content: string)
      modifies this
      ensures View() == Step(old(View()), RecordUser(content), cfg)
    {
      FlushPending();
      RecordTurn(UserTurn(content, cfg));
    }

    method RecordAssistantDelta(text: string)
      modifies this
      ensures View() == Step(old(View()), Delta(text), cfg)
    {
      if text != "" { pendingAssistantText := pendingAssistantText + [text]; }
    }

    method RecordEvent(e: AgentEvent)
      modifies this
      ensures View() == Step(old(View()), Event(e), cfg)
    {
      match e
      case AgentTextDelta(text) => RecordAssistantDelta(text);
      case AgentFinish(_, _) => FlushPending();
      case _ => if cfg.includeToolEvents { RecordTurn(ToolTurn(e, cfg)); }
    }

    method StartPush()
      modifies this, window
      ensures View() == Step(old(View()), PushStarts, cfg)
    {
      if pendingPushes == [] { return; }
      var turn := pendingPushes[0];
      pendingPushes := pendingPushes[1..];
      window.AddTurn(turn);
    }

    /** `flush`: every scheduled push gets to run, in order. */
    method Flush()
      modifies this, window
      ensures View() == old(View()).(queue := [], window := old(View()).window + old(View()).queue)
    {
      while pendingPushes != []
        invariant seen == old(seen) && pendingAssistantText == old(pendingAssistantText)
        invariant window.turns + pendingPushes == old(window.turns + pendingPushes)
        decreases |pendingPushes|
      {
        assert pendingPushes == [pendingPushes[0]] + pendingPushes[1..];
        StartPush();
      }
    }

    /** `record_stream`: every event is recorded and yielded unchanged; at the end the pushes are awaited,
        but text still buffered is not flushed. */
    method RecordStream(stream: seq<AgentEvent>) returns (yielded: seq<AgentEvent>)
      modifies this, window
      ensures yielded == stream
      ensures var r := Recorded(old(View()), stream, cfg);
        View() == r.(queue := [], window := r.window + r.queue)
    {
      yielded := [];
      for i := 0 to |stream|
        invariant yielded == stream[..i]
        invariant View() == Recorded(old(View()), stream[..i], cfg)
      {
        assert stream[..i + 1][..i] == stream[..i];
        RecordEvent(stream[i]);
        yielded := yielded + [stream[i]];
      }
      assert stream[..|stream|] == stream;
      Flush();
    }
  }

  /** The recorder after a stream of events. */
  function Recorded(r: Recorder, stream: seq<AgentEvent>, cfg: Config): Recorder {
    if stream == [] then r
    else Step(Recorded(r, stream[..|stream| - 1], cfg), Event(stream[|stream| - 1]), cfg)
  }

  lemma KeysAppend(turns: seq<Turn>, t: Turn, cfg: Config)
    ensures Keys(turns + [t], cfg) == Keys(turns, cfg) + {DedupeKey(t, cfg)}
  {
    assert forall x :: x in turns + [t] <==> x in turns || x == t;
  }
}
