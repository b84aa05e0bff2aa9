/** The line-by-line event-stream machine of section 9.2.6 of the WHATWG HTML Living Standard, and the
    block-splitting parser measured against it. */
module SseStandard {
  import opened Common
  import opened SseText
  import opened SseParser

  // ---- The standard's machine ----------------------------------------------------------------

  /** Terminated lines only: a line ends at CR LF, LF or CR, and an unterminated rest is discarded. */
  function StdLines(t: string, cur: string): seq<string> {
    if t == "" then []
    else if CrLfAt(t, 0) then [cur] + StdLines(t[2..], "")
    else if t[0] == '\r' || t[0] == '\n' then [cur] + StdLines(t[1..], "")
    else StdLines(t[1..], cur + [t[0]])
  }

  /** The event type buffer and the data buffer. */
  datatype Buffers = Buffers(eventType: string, data: string)

  const EMPTY := Buffers("", "")

  function StdField(b: Buffers, field: string, value: string): Buffers {
    if field == "event" then b.(eventType := value)
    else if field == "data" then b.(data := b.data + value + "\n")
    else b
  }

  function StdDispatch(b: Buffers): Option<RawSseFrame> {
    if b.data == "" then None
    else
      Some(RawSseFrame(
             if b.eventType == "" then "message" else b.eventType,
             if b.data[|b.data| - 1] == '\n' then b.data[..|b.data| - 1] else b.data))
  }

  function StdLine(b: Buffers, line: string): (Buffers, Option<RawSseFrame>) {
    if line == "" then (EMPTY, StdDispatch(b))
    else if line[0] == ':' then (b, None)
    else
      var colon := IndexOf(line, ':');
      if colon >= 0 then (StdField(b, line[..colon], DropSpace(line[colon + 1..])), None)
      else (StdField(b, line, ""), None)
  }

  /** The frames dispatched while processing lines from a given state of the buffers. */
  function StdRun(b: Buffers, lines: seq<string>): seq<RawSseFrame>
    decreases |lines|
  {
    if lines == [] then []
    else
      var (next, frame) := StdLine(b, lines[0]);
      Optional(frame) + StdRun(next, lines[1..])
  }

  const BOM: char := '\U{FEFF}'

  /** One leading byte order mark is stripped. */
  function StdEvents(t: string): seq<RawSseFrame> {
    StdRun(EMPTY, StdLines(if t != "" && t[0] == BOM then t[1..] else t, ""))
  }

  // ---- Streams on which the two can agree ----------------------------------------------------

  /** No bare CR, no byte order mark, and no line that is the bare field name `event`, which the standard reads as
      an empty event name and the parser skips. */
  ghost predicate NamedStream(t: string) {
    && NoBareCr(t)
    && (t != "" ==> t[0] != BOM)
    && "event" !in StdLines(t, "")
  }

  /** No line of a complete block is the bare field name `data`, which the standard reads as an empty data
      line and the parser skips. */
  predicate NoBareData(blocks: seq<string>) {
    forall b :: b in blocks ==> "data" !in SplitLf(b)
  }

  predicate HasData(lines: seq<string>) {
    exists i :: 0 <= i < |lines| && "data:" <= lines[i]
  }

  predicate BlankEvent(line: string) { line == "event:" || line == "event: " }

  /** The last event field has an empty value. */
  predicate BlankName(lines: seq<string>) {
    exists i :: 0 <= i < |lines| && BlankEvent(lines[i]) && forall j | i < j < |lines| :: !("event:" <= lines[j])
  }

  /** No complete block with data ends up with an empty event name, which the standard replaces by `message` and
      the parser keeps. */
  predicate AllNamed(blocks: seq<string>) {
    forall b :: b in blocks ==> Named(SplitLf(b))
  }

  predicate Named(lines: seq<string>) { HasData(lines) ==> !BlankName(lines) }

  /** A line that begins with a field name and a colon is taken as that field. */
  lemma FieldTaken(d: Dialect, st: BlockState, line: string, f: string)
    requires f != "" && ':' !in f && f + ":" <= line
    ensures f + ":" <= StripCr(d, line)
    ensures TakeLine(d, st, line) == TakeField(st, f, DropSpace(StripCr(d, line)[|f| + 1..]))
  {
    StripKeepsField(d, line, f);
    FieldPrefix(StripCr(d, line), f);
    var v := StripCr(d, line)[|f| + 1..];
    assert StripCr(d, line) == f + ":" + v;
    FieldLine(f, v);
  }

  /** Any other line leaves the parser as it is. */
  lemma NotTaken(d: Dialect, st: BlockState, line: string, data: string, event: string)
    requires data == "data" && event == "event" && !(data + ":" <= line) && !(event + ":" <= line)
    ensures TakeLine(d, st, line) == st
  {
    StripKeepsField(d, line, data);
    StripKeepsField(d, line, event);
    FieldPrefix(StripCr(d, line), data);
    FieldPrefix(StripCr(d, line), event);
  }

  lemma BlankValue(line: string, event: string)
    requires event == "event" && event + ":" <= line
    ensures BlankEvent(line) <==> DropSpace(line[|event| + 1..]) == ""
  {
    var v := line[|event| + 1..];
    assert line == event + ":" + v;
    assert v == " " ==> line == event + ": ";
    assert v == "" ==> line == event + ":";
  }

  /** What one line does to the parser, read off its first characters. */
  lemma LineEffect(d: Dialect, st: BlockState, line: string)
    ensures var t := TakeLine(d, st, line);
      && (if "data:" <= line then |t.dataLines| == |st.dataLines| + 1 else t.dataLines == st.dataLines)
      && (!("event:" <= line) ==> t.event == st.event)
    ensures '\r' !in line && "event:" <= line ==> (TakeLine(d, st, line).event == "" <==> BlankEvent(line))
  {
    assert "data:" == "data" + ":" && "event:" == "event" + ":";
    if "data:" <= line {
      assert line[0] == 'd';
      FieldTaken(d, st, line, "data");
    } else if "event:" <= line {
      FieldTaken(d, st, line, "event");
      StripCrNone(d, line);
      BlankValue(line, "event");
    } else {
      NotTaken(d, st, line, "data", "event");
    }
  }

  lemma {:induction false} StripCrNone(d: Dialect, line: string)
    ensures '\r' !in line ==> StripCr(d, line) == line
  {
  }

  /** A field's prefix is not lost with trailing CRs. */
  lemma {:induction false} StripKeepsField(d: Dialect, line: string, f: string)
    ensures f + ":" <= line <==> f + ":" <= StripCr(d, line)
  {
    if line != "" && line[|line| - 1] == '\r' {
      var init := line[..|line| - 1];
      assert f + ":" <= line <==> f + ":" <= init by {
        assert (f + ":")[|f|] == ':' && (f + ":" <= line ==> line[..|f| + 1][|f|] == ':');
      }
      if d == Python { StripKeepsField(d, init, f); }
    }
  }

  /** A line is a field with a given name exactly if it begins with the name and a colon. */
  lemma FieldPrefix(line: string, f: string)
    requires f != "" && ':' !in f
    ensures f + ":" <= line <==>
      line != "" && line[0] != ':' && IndexOf(line, ':') >= 0 && line[..IndexOf(line, ':')] == f
  {
    if f + ":" <= line {
      var v := line[|f| + 1..];
      assert line == f + ":" + v;
      FieldLine(f, v);
    }
    var c := IndexOf(line, ':');
    assert c >= 0 ==> line[..c + 1] == line[..c] + ":";
  }

  /** Data lines and event name of a block, read off its lines. */
  lemma {:induction false} LinesEffect(d: Dialect, lines: seq<string>)
    ensures TakeLines(d, INITIAL, lines).dataLines != [] <==> HasData(lines)
    ensures (forall i | 0 <= i < |lines| :: '\r' !in lines[i]) ==>
      (TakeLines(d, INITIAL, lines).event == "" <==> BlankName(lines))
  {
    if lines != [] {
      var n := |lines| - 1;
      var init := lines[..n];
      LinesEffect(d, init);
      LineEffect(d, TakeLines(d, INITIAL, init), lines[n]);
      LastData(lines);
      LastName(lines);
    }
  }

  lemma LastData(lines: seq<string>)
    requires lines != []
    ensures HasData(lines) <==> HasData(lines[..|lines| - 1]) || "data:" <= lines[|lines| - 1]
  {
    var init := lines[..|lines| - 1];
    assert forall i | 0 <= i < |init| :: init[i] == lines[i];
    if HasData(init) {
      var i :| 0 <= i < |init| && "data:" <= init[i];
      assert "data:" <= lines[i];
    }
  }

  lemma LastName(lines: seq<string>)
    requires lines != []
    ensures BlankName(lines) <==>
      if "event:" <= lines[|lines| - 1] then BlankEvent(lines[|lines| - 1]) else BlankName(lines[..|lines| - 1])
  {
    var n := |lines| - 1;
    var init := lines[..n];
    assert forall i | 0 <= i < n :: init[i] == lines[i];
    assert BlankEvent(lines[n]) ==> "event:" <= lines[n];
    if BlankName(init) && !("event:" <= lines[n]) {
      var i :| 0 <= i < n && BlankEvent(init[i]) && forall j | i < j < n :: !("event:" <= init[j]);
      assert BlankEvent(lines[i]);
    }
    if BlankName(lines) && !("event:" <= lines[n]) {
      var i :| 0 <= i < |lines| && BlankEvent(lines[i]) && forall j | i < j < |lines| :: !("event:" <= lines[j]);
      assert BlankEvent(init[i]);
    }
  }

  lemma NoBareCrHasNoCrCrLf(t: string)
    requires NoBareCr(t)
    ensures NoCrCrLf(t)
  {
    forall i ensures !CrCrLfAt(t, i) {
      assert CrCrLfAt(t, i) ==> CrLfAt(t, i);
    }
  }

  /** Normalising first does not change the standard's lines. */
  lemma {:induction false} StdLinesNormalize(t: string, cur: string)
    requires NoBareCr(t)
    ensures StdLines(Normalize(t), cur) == StdLines(t, cur)
    decreases |t|
  {
    if t != "" {
      var k := if CrLfAt(t, 0) then 2 else 1;
      forall i | 0 <= i < |t[k..]| && t[k..][i] == '\r' ensures CrLfAt(t[k..], i) { assert CrLfAt(t, i + k); }
      assert t[0] == '\r' ==> CrLfAt(t, 0);
      var head := if k == 2 then '\n' else t[0];
      assert Normalize(t) == [head] + Normalize(t[k..]);
      assert Normalize(t)[1..] == Normalize(t[k..]);
      StdLinesNormalize(t[k..], if head == '\n' then "" else cur + [t[0]]);
    }
  }

  /** On LF-only text the terminated lines up to an LF are the LF-split lines. */
  lemma {:induction false} StdLinesSplit(b: string, rest: string, cur: string)
    requires '\r' !in b
    ensures var pieces := SplitLf(b);
      StdLines(b + "\n" + rest, cur) == [cur + pieces[0]] + pieces[1..] + StdLines(rest, "")
  {
    var t := b + "\n" + rest;
    if b == "" {
      assert t[1..] == rest && cur + "" == cur;
    } else {
      var b' := b[1..];
      var pieces, later := SplitLf(b'), StdLines(rest, "");
      assert t[1..] == b' + "\n" + rest;
      if b[0] == '\n' {
        StdLinesSplit(b', rest, "");
        assert "" + pieces[0] == pieces[0] && cur + "" == cur;
        assert [pieces[0]] + pieces[1..] == pieces;
        assert SplitLf(b)[1..] == pieces;
        Associative([cur], pieces, later);
      } else {
        StdLinesSplit(b', rest, cur + [b[0]]);
        Associative(cur, [b[0]], pieces[0]);
        assert SplitLf(b)[1..] == pieces[1..];
      }
    }
  }

  // ---- One block against the machine ---------------------------------------------------------

  /** What the block parser holds and what the machine holds after the same lines; `bare` says whether a
      bare `data` line was among them. */
  predicate Related(st: BlockState, b: Buffers, bare: bool) {
    && (if b.eventType == "" then st.event == "message" || st.event == "" else st.event == b.eventType)
    && (b.data != "" ==> b.data[|b.data| - 1] == '\n')
    && (if bare then |b.data| > |TerminateLf(st.dataLines)| else b.data == TerminateLf(st.dataLines))
  }

  /** Parser and machine make the same frame exactly when no bare `data` line was seen and no data goes by an
      empty name; a frame of the parser is always answered by one of the machine. */
  lemma RelatedDispatch(st: BlockState, b: Buffers, bare: bool)
    requires Related(st, b, bare)
    ensures FrameOf(st).Some? ==> StdDispatch(b).Some?
    ensures StdDispatch(b) == FrameOf(st) <==> !bare && (st.dataLines != [] ==> st.event != "")
  {
    if st.dataLines != [] {
      TerminateIsJoin(st.dataLines);
      assert TerminateLf(st.dataLines)[..|TerminateLf(st.dataLines)| - 1] == JoinLf(st.dataLines);
    }
  }

  lemma RelatedField(st: BlockState, b: Buffers, bare: bool, field: string, value: string)
    requires Related(st, b, bare)
    ensures Related(TakeField(st, field, value), StdField(b, field, value), bare)
  {
    if field == "data" { TerminateAppend(st.dataLines, value); }
  }

  lemma RelatedLine(d: Dialect, st: BlockState, b: Buffers, bare: bool, line: string)
    requires Related(st, b, bare) && line != "" && '\r' !in line && line != "event"
    ensures StdLine(b, line).1 == None
    ensures Related(TakeLine(d, st, line), StdLine(b, line).0, bare || line == "data")
  {
    assert StripCr(d, line) == line;
    var colon := IndexOf(line, ':');
    if line[0] == ':' {
    } else if colon >= 0 {
      assert line != "data" by { assert line[colon] == ':'; }
      RelatedField(st, b, bare, line[..colon], DropSpace(line[colon + 1..]));
    } else {
      assert StdLine(b, line).0 == StdField(b, line, "");
    }
  }

  /** Non-empty lines dispatch nothing and keep the two states related. */
  lemma {:induction false} RelatedLines(d: Dialect, st: BlockState, b: Buffers, lines: seq<string>, rest: seq<string>)
    returns (after: Buffers)
    requires Related(st, b, false)
    requires forall i :: 0 <= i < |lines| ==> lines[i] != "" && '\r' !in lines[i] && lines[i] != "event"
    ensures Related(TakeLines(d, st, lines), after, "data" in lines)
    ensures StdRun(b, lines + rest) == StdRun(after, rest)
    decreases |lines|
  {
    if lines == [] {
      assert lines + rest == rest;
      return b;
    }
    var init, last := lines[..|lines| - 1], lines[|lines| - 1];
    assert lines + rest == init + ([last] + rest);
    assert lines == init + [last];
    var mid := RelatedLines(d, st, b, init, [last] + rest);
    RelatedLine(d, TakeLines(d, st, init), mid, "data" in init, last);
    after := StdLine(mid, last).0;
    assert ([last] + rest)[1..] == rest;
  }

  /** From empty buffers the lines of a block, whose first line may be empty, leave the machine where the
      block parser is. */
  lemma RelatedBlock(d: Dialect, lines: seq<string>, rest: seq<string>) returns (after: Buffers)
    requires lines != []
    requires forall i :: 0 <= i < |lines| ==> '\r' !in lines[i] && lines[i] != "event"
    requires forall i :: 0 < i < |lines| ==> lines[i] != ""
    ensures Related(TakeLines(d, INITIAL, lines), after, "data" in lines)
    ensures StdRun(EMPTY, lines + rest) == StdRun(after, rest)
  {
    if lines[0] == "" {
      var tail := lines[1..];
      assert lines + rest == [""] + (tail + rest);
      assert StdRun(EMPTY, lines + rest) == StdRun(EMPTY, tail + rest);
      after := RelatedLines(d, INITIAL, EMPTY, tail, rest);
      TakeLinesSkipEmpty(d, tail);
      assert lines == [""] + tail;
    } else {
      after := RelatedLines(d, INITIAL, EMPTY, lines, rest);
    }
  }

  lemma {:induction false} TakeLinesSkipEmpty(d: Dialect, lines: seq<string>)
    ensures TakeLines(d, INITIAL, [""] + lines) == TakeLines(d, INITIAL, lines)
  {
    var all := [""] + lines;
    if lines == [] {
      assert all[..0] == [];
    } else {
      assert all[..|all| - 1] == [""] + lines[..|lines| - 1];
      TakeLinesSkipEmpty(d, lines[..|lines| - 1]);
    }
  }

  /** In text without a blank line only the first line can be empty, or the last if it is unterminated. */
  lemma {:induction false} InnerLinesNonEmpty(s: string)
    requires NoLfLf(s + "\n")
    ensures forall i :: 0 < i < |SplitLf(s)| ==> SplitLf(s)[i] != ""
    ensures s != "" && s[0] != '\n' ==> SplitLf(s)[0] != ""
  {
    if s != "" {
      var t := s[1..];
      assert (s + "\n")[1..] == t + "\n";
      forall i ensures !LfLfAt(t + "\n", i) { assert !LfLfAt(s + "\n", i + 1); }
      InnerLinesNonEmpty(t);
      assert !LfLfAt(s + "\n", 0);
      if s[0] == '\n' {
        assert SplitLf(s)[1..] == SplitLf(t);
        assert t != "" ==> t[0] != '\n';
        assert t != "" by { assert s + "\n" == "\n\n" || t != ""; }
      } else {
        assert SplitLf(s)[1..] == SplitLf(t)[1..];
      }
    }
  }

  // ---- The stream against the machine --------------------------------------------------------

  lemma {:induction false} NoLineEnds(r: string, cur: string)
    requires '\r' !in r && '\n' !in r
    ensures StdLines(r, cur) == []
  {
    if r != "" { NoLineEnds(r[1..], cur + [r[0]]); }
  }

  /** Text without a blank line dispatches nothing. */
  lemma NoBlankLineNoFrame(d: Dialect, s: string)
    requires '\r' !in s && NoLfLf(s)
    requires "event" !in StdLines(s, "")
    ensures StdRun(EMPTY, StdLines(s, "")) == []
  {
    if '\n' !in s {
      NoLineEnds(s, "");
    } else {
      var k := LastLf(s);
      var b, r := s[..k], s[k + 1..];
      assert s == b + "\n" + r;
      StdLinesSplit(b, r, "");
      NoLineEnds(r, "");
      var lines := SplitLf(b);
      assert "" + lines[0] == lines[0];
      assert StdLines(s, "") == lines;
      forall i ensures !LfLfAt(b + "\n", i) { assert !LfLfAt(s, i); }
      InnerLinesNonEmpty(b);
      SplitPiecesClean(b);
      var after := RelatedBlock(d, lines, []);
      assert lines + [] == lines;
    }
  }

  function LastLf(s: string): (k: nat)
    requires '\n' in s
    ensures k < |s| && s[k] == '\n' && '\n' !in s[k + 1..]
  {
    var n := |s| - 1;
    if s[n] == '\n' then n
    else
      assert s == s[..n] + [s[n]];
      var k := LastLf(s[..n]);
      assert s[k + 1..] == s[..n][k + 1..] + [s[n]];
      k
  }

  /** The complete blocks of LF-only text give at most the frames the standard dispatches, and exactly
      those if and only if no block has a bare `data` line or data under an empty name. */
  lemma {:induction false} BlocksAgainstDispatches(d: Dialect, s: string)
    requires '\r' !in s
    requires "event" !in StdLines(s, "")
    ensures var std, own := StdRun(EMPTY, StdLines(s, "")), ParseBlocks(d, Drain(s).blocks);
      |own| <= |std| && (own == std <==> NoBareData(Drain(s).blocks) && AllNamed(Drain(s).blocks))
    decreases |s|
  {
    var i := FindSep(s);
    if i == -1 {
      NoBlankLineNoFrame(d, s);
    } else {
      var b, rest := s[..i], s[i + 2..];
      var later := StdLines(rest, "");
      var dispatched, frame := FirstBlock(d, s, i);
      assert forall l :: l in later ==> l in StdLines(s, "");
      BlocksAgainstDispatches(d, rest);
      ParseBlocksAppend(d, [b], Drain(rest).blocks);
      ParseOne(d, b);
      NoBareDataCons(b, Drain(rest).blocks);
      PrependOptions(dispatched, frame, StdRun(EMPTY, later), ParseBlocks(d, Drain(rest).blocks));
    }
  }

  lemma NoBareDataCons(b: string, rest: seq<string>)
    ensures NoBareData([b] + rest) <==> "data" !in SplitLf(b) && NoBareData(rest)
    ensures AllNamed([b] + rest) <==> Named(SplitLf(b)) && AllNamed(rest)
  {
    assert b in [b] + rest;
    assert forall x :: x in rest ==> x in [b] + rest;
  }

  lemma PrependOptions(a: Option<RawSseFrame>, b: Option<RawSseFrame>, std: seq<RawSseFrame>, own: seq<RawSseFrame>)
    requires (b.Some? ==> a.Some?) && |own| <= |std|
    ensures |Optional(b) + own| <= |Optional(a) + std|
    ensures Optional(b) + own == Optional(a) + std <==> a == b && own == std
  {
    if a.Some? && b.Some? {
      assert (Optional(a) + std)[1..] == std && (Optional(b) + own)[1..] == own;
      assert (Optional(a) + std)[0] == a.value && (Optional(b) + own)[0] == b.value;
    } else if a == None {
      assert Optional(a) + std == std && Optional(b) + own == own;
    }
  }

  lemma FirstBlock(d: Dialect, s: string, i: int) returns (dispatched: Option<RawSseFrame>, frame: Option<RawSseFrame>)
    requires '\r' !in s && i == FindSep(s) && i != -1
    requires "event" !in StdLines(s, "")
    ensures frame == ParseBlock(d, s[..i])
    ensures StdLines(s, "") == SplitLf(s[..i]) + ([""] + StdLines(s[i + 2..], ""))
    ensures StdRun(EMPTY, StdLines(s, "")) == Optional(dispatched) + StdRun(EMPTY, StdLines(s[i + 2..], ""))
    ensures frame.Some? ==> dispatched.Some?
    ensures dispatched == frame <==> "data" !in SplitLf(s[..i]) && Named(SplitLf(s[..i]))
  {
    var b, rest := s[..i], s[i + 2..];
    var lines, later := SplitLf(b), StdLines(rest, "");
    assert StdLines(s, "") == lines + ([""] + later) by {
      assert s == b + "\n" + ("\n" + rest);
      StdLinesSplit(b, "\n" + rest, "");
      assert ("\n" + rest)[1..] == rest;
      assert "" + lines[0] == lines[0];
    }
    assert forall l :: l in lines ==> l in StdLines(s, "");
    forall j ensures !LfLfAt(b + "\n", j) { assert j < i ==> !LfLfAt(s, j); }
    InnerLinesNonEmpty(b);
    SplitPiecesClean(b);
    var after := RelatedBlock(d, lines, [""] + later);
    RelatedDispatch(TakeLines(d, INITIAL, lines), after, "data" in lines);
    LinesEffect(d, lines);
    assert ([""] + later)[1..] == later;
    dispatched, frame := StdDispatch(after), ParseBlock(d, b);
  }

  /** What the flush of the unterminated rest of a text adds. */
  function Flushed(d: Dialect, t: string): seq<RawSseFrame> {
    Optional(TailFrame(d, Drain(Normalize(t)).buffer))
  }

  lemma FramesAgainstStandard(d: Dialect, chunks: seq<string>)
    requires NamedStream(Concat(chunks))
    ensures var t := Concat(chunks);
      var blocks := Drain(Normalize(t)).blocks;
      && Frames(d, chunks) == ParseBlocks(d, blocks) + Flushed(d, t)
      && (ParseBlocks(d, blocks) == StdEvents(t) <==> NoBareData(blocks) && AllNamed(blocks))
  {
    var t := Concat(chunks);
    NoBareCrHasNoCrCrLf(t);
    FeedIsDrain(chunks);
    NormalizeRemovesCr(t);
    StdLinesNormalize(t, "");
    BlocksAgainstDispatches(d, Normalize(t));
  }

  /** Refinement of the standard, under any chunking: the parser yields the standard's events followed by
      whatever frame the flush of an unterminated rest makes. */
  lemma RefinesStandard(d: Dialect, chunks: seq<string>)
    requires NamedStream(Concat(chunks)) && CleanBlocks(Concat(chunks))
    ensures Frames(d, chunks) == StdEvents(Concat(chunks)) + Flushed(d, Concat(chunks))
  {
    FramesAgainstStandard(d, chunks);
  }

  /** The complete blocks of a text have no bare `data` line and no data under an empty event name. */
  predicate CleanBlocks(t: string) {
    NoBareData(Drain(Normalize(t)).blocks) && AllNamed(Drain(Normalize(t)).blocks)
  }

  /** No line of the unterminated rest, as it is flushed, is a data field. */
  predicate NoDataLeft(d: Dialect, t: string) {
    var rest := Drain(Normalize(t)).buffer;
    Trim(d, rest) == "" || !HasData(SplitLf(if d == Python then Trim(d, rest) else rest))
  }

  /** Flushing makes no frame exactly when no data is left. */
  lemma FlushesNothingIff(d: Dialect, t: string)
    ensures Flushed(d, t) == [] <==> NoDataLeft(d, t)
  {
    var rest := Drain(Normalize(t)).buffer;
    LinesEffect(d, SplitLf(if d == Python then Trim(d, rest) else rest));
  }

  /** First exact condition: the standard discards an unterminated rest, so parser and standard agree if and only
      if no line of it is a data field. */
  lemma AgreesIffNothingFlushed(d: Dialect, chunks: seq<string>)
    requires NamedStream(Concat(chunks)) && CleanBlocks(Concat(chunks))
    ensures Frames(d, chunks) == StdEvents(Concat(chunks)) <==> NoDataLeft(d, Concat(chunks))
  {
    FramesAgainstStandard(d, chunks);
    FlushesNothingIff(d, Concat(chunks));
  }

  /** Second exact condition: when no data is left over, parser and standard agree if and only if no complete
      block has a bare `data` line or data under an empty event name. */
  lemma AgreesIffNoBareData(d: Dialect, chunks: seq<string>)
    requires NamedStream(Concat(chunks)) && NoDataLeft(d, Concat(chunks))
    ensures Frames(d, chunks) == StdEvents(Concat(chunks)) <==> CleanBlocks(Concat(chunks))
  {
    FramesAgainstStandard(d, chunks);
    FlushesNothingIff(d, Concat(chunks));
  }

  lemma {:induction false} KeptHasNoSep(s: string)
    ensures NoLfLf(Drain(s).buffer)
    decreases |s|
  {
    var i := FindSep(s);
    if i != -1 { KeptHasNoSep(s[i + 2..]); }
  }

  /** The unterminated rest of a text as it is flushed: trimmed in Python. */
  function FlushedText(d: Dialect, t: string): string {
    var rest := Drain(Normalize(t)).buffer;
    if d == Python then Trim(d, rest) else rest
  }

  /** A text with its last line terminated and a blank line after it. */
  function Closed(text: string): string {
    if text != "" && text[|text| - 1] == '\n' then text + "\n" else text + "\n\n"
  }

  /** What the flush yields, unless the rest is blank, is what the standard makes of the rest once a blank line
      ends it. */
  lemma FlushCompletes(d: Dialect, t: string)
    requires NoBareCr(t)
    requires var tail := FlushedText(d, t);
      && (tail != "" ==> tail[0] != BOM)
      && "event" !in SplitLf(tail) && "data" !in SplitLf(tail) && Named(SplitLf(tail))
    ensures Flushed(d, t)
         == if Trim(d, Drain(Normalize(t)).buffer) == "" then [] else StdEvents(Closed(FlushedText(d, t)))
  {
    var rest, tail := Drain(Normalize(t)).buffer, FlushedText(d, t);
    NormalizeRemovesCr(t);
    KeptHasNoSep(Normalize(t));
    DrainKeepsCr(Normalize(t));
    var left, right := TrimMeans(d, rest);
    InfixClean(rest, left, Trim(d, rest), right);
    if Trim(d, rest) != "" { ClosedEvents(d, tail); }
  }

  lemma DrainKeepsCr(s: string)
    requires '\r' !in s
    ensures '\r' !in Drain(s).buffer
  {
    var p := DrainKeepsSuffix(s);
  }

  lemma InfixClean(s: string, left: string, t: string, right: string)
    requires s == left + t + right
    ensures '\r' !in s ==> '\r' !in t
    ensures NoLfLf(s) ==> NoLfLf(t)
  {
    assert forall i | 0 <= i < |t| :: t[i] == s[|left| + i];
    if NoLfLf(s) {
      forall i ensures !LfLfAt(t, i) { assert !LfLfAt(s, |left| + i); }
    }
  }

  /** Parsing a text is what the standard makes of it once a blank line ends it. */
  lemma ClosedEvents(d: Dialect, text: string)
    requires text != "" && text[0] != BOM && '\r' !in text && NoLfLf(text)
    requires "event" !in SplitLf(text) && "data" !in SplitLf(text) && Named(SplitLf(text))
    ensures StdEvents(Closed(text)) == Optional(ParseBlock(d, text))
  {
    var n := |text| - 1;
    if text[n] == '\n' {
      var b := text[..n];
      assert text == b + "\n" && Closed(text) == b + "\n\n";
      SplitEnds(d, b);
      ClosedBlock(d, b);
    } else {
      forall i ensures !LfLfAt(text + "\n", i) { assert !LfLfAt(text, i); }
      ClosedBlock(d, text);
    }
  }

  /** A line break at the end adds an empty line, which means nothing. */
  lemma SplitEnds(d: Dialect, b: string)
    ensures SplitLf(b + "\n") == SplitLf(b) + [""]
    ensures ParseBlock(d, b + "\n") == ParseBlock(d, b)
    ensures Named(SplitLf(b + "\n")) ==> Named(SplitLf(b))
  {
    SplitOpen(b);
    var lines := SplitLf(b);
    var all := lines + [""];
    assert all[..|lines|] == lines && StripCr(d, "") == "";
    assert TakeLines(d, INITIAL, all) == TakeLine(d, TakeLines(d, INITIAL, lines), "") == TakeLines(d, INITIAL, lines);
    NamedEnds(lines);
  }

  lemma NamedEnds(lines: seq<string>)
    ensures Named(lines + [""]) <==> Named(lines)
  {
    var all := lines + [""];
    assert all[..|lines|] == lines && all[|lines|] == "";
    LastData(all);
    LastName(all);
  }

  lemma {:induction false} SplitOpen(b: string)
    ensures SplitLf(b + "\n") == SplitLf(b) + [""]
  {
    if b == "" {
      assert ("" + "\n")[1..] == "";
    } else {
      assert (b + "\n")[1..] == b[1..] + "\n";
      SplitOpen(b[1..]);
    }
  }

  lemma ClosedBlock(d: Dialect, b: string)
    requires '\r' !in b && NoLfLf(b + "\n") && (b != "" ==> b[0] != BOM)
    requires "event" !in SplitLf(b) && "data" !in SplitLf(b) && Named(SplitLf(b))
    ensures StdEvents(b + "\n\n") == Optional(ParseBlock(d, b))
  {
    ClosedLines(b);
    DrainOneBlock(b);
    BlocksAgainstDispatches(d, b + "\n\n");
    ParseOne(d, b);
    assert forall x :: x in [b] ==> x == b;
  }

  lemma ClosedLines(b: string)
    requires '\r' !in b
    ensures StdLines(b + "\n\n", "") == SplitLf(b) + [""]
  {
    assert b + "\n\n" == b + "\n" + "\n";
    StdLinesSplit(b, "\n", "");
    assert "\n"[1..] == "" && StdLines("\n", "") == [""] + StdLines("", "");
    assert "" + SplitLf(b)[0] == SplitLf(b)[0];
  }

  lemma BlankEndKeepsLittle(n: string)
    requires n == "" || LfLfAt(n, |n| - 2)
    ensures Drain(n).buffer == "" || Drain(n).buffer == "\n"
  {
    var l := Drain(n).buffer;
    var p := DrainKeepsSuffix(n);
    KeptHasNoSep(n);
    assert |l| >= 2 ==> LfLfAt(l, |l| - 2);
  }

  lemma NoFrameFromBlankTail(d: Dialect)
    ensures TailFrame(d, "") == None && TailFrame(d, "\n") == None
  {
    assert "\n"[1..] == "";
    assert TrimLeft(d, "\n") == "" && TrimLeft(d, "") == "";
  }

  /** In particular they agree on every such stream that ends in a blank line. */
  lemma AgreesOnTerminatedStreams(d: Dialect, chunks: seq<string>)
    requires NamedStream(Concat(chunks)) && CleanBlocks(Concat(chunks))
    requires var n := Normalize(Concat(chunks)); n == "" || LfLfAt(n, |n| - 2)
    ensures Frames(d, chunks) == StdEvents(Concat(chunks))
  {
    BlankEndKeepsLittle(Normalize(Concat(chunks)));
    NoFrameFromBlankTail(d);
    FlushesNothingIff(d, Concat(chunks));
    AgreesIffNothingFlushed(d, chunks);
  }

  // ---- The remaining hypotheses are needed ---------------------------------------------------

  lemma {:induction false} StdLinesThrough(l: string, rest: string, cur: string)
    requires '\r' !in l && '\n' !in l
    ensures StdLines(l + rest, cur) == StdLines(rest, cur + l)
  {
    if l == "" {
      assert l + rest == rest && cur + l == cur;
    } else {
      assert (l + rest)[1..] == l[1..] + rest;
      StdLinesThrough(l[1..], rest, cur + [l[0]]);
      assert cur + [l[0]] + l[1..] == cur + l;
    }
  }

  lemma DrainOneBlock(b: string)
    requires NoLfLf(b + "\n")
    ensures Drain(b + "\n\n") == Fed([b], "")
  {
    var t := b + "\n\n";
    assert LfLfAt(t, |b|);
    forall j | j < |b| ensures !LfLfAt(t, j) { assert !LfLfAt(b + "\n", j); }
    FindSepIs(t, |b|);
    assert t[..|b|] == b && t[|b| + 2..] == "";
    assert [b] + [] == [b];
  }

  /** A text that is one block and a blank line. */
  lemma OneBlock(d: Dialect, b: string)
    requires NoCrLf(b + "\n\n") && NoLfLf(b + "\n")
    ensures Frames(d, [b + "\n\n"]) == Optional(ParseBlock(d, b))
  {
    ConcatWhole(b + "\n\n");
    NormalizeIdentity(b + "\n\n");
    DrainOneBlock(b);
    ParseOne(d, b);
    NoFrameFromBlankTail(d);
  }

  lemma TakeOne(d: Dialect, line: string)
    requires '\n' !in line
    ensures ParseBlock(d, line) == FrameOf(TakeLine(d, INITIAL, line))
  {
    SplitSingle(line);
    assert [line][..0] == [];
    assert TakeLines(d, INITIAL, []) == INITIAL;
  }

  /** A bare CR ends a line for the standard but not for the parser. */
  lemma BareCrDiffers(d: Dialect)
    ensures Frames(d, ["data:\rx\n\n"]) == [RawSseFrame("message", "\rx")]
    ensures StdEvents("data:\rx\n\n") == [RawSseFrame("message", "")]
  {
    assert "data" + ":" + "\rx" + "\n\n" == "data:\rx\n\n";
    OneField(d, "data", "\rx");
    BareCrStandard();
  }

  /** A text that is one field line and a blank line. */
  lemma OneField(d: Dialect, f: string, v: string)
    requires f != "" && ':' !in f && '\n' !in f && '\n' !in v && '\r' !in f
    requires v != "" && v[|v| - 1] != '\r' && v[0] != ' '
    ensures Frames(d, [f + ":" + v + "\n\n"]) == Optional(FrameOf(TakeField(INITIAL, f, v)))
  {
    var b := f + ":" + v;
    FieldText(f, v);
    OneLineClean(b);
    OneBlock(d, b);
    TakeOne(d, b);
    FieldLine(f, v);
  }

  lemma FieldText(f: string, v: string)
    requires '\n' !in f && '\n' !in v && v != ""
    ensures var b := f + ":" + v; b != "" && '\n' !in b && b[|b| - 1] == v[|v| - 1]
  {
  }

  lemma OneLineClean(b: string)
    requires '\n' !in b && b != "" && b[|b| - 1] != '\r'
    ensures NoCrLf(b + "\n\n") && NoLfLf(b + "\n")
  {
    forall i ensures !CrLfAt(b + "\n\n", i) { if 0 <= i < |b| - 1 { assert (b + "\n\n")[i + 1] == b[i + 1]; } }
    forall i ensures !LfLfAt(b + "\n", i) { if 0 <= i < |b| { assert (b + "\n")[i] == b[i]; } }
  }

  lemma BareCrStandard()
    ensures StdEvents("data:\rx\n\n") == [RawSseFrame("message", "")]
  {
    BareCrLines();
    EmptyDataLine();
    assert IndexOf("x", ':') == -1;
    StdRunOne(EMPTY, "data:", ["x", ""]);
    StdRunOne(Buffers("", "\n"), "x", [""]);
    StdRunOne(Buffers("", "\n"), "", []);
  }

  lemma BareCrLines()
    ensures StdLines("data:\rx\n\n", "") == ["data:", "x", ""]
  {
    var tail := "\rx\n\n";
    StdLinesThrough("data:", tail, "");
    assert "data:\rx\n\n" == "data:" + tail && "" + "data:" == "data:";
    assert tail[1..] == "x" + "\n\n";
    StdLinesThrough("x", "\n\n", "");
    assert "\n\n"[1..] == "\n" && "\n"[1..] == "" && "" + "x" == "x";
  }

  lemma EmptyDataLine()
    ensures StdLine(EMPTY, "data:") == (Buffers("", "\n"), None)
  {
    assert "data:" == "data" + ":" + "" && "" + "" + "\n" == "\n";
    FieldLine("data", "");
  }

  lemma StdRunOne(b: Buffers, line: string, rest: seq<string>)
    ensures StdRun(b, [line] + rest) == Optional(StdLine(b, line).1) + StdRun(StdLine(b, line).0, rest)
  {
    assert ([line] + rest)[1..] == rest;
  }

  /** An empty event value: the standard falls back to `message`, the parser keeps the empty name. */
  lemma EmptyEventDiffers(d: Dialect)
    ensures Frames(d, ["event:\ndata:\n\n"]) == [RawSseFrame("", "")]
    ensures StdEvents("event:\ndata:\n\n") == [RawSseFrame("message", "")]
  {
    var b := "event" + ":" + "\n" + ("data" + ":");
    assert b + "\n\n" == "event:\ndata:\n\n";
    OneBlock(d, b);
    EmptyEventParser(d, "event", "data");
    EmptyEventStandard();
  }

  lemma EmptyEventParser(d: Dialect, event: string, data: string)
    requires event == "event" && data == "data"
    ensures ParseBlock(d, event + ":" + "\n" + (data + ":")) == Some(RawSseFrame("", ""))
  {
    TwoLineBlock(d, event + ":", data + ":");
    EmptyField(d, INITIAL, event);
    EmptyField(d, BlockState("", []), data);
  }

  lemma TwoLineBlock(d: Dialect, a: string, b: string)
    requires '\n' !in a && '\n' !in b
    ensures ParseBlock(d, a + "\n" + b) == FrameOf(TakeLine(d, TakeLine(d, INITIAL, a), b))
  {
    SplitLine(a, b);
    SplitSingle(b);
    assert [a] + [b] == [a, b];
    TakeTwo(d, a, b);
  }

  lemma EmptyField(d: Dialect, st: BlockState, f: string)
    requires f != "" && ':' !in f
    ensures TakeLine(d, st, f + ":") == TakeField(st, f, "")
  {
    FieldLine(f, "");
    assert f + ":" + "" == f + ":";
  }

  lemma TakeTwo(d: Dialect, a: string, b: string)
    ensures TakeLines(d, INITIAL, [a, b]) == TakeLine(d, TakeLine(d, INITIAL, a), b)
  {
    assert [a, b][..1] == [a] && [a][..0] == [];
    assert TakeLines(d, INITIAL, []) == INITIAL;
  }

  lemma EmptyEventStandard()
    ensures StdEvents("event:\ndata:\n\n") == [RawSseFrame("message", "")]
  {
    EmptyEventLines();
    assert "event:" == "event" + ":" + "";
    FieldLine("event", "");
    EmptyDataLine();
    assert StdLine(EMPTY, "event:") == (EMPTY, None);
    StdRunOne(EMPTY, "event:", ["data:", ""]);
    StdRunOne(EMPTY, "data:", [""]);
    StdRunOne(Buffers("", "\n"), "", []);
  }

  lemma EmptyEventLines()
    ensures StdLines("event:\ndata:\n\n", "") == ["event:", "data:", ""]
  {
    var t := "event:\ndata:\n\n";
    StdLinesThrough("event:", "\ndata:\n\n", "");
    StdLinesThrough("data:", "\n\n", "");
    assert t == "event:" + "\ndata:\n\n" && "" + "event:" == "event:" && "" + "data:" == "data:";
    assert "\ndata:\n\n"[1..] == "data:" + "\n\n" && "\n\n"[1..] == "\n" && "\n"[1..] == "";
  }

  /** A byte order mark: the standard strips it, the parser takes it for part of the first field's name. */
  lemma BomDiffers(d: Dialect)
    ensures Frames(d, [[BOM] + "data:x\n\n"]) == []
    ensures StdEvents([BOM] + "data:x\n\n") == [RawSseFrame("message", "x")]
  {
    var t := "data:x\n\n";
    assert "data" + ":" + "x" + "\n\n" == t;
    assert ([BOM] + t)[1..] == t;
    BomField(d, "data", "x", t);
    OneDataStandard(t, "data", "x");
  }

  lemma BomField(d: Dialect, data: string, v: string, t: string)
    requires data == "data" && v == "x" && t == data + ":" + v + "\n\n"
    ensures Frames(d, [[BOM] + t]) == []
  {
    var f := [BOM] + data;
    assert f + ":" + v + "\n\n" == [BOM] + t;
    OneField(d, f, v);
    Unknown(f, v);
  }

  lemma Unknown(f: string, v: string)
    requires f != "" && f[0] == BOM
    ensures TakeField(INITIAL, f, v) == INITIAL
  {
  }

  lemma OneDataStandard(t: string, data: string, v: string)
    requires data == "data" && v == "x" && t == data + ":" + v + "\n\n"
    ensures StdRun(EMPTY, StdLines(t, "")) == [RawSseFrame("message", v)]
  {
    var l := data + ":" + v;
    assert '\r' !in l && '\n' !in l;
    OneDataLines(t, l);
    OneDataLine(data, v);
    assert [l, ""] == [l] + [""] && [""] == [""] + [];
    StdRunOne(EMPTY, l, [""]);
    DispatchOne(v);
  }

  lemma DispatchOne(v: string)
    ensures StdRun(Buffers("", v + "\n"), [""]) == [RawSseFrame("message", v)]
  {
    assert [""][1..] == [] && (v + "\n")[..|v|] == v;
  }

  lemma OneDataLines(t: string, l: string)
    requires '\r' !in l && '\n' !in l && t == l + "\n\n"
    ensures StdLines(t, "") == [l, ""]
  {
    StdLinesThrough(l, "\n\n", "");
    assert "\n\n"[1..] == "\n" && "\n"[1..] == "" && "" + l == l;
  }

  lemma OneDataLine(data: string, v: string)
    requires data == "data" && v == "x"
    ensures StdLine(EMPTY, data + ":" + v) == (Buffers("", v + "\n"), None)
  {
    assert "" + v + "\n" == v + "\n";
    FieldLine(data, v);
  }
}
