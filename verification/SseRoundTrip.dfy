/** Encoding frames as an event stream and reading them back under any chunking. */
module SseRoundTrip {
  import opened Common
  import opened SseText
  import opened SseParser
  import opened SseStandard

  function EncodeData(lines: seq<string>): seq<string> {
    if lines == [] then [] else ["data: " + lines[0]] + EncodeData(lines[1..])
  }

  /** One event line, then one data line for every LF-separated line of the data. */
  function EncodeLines(f: RawSseFrame): seq<string> {
    ["event: " + f.event] + EncodeData(SplitLf(f.data))
  }

  function Encode(frames: seq<RawSseFrame>): string {
    if frames == [] then "" else JoinLf(EncodeLines(frames[0])) + "\n\n" + Encode(frames[1..])
  }

  /** Frames the format can carry: no line end in the event name and no CR in the data. */
  predicate Encodable(f: RawSseFrame) {
    '\r' !in f.event && '\n' !in f.event && '\r' !in f.data
  }

  lemma {:induction false} EncodeDataLines(lines: seq<string>)
    ensures |EncodeData(lines)| == |lines|
    ensures forall i :: 0 <= i < |lines| ==> EncodeData(lines)[i] == "data: " + lines[i]
  {
    if lines != [] { EncodeDataLines(lines[1..]); }
  }

  /** The lines of an encoded frame are non-empty and hold no line end. */
  lemma EncodedLinesClean(f: RawSseFrame)
    requires Encodable(f)
    ensures forall i :: 0 <= i < |EncodeLines(f)| ==>
      var l := EncodeLines(f)[i]; l != "" && '\r' !in l && '\n' !in l
  {
    var lines := SplitLf(f.data);
    EncodeDataLines(lines);
    SplitPiecesClean(f.data);
    forall i | 0 <= i < |EncodeLines(f)|
      ensures var l := EncodeLines(f)[i]; l != "" && '\r' !in l && '\n' !in l
    {
      if i > 0 {
        assert EncodeLines(f)[i] == "data: " + lines[i - 1];
        assert lines[i - 1] in lines;
      }
    }
  }

  lemma {:induction false} JoinClean(lines: seq<string>)
    requires forall i :: 0 <= i < |lines| ==> lines[i] != "" && '\r' !in lines[i] && '\n' !in lines[i]
    ensures '\r' !in JoinLf(lines)
    ensures lines != [] ==> NoLfLf(JoinLf(lines) + "\n") && JoinLf(lines) != "" && JoinLf(lines)[0] != '\n'
  {
    if |lines| == 1 {
      var t := lines[0] + "\n";
      forall i ensures !LfLfAt(t, i) { if 0 <= i < |lines[0]| { assert t[i] == lines[0][i]; } }
    } else if |lines| > 1 {
      var rest := lines[1..];
      forall i | 0 <= i < |rest| ensures rest[i] != "" && '\r' !in rest[i] && '\n' !in rest[i] {
        assert rest[i] == lines[i + 1];
      }
      JoinClean(rest);
      JoinCleanStep(lines[0], JoinLf(rest));
    }
  }

  lemma JoinCleanStep(l: string, j: string)
    requires l != "" && '\r' !in l && '\n' !in l
    requires '\r' !in j && NoLfLf(j + "\n") && j != "" && j[0] != '\n'
    ensures '\r' !in l + "\n" + j && NoLfLf(l + "\n" + j + "\n")
  {
    var t := l + "\n" + j + "\n";
    forall i ensures !LfLfAt(t, i) {
      if 0 <= i < |l| {
        assert t[i] == l[i];
      } else if i == |l| {
        assert t[i + 1] == j[0];
      } else {
        assert LfLfAt(t, i) ==> LfLfAt(j + "\n", i - |l| - 1);
      }
    }
  }

  lemma {:induction false} TakeLinesCons(d: Dialect, st: BlockState, l: string, rest: seq<string>)
    ensures TakeLines(d, st, [l] + rest) == TakeLines(d, TakeLine(d, st, l), rest)
  {
    var all := [l] + rest;
    if rest == [] {
      assert all[..0] == [];
      assert TakeLines(d, st, []) == st;
      assert all == [l];
    } else {
      assert all[..|all| - 1] == [l] + rest[..|rest| - 1];
      TakeLinesCons(d, st, l, rest[..|rest| - 1]);
    }
  }

  lemma {:induction false} TakeDataLines(d: Dialect, st: BlockState, lines: seq<string>)
    requires forall i :: 0 <= i < |lines| ==> '\r' !in lines[i]
    ensures TakeLines(d, st, EncodeData(lines)) == st.(dataLines := st.dataLines + lines)
    decreases |lines|
  {
    if lines == [] {
      assert st.dataLines + lines == st.dataLines;
    } else {
      var v, rest := lines[0], lines[1..];
      TakeLinesCons(d, st, "data: " + v, EncodeData(rest));
      DataField(d, st, v);
      TakeDataLines(d, st.(dataLines := st.dataLines + [v]), rest);
      assert st.dataLines + [v] + rest == st.dataLines + lines;
    }
  }

  lemma DataField(d: Dialect, st: BlockState, v: string)
    requires '\r' !in v
    ensures TakeLine(d, st, "data: " + v) == st.(dataLines := st.dataLines + [v])
  {
    assert "data: " + v == "data" + ": " + v;
    FieldWithSpace(d, st, "data", v);
  }

  lemma EventField(d: Dialect, st: BlockState, v: string)
    requires '\r' !in v
    ensures TakeLine(d, st, "event: " + v) == st.(event := v)
  {
    assert "event: " + v == "event" + ": " + v;
    FieldWithSpace(d, st, "event", v);
  }

  lemma FieldWithSpace(d: Dialect, st: BlockState, f: string, v: string)
    requires f != "" && ':' !in f && '\r' !in v
    ensures TakeLine(d, st, f + ": " + v) == TakeField(st, f, v)
  {
    FieldLine(f, " " + v);
    assert f + ":" + (" " + v) == f + ": " + v;
    var line := f + ": " + v;
    assert line[|line| - 1] == if v == "" then ' ' else v[|v| - 1];
    assert (" " + v)[1..] == v;
  }

  /** The block parser inverts the encoder of one frame. */
  lemma ParseEncoded(d: Dialect, f: RawSseFrame)
    requires Encodable(f)
    ensures ParseBlock(d, JoinLf(EncodeLines(f))) == Some(f)
  {
    var lines := SplitLf(f.data);
    EncodedLinesClean(f);
    SplitJoin(EncodeLines(f));
    TakeLinesCons(d, INITIAL, "event: " + f.event, EncodeData(lines));
    EventField(d, INITIAL, f.event);
    SplitPiecesClean(f.data);
    TakeDataLines(d, BlockState(f.event, []), lines);
    assert [] + lines == lines;
    JoinSplit(f.data);
  }

  lemma {:induction false} EncodedIsClean(frames: seq<RawSseFrame>)
    requires forall i :: 0 <= i < |frames| ==> Encodable(frames[i])
    ensures '\r' !in Encode(frames)
  {
    if frames != [] {
      EncodedLinesClean(frames[0]);
      JoinClean(EncodeLines(frames[0]));
      EncodedIsClean(frames[1..]);
    }
  }

  lemma {:induction false} DrainEncoded(d: Dialect, frames: seq<RawSseFrame>)
    requires forall i :: 0 <= i < |frames| ==> Encodable(frames[i])
    ensures Drain(Encode(frames)).buffer == ""
    ensures ParseBlocks(d, Drain(Encode(frames)).blocks) == frames
  {
    if frames != [] {
      var b, rest := JoinLf(EncodeLines(frames[0])), Encode(frames[1..]);
      EncodedLinesClean(frames[0]);
      JoinClean(EncodeLines(frames[0]));
      DrainFirst(b, rest);
      DrainEncoded(d, frames[1..]);
      ParseEncoded(d, frames[0]);
      ParseBlocksAppend(d, [b], Drain(rest).blocks);
      ParseOne(d, b);
      assert [frames[0]] + frames[1..] == frames;
    }
  }

  lemma DrainFirst(b: string, rest: string)
    requires NoLfLf(b + "\n")
    ensures Drain(b + "\n\n" + rest) == Fed([b] + Drain(rest).blocks, Drain(rest).buffer)
  {
    var t := b + "\n\n" + rest;
    assert LfLfAt(t, |b|);
    forall j | j < |b| ensures !LfLfAt(t, j) { assert LfLfAt(t, j) ==> LfLfAt(b + "\n", j); }
    FindSepIs(t, |b|);
    assert t[..|b|] == b && t[|b| + 2..] == rest;
  }

  /** Round trip: however the encoding of a list of frames is cut into chunks, both parsers return exactly
      those frames. */
  lemma RoundTrip(d: Dialect, frames: seq<RawSseFrame>, chunks: seq<string>)
    requires forall i :: 0 <= i < |frames| ==> Encodable(frames[i])
    requires Concat(chunks) == Encode(frames)
    ensures Frames(d, chunks) == frames
  {
    var t := Encode(frames);
    EncodedIsClean(frames);
    NormalizeIdentity(t);
    FeedIsDrain(chunks);
    DrainEncoded(d, frames);
    NoFrameFromBlankTail(d);
  }
}
