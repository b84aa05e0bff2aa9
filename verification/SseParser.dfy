/** The incremental event-stream parser. The Python and the TypeScript parser are one algorithm with
    two small differences, carried by a `Dialect`. */
module SseParser {
  import opened Common
  import opened SseText

  datatype Dialect = Python | TypeScript

  datatype RawSseFrame = RawSseFrame(event: string, data: string)

  /** The two variables the block parser updates line by line. */
  datatype BlockState = BlockState(event: string, dataLines: seq<string>)

  // ---- One block -----------------------------------------------------------------------------

  /** Python strips every trailing CR, TypeScript at most one. */
  function StripCr(d: Dialect, line: string): string {
    if line == "" || line[|line| - 1] != '\r' then line
    else if d == Python then StripCr(d, line[..|line| - 1])
    else line[..|line| - 1]
  }

  /** The first position of `c`, or -1. */
  function IndexOf(s: string, c: char): (r: int)
    ensures r == -1 ==> c !in s
    ensures r != -1 ==> 0 <= r < |s| && s[r] == c && c !in s[..r]
  {
    if s == "" then -1
    else if s[0] == c then 0
    else
      var r := IndexOf(s[1..], c);
      if r == -1 then -1
      else
        assert s[..r + 1] == [s[0]] + s[1..][..r];
        r + 1
  }

  /** How a line `f:v` splits. */
  lemma FieldLine(f: string, v: string)
    requires f != "" && ':' !in f
    ensures var line := f + ":" + v;
      line != "" && line[0] != ':' && IndexOf(line, ':') == |f| && line[..|f|] == f && line[|f| + 1..] == v
  {
    IndexOfColon(f, v);
    assert (f + ":" + v)[0] == f[0];
  }

  lemma {:induction false} IndexOfColon(f: string, v: string)
    requires ':' !in f
    ensures IndexOf(f + ":" + v, ':') == |f|
  {
    if f != "" {
      assert (f + ":" + v)[1..] == f[1..] + ":" + v;
      IndexOfColon(f[1..], v);
    }
  }

  function DropSpace(value: string): string {
    if value != "" && value[0] == ' ' then value[1..] else value
  }

  function TakeField(st: BlockState, field: string, value: string): BlockState {
    if field == "event" then st.(event := value)
    else if field == "data" then st.(dataLines := st.dataLines + [value])
    else st
  }

  function TakeLine(d: Dialect, st: BlockState, raw: string): BlockState {
    var line := StripCr(d, raw);
    if line == "" || line[0] == ':' then st
    else
      var colon := IndexOf(line, ':');
      if colon < 0 then st
      else TakeField(st, line[..colon], DropSpace(line[colon + 1..]))
  }

  function TakeLines(d: Dialect, st: BlockState, lines: seq<string>): BlockState {
    if lines == [] then st
    else TakeLine(d, TakeLines(d, st, lines[..|lines| - 1]), lines[|lines| - 1])
  }

  const INITIAL := BlockState("message", [])

  function FrameOf(st: BlockState): Option<RawSseFrame> {
    if st.dataLines == [] then None else Some(RawSseFrame(st.event, JoinLf(st.dataLines)))
  }

  function ParseBlock(d: Dialect, block: string): Option<RawSseFrame> {
    FrameOf(TakeLines(d, INITIAL, SplitLf(block)))
  }

  /** The frames among a list of parse results, in order. */
  function Present(results: seq<Option<RawSseFrame>>): seq<RawSseFrame> {
    if results == [] then [] else Optional(results[0]) + Present(results[1..])
  }

  function Map<A, B>(f: A -> B, xs: seq<A>): seq<B> {
    seq(|xs|, i requires 0 <= i < |xs| => f(xs[i]))
  }

  function ParseAll(d: Dialect, blocks: seq<string>): seq<Option<RawSseFrame>> {
    Map(b => ParseBlock(d, b), blocks)
  }

  function ParseBlocks(d: Dialect, blocks: seq<string>): seq<RawSseFrame> {
    Present(ParseAll(d, blocks))
  }

  function Optional(f: Option<RawSseFrame>): seq<RawSseFrame> {
    if f.None? then [] else [f.value]
  }

  // ---- The stream ----------------------------------------------------------------------------

  /** The blocks cut off so far and the buffer kept, after a list of chunks has arrived. */
  function Feed(chunks: seq<string>): Fed {
    if chunks == [] then Fed([], "")
    else
      var before := Feed(chunks[..|chunks| - 1]);
      var now := Drain(Normalize(before.buffer + chunks[|chunks| - 1]));
      Fed(before.blocks + now.blocks, now.buffer)
  }

  /** Whitespace removed by Python's `str.strip` and by JavaScript's `String.trim`. */
  predicate IsSpace(d: Dialect, c: char) {
    var n := c as int;
    || 0x09 <= n <= 0x0D || n == 0x20 || n == 0xA0 || n == 0x1680 || 0x2000 <= n <= 0x200A
    || n == 0x2028 || n == 0x2029 || n == 0x202F || n == 0x205F || n == 0x3000
    || (d == Python && (0x1C <= n <= 0x1F || n == 0x85))
    || (d == TypeScript && n == 0xFEFF)
  }

  function TrimLeft(d: Dialect, s: string): string {
    if s != "" && IsSpace(d, s[0]) then TrimLeft(d, s[1..]) else s
  }

  function TrimRight(d: Dialect, s: string): string {
    if s != "" && IsSpace(d, s[|s| - 1]) then TrimRight(d, s[..|s| - 1]) else s
  }

  function Trim(d: Dialect, s: string): string {
    TrimRight(d, TrimLeft(d, s))
  }

  ghost predicate AllSpace(d: Dialect, s: string) { forall i | 0 <= i < |s| :: IsSpace(d, s[i]) }

  /** Trimming takes off whitespace at both ends, and all of it. */
  lemma TrimMeans(d: Dialect, s: string) returns (left: string, right: string)
    ensures s == left + Trim(d, s) + right && AllSpace(d, left) && AllSpace(d, right)
    ensures var t := Trim(d, s); t != "" ==> !IsSpace(d, t[0]) && !IsSpace(d, t[|t| - 1])
  {
    left := TrimLeftMeans(d, s);
    right := TrimRightMeans(d, TrimLeft(d, s));
  }

  lemma {:induction false} TrimLeftMeans(d: Dialect, s: string) returns (left: string)
    ensures s == left + TrimLeft(d, s) && AllSpace(d, left)
    ensures var t := TrimLeft(d, s); t != "" ==> !IsSpace(d, t[0])
  {
    left := "";
    if s != "" && IsSpace(d, s[0]) {
      var rest := TrimLeftMeans(d, s[1..]);
      left := [s[0]] + rest;
    }
  }

  lemma {:induction false} TrimRightMeans(d: Dialect, s: string) returns (right: string)
    ensures s == TrimRight(d, s) + right && AllSpace(d, right)
    ensures var t := TrimRight(d, s); t != "" ==> !IsSpace(d, t[|t| - 1])
  {
    right := "";
    if s != "" && IsSpace(d, s[|s| - 1]) {
      var rest := TrimRightMeans(d, s[..|s| - 1]);
      right := rest + [s[|s| - 1]];
      assert s == s[..|s| - 1] + [s[|s| - 1]];
    }
  }

  /** The flush of an unterminated block: Python parses the stripped text, TypeScript the text itself. */
  function TailFrame(d: Dialect, buffer: string): Option<RawSseFrame> {
    var tail := Trim(d, buffer);
    if tail == "" then None
    else ParseBlock(d, if d == Python then tail else buffer)
  }

  function Frames(d: Dialect, chunks: seq<string>): seq<RawSseFrame> {
    var fed := Feed(chunks);
    ParseBlocks(d, fed.blocks) + Optional(TailFrame(d, fed.buffer))
  }

  method ParseBlockLoop(d: Dialect, block: string) returns (frame: Option<RawSseFrame>)
    ensures frame == ParseBlock(d, block)
  {
    var event, dataLines := "message", [];
    var lines := SplitLf(block);
    var i := 0;
    while i < |lines|
      invariant 0 <= i <= |lines|
      invariant BlockState(event, dataLines) == TakeLines(d, INITIAL, lines[..i])
    {
      assert lines[..i + 1][..i] == lines[..i];
      var line := StripCr(d, lines[i]);
      i := i + 1;
      if line == "" || line[0] == ':' { continue; }
      var colon := IndexOf(line, ':');
      if colon < 0 { continue; }
      var field, value := line[..colon], DropSpace(line[colon + 1..]);
      if field == "event" {
        event := value;
      } else if field == "data" {
        dataLines := dataLines + [value];
      }
    }
    assert lines[..i] == lines;
    if dataLines == [] { return None; }
    return Some(RawSseFrame(event, JoinLf(dataLines)));
  }

  lemma {:induction false} PresentAppend(a: seq<Option<RawSseFrame>>, b: seq<Option<RawSseFrame>>)
    ensures Present(a + b) == Present(a) + Present(b)
  {
    if a == [] {
      assert a + b == b;
    } else {
      assert (a + b)[1..] == a[1..] + b;
      PresentAppend(a[1..], b);
    }
  }

  lemma MapAppend<A, B>(f: A -> B, a: seq<A>, b: seq<A>)
    ensures Map(f, a + b) == Map(f, a) + Map(f, b)
  {
  }

  lemma ParseBlocksAppend(d: Dialect, a: seq<string>, b: seq<string>)
    ensures ParseBlocks(d, a + b) == ParseBlocks(d, a) + ParseBlocks(d, b)
  {
    PresentAppend(ParseAll(d, a), ParseAll(d, b));
    MapAppend(block => ParseBlock(d, block), a, b);
  }

  lemma ParseOne(d: Dialect, b: string)
    ensures ParseBlocks(d, [b]) == Optional(ParseBlock(d, b))
  {
    var p := ParseAll(d, [b]);
    assert p == [ParseBlock(d, b)] && p[1..] == [];
    assert Present(p) == Optional(p[0]) + Present([]);
  }

  /** The inner loop: complete blocks are cut off the buffer and parsed until no blank line is left. */
  method CutFrames(d: Dialect, input: string) returns (frames: seq<RawSseFrame>, buffer: string)
    ensures frames == ParseBlocks(d, Drain(input).blocks)
    ensures buffer == Drain(input).buffer
  {
    frames, buffer := [], input;
    ghost var all := Drain(input);
    ghost var n := 0;
    var sep := FindSep(buffer);
    while sep != -1
      invariant sep == FindSep(buffer)
      invariant 0 <= n <= |all.blocks|
      invariant Drain(buffer) == Fed(all.blocks[n..], all.buffer)
      invariant frames == ParseBlocks(d, all.blocks[..n])
      decreases |buffer|
    {
      var block := buffer[..sep];
      Uncons(all.blocks, n, block, Drain(buffer[sep + 2..]).blocks);
      buffer := buffer[sep + 2..];
      var frame := ParseBlockLoop(d, block);
      ParseBlocksNext(d, all.blocks, n);
      n := n + 1;
      if frame.Some? { frames := frames + [frame.value]; }
      sep := FindSep(buffer);
    }
    assert all.blocks[..n] == all.blocks;
  }

  lemma Uncons(all: seq<string>, n: nat, x: string, rest: seq<string>)
    requires n <= |all| && all[n..] == [x] + rest
    ensures n < |all| && all[n] == x && all[n + 1..] == rest
  {
    assert all[n] == all[n..][0] && all[n + 1..] == all[n..][1..];
  }

  lemma ParseBlocksNext(d: Dialect, blocks: seq<string>, n: nat)
    requires n < |blocks|
    ensures ParseBlocks(d, blocks[..n + 1]) == ParseBlocks(d, blocks[..n]) + Optional(ParseBlock(d, blocks[n]))
  {
    assert blocks[..n + 1] == blocks[..n] + [blocks[n]];
    ParseBlocksAppend(d, blocks[..n], [blocks[n]]);
    ParseOne(d, blocks[n]);
  }

  /** The generator: each chunk is appended, normalised together with what was left over, and complete
      blocks are cut off; at the end the unterminated rest is flushed. */
  method IterateSseFrames(d: Dialect, chunks: seq<string>) returns (frames: seq<RawSseFrame>)
    ensures frames == Frames(d, chunks)
  {
    frames := [];
    var buffer := "";
    var i := 0;
    while i < |chunks|
      invariant 0 <= i <= |chunks|
      invariant frames == ParseBlocks(d, Feed(chunks[..i]).blocks)
      invariant buffer == Feed(chunks[..i]).buffer
    {
      assert chunks[..i + 1][..i] == chunks[..i];
      ParseBlocksAppend(d, Feed(chunks[..i]).blocks, Drain(Normalize(buffer + chunks[i])).blocks);
      var more;
      more, buffer := CutFrames(d, Normalize(buffer + chunks[i]));
      frames := frames + more;
      i := i + 1;
    }
    assert chunks[..i] == chunks;
    var tail := Trim(d, buffer);
    if tail != "" {
      var frame := ParseBlockLoop(d, if d == Python then tail else buffer);
      if frame.Some? { frames := frames + [frame.value]; }
    }
  }

  // ---- Chunk independence --------------------------------------------------------------------

  /** Draining a buffer, then appending a chunk and draining again, cuts the same blocks as draining
      everything at once. */
  lemma {:induction false} DrainExtend(m: string, c: string)
    requires NoCrLf(m)
    ensures var again := Drain(Normalize(Drain(m).buffer + c));
      Drain(Normalize(m + c)) == Fed(Drain(m).blocks + again.blocks, again.buffer)
    decreases |m|
  {
    var i := FindSep(m);
    var again := Drain(Normalize(Drain(m).buffer + c));
    if i == -1 {
      assert [] + again.blocks == again.blocks;
    } else {
      var rest := m[i + 2..];
      NoCrLfSuffix(m, i + 2);
      DrainExtend(rest, c);
      DrainPeel(m, c, i);
      Associative([m[..i]], Drain(rest).blocks, again.blocks);
    }
  }

  lemma NoCrLfSuffix(s: string, k: nat)
    requires NoCrLf(s) && k <= |s|
    ensures NoCrLf(s[k..])
  {
    forall i ensures !CrLfAt(s[k..], i) { assert !CrLfAt(s, i + k); }
  }

  lemma DrainPeel(m: string, c: string, i: int)
    requires NoCrLf(m) && i == FindSep(m) && i != -1
    ensures var all := Drain(Normalize(m[i + 2..] + c));
      Drain(Normalize(m + c)) == Fed([m[..i]] + all.blocks, all.buffer)
  {
    var head, rest := m[..i + 2], m[i + 2..];
    var y := Normalize(rest + c);
    assert Normalize(m + c) == head + y by {
      assert m + c == head + (rest + c);
      forall j ensures !CrLfAt(head, j) { assert !CrLfAt(m, j); }
      NormalizeIdentity(head);
      NormalizeAppend(head, rest + c);
    }
    assert FindSep(head + y) == i by {
      forall j | j < i ensures !LfLfAt(head, j) { assert !LfLfAt(m, j); }
      assert LfLfAt(head, i);
      FindSepIs(head, i);
      FindSepExtend(head, y);
    }
    assert (head + y)[..i] == m[..i] && (head + y)[i + 2..] == y;
  }

  /** What the parser has cut off depends only on the text that arrived, not on how it was cut. */
  lemma {:induction false} FeedIsDrain(chunks: seq<string>)
    requires NoCrCrLf(Concat(chunks))
    ensures Feed(chunks) == Drain(Normalize(Concat(chunks)))
  {
    if chunks != [] {
      var init, last := chunks[..|chunks| - 1], chunks[|chunks| - 1];
      var text := Concat(init);
      forall i ensures !CrCrLfAt(text, i) { assert !CrCrLfAt(text + last, i); }
      FeedIsDrain(init);
      NormalizeHasNoCrLf(text);
      DrainExtend(Normalize(text), last);
      NormalizeResume(text, last);
    }
  }

  lemma ConcatWhole(t: string)
    ensures Concat([t]) == t
    ensures Feed([t]) == Drain(Normalize(t))
  {
    assert [t][..0] == [];
    assert "" + t == t;
    assert Concat([]) == "";
    assert Feed([]) == Fed([], "");
    assert [] + Drain(Normalize(t)).blocks == Drain(Normalize(t)).blocks;
  }

  /** Characters held by a parser state, counting the two of every separator. */
  function Size(fed: Fed): nat { BlocksSize(fed.blocks) + |fed.buffer| }

  function BlocksSize(blocks: seq<string>): nat {
    if blocks == [] then 0 else |blocks[0]| + 2 + BlocksSize(blocks[1..])
  }

  lemma {:induction false} BlocksSizeAppend(a: seq<string>, b: seq<string>)
    ensures BlocksSize(a + b) == BlocksSize(a) + BlocksSize(b)
  {
    if a == [] {
      assert a + b == b;
    } else {
      assert (a + b)[1..] == a[1..] + b;
      BlocksSizeAppend(a[1..], b);
    }
  }

  /** Draining loses nothing. */
  lemma {:induction false} DrainConserves(s: string)
    ensures Size(Drain(s)) == |s|
    decreases |s|
  {
    var i := FindSep(s);
    if i != -1 {
      DrainConserves(s[i + 2..]);
      BlocksSizeCons(s[..i], Drain(s[i + 2..]).blocks);
    }
  }

  lemma BlocksSizeCons(b: string, rest: seq<string>)
    ensures BlocksSize([b] + rest) == |b| + 2 + BlocksSize(rest)
  {
    assert ([b] + rest)[1..] == rest;
  }

  /** What draining keeps is a suffix, and the text before it ends in a separator. */
  lemma {:induction false} DrainKeepsSuffix(s: string) returns (p: nat)
    ensures p <= |s| && Drain(s).buffer == s[p..]
    ensures p > 0 ==> p >= 2 && LfLfAt(s, p - 2)
    decreases |s|
  {
    var i := FindSep(s);
    if i == -1 {
      p := 0;
    } else {
      var rest := s[i + 2..];
      var q := DrainKeepsSuffix(rest);
      p := i + 2 + q;
      assert rest[q..] == s[p..];
      if q > 0 { assert LfLfAt(rest, q - 2); }
    }
  }

  /** Cutting right after a CR CR LF changes what the parser holds: the second normalisation pass over
      the leftover buffer removes one more CR. */
  lemma CutAfterCrCrLf(t: string, i: int)
    requires CrCrLfAt(t, i)
    ensures Concat([t[..i + 3], t[i + 3..]]) == t
    ensures Feed([t[..i + 3], t[i + 3..]]) != Feed([t])
  {
    var a, b := t[..i + 3], t[i + 3..];
    assert t == a + b;
    assert [a, b][..1] == [a];
    ConcatWhole(a);
    ConcatWhole(t);
    var kept := Drain(Normalize(a));
    var again := Drain(Normalize(kept.buffer + b));
    assert Feed([a, b]) == Fed(kept.blocks + again.blocks, again.buffer);
    BlocksSizeAppend(kept.blocks, again.blocks);
    DrainConserves(Normalize(a));
    DrainConserves(Normalize(kept.buffer + b));
    DrainConserves(Normalize(t));
    SecondPassShrinks(a, b, t[..i]);
  }

  lemma SecondPassShrinks(a: string, b: string, x: string)
    requires a == x + "\r\r\n"
    ensures var l := Drain(Normalize(a)).buffer;
      |Normalize(l + b)| - |l| < |Normalize(a + b)| - |Normalize(a)|
  {
    NormalizeKeepsCrLf(a, x);
    KeptCrLf(Normalize(a));
    var l := Drain(Normalize(a)).buffer;
    PassesAfterLf(a, l, b);
  }

  lemma PassesAfterLf(a: string, l: string, b: string)
    requires CrLfAt(a, |a| - 2) && CrLfAt(l, |l| - 2)
    ensures |Normalize(l + b)| - |l| < |Normalize(a + b)| - |Normalize(a)|
  {
    NormalizeShrinks(l);
    NormalizeAppend(l, b);
    NormalizeAppend(a, b);
  }

  lemma NormalizeKeepsCrLf(a: string, x: string)
    requires a == x + "\r\r\n"
    ensures var n := Normalize(a); CrLfAt(n, |n| - 2)
  {
    assert a == (x + "\r") + "\r\n";
    NormalizeAppend(x, "\r");
    NormalizeAppend(x + "\r", "\r\n");
    NormalizePair("");
    NormalizeCons('\r', "");
    assert "\r\n" + "" == "\r\n" && ['\r'] + "" == "\r";
    assert Normalize(a) == Normalize(x) + "\r" + "\n";
  }

  /** A CR LF at the end of a drained text stays in the buffer. */
  lemma KeptCrLf(n: string)
    requires CrLfAt(n, |n| - 2)
    ensures var l := Drain(n).buffer; CrLfAt(l, |l| - 2)
  {
    var p := DrainKeepsSuffix(n);
    assert p > 0 ==> n[p - 1] == '\n' && n[p - 2] == '\n';
    assert p <= |n| - 2;
    var l := Drain(n).buffer;
    assert l[|l| - 1] == n[|n| - 1] && l[|l| - 2] == n[|n| - 2];
  }

  /** Chunk independence of the buffering, with its exact condition: every way of cutting a text leaves
      the parser with the same blocks and the same buffer if and only if the text contains no CR CR LF. */
  lemma ChunkIndependenceExact(t: string)
    ensures (forall chunks | Concat(chunks) == t :: Feed(chunks) == Feed([t])) <==> NoCrCrLf(t)
  {
    if NoCrCrLf(t) {
      ConcatWhole(t);
      forall chunks | Concat(chunks) == t ensures Feed(chunks) == Feed([t]) {
        FeedIsDrain(chunks);
      }
    } else {
      var i :| CrCrLfAt(t, i);
      CutAfterCrCrLf(t, i);
    }
  }

  /** Chunk independence of the frames, in both dialects. */
  lemma FramesIndependentOfChunks(d: Dialect, chunks: seq<string>)
    requires NoCrCrLf(Concat(chunks))
    ensures Frames(d, chunks) == Frames(d, [Concat(chunks)])
  {
    ChunkIndependenceExact(Concat(chunks));
  }
}
