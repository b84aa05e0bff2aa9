/** Text primitives of the event-stream parsers: CRLF normalisation, the search for a blank line,
    and splitting into lines. Text is a sequence of characters; decoding bytes is not modelled. */
module SseText {
  import opened Common

  /** The text a list of chunks spells. */
  function Concat(chunks: seq<string>): string {
    if chunks == [] then "" else Concat(chunks[..|chunks| - 1]) + chunks[|chunks| - 1]
  }

  /** One left-to-right pass replacing every CR LF pair by LF. */
  function Normalize(s: string): string {
    if s == "" then ""
    else if s[0] == '\r' && |s| > 1 && s[1] == '\n' then "\n" + Normalize(s[2..])
    else [s[0]] + Normalize(s[1..])
  }

  predicate CrCrLfAt(s: string, i: int) {
    0 <= i && i + 2 < |s| && s[i] == '\r' && s[i + 1] == '\r' && s[i + 2] == '\n'
  }

  predicate CrLfAt(s: string, i: int) {
    0 <= i && i + 1 < |s| && s[i] == '\r' && s[i + 1] == '\n'
  }

  predicate LfLfAt(s: string, i: int) {
    0 <= i && i + 1 < |s| && s[i] == '\n' && s[i + 1] == '\n'
  }

  ghost predicate NoCrCrLf(s: string) { forall i :: !CrCrLfAt(s, i) }

  ghost predicate NoCrLf(s: string) { forall i :: !CrLfAt(s, i) }

  ghost predicate NoLfLf(s: string) { forall i :: !LfLfAt(s, i) }

  /** Every CR is the first half of a CR LF pair. */
  ghost predicate NoBareCr(s: string) { forall i :: 0 <= i < |s| && s[i] == '\r' ==> CrLfAt(s, i) }

  /** The first position of a blank-line separator, or -1. */
  function FindSep(s: string): (r: int)
    ensures r == -1 ==> NoLfLf(s)
    ensures r != -1 ==> LfLfAt(s, r) && forall i :: i < r ==> !LfLfAt(s, i)
  {
    if |s| < 2 then -1
    else if s[0] == '\n' && s[1] == '\n' then 0
    else
      var r := FindSep(s[1..]);
      assert forall i :: i > 0 ==> (LfLfAt(s, i) <==> LfLfAt(s[1..], i - 1));
      if r == -1 then -1 else r + 1
  }

  /** The complete blocks of a buffer and what is left after the last separator. */
  datatype Fed = Fed(blocks: seq<string>, buffer: string)

  function Drain(s: string): Fed
    decreases |s|
  {
    var i := FindSep(s);
    if i == -1 then Fed([], s)
    else var rest := Drain(s[i + 2..]); Fed([s[..i]] + rest.blocks, rest.buffer)
  }

  /** Lines separated by LF; always at least one. */
  function SplitLf(s: string): (lines: seq<string>)
    ensures |lines| > 0
  {
    if s == "" then [""]
    else if s[0] == '\n' then [""] + SplitLf(s[1..])
    else var rest := SplitLf(s[1..]); [[s[0]] + rest[0]] + rest[1..]
  }

  function JoinLf(lines: seq<string>): string {
    if lines == [] then "" else if |lines| == 1 then lines[0] else lines[0] + "\n" + JoinLf(lines[1..])
  }

  /** Every line followed by an LF. */
  function TerminateLf(lines: seq<string>): string {
    if lines == [] then "" else lines[0] + "\n" + TerminateLf(lines[1..])
  }

  // ---- Normalisation -------------------------------------------------------------------------

  /** Normalisation distributes over any cut that does not separate a CR from its LF. */
  lemma {:induction false} NormalizeAppend(a: string, b: string)
    requires !(a != "" && a[|a| - 1] == '\r' && b != "" && b[0] == '\n')
    ensures Normalize(a + b) == Normalize(a) + Normalize(b)
  {
    if a == "" {
      assert a + b == b;
    } else if CrLfAt(a, 0) {
      assert (a + b)[2..] == a[2..] + b;
      NormalizeAppend(a[2..], b);
    } else {
      assert (a + b)[1..] == a[1..] + b;
      NormalizeAppend(a[1..], b);
    }
  }

  lemma {:induction false} NormalizeIdentity(s: string)
    requires NoCrLf(s)
    ensures Normalize(s) == s
  {
    if s != "" {
      assert !CrLfAt(s, 0);
      forall i ensures !CrLfAt(s[1..], i) { assert !CrLfAt(s, i + 1); }
      NormalizeIdentity(s[1..]);
    }
  }

  /** Normalising a buffer that was already normalised once, with more text behind it, is the same as
      normalising everything at once. */
  lemma {:induction false} NormalizeResume(a: string, b: string)
    requires NoCrCrLf(a + b)
    ensures Normalize(Normalize(a) + b) == Normalize(a + b)
  {
    if a == "" {
      assert Normalize(a) + b == a + b;
    } else {
      var k := if CrLfAt(a, 0) then 2 else 1;
      assert (a + b)[k..] == a[k..] + b;
      NoCrCrLfSuffix(a + b, k);
      NormalizeResume(a[k..], b);
      if k == 2 { NormalizeResumePair(a, b); } else { NormalizeResumeLone(a, b); }
    }
  }

  lemma NormalizeResumePair(a: string, b: string)
    requires CrLfAt(a, 0)
    requires Normalize(Normalize(a[2..]) + b) == Normalize(a[2..] + b)
    ensures Normalize(Normalize(a) + b) == Normalize(a + b)
  {
    var t := a[2..];
    Associative("\n", Normalize(t), b);
    NormalizeCons('\n', Normalize(t) + b);
    assert Normalize(a + b) == "\n" + Normalize(t + b) by {
      assert a == "\r\n" + t;
      Associative("\r\n", t, b);
      NormalizePair(t + b);
    }
  }

  lemma NormalizeResumeLone(a: string, b: string)
    requires a != "" && !CrLfAt(a, 0) && NoCrCrLf(a + b)
    requires Normalize(Normalize(a[1..]) + b) == Normalize(a[1..] + b)
    ensures Normalize(Normalize(a) + b) == Normalize(a + b)
  {
    var c, t := a[0], a[1..];
    assert a == [c] + t;
    if t == "" {
      assert a == [c];
      assert Normalize(a) == a by { NormalizeCons(c, ""); }
    } else {
      var n := Normalize(t);
      assert c == '\r' ==> t[0] != '\n' && n[0] != '\n' by {
        assert !CrCrLfAt(a + b, 0);
        NormalizeHead(t);
      }
      assert n != "" by { NormalizeHead(t); }
      NormalizeCons(c, t);
      NormalizeCons(c, n + b);
      NormalizeCons(c, t + b);
      assert a + b == [c] + (t + b);
      assert Normalize(a) + b == [c] + (n + b);
    }
  }

  lemma NormalizeHead(t: string)
    requires t != ""
    ensures Normalize(t) != "" && Normalize(t)[0] == if CrLfAt(t, 0) then '\n' else t[0]
  {
  }

  lemma NoCrCrLfSuffix(s: string, k: nat)
    requires NoCrCrLf(s) && k <= |s|
    ensures NoCrCrLf(s[k..])
  {
    forall i ensures !CrCrLfAt(s[k..], i) { assert !CrCrLfAt(s, i + k); }
  }

  lemma NormalizeCons(c: char, t: string)
    requires !(c == '\r' && t != "" && t[0] == '\n')
    ensures Normalize([c] + t) == [c] + Normalize(t)
  {
    assert ([c] + t)[1..] == t;
  }

  lemma NormalizePair(t: string)
    ensures Normalize("\r\n" + t) == "\n" + Normalize(t)
  {
    assert ("\r\n" + t)[2..] == t;
  }

  lemma {:induction false} NormalizeHasNoCrLf(s: string)
    requires NoCrCrLf(s)
    ensures NoCrLf(Normalize(s))
  {
    if s == "" {
    } else if CrLfAt(s, 0) {
      forall i ensures !CrCrLfAt(s[2..], i) { assert !CrCrLfAt(s, i + 2); }
      NormalizeHasNoCrLf(s[2..]);
      var n := Normalize(s);
      forall i ensures !CrLfAt(n, i) { assert i > 0 ==> !CrLfAt(Normalize(s[2..]), i - 1); }
    } else {
      forall i ensures !CrCrLfAt(s[1..], i) { assert !CrCrLfAt(s, i + 1); }
      NormalizeHasNoCrLf(s[1..]);
      var n := Normalize(s);
      assert !CrCrLfAt(s, 0);
      forall i ensures !CrLfAt(n, i) { assert i > 0 ==> !CrLfAt(Normalize(s[1..]), i - 1); }
    }
  }

  lemma {:induction false} NormalizeShrinks(s: string)
    ensures |Normalize(s)| <= |s|
    ensures (exists i :: CrLfAt(s, i)) ==> |Normalize(s)| < |s|
  {
    if s == "" {
    } else if CrLfAt(s, 0) {
      NormalizeShrinks(s[2..]);
    } else {
      NormalizeShrinks(s[1..]);
      if i :| CrLfAt(s, i) { assert CrLfAt(s[1..], i - 1); }
    }
  }

  lemma {:induction false} NormalizeRemovesCr(s: string)
    requires NoBareCr(s)
    ensures '\r' !in Normalize(s)
  {
    if s == "" {
    } else if CrLfAt(s, 0) {
      forall i | 0 <= i < |s[2..]| && s[2..][i] == '\r' ensures CrLfAt(s[2..], i) { assert CrLfAt(s, i + 2); }
      NormalizeRemovesCr(s[2..]);
    } else {
      assert s[0] == '\r' ==> CrLfAt(s, 0);
      forall i | 0 <= i < |s[1..]| && s[1..][i] == '\r' ensures CrLfAt(s[1..], i) { assert CrLfAt(s, i + 1); }
      NormalizeRemovesCr(s[1..]);
    }
  }

  // ---- Separators ----------------------------------------------------------------------------

  lemma FindSepIs(s: string, i: int)
    requires LfLfAt(s, i) && forall j :: j < i ==> !LfLfAt(s, j)
    ensures FindSep(s) == i
  {
    assert FindSep(s) != -1;
  }

  /** The first separator does not move when text is appended. */
  lemma FindSepExtend(s: string, more: string)
    requires FindSep(s) != -1
    ensures FindSep(s + more) == FindSep(s)
  {
    var i := FindSep(s);
    forall j | j < i ensures !LfLfAt(s + more, j) { assert !LfLfAt(s, j); }
    FindSepIs(s + more, i);
  }

  // ---- Lines ---------------------------------------------------------------------------------

  lemma {:induction false} JoinSplit(s: string)
    ensures JoinLf(SplitLf(s)) == s
  {
    if s != "" {
      JoinSplit(s[1..]);
      var rest := SplitLf(s[1..]);
      if s[0] == '\n' {
        assert SplitLf(s)[1..] == rest;
        assert s == "\n" + s[1..];
      } else {
        assert SplitLf(s)[1..] == rest[1..];
        assert s == [s[0]] + s[1..];
      }
    }
  }

  lemma {:induction false} SplitPiecesClean(s: string)
    ensures forall l :: l in SplitLf(s) ==> '\n' !in l
    ensures '\r' !in s ==> forall l :: l in SplitLf(s) ==> '\r' !in l
  {
    if s != "" {
      SplitPiecesClean(s[1..]);
    }
  }

  lemma {:induction false} SplitSingle(l: string)
    requires '\n' !in l
    ensures SplitLf(l) == [l]
  {
    if l != "" {
      SplitSingle(l[1..]);
      assert l == [l[0]] + l[1..];
    }
  }

  lemma {:induction false} SplitLine(l: string, rest: string)
    requires '\n' !in l
    ensures SplitLf(l + "\n" + rest) == [l] + SplitLf(rest)
  {
    var s := l + "\n" + rest;
    if l == "" {
      assert s[1..] == rest;
    } else {
      assert s[1..] == l[1..] + "\n" + rest;
      SplitLine(l[1..], rest);
      assert l == [l[0]] + l[1..];
    }
  }

  lemma {:induction false} SplitJoin(lines: seq<string>)
    requires lines != []
    requires forall i :: 0 <= i < |lines| ==> '\n' !in lines[i]
    ensures SplitLf(JoinLf(lines)) == lines
  {
    if |lines| == 1 {
      SplitSingle(lines[0]);
    } else {
      var rest := lines[1..];
      forall i | 0 <= i < |rest| ensures '\n' !in rest[i] { assert rest[i] == lines[i + 1]; }
      SplitJoin(rest);
      SplitLine(lines[0], JoinLf(rest));
    }
  }

  /** Terminating every line and joining them differ by the last LF. */
  lemma {:induction false} TerminateIsJoin(lines: seq<string>)
    requires lines != []
    ensures TerminateLf(lines) == JoinLf(lines) + "\n"
  {
    if |lines| == 1 {
      assert lines[1..] == [];
    } else {
      TerminateIsJoin(lines[1..]);
    }
  }

  lemma {:induction false} TerminateAppend(lines: seq<string>, l: string)
    ensures TerminateLf(lines + [l]) == TerminateLf(lines) + l + "\n"
  {
    if lines == [] {
      assert lines + [l] == [l];
      assert TerminateLf([l]) == l + "\n" + TerminateLf([l][1..]);
    } else {
      assert (lines + [l])[1..] == lines[1..] + [l];
      TerminateAppend(lines[1..], l);
    }
  }
}
