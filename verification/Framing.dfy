/**
 How the tailer cuts a byte stream into lines, and what that means across reads and restarts.

 Whether a line counts as blank is a parameter: the source trims Unicode white space.
 */
module Framing {
  newtype byte = x: int | 0 <= x < 256
  type Bytes = seq<byte>

  datatype Line = Line(bytes: Bytes)

  const NEWLINE: byte := 10

  /** The newline-terminated lines, without their newlines, read off byte by byte. */
  function Lines(data: Bytes): seq<Line> {
    if data == [] then []
    else
      var pre := data[..|data| - 1];
      if data[|data| - 1] == NEWLINE then Lines(pre) + [Line(Tail(pre))] else Lines(pre)
  }

  /** What follows the last newline. */
  function Tail(data: Bytes): Bytes {
    if data == [] || data[|data| - 1] == NEWLINE then []
    else Tail(data[..|data| - 1]) + [data[|data| - 1]]
  }

  function NonBlank(lines: seq<Line>, blank: Line -> bool): seq<Line> {
    if lines == [] then []
    else NonBlank(lines[..|lines| - 1], blank) + Kept(lines[|lines| - 1], blank)
  }

  function Kept(line: Line, blank: Line -> bool): seq<Line> {
    if blank(line) then [] else [line]
  }

  lemma {:induction false} NonBlankConcat(a: seq<Line>, b: seq<Line>, blank: Line -> bool)
    ensures NonBlank(a + b, blank) == NonBlank(a, blank) + NonBlank(b, blank)
  {
    if b == [] {
      assert a + b == a;
    } else {
      var pre, last := b[..|b| - 1], b[|b| - 1];
      NonBlankConcat(a, pre, blank);
      assert (a + b)[..|a + b| - 1] == a + pre && (a + b)[|a + b| - 1] == last;
      Regroup(NonBlank(a, blank), NonBlank(pre, blank), Kept(last, blank), []);
    }
  }

  lemma LinesSnoc(data: Bytes, last: byte)
    ensures Lines(data + [last]) == Lines(data) + if last == NEWLINE then [Line(Tail(data))] else []
    ensures Tail(data + [last]) == if last == NEWLINE then [] else Tail(data) + [last]
  {
  }

  /** Cutting a stream anywhere and carrying the tail over gives the lines and the tail of the whole stream. */
  lemma {:induction false} LinesResume(a: Bytes, b: Bytes)
    ensures Lines(a + b) == Lines(a) + Lines(Tail(a) + b)
    ensures Tail(a + b) == Tail(Tail(a) + b)
  {
    if b == [] {
      assert a + b == a && Tail(a) + b == Tail(a);
      TailIsBare(a);
    } else {
      var pre, last := b[..|b| - 1], b[|b| - 1];
      LinesResume(a, pre);
      assert b == pre + [last];
      Regroup(a, pre, [last], []);
      Regroup(Tail(a), pre, [last], []);
      LinesSnoc(a + pre, last);
      LinesSnoc(Tail(a) + pre, last);
      Regroup(Lines(a), Lines(Tail(a) + pre), if last == NEWLINE then [Line(Tail(a + pre))] else [], []);
    }
  }

  lemma {:induction false} NoNewlineNoLines(data: Bytes)
    requires NEWLINE !in data
    ensures Lines(data) == [] && Tail(data) == data
  {
    if data != [] {
      NoNewlineNoLines(data[..|data| - 1]);
    }
  }

  /** The tail is the newline-free end of the data. */
  lemma {:induction false} TailIsBare(data: Bytes)
    ensures NEWLINE !in Tail(data) && |Tail(data)| <= |data| && Tail(data) == data[|data| - |Tail(data)|..]
    ensures Lines(Tail(data)) == [] && Tail(Tail(data)) == Tail(data)
  {
    if data != [] && data[|data| - 1] != NEWLINE {
      TailIsBare(data[..|data| - 1]);
    }
    NoNewlineNoLines(Tail(data));
  }

  /** Cutting off the first line. */
  lemma {:induction false} FirstLine(line: Bytes, rest: Bytes)
    requires NEWLINE !in line
    ensures Lines(line + [NEWLINE] + rest) == [Line(line)] + Lines(rest)
    ensures Tail(line + [NEWLINE] + rest) == Tail(rest)
  {
    var first := line + [NEWLINE];
    NoNewlineNoLines(line);
    assert first[..|first| - 1] == line;
    LinesResume(first, rest);
    assert Tail(first) + rest == rest;
  }

  /** The non-blank lines among the newline-terminated lines, in order. */
  function Handed(data: Bytes, blank: Line -> bool): seq<Line> {
    NonBlank(Lines(data), blank)
  }

  lemma {:induction false} HandedResume(a: Bytes, b: Bytes, blank: Line -> bool)
    ensures Handed(a + b, blank) == Handed(a, blank) + Handed(Tail(a) + b, blank)
    ensures Tail(a + b) == Tail(Tail(a) + b)
  {
    LinesResume(a, b);
    NonBlankConcat(Lines(a), Lines(Tail(a) + b), blank);
  }

  lemma {:induction false} HandedFirst(line: Bytes, rest: Bytes, blank: Line -> bool)
    requires NEWLINE !in line
    ensures Handed(line + [NEWLINE] + rest, blank) == Kept(Line(line), blank) + Handed(rest, blank)
    ensures Tail(line + [NEWLINE] + rest) == Tail(rest)
  {
    FirstLine(line, rest);
    NonBlankConcat([Line(line)], Lines(rest), blank);
    KeptAlone(Line(line), blank);
  }

  lemma {:induction false} HandedAt(data: Bytes, i: nat, before: seq<Line>, blank: Line -> bool)
    requires i < |data| && data[i] == NEWLINE && NEWLINE !in data[..i]
    ensures before + Handed(data, blank) == before + Kept(Line(data[..i]), blank) + Handed(data[i + 1..], blank)
    ensures Tail(data) == Tail(data[i + 1..])
  {
    var line, rest := data[..i], data[i + 1..];
    assert data == line + [NEWLINE] + rest;
    HandedFirst(line, rest, blank);
    Regroup(before, Kept(Line(line), blank), Handed(rest, blank), []);
  }

  function Joined(lines: seq<Line>): Bytes {
    if lines == [] then [] else Joined(lines[..|lines| - 1]) + lines[|lines| - 1].bytes + [NEWLINE]
  }

  /** Framing loses nothing: the lines, each with its newline, followed by the tail are the stream itself. */
  lemma {:induction false} LinesRejoin(data: Bytes)
    ensures Joined(Lines(data)) + Tail(data) == data
  {
    if data != [] {
      var pre, last := data[..|data| - 1], data[|data| - 1];
      LinesRejoin(pre);
      var j, t := Joined(Lines(pre)), Tail(pre);
      assert j + t == pre && data == pre + [last];
      if last == NEWLINE {
        JoinedSnoc(Lines(pre), Line(t));
        assert j + t + [NEWLINE] == data;
      } else {
        assert j + (t + [last]) == j + t + [last];
      }
    }
  }

  lemma JoinedSnoc(lines: seq<Line>, line: Line)
    ensures Joined(lines + [line]) == Joined(lines) + line.bytes + [NEWLINE]
  {
  }

  // ----- Restart -----

  /** The bytes up to the first newline. */
  function FirstPart(data: Bytes): Bytes {
    if data == [] || data[0] == NEWLINE then [] else [data[0]] + FirstPart(data[1..])
  }

  lemma {:induction false} FirstPartEndsAtNewline(data: Bytes)
    ensures NEWLINE !in FirstPart(data) && FirstPart(data) <= data
    ensures NEWLINE in data ==> |FirstPart(data)| < |data| && data[|FirstPart(data)|] == NEWLINE
  {
    if data != [] && data[0] != NEWLINE {
      FirstPartEndsAtNewline(data[1..]);
    }
  }

  /** The line that a cut between `a` and `b` falls in. */
  function Straddling(a: Bytes, b: Bytes): Line {
    Line(Tail(a) + FirstPart(b))
  }

  /** What follows the first newline. */
  function AfterFirst(data: Bytes): Bytes {
    var n := |FirstPart(data)| + 1;
    if n <= |data| then data[n..] else []
  }

  lemma SplitAt(data: Bytes, n: nat)
    requires n < |data|
    ensures data == data[..n] + [data[n]] + data[n + 1..]
  {
  }

  lemma SplitAtNewline(data: Bytes)
    requires NEWLINE in data
    ensures data == FirstPart(data) + [NEWLINE] + AfterFirst(data) && NEWLINE !in FirstPart(data)
  {
    FirstPartEndsAtNewline(data);
    var n := |FirstPart(data)|;
    SplitAt(data, n);
    assert FirstPart(data) == data[..n];
  }

  /**
   Resuming at a saved offset, without the tail that the earlier run still held. The earlier run handed on the
   lines that end before the cut. The later one hands on the rest of the line the cut falls in, as if it were a line
   of its own, and then every line that starts after the cut.
   */
  lemma {:induction false} RestartDelivers(a: Bytes, b: Bytes)
    requires NEWLINE in b
    ensures Lines(a + b) == Lines(a) + [Straddling(a, b)] + Lines(AfterFirst(b))
    ensures Lines(b) == [Line(FirstPart(b))] + Lines(AfterFirst(b))
  {
    var part, rest := FirstPart(b), AfterFirst(b);
    SplitAtNewline(b);
    FirstLine(part, rest);
    LinesResume(a, b);
    assert NEWLINE !in Tail(a) + part by {
      TailIsBare(a);
    }
    assert Lines(Tail(a) + b) == [Straddling(a, b)] + Lines(rest) by {
      FirstLine(Tail(a) + part, rest);
      Regroup(Tail(a), part, [NEWLINE], rest);
    }
    Regroup(Lines(a), [Straddling(a, b)], Lines(rest), []);
  }

  lemma Regroup<T>(a: seq<T>, b: seq<T>, c: seq<T>, d: seq<T>)
    ensures a + (b + c + d) == a + b + c + d
    ensures a + (b + c) == a + b + c
  {
  }

  /** When a restart at this cut neither loses nor mangles anything. */
  predicate CleanCut(a: Bytes, b: Bytes, blank: Line -> bool) {
    || Tail(a) == []
    || NEWLINE !in b
    || (blank(Straddling(a, b)) && blank(Line(FirstPart(b))))
  }

  /**
   Two runs split at a cut deliver what one uninterrupted run delivers if and only if the cut is at a line
   boundary, or the line it falls in is not finished yet, or neither that line nor its second part is handed on.
   */
  lemma {:induction false} RestartIsSeamlessIff(a: Bytes, b: Bytes, blank: Line -> bool)
    ensures Handed(a, blank) + Handed(b, blank) == Handed(a + b, blank)
            <==> CleanCut(a, b, blank)
  {
    if NEWLINE in b {
      var rest := Handed(AfterFirst(b), blank);
      HandedWhole(a, b, blank);
      HandedRest(b, blank);
      KeptEqual(Tail(a), FirstPart(b), blank);
      AlignedEqual(Handed(a, blank), Kept(Line(FirstPart(b)), blank), Kept(Straddling(a, b), blank), rest);
    } else {
      UnfinishedHandsNothing(a, b, blank);
    }
  }

  lemma UnfinishedHandsNothing(a: Bytes, b: Bytes, blank: Line -> bool)
    requires NEWLINE !in b
    ensures Handed(b, blank) == [] && Handed(a + b, blank) == Handed(a, blank)
  {
    assert Lines(b) == [] by {
      NoNewlineNoLines(b);
    }
    assert Lines(a + b) == Lines(a) by {
      LinesResume(a, b);
      TailIsBare(a);
      NoNewlineNoLines(Tail(a) + b);
    }
  }

  /** A run that resumes at the cut hands on the rest of the line the cut falls in. */
  lemma HandedRest(b: Bytes, blank: Line -> bool)
    requires NEWLINE in b
    ensures Handed(b, blank) == Kept(Line(FirstPart(b)), blank) + Handed(AfterFirst(b), blank)
  {
    SplitAtNewline(b);
    HandedFirst(FirstPart(b), AfterFirst(b), blank);
  }

  /** An uninterrupted run hands on that line as a whole. */
  lemma HandedWhole(a: Bytes, b: Bytes, blank: Line -> bool)
    requires NEWLINE in b
    ensures Handed(a + b, blank)
            == Handed(a, blank) + Kept(Straddling(a, b), blank) + Handed(AfterFirst(b), blank)
  {
    var part, rest := FirstPart(b), AfterFirst(b);
    HandedResume(a, b, blank);
    assert Handed(Tail(a) + b, blank) == Kept(Straddling(a, b), blank) + Handed(rest, blank) by {
      SplitAtNewline(b);
      TailIsBare(a);
      Regroup(Tail(a), part, [NEWLINE], rest);
      HandedFirst(Tail(a) + part, rest, blank);
    }
    Regroup(Handed(a, blank), Kept(Straddling(a, b), blank), Handed(rest, blank), []);
  }

  lemma KeptAlone(line: Line, blank: Line -> bool)
    ensures NonBlank([line], blank) == Kept(line, blank)
  {
  }

  lemma KeptEqual(tail: Bytes, part: Bytes, blank: Line -> bool)
    ensures Kept(Line(part), blank) == Kept(Line(tail + part), blank)
            <==> tail == [] || (blank(Line(tail + part)) && blank(Line(part)))
  {
    if tail == [] {
      assert tail + part == part;
    } else {
      assert |tail + part| > |part|;
      assert Line(tail + part) != Line(part);
      if !blank(Line(part)) {
        assert Kept(Line(part), blank)[0] == Line(part);
      }
    }
  }

  lemma AlignedEqual(la: seq<Line>, p: seq<Line>, w: seq<Line>, lr: seq<Line>)
    ensures la + (p + lr) == la + w + lr <==> p == w
  {
    assert la + (p + lr) == la + p + lr;
    if la + p + lr == la + w + lr {
      assert |p| == |w|;
      assert p == (la + p + lr)[|la|..|la| + |p|];
      assert w == (la + w + lr)[|la|..|la| + |w|];
    }
  }
}
