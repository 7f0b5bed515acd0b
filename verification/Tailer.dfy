/**
 The event file tailer: it polls a growing file, hands on its complete lines and remembers how far it read.
 */
module Tailer {
  import opened Options
  import opened Framing

  /** What the tailer finds on disk during one poll: which file the path names, and the content of each file. */
  datatype Disk = Disk(path: Option<nat>, files: map<nat, Bytes>)

  /** One poll: the disk, the sizes of its reads, and whether saving the offset works. */
  datatype Poll = Poll(disk: Disk, sizes: seq<nat>, saves: bool)

  /** `saved` is the offset a restart would load. `handle` is the file held open, at position `offset`. */
  datatype Progress = Progress(offset: int, pending: Bytes, handed: seq<Line>, handle: Option<nat>,
                         lastSaved: int, saved: int)

  ghost predicate ValidDisk(disk: Disk, handle: Option<nat>) {
    && (disk.path.Some? ==> disk.path.value in disk.files)
    && (handle.Some? ==> handle.value in disk.files)
  }

  /** An open file is held at a position that could be sought. */
  ghost predicate ValidProgress(t: Progress) {
    t.handle.Some? ==> 0 <= t.offset
  }

  /** The state at startup. */
  function Start(saved: int): Progress {
    Progress(saved, [], [], None, saved, saved)
  }

  /** `open`: seek to the offset, or to the start when the file is shorter. A negative offset cannot be sought. */
  function Open(t: Progress, disk: Disk): Progress
    requires ValidDisk(disk, t.handle)
  {
    if disk.path.None? then t
    else
      var at := if t.offset > |disk.files[disk.path.value]| then 0 else t.offset;
      if at < 0 then t.(offset := at) else t.(offset := at, handle := disk.path)
  }

  /** The path names another file, or the file got shorter than what was read. */
  predicate Rotated(t: Progress, disk: Disk)
    requires ValidDisk(disk, t.handle)
  {
    disk.path.Some? && (disk.path != t.handle || |disk.files[disk.path.value]| < t.offset)
  }

  function Min(a: int, b: int): int {
    if a < b then a else b
  }

  /** What one read of at most `size` bytes at `offset` returns. */
  function Chunk(offset: int, data: Bytes, size: nat): Bytes
    requires 0 <= offset
  {
    if offset >= |data| then [] else data[offset..offset + Min(size, |data| - offset)]
  }

  /** Appending a chunk to what is pending, followed by `consumeLines`. */
  function Fed(t: Progress, chunk: Bytes, blank: Line -> bool): Progress {
    if chunk == [] then t
    else
      var buf := t.pending + chunk;
      t.(offset := t.offset + |chunk|, pending := Tail(buf), handed := t.handed + Handed(buf, blank))
  }

  function ReadAll(t: Progress, data: Bytes, sizes: seq<nat>, blank: Line -> bool): (t': Progress)
    requires 0 <= t.offset
    ensures t.offset <= t'.offset && t'.handle == t.handle
  {
    if sizes == [] then t
    else
      var mid := ReadAll(t, data, sizes[..|sizes| - 1], blank);
      Fed(mid, Chunk(mid.offset, data, sizes[|sizes| - 1]), blank)
  }

  function Save(t: Progress, saves: bool): Progress {
    if t.offset == t.lastSaved then t
    else t.(lastSaved := t.offset, saved := if saves then t.offset else t.saved)
  }

  /** One turn of the polling loop. */
  function Polled(t: Progress, p: Poll, blank: Line -> bool): (t': Progress)
    requires ValidDisk(p.disk, t.handle) && ValidProgress(t)
    ensures ValidProgress(t')
  {
    var o := if t.handle.None? then Open(t, p.disk) else t;
    if o.handle.None? then o
    else if Rotated(o, p.disk) then o.(handle := None, offset := 0, pending := [])
    else Save(ReadAll(o, p.disk.files[o.handle.value], p.sizes, blank), p.saves)
  }

  /** How the tailer ends: by a crash (None), or by an exit whose final save works or fails. */
  function Stopped(t: Progress, exit: Option<bool>): Progress {
    if exit == Some(true) then t.(saved := t.offset) else t
  }

  // ----- Whole runs -----

  /** No rotation: the path always names file `id`, and that file only ever grows. */
  ghost predicate Steady(polls: seq<Poll>, id: nat) {
    && (forall i :: 0 <= i < |polls| ==> polls[i].disk.path == Some(id) && id in polls[i].disk.files)
    && forall i :: 0 < i < |polls| ==> polls[i - 1].disk.files[id] <= polls[i].disk.files[id]
  }

  function Run(t: Progress, polls: seq<Poll>, id: nat, blank: Line -> bool): (t': Progress)
    requires t.handle.None? || (t.handle == Some(id) && 0 <= t.offset)
    requires forall i :: 0 <= i < |polls| ==> polls[i].disk.path == Some(id) && id in polls[i].disk.files
    ensures t'.handle.None? || (t'.handle == Some(id) && 0 <= t'.offset)
  {
    if polls == [] then t
    else Polled(Run(t, polls[..|polls| - 1], id, blank), polls[|polls| - 1], blank)
  }

  /** Having read the bytes `read`, `t` has handed on their non-blank lines on top of what `t0` had. */
  ghost predicate Framed(t0: Progress, t: Progress, read: Bytes, blank: Line -> bool) {
    t.handed == t0.handed + Handed(read, blank) && t.pending == Tail(read)
  }

  lemma {:induction false} FedFrames(t0: Progress, t: Progress, read: Bytes, chunk: Bytes, blank: Line -> bool)
    requires Framed(t0, t, read, blank)
    ensures Framed(t0, Fed(t, chunk, blank), read + chunk, blank)
  {
    if chunk == [] {
      assert read + chunk == read;
    } else {
      HandedResume(read, chunk, blank);
      Regroup(t0.handed, Handed(read, blank), Handed(Tail(read) + chunk, blank), []);
    }
  }

  lemma Join(data: Bytes, i: nat, j: nat, k: nat)
    requires i <= j <= k <= |data|
    ensures data[i..k] == data[i..j] + data[j..k]
  {
  }

  lemma ChunkJoins(data: Bytes, start: nat, offset: nat, size: nat)
    requires start <= offset <= |data|
    ensures var chunk := Chunk(offset, data, size);
            offset + |chunk| <= |data| && data[start..offset + |chunk|] == data[start..offset] + chunk
  {
  }

  /** `read` are the bytes from `start` up to where `t` stands, and `t` has framed them. */
  ghost predicate HasRead(t0: Progress, t: Progress, data: Bytes, start: nat, read: Bytes, blank: Line -> bool) {
    start <= t.offset <= |data| && read == data[start..t.offset] && Framed(t0, t, read, blank)
  }

  lemma ReadFrames(t0: Progress, t: Progress, data: Bytes, start: nat, read: Bytes, size: nat, blank: Line -> bool)
    requires HasRead(t0, t, data, start, read, blank)
    ensures var chunk := Chunk(t.offset, data, size);
            HasRead(t0, Fed(t, chunk, blank), data, start, read + chunk, blank)
  {
    ChunkJoins(data, start, t.offset, size);
    FedFrames(t0, t, read, Chunk(t.offset, data, size), blank);
  }

  lemma {:induction false} ReadsFrame(t0: Progress, t: Progress, data: Bytes, start: nat, sizes: seq<nat>,
                                      blank: Line -> bool) returns (read: Bytes)
    requires start <= t.offset <= |data| && HasRead(t0, t, data, start, data[start..t.offset], blank)
    ensures var t' := ReadAll(t, data, sizes, blank);
            && HasRead(t0, t', data, start, read, blank)
            && t'.handle == t.handle && t'.lastSaved == t.lastSaved && t'.saved == t.saved
  {
    read := data[start..t.offset];
    if sizes != [] {
      var pre := sizes[..|sizes| - 1];
      var before := ReadsFrame(t0, t, data, start, pre, blank);
      var mid := ReadAll(t, data, pre, blank);
      ReadFrames(t0, mid, data, start, before, sizes[|sizes| - 1], blank);
      read := before + Chunk(mid.offset, data, sizes[|sizes| - 1]);
    }
  }

  /**
   Framing over whole runs. However the file grows and however its bytes are cut into polls and reads, a tailer
   started at `start` has handed on exactly the non-blank lines of the bytes read since `start`, in order, holds
   exactly the newline-free rest, and a restart would load an offset between `start` and what was read.
   */
  lemma {:induction false} RunsFrame(t0: Progress, polls: seq<Poll>, id: nat, blank: Line -> bool)
    requires t0.handle.None? && t0.pending == [] && polls != [] && Steady(polls, id)
    requires 0 <= t0.offset <= |polls[0].disk.files[id]|
    ensures var t, data := Run(t0, polls, id, blank), polls[|polls| - 1].disk.files[id];
            && t.handle == Some(id)
            && t0.offset <= t.offset <= |data|
            && Framed(t0, t, data[t0.offset..t.offset], blank)
            && (t0.saved == t0.lastSaved == t0.offset ==>
                  && t0.offset <= t.saved <= t.offset == t.lastSaved
                  && ((forall i :: 0 <= i < |polls| ==> polls[i].saves) ==> t.saved == t.offset))
  {
    var p, pre := polls[|polls| - 1], polls[..|polls| - 1];
    var t := Run(t0, pre, id, blank);
    var data := p.disk.files[id];
    if pre == [] {
      assert data[t0.offset..t0.offset] == [];
      PollFrames(t0, Open(t0, p.disk), p, id, blank);
    } else {
      RunsFrame(t0, pre, id, blank);
      var before := pre[|pre| - 1].disk.files[id];
      assert before == polls[|polls| - 2].disk.files[id];
      GrownPollFrames(t0, t, before, p, id, blank);
    }
  }

  lemma {:induction false} PollFrames(t0: Progress, t: Progress, p: Poll, id: nat, blank: Line -> bool)
    requires t.handle == p.disk.path == Some(id) && id in p.disk.files
    requires 0 <= t0.offset <= t.offset <= |p.disk.files[id]|
    requires Framed(t0, t, p.disk.files[id][t0.offset..t.offset], blank)
    ensures var t', data := Polled(t, p, blank), p.disk.files[id];
            && t'.handle == t.handle && t.offset <= t'.offset <= |data|
            && Framed(t0, t', data[t0.offset..t'.offset], blank)
            && t'.lastSaved == t'.offset
            && (t'.saved == t.saved || t'.saved == t'.offset)
            && (p.saves ==> t'.saved == t'.offset || (t'.saved == t.saved && t'.offset == t.lastSaved))
  {
    var read := ReadsFrame(t0, t, p.disk.files[id], t0.offset, p.sizes, blank);
  }

  lemma GrownPollFrames(t0: Progress, t: Progress, before: Bytes, p: Poll, id: nat, blank: Line -> bool)
    requires t.handle == p.disk.path == Some(id) && id in p.disk.files && before <= p.disk.files[id]
    requires 0 <= t0.offset <= t.offset <= |before| && Framed(t0, t, before[t0.offset..t.offset], blank)
    ensures var t', data := Polled(t, p, blank), p.disk.files[id];
            && t'.handle == t.handle && t.offset <= t'.offset <= |data|
            && Framed(t0, t', data[t0.offset..t'.offset], blank)
            && t'.lastSaved == t'.offset
            && (t'.saved == t.saved || t'.saved == t'.offset)
            && (p.saves ==> t'.saved == t'.offset || (t'.saved == t.saved && t'.offset == t.lastSaved))
  {
    assert before[t0.offset..t.offset] == p.disk.files[id][t0.offset..t.offset];
    PollFrames(t0, t, p, id, blank);
  }

  function Sum(sizes: seq<nat>): nat {
    if sizes == [] then 0 else Sum(sizes[..|sizes| - 1]) + sizes[|sizes| - 1]
  }

  /** The reads of a poll get as far as they ask for, up to the end of the file. */
  lemma {:induction false} ReadsReach(t: Progress, data: Bytes, sizes: seq<nat>, blank: Line -> bool)
    requires 0 <= t.offset <= |data|
    ensures ReadAll(t, data, sizes, blank).offset
            == if t.offset + Sum(sizes) <= |data| then t.offset + Sum(sizes) else |data|
  {
    if sizes != [] {
      ReadsReach(t, data, sizes[..|sizes| - 1], blank);
    }
  }

  /**
   A poll closes the file if and only if the path names another one, or the file has become shorter than what was read.
   The next poll then reads whatever the path names from its first byte, and what was pending is dropped.
   */
  lemma RotationIsNoticedIff(t: Progress, p: Poll, q: Poll, id: nat, blank: Line -> bool)
    requires t.handle.Some? && ValidDisk(p.disk, t.handle) && ValidProgress(t)
    requires q.disk.path == Some(id) && id in q.disk.files
    ensures var t' := Polled(t, p, blank);
            && (t'.handle.None? <==>
                  && p.disk.path.Some?
                  && (p.disk.path != t.handle || |p.disk.files[p.disk.path.value]| < t.offset))
            && (t'.handle.None? ==>
                  && t'.handed == t.handed
                  && var t'' := Polled(t', q, blank);
                     && t''.handle == Some(id) && 0 <= t''.offset <= |q.disk.files[id]|
                     && t''.handed == t.handed + Handed(q.disk.files[id][..t''.offset], blank)
                     && t''.pending == Tail(q.disk.files[id][..t''.offset]))
  {
    var t' := Polled(t, p, blank);
    if t'.handle.None? {
      ReopenedReads(t', q, id, blank);
    }
  }

  lemma ReopenedReads(t: Progress, q: Poll, id: nat, blank: Line -> bool)
    requires t.handle.None? && t.offset == 0 && t.pending == [] && q.disk.path == Some(id) && id in q.disk.files
    ensures var t', data := Polled(t, q, blank), q.disk.files[id];
            && t'.handle == Some(id) && 0 <= t'.offset <= |data|
            && t'.handed == t.handed + Handed(data[..t'.offset], blank) && t'.pending == Tail(data[..t'.offset])
  {
    var data, o := q.disk.files[id], Open(t, q.disk);
    assert data[0..0] == [] && o == t.(handle := Some(id));
    var read := ReadsFrame(o, o, data, 0, q.sizes, blank);
    assert read == data[..|read|];
  }

  /** A saved offset beyond the end of the file counts as zero. */
  lemma OversizedOffsetStartsOver(t: Progress, p: Poll, blank: Line -> bool)
    requires ValidDisk(p.disk, None) && t.handle.None? && p.disk.path.Some?
    requires |p.disk.files[p.disk.path.value]| < t.offset
    ensures Polled(t, p, blank) == Polled(t.(offset := 0), p, blank)
  {
  }

  /** A negative saved offset cannot be sought, so the file is never read, however it grows. */
  lemma {:induction false} NegativeOffsetNeverReads(t0: Progress, polls: seq<Poll>, id: nat, blank: Line -> bool)
    requires t0.handle.None? && t0.offset < 0
    requires forall i :: 0 <= i < |polls| ==> polls[i].disk.path == Some(id) && id in polls[i].disk.files
    ensures Run(t0, polls, id, blank) == t0
  {
    if polls != [] {
      NegativeOffsetNeverReads(t0, polls[..|polls| - 1], id, blank);
    }
  }

  /** Every line that ends at or before the saved offset was already handed on. */
  lemma {:induction false} SavedLinesWereHandedOn(start: nat, polls: seq<Poll>, id: nat, blank: Line -> bool)
    requires polls != [] && Steady(polls, id) && start <= |polls[0].disk.files[id]|
    ensures var t, data := Run(Start(start), polls, id, blank), polls[|polls| - 1].disk.files[id];
            && start <= t.saved <= |data|
            && Handed(data[start..t.saved], blank) <= t.handed
  {
    RunsFrame(Start(start), polls, id, blank);
    var t, data := Run(Start(start), polls, id, blank), polls[|polls| - 1].disk.files[id];
    var a, b := data[start..t.saved], data[t.saved..t.offset];
    assert data[start..t.offset] == a + b;
    LinesResume(a, b);
    NonBlankConcat(Lines(a), Lines(Tail(a) + b), blank);
  }

  /** A first run of the tailer, a crash or an exit, and a second run that loads the offset which was saved. */
  ghost predicate Restarts(start: nat, first: seq<Poll>, second: seq<Poll>, id: nat) {
    && first != [] && second != [] && Steady(first, id) && Steady(second, id)
    && first[|first| - 1].disk.files[id] <= second[0].disk.files[id]
    && start <= |first[0].disk.files[id]|
  }

  /**
   Restart, after an exit or a crash at any moment and whichever saves failed. `a` is what the first run read up to
   the saved offset and `b` what the second run read. The lines of `a` and those of the second run are what one run
   would have delivered if and only if the saved offset is a clean cut. What the first run handed on beyond the lines
   of `a` is handed on again when the cut is at a line boundary; there is none when the offset was saved
   last, as it is by an exit whose save works.
   */
  lemma {:induction false} RestartedRunsDeliver(start: nat, first: seq<Poll>, exit: Option<bool>, second: seq<Poll>,
                                                id: nat, blank: Line -> bool)
    requires Restarts(start, first, second, id)
    ensures var t1 := Stopped(Run(Start(start), first, id, blank), exit);
            var t2 := Run(Start(t1.saved), second, id, blank);
            var data := second[|second| - 1].disk.files[id];
            && start <= t1.saved <= t1.offset <= |data| && t1.saved <= t2.offset <= |data|
            && (exit == Some(true) || AllSaved(first) ==> t1.saved == t1.offset)
            && Delivered(data, start, t1.saved, t1.offset, t2.offset, t1.handed, t2.handed, blank)
  {
    var t1 := Stopped(Run(Start(start), first, id, blank), exit);
    FirstRunFrames(start, first, exit, id, blank);
    GrowsBetween(second, id, |second| - 1);
    SecondRunFrames(t1.saved, second, id, blank);
    CutDelivers(first[|first| - 1].disk.files[id], second[|second| - 1].disk.files[id], start, t1,
                Run(Start(t1.saved), second, id, blank), blank);
  }

  /** `h1` was handed on from `start` to `read`, and then `h2` from `saved` to `end`. */
  ghost predicate Delivered(data: Bytes, start: nat, saved: nat, read: nat, end: nat, h1: seq<Line>, h2: seq<Line>,
                            blank: Line -> bool)
    requires start <= saved <= read <= |data| && saved <= end <= |data|
  {
    var a, b := data[start..saved], data[saved..end];
    && Handed(a, blank) <= h1
    && (Handed(a, blank) + h2 == Handed(data[start..end], blank) <==> CleanCut(a, b, blank))
    && (Tail(a) == [] && read <= end ==> h1[|Handed(a, blank)|..] <= h2)
    && (saved == read ==> h1 == Handed(a, blank))
  }

  /** `t` has handed on the lines of what it read of `data` since `start`. */
  ghost predicate HasFramed(t: Progress, data: Bytes, start: int, blank: Line -> bool) {
    0 <= start <= t.offset <= |data| && t.handed == Handed(data[start..t.offset], blank)
  }

  ghost predicate AllSaved(polls: seq<Poll>) {
    forall i :: 0 <= i < |polls| ==> polls[i].saves
  }

  lemma FirstRunFrames(start: nat, polls: seq<Poll>, exit: Option<bool>, id: nat, blank: Line -> bool)
    requires polls != [] && Steady(polls, id) && start <= |polls[0].disk.files[id]|
    ensures var t := Stopped(Run(Start(start), polls, id, blank), exit);
            && start <= t.saved <= t.offset && HasFramed(t, polls[|polls| - 1].disk.files[id], start, blank)
            && (exit == Some(true) || AllSaved(polls) ==> t.saved == t.offset)
  {
    RunsFrame(Start(start), polls, id, blank);
  }

  lemma SecondRunFrames(start: nat, polls: seq<Poll>, id: nat, blank: Line -> bool)
    requires polls != [] && Steady(polls, id) && start <= |polls[0].disk.files[id]|
    ensures HasFramed(Run(Start(start), polls, id, blank), polls[|polls| - 1].disk.files[id], start, blank)
  {
    RunsFrame(Start(start), polls, id, blank);
  }

  lemma CutDelivers(before: Bytes, data: Bytes, start: nat, t1: Progress, t2: Progress, blank: Line -> bool)
    requires before <= data && HasFramed(t1, before, start, blank) && start <= t1.saved <= t1.offset
    requires HasFramed(t2, data, t1.saved, blank)
    ensures Delivered(data, start, t1.saved, t1.offset, t2.offset, t1.handed, t2.handed, blank)
  {
    var a, b, mid := data[start..t1.saved], data[t1.saved..t2.offset], data[t1.saved..t1.offset];
    assert before[start..t1.offset] == data[start..t1.offset];
    Join(data, start, t1.saved, t2.offset);
    Join(data, start, t1.saved, t1.offset);
    if t1.offset <= t2.offset {
      Join(data, t1.saved, t1.offset, t2.offset);
      BytesDelivered(a, b, mid, data[t1.offset..t2.offset], blank);
    } else {
      BytesDelivered(a, b, mid, [], blank);
    }
  }

  lemma {:induction false} BytesDelivered(a: Bytes, b: Bytes, mid: Bytes, rest: Bytes, blank: Line -> bool)
    ensures Handed(a, blank) + Handed(b, blank) == Handed(a + b, blank) <==> CleanCut(a, b, blank)
    ensures Handed(a, blank) <= Handed(a + mid, blank)
    ensures Tail(a) == [] && b == mid + rest ==> Handed(a + mid, blank)[|Handed(a, blank)|..] <= Handed(b, blank)
    ensures mid == [] ==> Handed(a + mid, blank) == Handed(a, blank)
  {
    RestartIsSeamlessIff(a, b, blank);
    HandedResume(a, mid, blank);
    HandedResume(mid, rest, blank);
    assert Tail(a) == [] ==> Tail(a) + mid == mid;
    assert mid == [] ==> a + mid == a;
  }

  /**
   If `line` is among the lines of `a + b` and was not handed on, it is the one the cut falls in. Lines are compared by
   content here; `RestartDelivers` says the same by position.
   */
  ghost predicate OnlyStraddling(a: Bytes, b: Bytes, mid: Bytes, h1: seq<Line>, h2: seq<Line>, blank: Line -> bool,
                                 line: Line) {
    line in Handed(a + b, blank) && line !in h1 && line !in h2 ==>
      line == Straddling(a, b) && Tail(a) != [] && NEWLINE in b && NEWLINE !in mid
  }

  /**
   The only line that a restart can lose is the one the saved offset falls in, and not even that one when the first
   run had read to its end.
   */
  lemma {:induction false} OnlyTheStraddlingLineIsLost(start: nat, first: seq<Poll>, exit: Option<bool>,
                                                       second: seq<Poll>, id: nat, blank: Line -> bool, line: Line)
    requires Restarts(start, first, second, id)
    ensures var t1 := Stopped(Run(Start(start), first, id, blank), exit);
            var t2 := Run(Start(t1.saved), second, id, blank);
            var data := second[|second| - 1].disk.files[id];
            && start <= t1.saved <= t1.offset <= |data| && t1.saved <= t2.offset <= |data|
            && OnlyStraddling(data[start..t1.saved], data[t1.saved..t2.offset], data[t1.saved..t1.offset],
                              t1.handed, t2.handed, blank, line)
  {
    var t1 := Stopped(Run(Start(start), first, id, blank), exit);
    FirstRunFrames(start, first, exit, id, blank);
    GrowsBetween(second, id, |second| - 1);
    SecondRunFrames(t1.saved, second, id, blank);
    CutLoses(first[|first| - 1].disk.files[id], second[|second| - 1].disk.files[id], start, t1,
             Run(Start(t1.saved), second, id, blank), blank, line);
  }

  lemma CutLoses(before: Bytes, data: Bytes, start: nat, t1: Progress, t2: Progress, blank: Line -> bool, line: Line)
    requires before <= data && HasFramed(t1, before, start, blank) && start <= t1.saved <= t1.offset
    requires HasFramed(t2, data, t1.saved, blank)
    ensures OnlyStraddling(data[start..t1.saved], data[t1.saved..t2.offset], data[t1.saved..t1.offset],
                           t1.handed, t2.handed, blank, line)
  {
    var a, b, mid := data[start..t1.saved], data[t1.saved..t2.offset], data[t1.saved..t1.offset];
    assert before[start..t1.offset] == data[start..t1.offset];
    Join(data, start, t1.saved, t1.offset);
    BytesLost(a, b, mid, blank, line);
  }

  lemma {:induction false} BytesLost(a: Bytes, b: Bytes, mid: Bytes, blank: Line -> bool, line: Line)
    requires mid <= b || b <= mid
    ensures OnlyStraddling(a, b, mid, Handed(a + mid, blank), Handed(b, blank), blank, line)
  {
    HandedResume(a, mid, blank);
    if NEWLINE !in b {
      UnfinishedHandsNothing(a, b, blank);
    } else if line in Handed(a + b, blank) && line !in Handed(a, blank) && line !in Handed(b, blank) {
      FinishedLost(a, b, mid, blank, line);
    }
  }

  lemma {:induction false} FinishedLost(a: Bytes, b: Bytes, mid: Bytes, blank: Line -> bool, line: Line)
    requires (mid <= b || b <= mid) && NEWLINE in b
    requires line in Handed(a + b, blank) && line !in Handed(a, blank) && line !in Handed(b, blank)
    ensures line == Straddling(a, b) && Tail(a) != []
    ensures NEWLINE in mid ==> line in Handed(a + mid, blank)
  {
    HandedWhole(a, b, blank);
    HandedRest(b, blank);
    assert line in Kept(Straddling(a, b), blank);
    assert Tail(a) == [] ==> Straddling(a, b) == Line(FirstPart(b));
    if NEWLINE in mid {
      HandedWhole(a, mid, blank);
      SameFirstPart(mid, b);
    }
  }

  lemma {:induction false} SameFirstPart(x: Bytes, y: Bytes)
    requires NEWLINE in x && NEWLINE in y && (x <= y || y <= x)
    ensures FirstPart(x) == FirstPart(y)
  {
    if x[0] != NEWLINE {
      SameFirstPart(x[1..], y[1..]);
    }
  }

  /** A poll of one file that reads `size` bytes and saves. */
  function SimplePoll(data: Bytes, size: nat): Poll {
    Poll(Disk(Some(0), map[0 := data]), [size], true)
  }

  /**
   A restart inside a line can mangle it. After one poll that ends inside the line `a + b` and an exit that saves, the
   next run hands on `b` as if it were a line, and `a` is lost.
   */
  lemma RestartCanMangle(a: Bytes, b: Bytes, blank: Line -> bool)
    requires a != [] && NEWLINE !in a && NEWLINE !in b && !blank(Line(b))
    ensures var t1 := Stopped(Polled(Start(0), SimplePoll(a, |a|), blank), Some(true));
            t1.saved == |a| && t1.handed == []
    ensures var data := a + b + [NEWLINE];
            Polled(Start(|a|), SimplePoll(data, |b| + 1), blank).handed == [Line(b)] && Lines(data) == [Line(a + b)]
  {
    var data, rest := a + b + [NEWLINE], b + [NEWLINE];
    assert a[0..|a|] == a && data[|a|..|a| + (|b| + 1)] == rest;
    HalfLines(a, b, blank);
    OnePoll(0, a, |a|, a, blank);
    OnePoll(|a|, data, |b| + 1, rest, blank);
  }

  lemma HalfLines(a: Bytes, b: Bytes, blank: Line -> bool)
    requires NEWLINE !in a && NEWLINE !in b && !blank(Line(b))
    ensures Handed(a, blank) == [] && Handed(b + [NEWLINE], blank) == [Line(b)]
    ensures Lines(a + b + [NEWLINE]) == [Line(a + b)]
  {
    NoNewlineNoLines(a);
    FirstLine(b, []);
    FirstLine(a + b, []);
    assert a + b + [NEWLINE] + [] == a + b + [NEWLINE] && b + [NEWLINE] + [] == b + [NEWLINE];
    KeptAlone(Line(b), blank);
  }

  lemma OnePoll(start: nat, data: Bytes, size: nat, buf: Bytes, blank: Line -> bool)
    requires 0 < size && start + size <= |data| && buf == data[start..start + size]
    ensures var t := Polled(Start(start), SimplePoll(data, size), blank);
            t.handed == Handed(buf, blank) && t.saved == t.offset == start + size
  {
    OneRead(Start(start).(handle := Some(0)), data, size, buf, blank);
    FreshPoll(start, data, size, blank);
  }

  lemma FreshPoll(start: nat, data: Bytes, size: nat, blank: Line -> bool)
    requires start <= |data|
    ensures Polled(Start(start), SimplePoll(data, size), blank)
            == Save(ReadAll(Start(start).(handle := Some(0)), data, [size], blank), true)
  {
  }

  lemma OneRead(t: Progress, data: Bytes, size: nat, buf: Bytes, blank: Line -> bool)
    requires 0 < size && 0 <= t.offset && t.offset + size <= |data| && t.pending == [] && t.handed == []
    requires buf == data[t.offset..t.offset + size]
    ensures var t' := ReadAll(t, data, [size], blank);
            && t'.handed == Handed(buf, blank) && t'.offset == t.offset + size
            && t'.saved == t.saved && t'.lastSaved == t.lastSaved && t'.handle == t.handle
  {
    assert [size][..0] == [] && [] + buf == buf && Chunk(t.offset, data, size) == buf;
    assert ReadAll(t, data, [size][..0], blank) == t;
  }

  lemma {:induction false} GrowsBetween(polls: seq<Poll>, id: nat, n: nat)
    requires Steady(polls, id) && n < |polls|
    ensures polls[0].disk.files[id] <= polls[n].disk.files[id]
  {
    if n != 0 {
      GrowsBetween(polls, id, n - 1);
    }
  }

  // ----- The tailer object -----

  class FileSource {
    var offset: int
    var pending: Bytes
    var handed: seq<Line>
    var handle: Option<nat>
    var lastSaved: int
    var saved: int

    constructor (saved: int)
      ensures State() == Start(saved)
    {
      offset, lastSaved, this.saved := saved, saved, saved;
      pending, handed, handle := [], [], None;
    }

    function State(): Progress
      reads this
    {
      Progress(offset, pending, handed, handle, lastSaved, saved)
    }

    /** The position of the first newline, or -1. */
    static method IndexNewline(buf: Bytes) returns (i: int)
      ensures -1 <= i < |buf|
      ensures i == -1 ==> NEWLINE !in buf
      ensures i >= 0 ==> buf[i] == NEWLINE && NEWLINE !in buf[..i]
    {
      i := 0;
      while i < |buf|
        invariant 0 <= i <= |buf| && NEWLINE !in buf[..i]
      {
        if buf[i] == NEWLINE {
          return;
        }
        i := i + 1;
      }
      i := -1;
    }

    /** Hands on every complete line of `data` that is not blank, and returns the rest. */
    method ConsumeLines(data: Bytes, blank: Line -> bool) returns (rest: Bytes)
      modifies this`handed
      ensures rest == Tail(data)
      ensures handed == old(handed) + Handed(data, blank)
    {
      rest := data;
      while true
        invariant Tail(rest) == Tail(data)
        invariant handed + Handed(rest, blank) == old(handed) + Handed(data, blank)
        decreases |rest|
      {
        var i := IndexNewline(rest);
        if i < 0 {
          NoNewlineNoLines(rest);
          return;
        }
        HandedAt(rest, i, handed, blank);
        var line := Line(rest[..i]);
        rest := rest[i + 1..];
        if !blank(line) {
          handed := handed + [line];
        } else {
          assert handed + Kept(line, blank) == handed;
        }
      }
    }

    /** Takes in what one read returned. */
    method Feed(chunk: Bytes, blank: Line -> bool)
      modifies this
      ensures State() == Fed(old(State()), chunk, blank)
    {
      if |chunk| > 0 {
        var buf := pending + chunk;
        offset := offset + |chunk|;
        pending := ConsumeLines(buf, blank);
      }
    }

    method ReadFile(data: Bytes, sizes: seq<nat>, blank: Line -> bool)
      requires 0 <= offset
      modifies this
      ensures State() == ReadAll(old(State()), data, sizes, blank)
    {
      for k := 0 to |sizes|
        invariant State() == ReadAll(old(State()), data, sizes[..k], blank)
      {
        assert sizes[..k + 1][..k] == sizes[..k];
        Feed(Chunk(offset, data, sizes[k]), blank);
      }
      assert sizes[..|sizes|] == sizes;
    }

    /** On exit the offset is saved once more. */
    method Stop(saves: bool)
      modifies this`saved
      ensures State() == Stopped(old(State()), Some(saves))
    {
      if saves {
        saved := offset;
      }
    }

    /** One turn of the polling loop. */
    method PollOnce(p: Poll, blank: Line -> bool)
      requires ValidDisk(p.disk, handle) && ValidProgress(State())
      modifies this
      ensures State() == Polled(old(State()), p, blank)
    {
      if handle.None? {
        if p.disk.path.None? {
          return;
        }
        if offset > |p.disk.files[p.disk.path.value]| {
          offset := 0;
        }
        if offset < 0 {
          return;
        }
        handle := p.disk.path;
      }
      if p.disk.path.Some? {
        if p.disk.path != handle || |p.disk.files[p.disk.path.value]| < offset {
          handle, offset, pending := None, 0, [];
          return;
        }
      }
      ReadFile(p.disk.files[handle.value], p.sizes, blank);
      if offset != lastSaved {
        if p.saves {
          saved := offset;
        }
        lastSaved := offset;
      }
    }
  }
}
