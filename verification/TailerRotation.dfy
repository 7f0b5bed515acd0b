/**
 The tailer over any number of rotations. Every opening of the file starts a pass, and a pass hands on the lines of
 what it read. When a rotation is noticed the old file is closed without reading its rest, so lines that were appended
 to it since the last poll are lost.
 */
module TailerRotation {
  import opened Options
  import opened Framing
  import opened Tailer

  /** One pass over file `id`: the bytes from `start` to `end` were read, out of `data` as found at poll `seen`. */
  datatype Pass = Pass(id: nat, data: Bytes, start: nat, end: nat, seen: nat)

  ghost predicate ValidPass(p: Pass) {
    p.start <= p.end <= |p.data|
  }

  function ReadOf(p: Pass): Bytes {
    if p.start <= p.end <= |p.data| then p.data[p.start..p.end] else []
  }

  /** What was there from where the pass started, and how much of it was not read. */
  function WholeOf(p: Pass): Bytes {
    if p.start <= |p.data| then p.data[p.start..] else []
  }

  function UnreadOf(p: Pass): Bytes {
    if p.end <= |p.data| then p.data[p.end..] else []
  }

  /** The lines of all passes, pass by pass. */
  function HandedBy(passes: seq<Pass>, blank: Line -> bool): seq<Line> {
    if passes == [] then []
    else HandedBy(passes[..|passes| - 1], blank) + Handed(ReadOf(passes[|passes| - 1]), blank)
  }

  ghost predicate TailStep(ts: seq<Progress>, polls: seq<Poll>, k: nat, blank: Line -> bool)
    requires k < |polls| && |ts| == |polls| + 1
  {
    Takes(ts[k], polls[k], ts[k + 1], blank)
  }

  /** One turn of the polling loop leads from `t` to `t'`. */
  ghost predicate Takes(t: Progress, p: Poll, t': Progress, blank: Line -> bool) {
    ValidDisk(p.disk, t.handle) && ValidProgress(t) && t' == Polled(t, p, blank)
  }

  /** `ts` are the states of the tailer over `polls`, from a start without an open file. */
  ghost predicate Tails(ts: seq<Progress>, polls: seq<Poll>, blank: Line -> bool) {
    && |ts| == |polls| + 1 && ts[0].handle.None? && ts[0].pending == []
    && forall k :: 0 <= k < |polls| ==> TailStep(ts, polls, k, blank)
  }

  /** Between polls `k - 1` and `k` the bytes already read do not change, unless poll `k` notices a shortened file. */
  ghost predicate KeepsRead(ts: seq<Progress>, polls: seq<Poll>, k: nat)
    requires 0 < k < |polls| && |ts| == |polls| + 1
  {
    var t, before, now := ts[k], polls[k - 1].disk, polls[k].disk;
    && ValidDisk(now, t.handle) && t.handle.Some? && t.handle.value in before.files
    && (!Rotated(t, now) || t.offset <= |now.files[t.handle.value]|) ==>
      StillThere(t, before.files[t.handle.value], now.files[t.handle.value])
  }

  ghost predicate AppendOnly(ts: seq<Progress>, polls: seq<Poll>)
    requires |ts| == |polls| + 1
  {
    forall k :: 0 < k < |polls| ==> KeepsRead(ts, polls, k)
  }

  /** How often the tailer opened a file before poll `n`. */
  ghost function Openings(ts: seq<Progress>, n: nat): nat
    requires n < |ts|
  {
    if n == 0 then 0
    else Openings(ts, n - 1) + if ts[n - 1].handle.None? && ts[n].handle.Some? then 1 else 0
  }

  function Held(p: Poll, id: nat): Bytes {
    if id in p.disk.files then p.disk.files[id] else []
  }

  function Nat(x: int): nat {
    if x < 0 then 0 else x
  }

  /** Where a file that holds `data` is opened. */
  function OpenedAt(offset: int, data: Bytes): nat {
    if offset > |data| then 0 else Nat(offset)
  }

  /** The pass as the poll `n` leaves it that closes its file. */
  function Final(p: Pass, held: Bytes, n: nat): Pass {
    if p.end <= |held| then p.(data := held, seen := n) else p
  }

  /** What poll `n`, which leads from `t` to `t'`, makes of the passes: it begins one, reads on, or closes the last. */
  function PassesAfter(past: seq<Pass>, t: Progress, t': Progress, p: Poll, n: nat): seq<Pass> {
    if t.handle.None? then
      if t'.handle.None? then past
      else
        var id := t'.handle.value;
        past + [Pass(id, Held(p, id), OpenedAt(t.offset, Held(p, id)), Nat(t'.offset), n)]
    else if past == [] then []
    else
      var init, last := past[..|past| - 1], past[|past| - 1];
      if t'.handle.None? then init + [Final(last, Held(p, last.id), n)]
      else init + [last.(data := Held(p, last.id), end := Nat(t'.offset), seen := n)]
  }

  /** The passes of a run up to poll `n`. */
  function PassesUpTo(ts: seq<Progress>, polls: seq<Poll>, n: nat): seq<Pass>
    requires n < |ts| && n <= |polls|
  {
    if n == 0 then [] else PassesAfter(PassesUpTo(ts, polls, n - 1), ts[n - 1], ts[n], polls[n - 1], n - 1)
  }

  /** The content is what poll `seen` found on disk. */
  ghost predicate Found(p: Pass, polls: seq<Poll>, n: nat) {
    && p.seen < n && p.seen < |polls| && p.id in polls[p.seen].disk.files
    && polls[p.seen].disk.files[p.id] == p.data
  }

  /** Passes after the first start at the beginning of the file; the first starts at the loaded offset or there. */
  ghost predicate ProperPasses(passes: seq<Pass>, first: int, polls: seq<Poll>, n: nat) {
    forall i :: 0 <= i < |passes| ==>
      && ValidPass(passes[i]) && Found(passes[i], polls, n)
      && (passes[i].start == 0 || (i == 0 && passes[i].start == first))
  }

  /** The last pass is the one in progress, if a file is open. */
  ghost predicate InProgress(t: Progress, passes: seq<Pass>, first: int) {
    if t.handle.None? then t.pending == [] && t.offset == if passes == [] then first else 0
    else
      && passes != []
      && var p := passes[|passes| - 1];
         ValidPass(p) && t.handle == Some(p.id) && t.offset == p.end && t.pending == Tail(ReadOf(p))
  }

  ghost predicate Passed(t0: Progress, t: Progress, passes: seq<Pass>, polls: seq<Poll>, n: nat, blank: Line -> bool) {
    && ProperPasses(passes, t0.offset, polls, n) && InProgress(t, passes, t0.offset)
    && t.handed == t0.handed + HandedBy(passes, blank)
    && Ascending(passes) && (t.handle.Some? ==> passes[|passes| - 1].seen == n - 1)
  }

  /** No two passes are of the same opening. */
  ghost predicate Ascending(passes: seq<Pass>) {
    forall i, j :: 0 <= i < j < |passes| ==> passes[i].seen < passes[j].seen
  }

  /** Poll `k` noticed that the file of the pass had been replaced or shortened, and closed it. */
  ghost predicate ClosedAt(ts: seq<Progress>, p: Pass, k: nat) {
    k + 1 < |ts| && ts[k].handle == Some(p.id) && ts[k].offset == p.end && ts[k + 1].handle.None?
  }

  /**
   The pass is over, and its content is what the poll found that closed the file. Only when the file itself had been
   shortened is it what the poll before that had found.
   */
  ghost predicate Closed(ts: seq<Progress>, polls: seq<Poll>, p: Pass) {
    || ClosedAt(ts, p, p.seen)
    || (&& ClosedAt(ts, p, p.seen + 1) && p.seen + 1 < |polls| && p.id in polls[p.seen + 1].disk.files
        && |polls[p.seen + 1].disk.files[p.id]| < p.end)
  }

  ghost predicate AllClosed(ts: seq<Progress>, polls: seq<Poll>, passes: seq<Pass>) {
    forall i :: 0 <= i < |passes| ==> Closed(ts, polls, passes[i])
  }

  /** All passes but the one in progress. */
  function Finished(t: Progress, passes: seq<Pass>): seq<Pass> {
    if t.handle.Some? && passes != [] then passes[..|passes| - 1] else passes
  }

  /** Every poll before `n` that closed a file did so for one of the passes. */
  ghost predicate AllListed(ts: seq<Progress>, passes: seq<Pass>, n: nat) {
    forall k :: 0 <= k < n && Closes(ts, k) ==> Listed(ts, passes, k)
  }

  predicate Closes(ts: seq<Progress>, k: nat) {
    k + 1 < |ts| && ts[k].handle.Some? && ts[k + 1].handle.None?
  }

  ghost predicate Listed(ts: seq<Progress>, passes: seq<Pass>, k: nat) {
    exists i :: 0 <= i < |passes| && ClosedAt(ts, passes[i], k)
  }

  /**
   The passes account for the run up to poll `n`: there are as many as the file was opened, no two of the same
   opening; all but the one in progress were closed, and every poll that closed a file closed one of them.
   */
  ghost predicate PassesOf(ts: seq<Progress>, polls: seq<Poll>, n: nat, passes: seq<Pass>, blank: Line -> bool) {
    && n < |ts| && Passed(ts[0], ts[n], passes, polls, n, blank) && |passes| == Openings(ts, n)
    && AllClosed(ts, polls, Finished(ts[n], passes)) && AllListed(ts, Finished(ts[n], passes), n)
  }

  /** Reading on extends the last pass. */
  lemma ReadingExtends(t0: Progress, o: Progress, past: seq<Pass>, data: Bytes, start: nat, p: Poll,
                       blank: Line -> bool) returns (end: nat)
    requires start <= o.offset <= |data| && o.pending == Tail(data[start..o.offset])
    requires o.handed == t0.handed + HandedBy(past, blank) + Handed(data[start..o.offset], blank)
    ensures start <= end <= |data|
    ensures var t := Save(ReadAll(o, data, p.sizes, blank), p.saves);
            && t.offset == end && t.handle == o.handle && t.pending == Tail(data[start..end])
            && t.handed == t0.handed + HandedBy(past, blank) + Handed(data[start..end], blank)
  {
    var base := o.(handed := t0.handed + HandedBy(past, blank));
    var read := ReadsFrame(base, o, data, start, p.sizes, blank);
    end := ReadAll(o, data, p.sizes, blank).offset;
  }

  lemma HandedBySnoc(before: seq<Line>, past: seq<Pass>, p: Pass, blank: Line -> bool)
    ensures before + HandedBy(past + [p], blank) == before + HandedBy(past, blank) + Handed(ReadOf(p), blank)
  {
    var all := past + [p];
    assert all[..|all| - 1] == past;
    Regroup(before, HandedBy(past, blank), Handed(ReadOf(p), blank), []);
  }

  lemma ProperSnoc(past: seq<Pass>, p: Pass, first: int, polls: seq<Poll>, n: nat)
    requires ProperPasses(past, first, polls, n) && ValidPass(p) && Found(p, polls, n + 1)
    requires p.start == 0 || (past == [] && p.start == first)
    ensures ProperPasses(past + [p], first, polls, n + 1)
  {
  }

  /** What a poll that reads does to the passes. */
  lemma PollPasses(t0: Progress, o: Progress, past: seq<Pass>, start: nat, polls: seq<Poll>, n: nat,
                   blank: Line -> bool) returns (passes: seq<Pass>)
    requires n < |polls| && o.handle.Some? && o.handle.value in polls[n].disk.files
    requires ProperPasses(past, t0.offset, polls, n) && (start == 0 || (past == [] && start == t0.offset))
    requires Ascending(past)
    requires var data := polls[n].disk.files[o.handle.value];
             && start <= o.offset <= |data| && o.pending == Tail(data[start..o.offset])
             && o.handed == t0.handed + HandedBy(past, blank) + Handed(data[start..o.offset], blank)
    ensures var t := Save(ReadAll(o, polls[n].disk.files[o.handle.value], polls[n].sizes, blank), polls[n].saves);
            && Passed(t0, t, passes, polls, n + 1, blank)
            && passes == past + [Pass(o.handle.value, Held(polls[n], o.handle.value), start, Nat(t.offset), n)]
  {
    var id := o.handle.value;
    var data := polls[n].disk.files[id];
    var end := ReadingExtends(t0, o, past, data, start, polls[n], blank);
    var p := Pass(id, data, start, end, n);
    passes := past + [p];
    BegunPass(t0, Save(ReadAll(o, data, polls[n].sizes, blank), polls[n].saves), past, p, polls, n, blank);
  }

  /** A state that has just read the pass `p` after the passes `past`. */
  lemma BegunPass(t0: Progress, t: Progress, past: seq<Pass>, p: Pass, polls: seq<Poll>, n: nat, blank: Line -> bool)
    requires ProperPasses(past, t0.offset, polls, n) && Ascending(past) && ValidPass(p) && Found(p, polls, n + 1)
    requires p.seen == n && (p.start == 0 || (past == [] && p.start == t0.offset))
    requires t.handle == Some(p.id) && t.offset == p.end && t.pending == Tail(ReadOf(p))
    requires t.handed == t0.handed + HandedBy(past, blank) + Handed(ReadOf(p), blank)
    ensures Passed(t0, t, past + [p], polls, n + 1, blank)
  {
    HandedBySnoc(t0.handed, past, p, blank);
    ProperSnoc(past, p, t0.offset, polls, n);
  }

  lemma OpeningPoll(t0: Progress, t: Progress, past: seq<Pass>, polls: seq<Poll>, n: nat, blank: Line -> bool)
    requires n < |polls| && t.handle.None? && ValidDisk(polls[n].disk, None)
    requires Passed(t0, t, past, polls, n, blank)
    ensures var t' := Polled(t, polls[n], blank);
            Passed(t0, t', PassesAfter(past, t, t', polls[n], n), polls, n + 1, blank)
  {
    var o := Open(t, polls[n].disk);
    if o.handle.Some? {
      OpenedReads(t, polls[n], blank);
      var data := polls[n].disk.files[o.handle.value];
      assert data[o.offset..o.offset] == [];
      var passes := PollPasses(t0, o, past, o.offset, polls, n, blank);
    } else {
      assert Polled(t, polls[n], blank) == o == t;
    }
  }

  lemma OpenedReads(t: Progress, p: Poll, blank: Line -> bool)
    requires t.handle.None? && ValidDisk(p.disk, None) && Open(t, p.disk).handle.Some?
    ensures var o := Open(t, p.disk);
            && ValidDisk(p.disk, o.handle) && 0 <= o.offset == OpenedAt(t.offset, Held(p, o.handle.value))
            && o.offset <= |Held(p, o.handle.value)|
            && Polled(t, p, blank) == Save(ReadAll(o, Held(p, o.handle.value), p.sizes, blank), p.saves)
            && Polled(t, p, blank).handle == o.handle
  {
  }

  lemma SameSlice(before: Bytes, now: Bytes, start: nat, offset: nat)
    requires start <= offset <= |before| && offset <= |now| && before[..offset] == now[..offset]
    ensures before[start..offset] == now[start..offset]
  {
    assert before[start..offset] == before[..offset][start..] && now[start..offset] == now[..offset][start..];
  }

  /** The open file still begins with the bytes that were read from it. */
  ghost predicate StillThere(t: Progress, before: Bytes, now: Bytes) {
    0 <= t.offset <= |before| && t.offset <= |now| && before[..t.offset] == now[..t.offset]
  }

  /** The passes before the one in progress. */
  lemma SplitLast(t0: Progress, t: Progress, past: seq<Pass>, polls: seq<Poll>, n: nat, blank: Line -> bool)
    requires t.handle.Some? && Passed(t0, t, past, polls, n, blank)
    ensures past != []
    ensures var last, init := past[|past| - 1], past[..|past| - 1];
            && Ascending(init) && ProperPasses(init, t0.offset, polls, n)
            && (last.start == 0 || (init == [] && last.start == t0.offset))
            && t.handed == t0.handed + HandedBy(init, blank) + Handed(ReadOf(last), blank)
  {
    var last, init := past[|past| - 1], past[..|past| - 1];
    assert past == init + [last];
    assert HandedBy(past, blank) == HandedBy(init, blank) + Handed(ReadOf(last), blank);
    Regroup(t0.handed, HandedBy(init, blank), Handed(ReadOf(last), blank), []);
  }

  lemma RotatingPoll(t0: Progress, t: Progress, past: seq<Pass>, polls: seq<Poll>, n: nat, blank: Line -> bool)
    requires 0 < n < |polls| && t.handle.Some? && ValidDisk(polls[n].disk, t.handle) && ValidProgress(t)
    requires Passed(t0, t, past, polls, n, blank) && Rotated(t, polls[n].disk)
    requires var held := polls[n].disk.files[t.handle.value];
             t.offset <= |held| ==> StillThere(t, polls[n - 1].disk.files[t.handle.value], held)
    ensures var t' := Polled(t, polls[n], blank);
            t'.handle.None? && Passed(t0, t', PassesAfter(past, t, t', polls[n], n), polls, n + 1, blank)
  {
    SplitLast(t0, t, past, polls, n, blank);
    var last, init, held := past[|past| - 1], past[..|past| - 1], polls[n].disk.files[t.handle.value];
    var p := Final(last, held, n);
    if t.offset <= |held| {
      SameSlice(last.data, held, last.start, t.offset);
    }
    HandedBySnoc(t0.handed, init, p, blank);
    assert ReadOf(p) == ReadOf(last);
    ProperSnoc(init, p, t0.offset, polls, n);
    AscendingFinal(past, p);
  }

  lemma AscendingFinal(past: seq<Pass>, p: Pass)
    requires past != [] && Ascending(past) && past[|past| - 1].seen <= p.seen
    ensures Ascending(past[..|past| - 1] + [p])
  {
  }

  lemma PolledReads(t: Progress, p: Poll, blank: Line -> bool)
    requires t.handle.Some? && ValidDisk(p.disk, t.handle) && ValidProgress(t) && !Rotated(t, p.disk)
    ensures Polled(t, p, blank) == Save(ReadAll(t, p.disk.files[t.handle.value], p.sizes, blank), p.saves)
    ensures Polled(t, p, blank).handle.Some?
  {
  }

  lemma ReadingPoll(t0: Progress, t: Progress, past: seq<Pass>, polls: seq<Poll>, n: nat, blank: Line -> bool)
    requires 0 < n < |polls| && t.handle.Some? && ValidDisk(polls[n].disk, t.handle) && ValidProgress(t)
    requires Passed(t0, t, past, polls, n, blank) && !Rotated(t, polls[n].disk)
    requires StillThere(t, polls[n - 1].disk.files[t.handle.value], polls[n].disk.files[t.handle.value])
    ensures var t' := Polled(t, polls[n], blank);
            t'.handle.Some? && Passed(t0, t', PassesAfter(past, t, t', polls[n], n), polls, n + 1, blank)
  {
    SplitLast(t0, t, past, polls, n, blank);
    var last := past[|past| - 1];
    SameSlice(last.data, polls[n].disk.files[t.handle.value], last.start, t.offset);
    PolledReads(t, polls[n], blank);
    var passes := PollPasses(t0, t, past[..|past| - 1], last.start, polls, n, blank);
  }

  lemma FinalIsClosed(ts: seq<Progress>, polls: seq<Poll>, p: Pass, n: nat)
    requires n < |polls| && |ts| == |polls| + 1 && p.seen + 1 == n && ClosedAt(ts, p, n)
    requires p.id in polls[n].disk.files
    ensures Closed(ts, polls, Final(p, polls[n].disk.files[p.id], n))
  {
  }

  lemma ClosedSnoc(ts: seq<Progress>, polls: seq<Poll>, init: seq<Pass>, p: Pass)
    requires AllClosed(ts, polls, init) && Closed(ts, polls, p)
    ensures AllClosed(ts, polls, init + [p])
  {
  }

  lemma ListedSnoc(ts: seq<Progress>, init: seq<Pass>, p: Pass, n: nat)
    requires AllListed(ts, init, n) && (Closes(ts, n) ==> ClosedAt(ts, p, n))
    ensures AllListed(ts, init + [p], n + 1)
  {
    var all := init + [p];
    forall k | 0 <= k < n + 1 && Closes(ts, k) ensures Listed(ts, all, k) {
      if k < n {
        assert Listed(ts, init, k);
        var i :| 0 <= i < |init| && ClosedAt(ts, init[i], k);
        assert all[i] == init[i];
      } else {
        assert all[|init|] == p;
      }
    }
  }

  /** Poll `n` keeps the account of the passes that are over. */
  lemma NextIsAccounted(ts: seq<Progress>, polls: seq<Poll>, past: seq<Pass>, n: nat)
    requires n < |polls| && |ts| == |polls| + 1
    requires AllClosed(ts, polls, Finished(ts[n], past)) && AllListed(ts, Finished(ts[n], past), n)
    requires ts[n].handle.Some? ==>
               && past != [] && past[|past| - 1].seen + 1 == n && ts[n].offset == past[|past| - 1].end
               && ts[n].handle == Some(past[|past| - 1].id) && past[|past| - 1].id in polls[n].disk.files
    ensures var passes := PassesAfter(past, ts[n], ts[n + 1], polls[n], n);
            && AllClosed(ts, polls, Finished(ts[n + 1], passes)) && AllListed(ts, Finished(ts[n + 1], passes), n + 1)
            && |passes| == |past| + if ts[n].handle.None? && ts[n + 1].handle.Some? then 1 else 0
  {
    var passes := PassesAfter(past, ts[n], ts[n + 1], polls[n], n);
    if Closes(ts, n) {
      var last, init := past[|past| - 1], past[..|past| - 1];
      var p := Final(last, polls[n].disk.files[last.id], n);
      FinalIsClosed(ts, polls, last, n);
      ClosedSnoc(ts, polls, init, p);
      ListedSnoc(ts, init, p, n);
    } else {
      assert Finished(ts[n + 1], passes) == Finished(ts[n], past);
    }
  }

  /** Poll `n` takes the passes on. */
  lemma NextPasses(ts: seq<Progress>, polls: seq<Poll>, past: seq<Pass>, n: nat, blank: Line -> bool)
    requires n < |polls| && |ts| == |polls| + 1 && ts[0].handle.None? && TailStep(ts, polls, n, blank)
    requires n > 0 ==> KeepsRead(ts, polls, n)
    requires Passed(ts[0], ts[n], past, polls, n, blank)
    ensures Passed(ts[0], ts[n + 1], PassesAfter(past, ts[n], ts[n + 1], polls[n], n), polls, n + 1, blank)
  {
    if ts[n].handle.None? {
      OpeningPoll(ts[0], ts[n], past, polls, n, blank);
    } else if Rotated(ts[n], polls[n].disk) {
      RotatingPoll(ts[0], ts[n], past, polls, n, blank);
    } else {
      ReadingPoll(ts[0], ts[n], past, polls, n, blank);
    }
  }

  /**
   Framing over any number of rotations. In every run, with any growth, any cut into polls and reads, and files
   replaced or shortened at any time, the lines handed on are those of what the passes read, pass by pass and in order,
   one pass for every time the file was opened. Each pass but the first begins at the first byte of its file. What a
   finished pass did not read is what was still unread when its file was closed.
   */
  lemma {:induction false} RotatedRunsFrame(ts: seq<Progress>, polls: seq<Poll>, n: nat, blank: Line -> bool)
    requires Tails(ts, polls, blank) && AppendOnly(ts, polls) && n <= |polls|
    ensures PassesOf(ts, polls, n, PassesUpTo(ts, polls, n), blank)
  {
    if n == 0 {
      assert ts[0].handed + [] == ts[0].handed;
    } else {
      var m := n - 1;
      RotatedRunsFrame(ts, polls, m, blank);
      assert TailStep(ts, polls, m, blank) && (m > 0 ==> KeepsRead(ts, polls, m));
      NextPasses(ts, polls, PassesUpTo(ts, polls, m), m, blank);
      NextIsAccounted(ts, polls, PassesUpTo(ts, polls, m), m);
    }
  }

  // ----- What rotation loses -----

  /** The lines of all that was there, pass by pass. */
  function WholeBy(passes: seq<Pass>, blank: Line -> bool): seq<Line> {
    if passes == [] then []
    else WholeBy(passes[..|passes| - 1], blank) + Handed(WholeOf(passes[|passes| - 1]), blank)
  }

  /** The lines that a pass leaves unread, the one it had begun included. */
  function LostBy(p: Pass, blank: Line -> bool): seq<Line> {
    Handed(Tail(ReadOf(p)) + UnreadOf(p), blank)
  }

  lemma PassLoses(p: Pass, blank: Line -> bool)
    requires ValidPass(p)
    ensures Handed(WholeOf(p), blank) == Handed(ReadOf(p), blank) + LostBy(p, blank)
  {
    Join(p.data, p.start, p.end, |p.data|);
    assert p.data[p.start..] == p.data[p.start..|p.data|] && p.data[p.end..] == p.data[p.end..|p.data|];
    HandedResume(ReadOf(p), UnreadOf(p), blank);
  }

  /** The lines that the passes leave unread, pass by pass. */
  function LostLines(passes: seq<Pass>, blank: Line -> bool): seq<Line> {
    if passes == [] then []
    else LostLines(passes[..|passes| - 1], blank) + LostBy(passes[|passes| - 1], blank)
  }

  lemma {:induction false} PassesLose(passes: seq<Pass>, blank: Line -> bool)
    requires forall i :: 0 <= i < |passes| ==> ValidPass(passes[i])
    ensures |WholeBy(passes, blank)| == |HandedBy(passes, blank)| + |LostLines(passes, blank)|
    ensures HandedBy(passes, blank) == WholeBy(passes, blank) <==> LostLines(passes, blank) == []
  {
    if passes != [] {
      var pre, last := passes[..|passes| - 1], passes[|passes| - 1];
      PassesLose(pre, blank);
      PassLoses(last, blank);
      SameConcat(HandedBy(pre, blank), WholeBy(pre, blank), Handed(ReadOf(last), blank), LostBy(last, blank));
    }
  }

  /**
   Rotation is safe if and only if no pass leaves a non-blank line unread. In every run, the lines handed on are those
   of the files as they were found at the end of each pass exactly when every file had been read to its last line by
   then; otherwise as many lines are missing as were left unread. The documentation says that rotation is safe whenever
   it happens.
   */
  lemma RotationIsSafeIff(ts: seq<Progress>, polls: seq<Poll>, n: nat, blank: Line -> bool)
    requires Tails(ts, polls, blank) && AppendOnly(ts, polls) && n <= |polls|
    ensures var passes := PassesUpTo(ts, polls, n);
            && (ts[n].handed == ts[0].handed + WholeBy(passes, blank) <==> LostLines(passes, blank) == [])
            && |ts[n].handed| + |LostLines(passes, blank)| == |ts[0].handed| + |WholeBy(passes, blank)|
  {
    var passes := PassesUpTo(ts, polls, n);
    RotatedRunsFrame(ts, polls, n, blank);
    PassesLose(passes, blank);
    SameSuffix(ts[0].handed, HandedBy(passes, blank), WholeBy(passes, blank));
  }

  lemma SameSuffix(a: seq<Line>, h: seq<Line>, w: seq<Line>)
    ensures a + h == a + w <==> h == w
  {
    assert (a + h)[|a|..] == h && (a + w)[|a|..] == w;
  }

  lemma SameConcat(h: seq<Line>, w: seq<Line>, read: seq<Line>, lost: seq<Line>)
    requires |h| <= |w|
    ensures |h + read| <= |w + (read + lost)|
    ensures h + read == w + (read + lost) <==> h == w && lost == []
  {
    if h + read == w + (read + lost) {
      assert |h| == |w| && |lost| == 0;
      assert h == (h + read)[..|h|] == (w + (read + lost))[..|w|] == w;
    }
  }

  // ----- A rotation that loses a line -----

  /** The path names file `id`, which holds one line, and the poll is long enough to read it. */
  ghost predicate FindsLine(p: Poll, id: nat, line: Bytes) {
    && p.disk.path == Some(id) && id in p.disk.files && p.disk.files[id] == line + [NEWLINE]
    && p.sizes == [|line| + 1]
  }

  ghost predicate IsLine(line: Bytes, blank: Line -> bool) {
    NEWLINE !in line && !blank(Line(line))
  }

  /** A poll of a file that holds one line reads and hands on that line. */
  lemma LineIsRead(t: Progress, p: Poll, id: nat, line: Bytes, blank: Line -> bool)
    requires t.handle.None? && t.offset == 0 && t.pending == [] && IsLine(line, blank) && FindsLine(p, id, line)
    ensures var t' := Polled(t, p, blank);
            t'.handle == Some(id) && t'.offset == |line| + 1 && t'.pending == [] && t'.handed == t.handed + [Line(line)]
  {
    var data, o := line + [NEWLINE], t.(handle := Some(id));
    assert Open(t, p.disk) == o;
    OneLine(o, data, line, blank);
    PolledReads(o, p, blank);
    assert Polled(t, p, blank) == Polled(o, p, blank);
  }

  lemma OneLine(o: Progress, data: Bytes, line: Bytes, blank: Line -> bool)
    requires o.offset == 0 && o.pending == [] && IsLine(line, blank) && data == line + [NEWLINE]
    ensures var t := ReadAll(o, data, [|line| + 1], blank);
            && t.offset == |line| + 1 && t.pending == [] && t.handed == o.handed + [Line(line)] && t.handle == o.handle
  {
    assert [|line| + 1][..0] == [] && [] + data == data;
    assert Chunk(0, data, |line| + 1) == data;
    assert ReadAll(o, data, [|line| + 1][..0], blank) == o;
    FirstLine(line, []);
    assert line + [NEWLINE] + [] == data;
    KeptAlone(Line(line), blank);
  }

  /**
   A line appended between the last poll and a rotation is lost: `a` is read, then `b` is appended and the path names
   a new file that holds `c`. The lines handed on are `a` and `c`.
   */
  lemma RotationCanLose(a: Bytes, b: Bytes, c: Bytes, blank: Line -> bool)
    returns (ts: seq<Progress>, polls: seq<Poll>)
    requires IsLine(a, blank) && IsLine(b, blank) && IsLine(c, blank)
    ensures |polls| == 3 && Tails(ts, polls, blank) && AppendOnly(ts, polls) && ts[0] == Start(0)
    ensures polls[1].disk.files == map[0 := a + [NEWLINE] + (b + [NEWLINE]), 1 := c + [NEWLINE]]
    ensures ts[3].handed == [Line(a), Line(c)] && Lines(polls[1].disk.files[0]) == [Line(a), Line(b)]
  {
    var grown := a + [NEWLINE] + (b + [NEWLINE]);
    var p := Poll(Disk(Some(0), map[0 := a + [NEWLINE]]), [|a| + 1], true);
    var q := Poll(Disk(Some(1), map[0 := grown, 1 := c + [NEWLINE]]), [|c| + 1], true);
    polls := [p, q, q];
    ts := RotatedAway(p, q, a, c, blank);
    TwoLines(a, b);
  }

  /** Poll `p` reads the line `a`, then the path names another file, which holds the line `c`. */
  lemma RotatedAway(p: Poll, q: Poll, a: Bytes, c: Bytes, blank: Line -> bool) returns (ts: seq<Progress>)
    requires IsLine(a, blank) && IsLine(c, blank) && FindsLine(p, 0, a) && FindsLine(q, 1, c)
    requires 0 in q.disk.files && p.disk.files[0] <= q.disk.files[0]
    ensures Tails(ts, [p, q, q], blank) && AppendOnly(ts, [p, q, q]) && ts[0] == Start(0)
    ensures ts[3].handed == [Line(a), Line(c)]
  {
    var t1, t2, t3 := RotatedStates(p, q, a, c, blank);
    ts := [Start(0), t1, t2, t3];
    var polls := [p, q, q];
    assert TailStep(ts, polls, 0, blank) && TailStep(ts, polls, 1, blank) && TailStep(ts, polls, 2, blank);
    assert StillThere(t1, p.disk.files[0], q.disk.files[0]);
    TwoPasses(ts, polls, blank);
  }

  lemma RotatedStates(p: Poll, q: Poll, a: Bytes, c: Bytes, blank: Line -> bool)
    returns (t1: Progress, t2: Progress, t3: Progress)
    requires IsLine(a, blank) && IsLine(c, blank) && FindsLine(p, 0, a) && FindsLine(q, 1, c)
    requires 0 in q.disk.files
    ensures t1.handle == Some(0) && t1.offset == |a| + 1 && t2.handle.None? && t3.handed == [Line(a), Line(c)]
    ensures Takes(Start(0), p, t1, blank) && Takes(t1, q, t2, blank) && Takes(t2, q, t3, blank)
  {
    LineIsRead(Start(0), p, 0, a, blank);
    t1 := Polled(Start(0), p, blank);
    RotationDropsRest(t1, q, blank);
    t2 := t1.(handle := None, offset := 0, pending := []);
    LineIsRead(t2, q, 1, c, blank);
    t3 := Polled(t2, q, blank);
  }

  lemma TwoLines(a: Bytes, b: Bytes)
    requires NEWLINE !in a && NEWLINE !in b
    ensures Lines(a + [NEWLINE] + (b + [NEWLINE])) == [Line(a), Line(b)]
  {
    FirstLine(a, b + [NEWLINE]);
    FirstLine(b, []);
    assert b + [NEWLINE] + [] == b + [NEWLINE];
  }

  lemma RotationDropsRest(t: Progress, p: Poll, blank: Line -> bool)
    requires ValidDisk(p.disk, t.handle) && t.handle.Some? && 0 <= t.offset
    requires p.disk.path.Some? && p.disk.path != t.handle
    ensures Polled(t, p, blank) == t.(handle := None, offset := 0, pending := [])
  {
  }

  lemma TwoPasses(ts: seq<Progress>, polls: seq<Poll>, blank: Line -> bool)
    requires |ts| == 4 && |polls| == 3 && ts[0] == Start(0) && ts[1].handle == Some(0) && ts[2].handle.None?
    requires TailStep(ts, polls, 0, blank) && TailStep(ts, polls, 1, blank) && TailStep(ts, polls, 2, blank)
    requires 0 in polls[0].disk.files && 0 in polls[1].disk.files
    requires StillThere(ts[1], polls[0].disk.files[0], polls[1].disk.files[0])
    ensures Tails(ts, polls, blank) && AppendOnly(ts, polls)
  {
    assert KeepsRead(ts, polls, 1) && KeepsRead(ts, polls, 2);
  }
}
