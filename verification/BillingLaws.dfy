/**
 What every run of one uuid's billing guarantees, whatever the interleaving of events, ticks and failed writes.
 */
module BillingLaws {
  import opened Options
  import opened Billing

  // ----- Tiling and conservation -----

  /** How many records at the end of `l.out` belong to the open window. */
  function OpenRecords(l: Lane): nat {
    if l.open.Some? then l.open.value.records else 0
  }

  /** The records of the lane split into the blocks of its closed windows followed by the open window's block. */
  ghost predicate Accounted(l: Lane, stays: seq<Stay>) {
    && OpenRecords(l) <= |l.out|
    && (l.open.Some? ==>
          Tiles(l.out[|l.out| - OpenRecords(l)..], l.open.value.runningSince, l.open.value.reportedUntil))
    && (forall i :: 0 <= i < |stays| ==> StayAccounted(l, stays, i))
    && |l.out| - OpenRecords(l) == if stays == [] then 0 else stays[|stays| - 1].hi
  }

  ghost predicate StayAccounted(l: Lane, stays: seq<Stay>, i: nat)
    requires i < |stays|
  {
    && stays[i].lo <= stays[i].hi <= |l.out|
    && stays[i].lo == (if i == 0 then 0 else stays[i - 1].hi)
    && Tiles(l.out[stays[i].lo..stays[i].hi], stays[i].since, stays[i].until)
  }

  /**
   Tiling. In every run each window's records are positive and contiguous from `runningSince` to the watermark,
   each record belongs to exactly one window, and no record is written outside a window.
   */
  lemma {:induction false} RunsTile(threshold: int, steps: seq<LaneStep>)
    ensures Accounted(LaneRun(threshold, steps), Stays(threshold, steps))
  {
    if steps != [] {
      var pre := steps[..|steps| - 1];
      RunsTile(threshold, pre);
      StepTiles(threshold, LaneRun(threshold, pre), Stays(threshold, pre), steps[|steps| - 1]);
    }
  }

  lemma StepTiles(threshold: int, l: Lane, stays: seq<Stay>, step: LaneStep)
    requires Accounted(l, stays)
    ensures Accounted(LaneNext(threshold, l, step),
                      if step.Off? && l.open.Some? then stays + [CloseOf(l, step)] else stays)
  {
    if l.open.None? {
      OpenTiles(l, stays, LaneNext(threshold, l, step));
    } else if step.Off? {
      CloseTiles(l, stays, step);
    } else if step.Tick? && Due(l.open.value, step.ts, threshold) {
      var l' := LaneNext(threshold, l, step);
      EmitTiles(l.open.value, step.ts, step.ans, l.out);
      StaysSurvive(l, l', stays);
    }
  }

  lemma OpenTiles(l: Lane, stays: seq<Stay>, l': Lane)
    requires Accounted(l, stays) && l.open.None? && l'.out == l.out
    requires l'.open.Some? ==> l'.open.value.records == 0 && l'.open.value.runningSince == l'.open.value.reportedUntil
    ensures Accounted(l', stays)
  {
    StaysSurvive(l, l', stays);
    assert l'.out[|l'.out|..] == [];
  }

  lemma CloseTiles(l: Lane, stays: seq<Stay>, step: LaneStep)
    requires Accounted(l, stays) && step.Off? && l.open.Some?
    ensures Accounted(LaneNext(0, l, step), stays + [CloseOf(l, step)])
  {
    var l', close := LaneNext(0, l, step), CloseOf(l, step);
    CloseBlock(l, step);
    StaysSurvive(l, l', stays);
    StaysSnoc(l', stays, close);
  }

  /** The records of the window that the step closes. */
  lemma CloseBlock(l: Lane, step: LaneStep)
    requires step.Off? && l.open.Some? && l.open.value.records <= |l.out|
    requires Tiles(l.out[|l.out| - l.open.value.records..], l.open.value.runningSince, l.open.value.reportedUntil)
    ensures var l', close := LaneNext(0, l, step), CloseOf(l, step);
            && l'.open.None? && l.out <= l'.out && close.hi == |l'.out| && close.lo == |l.out| - l.open.value.records
            && Tiles(l'.out[close.lo..close.hi], close.since, close.until)
  {
    var l', close := LaneNext(0, l, step), CloseOf(l, step);
    EmitTiles(l.open.value, step.ts, step.ans, l.out);
    assert l'.out[close.lo..close.hi] == l'.out[close.lo..];
  }

  lemma StaysSnoc(l: Lane, stays: seq<Stay>, close: Stay)
    requires forall i :: 0 <= i < |stays| ==> StayAccounted(l, stays, i)
    requires close.lo <= close.hi <= |l.out| && Tiles(l.out[close.lo..close.hi], close.since, close.until)
    requires close.lo == if stays == [] then 0 else stays[|stays| - 1].hi
    ensures var all := stays + [close]; forall i :: 0 <= i < |all| ==> StayAccounted(l, all, i)
  {
    var all := stays + [close];
    forall i | 0 <= i < |all| ensures StayAccounted(l, all, i) {
      if i < |stays| {
        assert StayAccounted(l, stays, i);
      }
    }
  }

  lemma StaysSurvive(l: Lane, l': Lane, stays: seq<Stay>)
    requires forall i :: 0 <= i < |stays| ==> StayAccounted(l, stays, i)
    requires l.out <= l'.out
    ensures forall i :: 0 <= i < |stays| ==> StayAccounted(l', stays, i)
  {
    forall i | 0 <= i < |stays| ensures StayAccounted(l', stays, i) {
      assert StayAccounted(l, stays, i);
      assert l'.out[stays[i].lo..stays[i].hi] == l.out[stays[i].lo..stays[i].hi];
    }
  }

  lemma EmitTiles(w: Window, at: int, ans: Answer, out: seq<Record>)
    requires w.records <= |out| && Tiles(out[|out| - w.records..], w.runningSince, w.reportedUntil)
    ensures var e := Emit(w, at, ans);
            var out' := Appended(out, e.record);
            && e.window.runningSince == w.runningSince
            && e.window.records <= |out'|
            && |out'| - e.window.records == |out| - w.records
            && Tiles(out'[|out'| - e.window.records..], w.runningSince, e.window.reportedUntil)
  {
    var e := Emit(w, at, ans);
    var out' := Appended(out, e.record);
    if e.record.Some? {
      var block := out'[|out'| - e.window.records..];
      assert block[..|block| - 1] == out[|out| - w.records..];
    }
  }

  /** Conservation: tiling records add up to exactly the stretch they cover. */
  lemma {:induction false} TilesTotal(rs: seq<Record>, a: int, b: int)
    requires Tiles(rs, a, b)
    ensures a <= b && Total(rs) == b - a
    ensures rs == [] <==> a == b
  {
    if rs != [] {
      TilesTotal(rs[..|rs| - 1], a, rs[|rs| - 1].start);
    }
  }

  predicate Covers(r: Record, t: int) {
    r.start <= t < r.end
  }

  /** Every instant of the covered stretch is billed by exactly one record, and no other instant is billed. */
  lemma {:induction false} TilesCoverOnce(rs: seq<Record>, a: int, b: int, t: int)
    requires Tiles(rs, a, b)
    ensures a <= t < b <==> exists i :: 0 <= i < |rs| && Covers(rs[i], t)
    ensures forall i, j :: 0 <= i < j < |rs| ==> a <= rs[i].start < rs[i].end <= rs[j].start < rs[j].end <= b
    ensures rs != [] ==> rs[0].start == a
  {
    if rs != [] {
      var pre, last := rs[..|rs| - 1], rs[|rs| - 1];
      TilesCoverOnce(pre, a, last.start, t);
      TilesTotal(pre, a, last.start);
      forall i | 0 <= i < |pre| ensures a <= rs[i].start < rs[i].end <= last.start {
        assert rs[i] == pre[i];
        TilesBounds(pre, a, last.start, i);
      }
      if a <= t < b {
        if t < last.start {
          var i :| 0 <= i < |pre| && Covers(pre[i], t);
          assert Covers(rs[i], t);
        } else {
          assert Covers(rs[|rs| - 1], t);
        }
      }
    }
  }

  lemma {:induction false} TilesBounds(rs: seq<Record>, a: int, b: int, i: nat)
    requires Tiles(rs, a, b) && i < |rs|
    ensures a <= rs[i].start < rs[i].end <= b
  {
    var pre, last := rs[..|rs| - 1], rs[|rs| - 1];
    TilesTotal(pre, a, last.start);
    if i < |pre| {
      TilesBounds(pre, a, last.start, i);
    }
  }

  /** The latest end among the records, or `since` when there is none. */
  function LatestEnd(rs: seq<Record>, since: int): int {
    if rs == [] then since else Max(LatestEnd(rs[..|rs| - 1], since), rs[|rs| - 1].end)
  }

  /** The watermark is the start of the window or the end of its latest record. */
  lemma {:induction false} WatermarkIsLatestEnd(rs: seq<Record>, a: int, b: int)
    requires Tiles(rs, a, b)
    ensures b == LatestEnd(rs, a)
  {
    if rs != [] {
      WatermarkIsLatestEnd(rs[..|rs| - 1], a, rs[|rs| - 1].start);
    }
  }

  function StaysTotal(stays: seq<Stay>): int {
    if stays == [] then 0 else StaysTotal(stays[..|stays| - 1]) + stays[|stays| - 1].until - stays[|stays| - 1].since
  }

  /** Conservation over a whole run: everything ever billed is the sum over its windows of the stretch billed. */
  lemma {:induction false} RunConserves(threshold: int, steps: seq<LaneStep>)
    ensures var l := LaneRun(threshold, steps);
            Total(l.out) == StaysTotal(Stays(threshold, steps))
                            + if l.open.Some? then l.open.value.reportedUntil - l.open.value.runningSince else 0
  {
    RunsTile(threshold, steps);
    LaneConserves(LaneRun(threshold, steps), Stays(threshold, steps));
  }

  lemma LaneConserves(l: Lane, stays: seq<Stay>)
    requires Accounted(l, stays)
    ensures Total(l.out) == StaysTotal(stays)
                            + if l.open.Some? then l.open.value.reportedUntil - l.open.value.runningSince else 0
  {
    var cut := |l.out| - OpenRecords(l);
    StaysConserve(l, stays, |stays|);
    assert l.out == l.out[..cut] + l.out[cut..];
    TotalSplit(l.out[..cut], l.out[cut..]);
    assert stays[..|stays|] == stays;
    if l.open.Some? {
      TilesTotal(l.out[cut..], l.open.value.runningSince, l.open.value.reportedUntil);
    }
  }

  lemma {:induction false} StaysConserve(l: Lane, stays: seq<Stay>, n: nat)
    requires n <= |stays| && forall i :: 0 <= i < |stays| ==> StayAccounted(l, stays, i)
    ensures (if n == 0 then 0 else stays[n - 1].hi) <= |l.out|
    ensures Total(l.out[..if n == 0 then 0 else stays[n - 1].hi]) == StaysTotal(stays[..n])
  {
    if n != 0 {
      StaysConserve(l, stays, n - 1);
      assert StayAccounted(l, stays, n - 1);
      var s := stays[n - 1];
      assert l.out[..s.hi] == l.out[..s.lo] + l.out[s.lo..s.hi];
      TotalSplit(l.out[..s.lo], l.out[s.lo..s.hi]);
      TilesTotal(l.out[s.lo..s.hi], s.since, s.until);
      assert stays[..n][..n - 1] == stays[..n - 1];
    }
  }

  lemma {:induction false} TotalSplit(a: seq<Record>, b: seq<Record>)
    ensures Total(a + b) == Total(a) + Total(b)
  {
    if b == [] {
      assert a + b == a;
    } else {
      TotalSplit(a, b[..|b| - 1]);
      assert (a + b)[..|a + b| - 1] == a + b[..|b| - 1];
    }
  }

  // ----- What a close bills -----

  ghost predicate AllWritten(steps: seq<LaneStep>) {
    forall i :: 0 <= i < |steps| ==> steps[i].ans.written
  }

  /**
   Exact billing of a close, with no assumption on times. A written close bills up to the later of its own
   time and the watermark. A close whose write failed bills only up to the watermark, so the rest of the stretch is
   lost although the source says a failed span is retried.
   */
  lemma {:induction false} ClosedWindowBills(threshold: int, steps: seq<LaneStep>, i: nat)
    requires i < |Stays(threshold, steps)|
    ensures var s := Stays(threshold, steps)[i];
            && s.since <= s.watermark <= s.until
            && s.until == (if s.written then Max(s.closedAt, s.watermark) else s.watermark)
            && (s.until - s.since == s.closedAt - s.since
                <==> s.watermark == s.closedAt || (s.written && s.watermark < s.closedAt))
  {
    var pre := steps[..|steps| - 1];
    if i < |Stays(threshold, pre)| {
      ClosedWindowBills(threshold, pre, i);
    } else {
      var l := LaneRun(threshold, pre);
      RunsTile(threshold, pre);
      TilesTotal(l.out[|l.out| - OpenRecords(l)..], l.open.value.runningSince, l.open.value.reportedUntil);
    }
  }

  /** How often the overbilled alert fires for this uuid: the closes whose time is below the watermark. */
  function Overbilled(stays: seq<Stay>): nat {
    if stays == [] then 0
    else Overbilled(stays[..|stays| - 1])
         + if stays[|stays| - 1].closedAt < stays[|stays| - 1].watermark then 1 else 0
  }

  // ----- Flush invariance -----

  /** The running stretches that the events alone describe. */
  datatype Timeline = Timeline(since: Option<int>, stretches: seq<(int, int)>)

  function TimelineOf(steps: seq<LaneStep>): Timeline {
    if steps == [] then Timeline(None, [])
    else
      var t := TimelineOf(steps[..|steps| - 1]);
      match steps[|steps| - 1]
      case On(_, ts, _) => if t.since.Some? then t else t.(since := Some(ts))
      case Off(ts, _) => if t.since.None? then t else Timeline(None, t.stretches + [(t.since.value, ts)])
      case Tick(_, _) => t
  }

  /** No step is later than an event that follows it. */
  ghost predicate WellTimed(steps: seq<LaneStep>) {
    forall i, j :: 0 <= i < j < |steps| && !steps[j].Tick? ==> steps[i].ts <= steps[j].ts
  }

  function Stretches(stays: seq<Stay>): seq<(int, int)> {
    seq(|stays|, i requires 0 <= i < |stays| => (stays[i].since, stays[i].until))
  }

  function StretchTotal(ss: seq<(int, int)>): int {
    if ss == [] then 0 else StretchTotal(ss[..|ss| - 1]) + ss[|ss| - 1].1 - ss[|ss| - 1].0
  }

  /** In a well-timed run the watermark never passes the latest step. */
  lemma {:induction false} WatermarkBounded(threshold: int, steps: seq<LaneStep>, t: int)
    requires WellTimed(steps) && forall i :: 0 <= i < |steps| ==> steps[i].ts <= t
    ensures LaneRun(threshold, steps).open.Some? ==> LaneRun(threshold, steps).open.value.reportedUntil <= t
  {
    if steps != [] {
      WatermarkBounded(threshold, steps[..|steps| - 1], t);
    }
  }

  /**
   Refinement, with no assumption on times. When writes succeed, the closed windows of a run and the running
   stretches of its events correspond one to one and agree on when each began. They agree on when each ended, that
   is the bill is exactly the time run, if and only if no close fell below the watermark.
   */
  lemma {:induction false} BillingRefinesTimeline(threshold: int, steps: seq<LaneStep>)
    requires AllWritten(steps)
    ensures var l, t, stays := LaneRun(threshold, steps), TimelineOf(steps), Stays(threshold, steps);
            && t.since == (if l.open.Some? then Some(l.open.value.runningSince) else None)
            && |stays| == |t.stretches|
            && (forall i :: 0 <= i < |stays| ==> (stays[i].since, stays[i].closedAt) == t.stretches[i])
            && (Stretches(stays) == t.stretches <==> Overbilled(stays) == 0)
  {
    if steps != [] {
      var pre, step := steps[..|steps| - 1], steps[|steps| - 1];
      BillingRefinesTimeline(threshold, pre);
      var l := LaneRun(threshold, pre);
      if step.Off? && l.open.Some? {
        var past, all, close := Stays(threshold, pre), Stays(threshold, steps), CloseOf(l, step);
        assert all == past + [close];
        assert all[..|all| - 1] == past;
        assert Stretches(all) == Stretches(past) + [(close.since, close.until)];
        assert TimelineOf(steps).stretches == TimelineOf(pre).stretches + [(close.since, step.ts)];
        SnocEqual(Stretches(past), TimelineOf(pre).stretches, (close.since, close.until), (close.since, step.ts));
      }
    }
  }

  lemma SnocEqual<T>(a: seq<T>, b: seq<T>, x: T, y: T)
    requires |a| == |b|
    ensures a + [x] == b + [y] <==> a == b && x == y
  {
    if a + [x] == b + [y] {
      assert a == (a + [x])[..|a|] == (b + [y])[..|b|] == b;
      assert x == (a + [x])[|a|] == (b + [y])[|b|] == y;
    }
  }

  /** Well-timed runs are never overbilled. */
  lemma {:induction false} WellTimedNeverOverbills(threshold: int, steps: seq<LaneStep>)
    requires WellTimed(steps)
    ensures Overbilled(Stays(threshold, steps)) == 0
  {
    if steps != [] {
      var pre, step := steps[..|steps| - 1], steps[|steps| - 1];
      WellTimedNeverOverbills(threshold, pre);
      var l, all := LaneRun(threshold, pre), Stays(threshold, steps);
      if step.Off? && l.open.Some? {
        WatermarkBounded(threshold, pre, step.ts);
        assert all[..|all| - 1] == Stays(threshold, pre);
      }
    }
  }

  /** The steps without the ticks and without the answers of the environment. */
  function EventsOf(steps: seq<LaneStep>): seq<(bool, int)> {
    if steps == [] then []
    else
      var es := EventsOf(steps[..|steps| - 1]);
      match steps[|steps| - 1]
      case On(_, ts, _) => es + [(true, ts)]
      case Off(ts, _) => es + [(false, ts)]
      case Tick(_, _) => es
  }

  function TimelineOfEvents(es: seq<(bool, int)>): Timeline {
    if es == [] then Timeline(None, [])
    else
      var t := TimelineOfEvents(es[..|es| - 1]);
      var e := es[|es| - 1];
      if e.0 then (if t.since.Some? then t else t.(since := Some(e.1)))
      else if t.since.None? then t
      else Timeline(None, t.stretches + [(t.since.value, e.1)])
  }

  lemma {:induction false} TimelineIgnoresTicks(steps: seq<LaneStep>)
    ensures TimelineOf(steps) == TimelineOfEvents(EventsOf(steps))
  {
    if steps != [] {
      var pre := steps[..|steps| - 1];
      TimelineIgnoresTicks(pre);
      if !steps[|steps| - 1].Tick? {
        var es := EventsOf(steps);
        assert es[..|es| - 1] == EventsOf(pre);
      }
    }
  }

  lemma {:induction false} StaysTotalIsStretchTotal(stays: seq<Stay>)
    ensures StaysTotal(stays) == StretchTotal(Stretches(stays))
  {
    if stays != [] {
      var pre := stays[..|stays| - 1];
      StaysTotalIsStretchTotal(pre);
      var ss := Stretches(stays);
      assert ss[..|ss| - 1] == Stretches(pre);
    }
  }

  /**
   Flush invariance. Two well-timed runs of the same events, whatever ticks either of them has and whatever their
   thresholds, bill the same stretches; once the instance has stopped they bill the same total, which is the sum of
   (off - on) over the running stretches. Flushing changes only how the total is cut into records.
   */
  lemma {:induction false} FlushingNeverChangesTheBill(threshold: int, a: seq<LaneStep>,
                                                       threshold': int, b: seq<LaneStep>)
    requires AllWritten(a) && WellTimed(a) && AllWritten(b) && WellTimed(b)
    requires EventsOf(a) == EventsOf(b)
    ensures Stretches(Stays(threshold, a)) == Stretches(Stays(threshold', b))
    ensures LaneRun(threshold, a).open.Some? == LaneRun(threshold', b).open.Some?
    ensures LaneRun(threshold, a).open.None? ==>
              && Total(LaneRun(threshold, a).out) == Total(LaneRun(threshold', b).out)
              && Total(LaneRun(threshold, a).out) == StretchTotal(TimelineOfEvents(EventsOf(a)).stretches)
  {
    BillingRefinesTimeline(threshold, a);
    BillingRefinesTimeline(threshold', b);
    WellTimedNeverOverbills(threshold, a);
    WellTimedNeverOverbills(threshold', b);
    TimelineIgnoresTicks(a);
    TimelineIgnoresTicks(b);
    RunConserves(threshold, a);
    RunConserves(threshold', b);
    StaysTotalIsStretchTotal(Stays(threshold, a));
    StaysTotalIsStretchTotal(Stays(threshold', b));
  }

  /** A flush past the time of a later close bills time that did not run: events from 0 to 10 billed as 100. */
  lemma LateCloseIsOverbilled()
    ensures var yes := Answer(None, true);
            var steps := [On("u", 0, yes), Tick(100, yes), Off(10, yes)];
            && AllWritten(steps) && !WellTimed(steps)
            && TimelineOf(steps).stretches == [(0, 10)]
            && Stretches(Stays(100, steps)) == [(0, 100)]
            && Overbilled(Stays(100, steps)) == 1
  {
    var yes := Answer(None, true);
    var steps := [On("u", 0, yes), Tick(100, yes), Off(10, yes)];
    var two := steps[..2];
    assert two[..1][..0] == [] && steps[1].ts > steps[2].ts;
    assert TimelineOf(two[..1][..0]) == Timeline(None, []);
    assert LaneRun(100, two[..1]) == Lane(Some(Window("u", 0, 0, None, 0)), []);
    assert LaneRun(100, two) == Lane(Some(Window("u", 0, 100, None, 1)), [Record("u", 0, 100, "-", "-", 0, 0)]);
    assert Stays(100, two[..1]) == [];
    assert two[..1][|two[..1]| - 1] == On("u", 0, yes);
    assert TimelineOf(two[..1]).since == Some(0);
    assert Stays(100, two) == [] && TimelineOf(two) == Timeline(Some(0), []);
    assert Stays(100, steps) == [Stay(0, 100, 10, 100, true, 0, 1)];
    assert Stays(100, steps)[..0] == [];
  }

  // ----- No overlap across windows -----

  ghost predicate EventsOrdered(steps: seq<LaneStep>) {
    forall i, j :: 0 <= i < j < |steps| && !steps[i].Tick? && !steps[j].Tick? ==> steps[i].ts <= steps[j].ts
  }

  ghost predicate InOrder(rs: seq<Record>) {
    && (forall i :: 0 <= i < |rs| ==> rs[i].start < rs[i].end)
    && forall i, j :: 0 <= i < j < |rs| ==> rs[i].end <= rs[j].start
  }

  ghost predicate EndsBy(rs: seq<Record>, t: int) {
    forall i :: 0 <= i < |rs| ==> rs[i].end <= t
  }

  /**
   No overlap. When events are in order and no close is overbilled, all records of the uuid, across all its
   windows, follow one another without overlap, even when writes fail.
   */
  lemma {:induction false} RecordsNeverOverlap(threshold: int, steps: seq<LaneStep>)
    requires EventsOrdered(steps) && Overbilled(Stays(threshold, steps)) == 0
    ensures InOrder(LaneRun(threshold, steps).out)
  {
    if steps != [] {
      RecordsEndBy(threshold, steps);
    }
  }

  function LastEvent(steps: seq<LaneStep>): Option<int> {
    if steps == [] then None
    else if steps[|steps| - 1].Tick? then LastEvent(steps[..|steps| - 1])
    else Some(steps[|steps| - 1].ts)
  }

  lemma {:induction false} LastEventIsAStep(steps: seq<LaneStep>)
    ensures LastEvent(steps).Some? ==>
              exists k :: 0 <= k < |steps| && !steps[k].Tick? && steps[k].ts == LastEvent(steps).value
  {
    if steps != [] && steps[|steps| - 1].Tick? {
      var pre := steps[..|steps| - 1];
      LastEventIsAStep(pre);
      if LastEvent(pre).Some? {
        var k :| 0 <= k < |pre| && !pre[k].Tick? && pre[k].ts == LastEvent(pre).value;
        assert steps[k] == pre[k];
      }
    }
  }

  /** Everything billed so far ends by the watermark, or by the last event when nothing is running. */
  ghost predicate Settled(l: Lane, event: Option<int>) {
    && InOrder(l.out)
    && if l.open.Some? then EndsBy(l.out, l.open.value.reportedUntil)
       else if event.Some? then EndsBy(l.out, event.value)
       else l.out == []
  }

  lemma {:induction false} RecordsEndBy(threshold: int, steps: seq<LaneStep>)
    requires EventsOrdered(steps) && Overbilled(Stays(threshold, steps)) == 0
    ensures Settled(LaneRun(threshold, steps), LastEvent(steps))
  {
    if steps != [] {
      var pre, step := steps[..|steps| - 1], steps[|steps| - 1];
      var l, all := LaneRun(threshold, pre), Stays(threshold, steps);
      if step.Off? && l.open.Some? {
        assert all == Stays(threshold, pre) + [CloseOf(l, step)];
        assert all[..|all| - 1] == Stays(threshold, pre);
        assert step.ts >= l.open.value.reportedUntil;
      }
      RecordsEndBy(threshold, pre);
      LastEventIsAStep(pre);
      StepSettles(threshold, l, step, LastEvent(pre));
    }
  }

  lemma StepSettles(threshold: int, l: Lane, step: LaneStep, event: Option<int>)
    requires Settled(l, event)
    requires !step.Tick? && event.Some? ==> event.value <= step.ts
    requires step.Off? && l.open.Some? ==> l.open.value.reportedUntil <= step.ts
    ensures Settled(LaneNext(threshold, l, step), if step.Tick? then event else Some(step.ts))
  {
  }

  /** Ordered records have distinct dedup keys. */
  lemma OrderedKeysAreDistinct(rs: seq<Record>, i: nat, j: nat)
    requires InOrder(rs) && i < j < |rs|
    ensures (rs[i].start, rs[i].end) != (rs[j].start, rs[j].end)
  {
  }

  // ----- Flush lag -----

  /** The lane after `steps`, from lane `l`. */
  function LaneFrom(threshold: int, l: Lane, steps: seq<LaneStep>): Lane {
    if steps == [] then l
    else LaneNext(threshold, LaneFrom(threshold, l, steps[..|steps| - 1]), steps[|steps| - 1])
  }

  ghost predicate NoClose(steps: seq<LaneStep>) {
    forall i :: 0 <= i < |steps| ==> !steps[i].Off?
  }

  function LastTick(steps: seq<LaneStep>, first: int): int {
    if steps == [] then first
    else if steps[|steps| - 1].Tick? then steps[|steps| - 1].ts
    else LastTick(steps[..|steps| - 1], first)
  }

  /** Every tick comes at least `threshold` after the tick before it, starting from a tick at `first`. */
  ghost predicate Spaced(threshold: int, steps: seq<LaneStep>, first: int) {
    steps == []
    || (&& Spaced(threshold, steps[..|steps| - 1], first)
        && (steps[|steps| - 1].Tick? ==> steps[|steps| - 1].ts - LastTick(steps[..|steps| - 1], first) >= threshold))
  }

  /**
   Steady flushing. Once a window was flushed at a tick, every later tick that comes a threshold after the tick
   before it flushes it again, so what is unreported never exceeds the time since the last tick.
   */
  lemma {:induction false} SteadyTicksFlush(threshold: int, l: Lane, steps: seq<LaneStep>)
    requires 0 < threshold && l.open.Some? && AllWritten(steps) && NoClose(steps)
    requires Spaced(threshold, steps, l.open.value.reportedUntil)
    ensures var l' := LaneFrom(threshold, l, steps);
            && l'.open.Some?
            && l'.open.value.runningSince == l.open.value.runningSince
            && l'.open.value.reportedUntil == LastTick(steps, l.open.value.reportedUntil)
  {
    if steps != [] {
      SteadyTicksFlush(threshold, l, steps[..|steps| - 1]);
    }
  }

  /**
   Lag bound. However old a window is, after a written tick at `now` it has less than a threshold unreported,
   and less than `threshold + gap` just before a next tick `gap` later, whatever events come in between and leave
   it open. Just before that tick no more than the gap is unreported if and only if the tick flushed the window or
   found nothing unreported; a tick that skips a window's first span does neither.
   */
  lemma {:induction false} LagAfterTick(threshold: int, l: Lane, now: int, ans: Answer, between: seq<LaneStep>,
                                        gap: int)
    requires 0 < threshold && l.open.Some? && ans.written
    requires NoClose(between) && forall i :: 0 <= i < |between| ==> !between[i].Tick?
    ensures var l' := LaneFrom(threshold, LaneNext(threshold, l, Tick(now, ans)), between);
            && l'.open.Some?
            && now - l'.open.value.reportedUntil < threshold
            && now + gap - l'.open.value.reportedUntil < threshold + gap
            && (now + gap - l'.open.value.reportedUntil <= gap
                <==> Due(l.open.value, now, threshold) || now <= l.open.value.reportedUntil)
  {
    if between != [] {
      LagAfterTick(threshold, l, now, ans, between[..|between| - 1], gap);
    }
  }

  /**
   A window's first span is not bounded by the flush interval. With an interval of 100 the window opened at 0 is
   skipped by the tick at 89, so a crash just before the next tick at 189 loses 188.
   */
  lemma FirstSpanCanExceedInterval()
    ensures var yes := Answer(None, true);
            var l := LaneRun(FlushSkipThreshold(100), [On("u", 0, yes), Tick(89, yes)]);
            && l.out == [] && l.open.Some? && 188 - l.open.value.reportedUntil > 100
  {
    var yes := Answer(None, true);
    var steps := [On("u", 0, yes), Tick(89, yes)];
    assert FlushSkipThreshold(100) == 90;
    assert steps[..1][..0] == [];
    assert LaneRun(90, steps[..1]) == Lane(Some(Window("u", 0, 0, None, 0)), []);
  }

  // ----- Failed writes, repeated events, attribution -----

  /**
   Repeated events are absorbed: a running event while the window is open, or a stopping one while it is not, may be
   dropped anywhere in a run without any effect.
   */
  lemma {:induction false} RepeatedEventsAreAbsorbed(threshold: int, before: seq<LaneStep>, step: LaneStep,
                                                     after: seq<LaneStep>)
    requires || (step.On? && LaneRun(threshold, before).open.Some?)
             || (step.Off? && LaneRun(threshold, before).open.None?)
    ensures LaneRun(threshold, before + [step] + after) == LaneRun(threshold, before + after)
  {
    var all, less := before + [step] + after, before + after;
    if after == [] {
      assert all[..|all| - 1] == before && less == before;
    } else {
      RepeatedEventsAreAbsorbed(threshold, before, step, after[..|after| - 1]);
      assert all[..|all| - 1] == before + [step] + after[..|after| - 1];
      assert less[..|less| - 1] == before + after[..|after| - 1];
    }
  }

  lemma LaneRunSnoc(threshold: int, steps: seq<LaneStep>, step: LaneStep)
    ensures LaneRun(threshold, steps + [step]) == LaneNext(threshold, LaneRun(threshold, steps), step)
  {
  }

  /** The span of a record, without its attribution. */
  function Spans(rs: seq<Record>): seq<(int, int)> {
    seq(|rs|, i requires 0 <= i < |rs| => (rs[i].start, rs[i].end))
  }

  /** Ticks whose writes fail, and running events, which an open window absorbs. */
  ghost predicate NothingWritten(steps: seq<LaneStep>) {
    forall i :: 0 <= i < |steps| ==> steps[i].On? || (steps[i].Tick? && !steps[i].ans.written)
  }

  /** The same window and the same spans, up to attribution. */
  ghost predicate SameSpans(l: Lane, l': Lane) {
    && Spans(l.out) == Spans(l'.out) && l.open.Some? == l'.open.Some?
    && (l.open.Some? ==>
          && l.open.value.runningSince == l'.open.value.runningSince && l.open.value.records == l'.open.value.records
          && l.open.value.reportedUntil == l'.open.value.reportedUntil)
  }

  /**
   Failed flushes are retried as long as the window stays open: however many ticks fail and whatever running events
   come in between, the next tick or close does what it would have done had none of them happened.
   */
  lemma {:induction false} FailedFlushesAreRetried(threshold: int, l: Lane, failed: seq<LaneStep>, next: LaneStep)
    requires l.open.Some? && NothingWritten(failed)
    ensures var l' := LaneFrom(threshold, l, failed);
            SameSpans(l', l) && SameSpans(LaneNext(threshold, l', next), LaneNext(threshold, l, next))
  {
    if failed != [] {
      FailedFlushesAreRetried(threshold, l, failed[..|failed| - 1], next);
    }
  }

  /** A close is not retried: when its write fails the stretch from the watermark to the close is in no record. */
  lemma FailedCloseIsLost()
    ensures var yes, no := Answer(None, true), Answer(None, false);
            var steps := [On("u", 0, yes), Off(10, no)];
            && TimelineOf(steps).stretches == [(0, 10)]
            && Stays(5, steps) == [Stay(0, 0, 10, 0, false, 0, 0)]
            && LaneRun(5, steps) == Lane(None, [])
  {
    var yes, no := Answer(None, true), Answer(None, false);
    var steps := [On("u", 0, yes), Off(10, no)];
    assert steps[..1] == [On("u", 0, yes)] && steps[..1][..0] == [];
    assert LaneRun(5, steps[..1]) == Lane(Some(Window("u", 0, 0, None, 0)), []);
    assert TimelineOf(steps[..1]) == Timeline(Some(0), []) && Stays(5, steps[..1]) == [];
  }

  /** Nothing but the last step may close the window. */
  ghost predicate OneWindow(steps: seq<LaneStep>) {
    forall i :: 0 <= i < |steps| - 1 ==> !steps[i].Off?
  }

  predicate Attributed(r: Record, info: Info) {
    && r.instance == info.instance && r.vcpuMilli == info.vcpuMilli && r.memoryBytes == info.memoryBytes
    && r.project == if info.project == "" then "-" else info.project
  }

  /**
   Attribution is decided once. A resolved window keeps its attribution as long as it is open, and every record it
   writes carries it, up to and including the one that its close writes.
   */
  lemma {:induction false} AttributionIsStable(threshold: int, l: Lane, steps: seq<LaneStep>)
    requires l.open.Some? && l.open.value.resolved.Some? && OneWindow(steps)
    ensures var l', info := LaneFrom(threshold, l, steps), l.open.value.resolved.value;
            && (NoClose(steps) ==> l'.open.Some? && l'.open.value.resolved == Some(info))
            && l.out <= l'.out
            && forall i :: |l.out| <= i < |l'.out| ==> Attributed(l'.out[i], info)
  {
    if steps != [] {
      AttributionIsStable(threshold, l, steps[..|steps| - 1]);
    }
  }

  /** Whether the step makes the processor ask who runs the instance: it opens a window or has something to write. */
  predicate Asks(threshold: int, l: Lane, step: LaneStep) {
    if l.open.None? then step.On?
    else
      && l.open.value.reportedUntil < step.ts
      && (step.Off? || (step.Tick? && threshold <= step.ts - l.open.value.reportedUntil))
  }

  /** The first answer that named somebody, among those asked for since the latest window opened. */
  function FirstAnswer(threshold: int, steps: seq<LaneStep>): Option<Info> {
    if steps == [] then None
    else
      var pre, step := steps[..|steps| - 1], steps[|steps| - 1];
      var l := LaneRun(threshold, pre);
      if !Asks(threshold, l, step) then FirstAnswer(threshold, pre)
      else if l.open.Some? && FirstAnswer(threshold, pre).Some? then FirstAnswer(threshold, pre)
      else step.ans.info
  }

  predicate Anonymous(r: Record) {
    r.project == "-" && r.instance == "-" && r.vcpuMilli == 0 && r.memoryBytes == 0
  }

  /** What a run has written after `before`, billed to whoever `answer` names, or to nobody. */
  ghost predicate BilledTo(before: seq<Record>, after: seq<Record>, answer: Option<Info>) {
    && before <= after
    && forall i :: |before| <= i < |after| ==>
         if answer.Some? then Attributed(after[i], answer.value) else Anonymous(after[i])
  }

  /**
   Who is billed. In every run, the record that a step writes is billed to whoever the first answer names, among those
   asked for since its window opened and up to that very step; and to nobody, at no size, while none has.
   */
  lemma {:induction false} FirstAnswerDecides(threshold: int, steps: seq<LaneStep>, k: nat)
    requires k < |steps|
    ensures BilledTo(LaneRun(threshold, steps[..k]).out, LaneRun(threshold, steps[..k + 1]).out,
                     FirstAnswer(threshold, steps[..k + 1]))
  {
    var pre, more := steps[..k], steps[..k + 1];
    assert more[..|more| - 1] == pre && more[|more| - 1] == steps[k];
    WindowHoldsFirstAnswer(threshold, pre);
    StepBillsTo(threshold, LaneRun(threshold, pre), steps[k], FirstAnswer(threshold, pre));
  }

  lemma {:induction false} WindowHoldsFirstAnswer(threshold: int, steps: seq<LaneStep>)
    ensures var l := LaneRun(threshold, steps); l.open.Some? ==> l.open.value.resolved == FirstAnswer(threshold, steps)
  {
    if steps != [] {
      WindowHoldsFirstAnswer(threshold, steps[..|steps| - 1]);
    }
  }

  lemma StepBillsTo(threshold: int, l: Lane, step: LaneStep, known: Option<Info>)
    requires l.open.Some? ==> l.open.value.resolved == known
    ensures BilledTo(l.out, LaneNext(threshold, l, step).out,
                     if !Asks(threshold, l, step) then known
                     else if l.open.Some? && known.Some? then known
                     else step.ans.info)
  {
  }

  // ----- Replayed events -----

  /** On a lane without a window, steps do what they do on an empty lane. */
  lemma {:induction false} RunsOnTop(threshold: int, l: Lane, steps: seq<LaneStep>)
    requires l.open.None?
    ensures var run := LaneRun(threshold, steps);
            LaneFrom(threshold, l, steps) == Lane(run.open, l.out + run.out)
  {
    if steps != [] {
      RunsOnTop(threshold, l, steps[..|steps| - 1]);
    }
  }

  lemma {:induction false} FromSplit(threshold: int, l: Lane, a: seq<LaneStep>, b: seq<LaneStep>)
    ensures LaneFrom(threshold, l, a + b) == LaneFrom(threshold, LaneFrom(threshold, l, a), b)
  {
    if b == [] {
      assert a + b == a;
    } else {
      FromSplit(threshold, l, a, b[..|b| - 1]);
      assert (a + b)[..|a + b| - 1] == a + b[..|b| - 1];
    }
  }

  ghost predicate Forward(ss: seq<(int, int)>) {
    forall i :: 0 <= i < |ss| ==> ss[i].0 <= ss[i].1
  }

  ghost predicate AllEmpty(ss: seq<(int, int)>) {
    forall i :: 0 <= i < |ss| ==> ss[i].0 == ss[i].1
  }

  lemma {:induction false} EmptyStretches(ss: seq<(int, int)>)
    requires Forward(ss)
    ensures 0 <= StretchTotal(ss) && (StretchTotal(ss) == 0 <==> AllEmpty(ss))
  {
    if ss != [] {
      EmptyStretches(ss[..|ss| - 1]);
    }
  }

  lemma {:induction false} SinceBounded(steps: seq<LaneStep>, t: int)
    requires forall i :: 0 <= i < |steps| ==> steps[i].ts <= t
    ensures TimelineOf(steps).since.Some? ==> TimelineOf(steps).since.value <= t
  {
    if steps != [] {
      SinceBounded(steps[..|steps| - 1], t);
    }
  }

  lemma {:induction false} StretchesAreForward(steps: seq<LaneStep>)
    requires WellTimed(steps)
    ensures Forward(TimelineOf(steps).stretches)
  {
    if steps != [] {
      var pre, step := steps[..|steps| - 1], steps[|steps| - 1];
      StretchesAreForward(pre);
      if step.Off? {
        SinceBounded(pre, step.ts);
      }
    }
  }

  /** Records of positive length add up to nothing only if there are none. */
  lemma {:induction false} PositiveTotal(rs: seq<Record>)
    requires forall i :: 0 <= i < |rs| ==> rs[i].start < rs[i].end
    ensures 0 <= Total(rs) && (Total(rs) == 0 <==> rs == [])
  {
    if rs != [] {
      PositiveTotal(rs[..|rs| - 1]);
    }
  }

  /** What well-timed steps that end stopped bill from nothing. */
  lemma StoppedRunBills(threshold: int, r: seq<LaneStep>)
    requires AllWritten(r) && WellTimed(r) && TimelineOf(r).since.None?
    ensures var run, ss := LaneRun(threshold, r), TimelineOf(r).stretches;
            && run.open.None? && Total(run.out) == StretchTotal(ss) && 0 <= StretchTotal(ss)
            && (run.out == [] <==> AllEmpty(ss)) && (StretchTotal(ss) == 0 <==> AllEmpty(ss))
  {
    BillingRefinesTimeline(threshold, r);
    FlushingNeverChangesTheBill(threshold, r, threshold, r);
    TimelineIgnoresTicks(r);
    StretchesAreForward(r);
    EmptyStretches(TimelineOf(r).stretches);
    WellTimedNeverOverbills(threshold, r);
    RecordsNeverOverlap(threshold, r);
    PositiveTotal(LaneRun(threshold, r).out);
  }

  /** The watermark of the window, if one is open. */
  function Mark(l: Lane): Option<int> {
    if l.open.Some? then Some(l.open.value.reportedUntil) else None
  }

  /** Where the watermark is after the steps, as long as they bill nothing. */
  function MarkAfter(mark: Option<int>, steps: seq<LaneStep>): Option<int> {
    if steps == [] then mark
    else
      var m := MarkAfter(mark, steps[..|steps| - 1]);
      match steps[|steps| - 1]
      case On(_, ts, _) => if m.Some? then m else Some(ts)
      case Off(_, _) => None
      case Tick(_, _) => m
  }

  /** The step bills nothing: no window is open, or its time is reported, or a tick is not due, or the write fails. */
  predicate QuietStep(threshold: int, mark: Option<int>, step: LaneStep) {
    || mark.None? || step.On? || !step.ans.written || step.ts <= mark.value
    || (step.Tick? && step.ts - mark.value < threshold)
  }

  /** No written tick is due while a window is open, and no written stop is later than its watermark. */
  predicate Quiet(threshold: int, mark: Option<int>, steps: seq<LaneStep>) {
    steps == [] ||
    (&& Quiet(threshold, mark, steps[..|steps| - 1])
     && QuietStep(threshold, MarkAfter(mark, steps[..|steps| - 1]), steps[|steps| - 1]))
  }

  /** What the open window has billed so far. */
  function OpenBilled(l: Lane): int {
    if l.open.Some? then l.open.value.reportedUntil - l.open.value.runningSince else 0
  }

  /**
   Replaying processed events, on any lane and with no assumption on times or writes. A replay bills nothing if and
   only if it is quiet: no tick is due while a replayed window is open and no replayed stop is later than the window's
   watermark, which for a replayed window is its own start. When no window was open before, which is what a restart
   leaves, the replay is without any effect if and only if it also ends stopped. The documentation says that every
   replay is safe.
   */
  lemma {:induction false} ReplayIsHarmlessIff(threshold: int, l: Lane, replay: seq<LaneStep>)
    ensures var l', quiet := LaneFrom(threshold, l, replay), Quiet(threshold, Mark(l), replay);
            var mark := MarkAfter(Mark(l), replay);
            && l.out <= l'.out && (l'.out == l.out <==> quiet)
            && Total(l.out) <= Total(l'.out) && (Total(l'.out) == Total(l.out) <==> quiet)
            && (l'.open.Some? <==> mark.Some?) && (quiet ==> Mark(l') == mark)
            && (l.open.None? ==> (l' == l <==> quiet && mark.None?))
  {
    if replay != [] {
      var pre, step := replay[..|replay| - 1], replay[|replay| - 1];
      ReplayIsHarmlessIff(threshold, l, pre);
      StepIsQuietIff(threshold, LaneFrom(threshold, l, pre), step);
    }
  }

  lemma StepIsQuietIff(threshold: int, l: Lane, step: LaneStep)
    ensures var l' := LaneNext(threshold, l, step);
            && l.out <= l'.out && (l'.out == l.out <==> QuietStep(threshold, Mark(l), step))
            && Total(l.out) <= Total(l'.out) && (l'.out == l.out <==> Total(l.out) == Total(l'.out))
            && (l'.open.Some? <==> step.On? || (step.Tick? && l.open.Some?))
            && (l'.out == l.out && l'.open.Some? ==>
                  Mark(l') == if l.open.Some? then Mark(l) else Some(step.ts))
  {
    if l.open.Some? {
      EmitAddsToTotal(l.open.value, step.ts, step.ans, l.out);
    }
  }

  /** A replayed window is marked by its own start. */
  lemma {:induction false} MarksAreStarts(steps: seq<LaneStep>)
    ensures MarkAfter(None, steps) == TimelineOf(steps).since
  {
    if steps != [] {
      MarksAreStarts(steps[..|steps| - 1]);
    }
  }

  /** What a replay bills when no window was open: whatever its own windows bill, once more. */
  lemma ReplayBills(threshold: int, l: Lane, replay: seq<LaneStep>)
    requires l.open.None?
    ensures var l', run := LaneFrom(threshold, l, replay), LaneRun(threshold, replay);
            && l'.open == run.open
            && Total(l'.out) == Total(l.out) + StaysTotal(Stays(threshold, replay)) + OpenBilled(run)
  {
    var run := LaneRun(threshold, replay);
    RunsOnTop(threshold, l, replay);
    TotalSplit(l.out, run.out);
    RunConserves(threshold, replay);
  }

  /**
   What a replay bills into an open window. Its first stopping event closes the window, however old that event is, and
   bills it up to the event's own time unless more was reported before; what follows is billed as on a lane without
   a window.
   */
  lemma ReplayIntoOpenWindow(threshold: int, l: Lane, head: seq<LaneStep>, off: LaneStep, rest: seq<LaneStep>)
    requires l.open.Some? && NoClose(head) && off.Off?
    ensures var mid, l' := LaneFrom(threshold, l, head), LaneFrom(threshold, l, head + [off] + rest);
            && mid.open.Some? && l'.open == LaneRun(threshold, rest).open
            && var until := mid.open.value.reportedUntil;
               Total(l'.out) == Total(l.out)
                                + (if off.ans.written then Max(off.ts, until) else until) - l.open.value.reportedUntil
                                + StaysTotal(Stays(threshold, rest)) + OpenBilled(LaneRun(threshold, rest))
  {
    FirstCloseBills(threshold, l, head, off);
    FromSplit(threshold, l, head + [off], rest);
    ReplayBills(threshold, LaneFrom(threshold, l, head + [off]), rest);
  }

  lemma FirstCloseBills(threshold: int, l: Lane, head: seq<LaneStep>, off: LaneStep)
    requires l.open.Some? && NoClose(head) && off.Off?
    ensures var mid, closed := LaneFrom(threshold, l, head), LaneFrom(threshold, l, head + [off]);
            && mid.open.Some? && closed.open.None?
            && var until := mid.open.value.reportedUntil;
               Total(closed.out) == Total(l.out)
                                    + (if off.ans.written then Max(off.ts, until) else until)
                                    - l.open.value.reportedUntil
  {
    var mid := LaneFrom(threshold, l, head);
    HeadBills(threshold, l, head);
    CloseAdds(threshold, mid, off);
    assert (head + [off])[..|head|] == head;
  }

  lemma CloseAdds(threshold: int, l: Lane, off: LaneStep)
    requires l.open.Some? && off.Off?
    ensures var l', until := LaneNext(threshold, l, off), l.open.value.reportedUntil;
            && l'.open.None?
            && Total(l'.out) == Total(l.out) + (if off.ans.written then Max(off.ts, until) else until) - until
  {
    var e := Emit(l.open.value, off.ts, off.ans);
    CloseUntil(l.open.value, off.ts, off.ans);
    EmitAddsToTotal(l.open.value, off.ts, off.ans, l.out);
    assert LaneNext(threshold, l, off) == Lane(None, Appended(l.out, e.record));
  }

  lemma CloseUntil(w: Window, at: int, ans: Answer)
    ensures Emit(w, at, ans).window.reportedUntil == if ans.written then Max(at, w.reportedUntil) else w.reportedUntil
  {
  }

  /** Until it is closed a window bills what its watermark moves. */
  lemma {:induction false} HeadBills(threshold: int, l: Lane, head: seq<LaneStep>)
    requires l.open.Some? && NoClose(head)
    ensures var l' := LaneFrom(threshold, l, head);
            && l'.open.Some? && l.open.value.reportedUntil <= l'.open.value.reportedUntil
            && Total(l'.out) - l'.open.value.reportedUntil == Total(l.out) - l.open.value.reportedUntil
            && forall t :: l.open.value.reportedUntil <= t && NoneLater(head, t) ==> l'.open.value.reportedUntil <= t
  {
    if head != [] {
      var pre, step := head[..|head| - 1], head[|head| - 1];
      HeadBills(threshold, l, pre);
      var mid := LaneFrom(threshold, l, pre);
      EmitAddsToTotal(mid.open.value, step.ts, step.ans, mid.out);
      assert forall t :: NoneLater(head, t) ==> NoneLater(pre, t) && step.ts <= t;
    }
  }

  ghost predicate NoneLater(steps: seq<LaneStep>, t: int) {
    forall i :: 0 <= i < |steps| ==> steps[i].ts <= t
  }

  /** A well-timed replay that ends stopped bills every replayed stretch once more, however often it is flushed. */
  lemma WellTimedReplayBills(threshold: int, l: Lane, replay: seq<LaneStep>)
    requires l.open.None? && AllWritten(replay) && WellTimed(replay) && TimelineOf(replay).since.None?
    ensures var l', ss := LaneFrom(threshold, l, replay), TimelineOf(replay).stretches;
            && Total(l'.out) == Total(l.out) + StretchTotal(ss)
            && (l' == l <==> AllEmpty(ss))
  {
    var run := LaneRun(threshold, replay);
    RunsOnTop(threshold, l, replay);
    StoppedRunBills(threshold, replay);
    TotalSplit(l.out, run.out);
  }

  /** A stretch that is empty is billed up to the time of a flush that comes between its replayed events. */
  lemma FlushedReplayIsBilled()
    ensures var yes := Answer(None, true);
            var replay := [On("u", 5, yes), Tick(1000, yes), Off(5, yes)];
            && TimelineOf(replay) == Timeline(None, [(5, 5)])
            && Spans(LaneRun(100, replay).out) == [(5, 1000)]
  {
    var yes, rec := Answer(None, true), Record("u", 5, 1000, "-", "-", 0, 0);
    var on, tick, off := On("u", 5, yes), Tick(1000, yes), Off(5, yes);
    ThreeSteps(100, on, tick, off);
    assert LaneNext(100, EMPTY_LANE, on) == Lane(Some(Window("u", 5, 5, None, 0)), []);
    assert LaneNext(100, Lane(Some(Window("u", 5, 5, None, 0)), []), tick)
        == Lane(Some(Window("u", 5, 1000, None, 1)), [rec]);
    assert LaneRun(100, [on, tick, off]) == Lane(None, [rec]);
  }

  lemma ThreeSteps(threshold: int, on: LaneStep, tick: LaneStep, off: LaneStep)
    requires on.On? && tick.Tick? && off.Off?
    ensures LaneRun(threshold, [on, tick, off])
            == LaneNext(threshold, LaneNext(threshold, LaneNext(threshold, EMPTY_LANE, on), tick), off)
    ensures TimelineOf([on, tick, off]) == Timeline(None, [(on.ts, off.ts)])
  {
    assert [] + [on] == [on] && [on] + [tick] == [on, tick] && [on, tick] + [off] == [on, tick, off];
    LaneRunSnoc(threshold, [], on);
    LaneRunSnoc(threshold, [on], tick);
    LaneRunSnoc(threshold, [on, tick], off);
    TimelineSnoc([], on);
    TimelineSnoc([on], tick);
    TimelineSnoc([on, tick], off);
  }

  lemma TimelineSnoc(steps: seq<LaneStep>, step: LaneStep)
    ensures var t, t' := TimelineOf(steps), TimelineOf(steps + [step]);
            && (step.On? ==> t' == if t.since.Some? then t else t.(since := Some(step.ts)))
            && (step.Off? ==> t' == if t.since.None? then t
                                    else Timeline(None, t.stretches + [(t.since.value, step.ts)]))
            && (step.Tick? ==> t' == t)
  {
    assert (steps + [step])[..|steps|] == steps;
  }

  /**
   A replayed stretch that is not empty is billed again, and after a flush under a key that no earlier record has.
   */
  lemma ReplayedStretchBillsTwice()
    ensures var yes := Answer(None, true);
            var once := [On("u", 0, yes), Tick(5, yes), Off(10, yes)];
            var replay := [On("u", 0, yes), Off(10, yes)];
            && Total(LaneRun(5, once).out) == 10
            && Total(LaneRun(5, once + replay).out) == 20
            && Spans(LaneRun(5, once + replay).out) == [(0, 5), (5, 10), (0, 10)]
  {
    var yes := Answer(None, true);
    var once := [On("u", 0, yes), Tick(5, yes), Off(10, yes)];
    BilledOnce(yes, once);
    BilledAgain(yes, once, [Unattributed(0, 5), Unattributed(5, 10)]);
    TotalThree(Unattributed(0, 5), Unattributed(5, 10), Unattributed(0, 10));
  }

  lemma TotalThree(a: Record, b: Record, c: Record)
    ensures Total([a, b]) == Duration(a) + Duration(b) && Total([a, b] + [c]) == Duration(a) + Duration(b) + Duration(c)
    ensures Spans([a, b] + [c]) == [(a.start, a.end), (b.start, b.end), (c.start, c.end)]
  {
    TotalSplit([a], [b]);
    TotalSplit([a, b], [c]);
    assert [a] + [b] == [a, b];
    TotalOne(a);
    TotalOne(b);
    TotalOne(c);
  }

  function Unattributed(start: int, end: int): Record {
    Record("u", start, end, "-", "-", 0, 0)
  }

  lemma BilledOnce(yes: Answer, once: seq<LaneStep>)
    requires yes == Answer(None, true) && once == [On("u", 0, yes), Tick(5, yes), Off(10, yes)]
    ensures LaneRun(5, once) == Lane(None, [Unattributed(0, 5), Unattributed(5, 10)])
  {
    var running, flushed := Window("u", 0, 0, None, 0), Window("u", 0, 5, None, 1);
    ThreeSteps(5, once[0], once[1], once[2]);
    assert LaneNext(5, EMPTY_LANE, once[0]) == Lane(Some(running), []);
    assert LaneNext(5, Lane(Some(running), []), once[1]) == Lane(Some(flushed), [Unattributed(0, 5)]);
  }

  lemma BilledAgain(yes: Answer, steps: seq<LaneStep>, out: seq<Record>)
    requires yes == Answer(None, true) && LaneRun(5, steps) == Lane(None, out)
    ensures LaneRun(5, steps + [On("u", 0, yes), Off(10, yes)]) == Lane(None, out + [Unattributed(0, 10)])
  {
    var on, off := On("u", 0, yes), Off(10, yes);
    assert steps + [on] + [off] == steps + [on, off];
    LaneRunSnoc(5, steps, on);
    LaneRunSnoc(5, steps + [on], off);
  }

  lemma TotalOne(r: Record)
    ensures Total([r]) == Duration(r)
  {
    assert [r][..0] == [];
  }

  // ----- Crashes -----

  /** Windows live in memory; what was written stays written. */
  function Crashed(l: Lane): Lane {
    l.(open := None)
  }

  ghost predicate OnlyTicks(steps: seq<LaneStep>, latest: int) {
    forall i :: 0 <= i < |steps| ==> steps[i].Tick? && steps[i].ans.written && steps[i].ts <= latest
  }

  lemma EmitAddsToTotal(w: Window, at: int, ans: Answer, out: seq<Record>)
    ensures var e := Emit(w, at, ans);
            Total(Appended(out, e.record)) == Total(out) + e.window.reportedUntil - w.reportedUntil
  {
  }

  lemma {:induction false} NothingIsBilledWithoutOpen(threshold: int, l: Lane, steps: seq<LaneStep>)
    requires l.open.None? && forall i :: 0 <= i < |steps| ==> !steps[i].On?
    ensures LaneFrom(threshold, l, steps) == l
  {
    if steps != [] {
      NothingIsBilledWithoutOpen(threshold, l, steps[..|steps| - 1]);
    }
  }

  /**
   What a crash loses. The running event was read before the crash and is not read again, so nothing opens the
   window any more: all the time from the last written record to the end of the stretch is lost, however long that is
   and however many ticks follow. The documentation bounds the loss by one flush interval.
   */
  lemma CrashLosesTheRest(threshold: int, l: Lane, ticks: seq<LaneStep>, off: LaneStep)
    requires l.open.Some? && off.Off? && off.ans.written
    requires l.open.value.reportedUntil <= off.ts && OnlyTicks(ticks, off.ts)
    ensures var on, crashed := LaneFrom(threshold, l, ticks + [off]), LaneFrom(threshold, Crashed(l), ticks + [off]);
            && crashed.out == l.out
            && Total(on.out) - Total(crashed.out) == off.ts - l.open.value.reportedUntil
  {
    var steps := ticks + [off];
    assert steps[..|steps| - 1] == ticks;
    HeadBills(threshold, l, ticks);
    assert NoneLater(ticks, off.ts);
    var mid := LaneFrom(threshold, l, ticks);
    EmitAddsToTotal(mid.open.value, off.ts, off.ans, mid.out);
    NothingIsBilledWithoutOpen(threshold, Crashed(l), steps);
  }

  /** The running time of the stretches, less the start of the one that is running. */
  function Value(t: Timeline): int {
    StretchTotal(t.stretches) - if t.since.Some? then t.since.value else 0
  }

  function TimelineNext(t: Timeline, e: (bool, int)): Timeline {
    if e.0 then (if t.since.Some? then t else t.(since := Some(e.1)))
    else if t.since.None? then t
    else Timeline(None, t.stretches + [(t.since.value, e.1)])
  }

  lemma EventsSnoc(es: seq<(bool, int)>, e: (bool, int))
    ensures TimelineOfEvents(es + [e]) == TimelineNext(TimelineOfEvents(es), e)
  {
    assert (es + [e])[..|es|] == es;
  }

  /** Timelines that agree on whether the instance runs move alike. */
  lemma ValuesMoveAlike(t: Timeline, u: Timeline, e: (bool, int))
    requires t.since.Some? == u.since.Some?
    ensures var t', u' := TimelineNext(t, e), TimelineNext(u, e);
            t'.since.Some? == u'.since.Some? && Value(t') - Value(t) == Value(u') - Value(u)
  {
    StretchSnoc(t, e.1);
    StretchSnoc(u, e.1);
  }

  lemma StretchSnoc(t: Timeline, end: int)
    ensures t.since.Some? ==> StretchTotal(t.stretches + [(t.since.value, end)])
                              == StretchTotal(t.stretches) + end - t.since.value
  {
    if t.since.Some? {
      var all := t.stretches + [(t.since.value, end)];
      assert all[..|t.stretches|] == t.stretches;
    }
  }

  /** What is cut off when the events are read in two runs, the second of which does not know of a running instance. */
  function CutOff(before: Timeline, later: seq<(bool, int)>): int {
    if before.since.Some? && later != [] then later[0].1 - before.since.value else 0
  }

  lemma {:induction false} TwoTimelines(a: seq<(bool, int)>, b: seq<(bool, int)>)
    requires TimelineOfEvents(a).since.None? || b != []
    ensures var t, u, whole := TimelineOfEvents(a), TimelineOfEvents(b), TimelineOfEvents(a + b);
            && whole.since.Some? == u.since.Some?
            && Value(whole) == StretchTotal(t.stretches) + CutOff(t, b) + Value(u)
  {
    var t := TimelineOfEvents(a);
    if b == [] {
      assert a + b == a;
    } else {
      var pre, e := b[..|b| - 1], b[|b| - 1];
      assert a + b == a + pre + [e] && b == pre + [e];
      EventsSnoc(a + pre, e);
      EventsSnoc(pre, e);
      if t.since.None? || pre != [] {
        TwoTimelines(a, pre);
        ValuesMoveAlike(TimelineOfEvents(a + pre), TimelineOfEvents(pre), e);
      } else {
        assert a + pre == a && TimelineOfEvents(pre) == Timeline(None, []);
        StretchSnoc(t, e.1);
      }
    }
  }

  /** What a clean run has billed: every finished stretch, and the running one up to the watermark. */
  lemma CleanRunBills(threshold: int, a: seq<LaneStep>)
    requires AllWritten(a) && WellTimed(a)
    ensures var l, t := LaneRun(threshold, a), TimelineOfEvents(EventsOf(a));
            && t.since == (if l.open.Some? then Some(l.open.value.runningSince) else None)
            && Total(l.out) == StretchTotal(t.stretches) + OpenBilled(l)
  {
    BillingRefinesTimeline(threshold, a);
    WellTimedNeverOverbills(threshold, a);
    TimelineIgnoresTicks(a);
    RunConserves(threshold, a);
    StaysTotalIsStretchTotal(Stays(threshold, a));
  }

  /** The time from the watermark of the window that a restart loses to the first event after it. */
  function LostAtRestart(l: Lane, later: seq<(bool, int)>): int {
    if l.open.Some? && later != [] then later[0].1 - l.open.value.reportedUntil else 0
  }

  /**
   Two clean runs with a restart in between, which forgets an open window. Together they bill an instance that is
   stopped in the end exactly the time that all events say it ran, less the time from the watermark of the forgotten
   window to the first event after the restart, whichever event that is. Events that the second run reads again count
   as often as they were read.
   */
  lemma RestartedRunsBill(threshold: int, a: seq<LaneStep>, threshold': int, b: seq<LaneStep>)
    requires AllWritten(a) && WellTimed(a) && AllWritten(b) && WellTimed(b)
    requires TimelineOfEvents(EventsOf(a) + EventsOf(b)).since.None?
    ensures Total(LaneRun(threshold, a).out) + Total(LaneRun(threshold', b).out)
            == StretchTotal(TimelineOfEvents(EventsOf(a) + EventsOf(b)).stretches)
               - LostAtRestart(LaneRun(threshold, a), EventsOf(b))
  {
    CleanRunBills(threshold, a);
    CleanRunBills(threshold', b);
    assert EventsOf(b) == [] ==> EventsOf(a) + EventsOf(b) == EventsOf(a);
    TwoTimelines(EventsOf(a), EventsOf(b));
  }
}
