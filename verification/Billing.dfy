/**
 Usage billing for one instance uuid.

 A processor step that concerns one uuid is a lane step. Times are integer nanoseconds. Event times and
 wall-clock times share one integer scale but are otherwise unrelated.
 */
module Billing {
  import opened Options

  /** Identity and resources of the Pod that runs an instance. */
  datatype Info = Info(project: string, instance: string, vcpuMilli: int, memoryBytes: int)

  /** Bookkeeping of one running stretch. `reportedUntil` is the watermark of the last emitted record. */
  datatype Window = Window(uuid: string, runningSince: int, reportedUntil: int, resolved: Option<Info>, records: nat)

  /** One billing record. Its dedup key is (uuid, start, end). */
  datatype Record = Record(uuid: string, start: int, end: int,
                           project: string, instance: string, vcpuMilli: int, memoryBytes: int)

  /** What the resolver and the record writer answer if they are asked during one step. */
  datatype Answer = Answer(info: Option<Info>, written: bool)

  /** What one call of `emitWindow` does: the window after it, the record written, and the counters it raises. */
  datatype Emission = Emission(window: Window, record: Option<Record>, overbilled: bool, failed: bool)

  /** The windows and records of one uuid. */
  datatype Lane = Lane(open: Option<Window>, out: seq<Record>)

  /** `On` and `Off` carry event time, `Tick` carries wall-clock time. */
  datatype LaneStep =
    | On(uuid: string, ts: int, ans: Answer)
    | Off(ts: int, ans: Answer)
    | Tick(ts: int, ans: Answer)

  const SECOND: int := 1_000_000_000

  /** How much time must be unreported before a tick flushes a window. */
  function FlushSkipThreshold(interval: int): (t: int)
    ensures 0 < interval ==> 0 < t <= interval && 9 * interval <= 10 * t
    // the tolerance is a whole tenth of the interval, but never more than a second
    ensures 0 <= interval < 10_000_000_000 ==> 10 * (interval - t) <= interval < 10 * (interval - t) + 10
    ensures 10_000_000_000 <= interval ==> interval - t == 1_000_000_000
  {
    var tolerance := if SECOND > TruncatedTenth(interval) then TruncatedTenth(interval) else SECOND;
    interval - tolerance
  }

  /** Division by ten that truncates toward zero. */
  function TruncatedTenth(n: int): int {
    if n < 0 then -(-n / 10) else n / 10
  }

  /** The first attribution found is cached on the window. */
  function Resolve(w: Window, info: Option<Info>): Window {
    if w.resolved.Some? then w else w.(resolved := info)
  }

  function RecordFor(w: Window, end: int): Record {
    match w.resolved
    case None => Record(w.uuid, w.reportedUntil, end, "-", "-", 0, 0)
    case Some(i) => Record(w.uuid, w.reportedUntil, end,
                           if i.project != "" then i.project else "-", i.instance, i.vcpuMilli, i.memoryBytes)
  }

  function Max(a: int, b: int): int {
    if a < b then b else a
  }

  function Emit(w: Window, at: int, ans: Answer): Emission {
    var end := Max(at, w.reportedUntil);
    var over := at < w.reportedUntil;
    if end == w.reportedUntil then
      Emission(w, None, over, false)
    else
      var r := Resolve(w, ans.info);
      if !ans.written then
        Emission(r, None, over, true)
      else
        Emission(r.(reportedUntil := end, records := r.records + 1), Some(RecordFor(r, end)), over, false)
  }

  function Appended(out: seq<Record>, rec: Option<Record>): seq<Record> {
    if rec.Some? then out + [rec.value] else out
  }

  function NewWindow(uuid: string, at: int): Window {
    Window(uuid, at, at, None, 0)
  }

  /** Whether a tick at `now` flushes the window. */
  predicate Due(w: Window, now: int, threshold: int) {
    !(now - w.reportedUntil < threshold)
  }

  function LaneNext(threshold: int, l: Lane, step: LaneStep): Lane {
    match step
    case On(uuid, ts, ans) =>
      if l.open.Some? then l else l.(open := Some(Resolve(NewWindow(uuid, ts), ans.info)))
    case Off(ts, ans) =>
      if l.open.None? then l
      else Lane(None, Appended(l.out, Emit(l.open.value, ts, ans).record))
    case Tick(now, ans) =>
      if l.open.None? || !Due(l.open.value, now, threshold) then l
      else
        var e := Emit(l.open.value, now, ans);
        Lane(Some(e.window), Appended(l.out, e.record))
  }

  const EMPTY_LANE: Lane := Lane(None, [])

  /** The lane after all `steps`, from nothing. */
  function LaneRun(threshold: int, steps: seq<LaneStep>): Lane {
    if steps == [] then EMPTY_LANE
    else LaneNext(threshold, LaneRun(threshold, steps[..|steps| - 1]), steps[|steps| - 1])
  }

  /**
   A closed window: the stretch it billed, when it was closed, its watermark just before the close,
   and which records of the lane it wrote (`out[lo..hi]`).
   */
  datatype Stay = Stay(since: int, until: int, closedAt: int, watermark: int, written: bool, lo: nat, hi: nat)

  /** The closed windows of a run, oldest first. A window's records are the last `records` ones when it closes. */
  function Stays(threshold: int, steps: seq<LaneStep>): seq<Stay> {
    if steps == [] then []
    else
      var before := LaneRun(threshold, steps[..|steps| - 1]);
      var past := Stays(threshold, steps[..|steps| - 1]);
      var step := steps[|steps| - 1];
      if step.Off? && before.open.Some? then past + [CloseOf(before, step)] else past
  }

  function CloseOf(l: Lane, step: LaneStep): Stay
    requires step.Off? && l.open.Some?
  {
    var w := l.open.value;
    var e := Emit(w, step.ts, step.ans);
    var out := Appended(l.out, e.record);
    Stay(w.runningSince, e.window.reportedUntil, step.ts, w.reportedUntil, step.ans.written,
         if e.window.records <= |out| then |out| - e.window.records else 0, |out|)
  }

  function Duration(r: Record): int {
    r.end - r.start
  }

  function Total(rs: seq<Record>): int {
    if rs == [] then 0 else Total(rs[..|rs| - 1]) + Duration(rs[|rs| - 1])
  }

  /** The records are of positive length and cover `a` to `b` without gap or overlap, in order. */
  predicate Tiles(rs: seq<Record>, a: int, b: int) {
    if rs == [] then a == b
    else
      var last := rs[|rs| - 1];
      last.end == b && last.start < b && Tiles(rs[..|rs| - 1], a, last.start)
  }
}
