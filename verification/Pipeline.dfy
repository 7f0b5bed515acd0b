/**
 The projector from end to end: from the bytes of the event files, over the tailer, the processor and the writer, to
 the records in the output files.
 */
module Pipeline {
  import opened Options
  import opened Framing
  import Tailer
  import Rotation = TailerRotation
  import opened Billing
  import opened BillingLaws
  import Runs = ProcessorRuns
  import Out = OutputFiles

  // ----- From lines to events -----

  /** The events of the lines that decode, in order. */
  function Decoded(lines: seq<Line>, decode: Line -> Option<Runs.RawEvent>): seq<Runs.RawEvent> {
    if lines == [] then []
    else
      var pre, ev := Decoded(lines[..|lines| - 1], decode), decode(lines[|lines| - 1]);
      if ev.Some? then pre + [ev.value] else pre
  }

  /** The events a processor run handled, in order. */
  function EventsIn(steps: seq<Runs.Step>): seq<Runs.RawEvent> {
    if steps == [] then []
    else
      var pre := EventsIn(steps[..|steps| - 1]);
      match steps[|steps| - 1]
      case Event(ev, _, _) => pre + [ev]
      case Flush(_, _, _) => pre
  }

  predicate Concerns(ev: Runs.RawEvent, uuid: string) {
    !Runs.Dropped(ev) && ev.uuid == uuid
  }

  /** When the instance started and stopped running, by the events' own times. */
  function Transitions(evs: seq<Runs.RawEvent>, uuid: string): seq<(bool, int)> {
    if evs == [] then []
    else
      var pre, ev := Transitions(evs[..|evs| - 1], uuid), evs[|evs| - 1];
      if Concerns(ev, uuid) && ev.ts.Some? then pre + [(ev.newState == Runs.ON_STATE, ev.ts.value)] else pre
  }

  /** Every event of the instance carries a time. */
  ghost predicate Stamped(evs: seq<Runs.RawEvent>, uuid: string) {
    forall i :: 0 <= i < |evs| && Concerns(evs[i], uuid) ==> evs[i].ts.Some?
  }

  lemma StampedPrefix(evs: seq<Runs.RawEvent>, ev: Runs.RawEvent, uuid: string)
    requires Stamped(evs + [ev], uuid)
    ensures Stamped(evs, uuid) && (Concerns(ev, uuid) ==> ev.ts.Some?)
  {
    var all := evs + [ev];
    assert all[|evs|] == ev;
    forall i | 0 <= i < |evs| && Concerns(evs[i], uuid) ensures evs[i].ts.Some? {
      assert all[i] == evs[i];
    }
  }

  lemma TransitionsSnoc(evs: seq<Runs.RawEvent>, ev: Runs.RawEvent, uuid: string)
    ensures Transitions(evs + [ev], uuid) == Transitions(evs, uuid)
            + if Concerns(ev, uuid) && ev.ts.Some? then [(ev.newState == Runs.ON_STATE, ev.ts.value)] else []
  {
    assert (evs + [ev])[..|evs|] == evs;
  }

  lemma EventsOfSnoc(lane: seq<LaneStep>, step: LaneStep)
    ensures EventsOf(lane + [step])
            == EventsOf(lane) + if step.Tick? then [] else [(step.On?, step.ts)]
  {
    assert (lane + [step])[..|lane|] == lane;
  }

  /** What the processor makes of the events of an instance is what they say. */
  lemma {:induction false} ProcessorSeesTransitions(steps: seq<Runs.Step>, uuid: string)
    requires Stamped(EventsIn(steps), uuid)
    ensures EventsOf(Runs.Restrict(steps, uuid)) == Transitions(EventsIn(steps), uuid)
  {
    if steps != [] {
      var pre, step := steps[..|steps| - 1], steps[|steps| - 1];
      var lane := Runs.Restrict(pre, uuid);
      match step {
        case Event(ev, now, ans) =>
          StampedPrefix(EventsIn(pre), ev, uuid);
          ProcessorSeesTransitions(pre, uuid);
          TransitionsSnoc(EventsIn(pre), ev, uuid);
          if Concerns(ev, uuid) {
            var ts := Runs.EventTime(ev, now);
            EventsOfSnoc(lane, if ev.newState == Runs.ON_STATE then On(uuid, ts, ans) else Off(ts, ans));
          }
        case Flush(now, order, answers) =>
          ProcessorSeesTransitions(pre, uuid);
          EventsOfSnoc(lane, Tick(now, Runs.AnswerFor(answers, uuid)));
      }
    }
  }

  // ----- From records to files -----

  /** What the entries bill the instance. */
  function Billed(es: seq<Out.Entry>, uuid: string): int {
    if es == [] then 0
    else
      var rec := es[|es| - 1].rec;
      Billed(es[..|es| - 1], uuid) + if rec.uuid == uuid then Duration(rec) else 0
  }

  lemma {:induction false} BilledConcat(a: seq<Out.Entry>, b: seq<Out.Entry>, uuid: string)
    ensures Billed(a + b, uuid) == Billed(a, uuid) + Billed(b, uuid)
  {
    if b == [] {
      assert a + b == a;
    } else {
      BilledConcat(a, b[..|b| - 1], uuid);
      assert (a + b)[..|a + b| - 1] == a + b[..|b| - 1];
    }
  }

  function RecordsOf(es: seq<Out.Entry>): seq<Record> {
    seq(|es|, i requires 0 <= i < |es| => es[i].rec)
  }

  lemma {:induction false} BilledIsTotal(es: seq<Out.Entry>, uuid: string)
    ensures Billed(es, uuid) == Total(Runs.Mine(RecordsOf(es), uuid))
  {
    if es != [] {
      var pre, rs := es[..|es| - 1], RecordsOf(es);
      BilledIsTotal(pre, uuid);
      assert rs[..|rs| - 1] == RecordsOf(pre);
      var mine := Runs.Mine(rs, uuid);
      if rs[|rs| - 1].uuid == uuid {
        assert mine[..|mine| - 1] == Runs.Mine(RecordsOf(pre), uuid);
      }
    }
  }

  /** What one rotated file bills. */
  function FileBills(rotated: map<int, seq<Out.Entry>>, uuid: string, second: int): int {
    if second in rotated then Billed(rotated[second], uuid) else 0
  }

  function FilesBill(rotated: map<int, seq<Out.Entry>>, uuid: string, listing: seq<int>): int {
    if listing == [] then 0
    else FilesBill(rotated, uuid, listing[..|listing| - 1]) + FileBills(rotated, uuid, listing[|listing| - 1])
  }

  lemma {:induction false} ListingConcat(rotated: map<int, seq<Out.Entry>>, uuid: string, a: seq<int>, b: seq<int>)
    ensures FilesBill(rotated, uuid, a + b) == FilesBill(rotated, uuid, a) + FilesBill(rotated, uuid, b)
  {
    if b == [] {
      assert a + b == a;
    } else {
      ListingConcat(rotated, uuid, a, b[..|b| - 1]);
      assert (a + b)[..|a + b| - 1] == a + b[..|b| - 1];
    }
  }

  ghost predicate Distinct(listing: seq<int>) {
    forall i, j :: 0 <= i < j < |listing| ==> listing[i] != listing[j]
  }

  /** The listing names exactly the files of these rotations, in any order. */
  ghost predicate Lists(listing: seq<int>, cuts: seq<Out.Cut>) {
    && Distinct(listing)
    && (forall i :: 0 <= i < |cuts| ==> cuts[i].second in listing)
    && forall i :: 0 <= i < |listing| ==> Named(cuts, listing[i])
  }

  ghost predicate Named(cuts: seq<Out.Cut>, second: int) {
    exists j :: 0 <= j < |cuts| && cuts[j].second == second
  }

  lemma DistinctPrefix(pre: seq<Out.Cut>, last: Out.Cut)
    requires Out.DistinctSeconds(pre + [last])
    ensures Out.DistinctSeconds(pre) && forall i :: 0 <= i < |pre| ==> pre[i].second != last.second
  {
    var cuts := pre + [last];
    assert cuts[|pre|] == last && forall i :: 0 <= i < |pre| ==> cuts[i] == pre[i];
  }

  /** Taking one file off the listing. */
  lemma Unlist(listing: seq<int>, less: seq<int>, pre: seq<Out.Cut>, last: Out.Cut, p: nat)
    requires p < |listing| && listing[p] == last.second && less == listing[..p] + listing[p + 1..]
    requires Lists(listing, pre + [last]) && Out.DistinctSeconds(pre + [last])
    ensures Lists(less, pre)
  {
    var cuts := pre + [last];
    DistinctPrefix(pre, last);
    forall i | 0 <= i < |pre| ensures pre[i].second in less {
      assert cuts[i] == pre[i];
      var k :| 0 <= k < |listing| && listing[k] == pre[i].second;
      assert less[if k < p then k else k - 1] == pre[i].second;
    }
    forall i | 0 <= i < |less| ensures Named(pre, less[i]) {
      var k := if i < p then i else i + 1;
      assert listing[k] == less[i] && Named(cuts, listing[k]);
      var j :| 0 <= j < |cuts| && cuts[j].second == listing[k];
      assert j != |pre| && cuts[j] == pre[j];
    }
  }

  /** However the directory lists them, the rotated files bill what was rotated. */
  lemma {:induction false} FilesBillTheCuts(rotated: map<int, seq<Out.Entry>>, uuid: string, listing: seq<int>,
                                            cuts: seq<Out.Cut>)
    requires Lists(listing, cuts) && Out.DistinctSeconds(cuts)
    requires forall i :: 0 <= i < |cuts| ==> cuts[i].second in rotated && rotated[cuts[i].second] == cuts[i].entries
    ensures FilesBill(rotated, uuid, listing) == Billed(Out.Flatten(cuts), uuid)
    decreases |cuts|
  {
    if cuts != [] {
      var pre, last := cuts[..|cuts| - 1], cuts[|cuts| - 1];
      assert cuts == pre + [last];
      var p :| 0 <= p < |listing| && listing[p] == last.second;
      DistinctPrefix(pre, last);
      Unlist(listing, listing[..p] + listing[p + 1..], pre, last, p);
      FilesBillTheCuts(rotated, uuid, listing[..p] + listing[p + 1..], pre);
      BilledConcat(Out.Flatten(pre), last.entries, uuid);
      TakeOff(rotated, uuid, listing, p);
    }
  }

  lemma TakeOff(rotated: map<int, seq<Out.Entry>>, uuid: string, listing: seq<int>, p: nat)
    requires p < |listing|
    ensures FilesBill(rotated, uuid, listing)
            == FilesBill(rotated, uuid, listing[..p] + listing[p + 1..]) + FileBills(rotated, uuid, listing[p])
  {
    var a, b, s := listing[..p], listing[p + 1..], [listing[p]];
    assert listing == a + s + b;
    ListingConcat(rotated, uuid, a + s, b);
    ListingConcat(rotated, uuid, a, s);
    ListingConcat(rotated, uuid, a, b);
    assert s[..0] == [];
  }

  /** No two rotations share a second and no cleanup found one old enough to remove. */
  ghost predicate AllKept(lim: Out.Limits, steps: seq<Out.Step>) {
    var cuts := Out.Cuts(lim, steps);
    Out.DistinctSeconds(cuts) && forall i :: 0 <= i < |cuts| ==> !Out.Swept(lim, steps, cuts[i])
  }

  ghost predicate IsListing(listing: seq<int>, rotated: map<int, seq<Out.Entry>>) {
    Distinct(listing) && forall s :: s in listing <==> s in rotated
  }

  /** What all files on disk bill the instance, the rotated ones as listed. */
  function AllBilled(f: Out.Files, listing: seq<int>, uuid: string): int {
    FilesBill(f.rotated, uuid, listing) + Billed(Out.LiveEntries(f), uuid)
  }

  /** The files on disk bill everything that was ever appended. */
  lemma FilesBillTheLog(lim: Out.Limits, steps: seq<Out.Step>, listing: seq<int>, uuid: string)
    requires AllKept(lim, steps) && IsListing(listing, Out.Run(lim, steps).rotated)
    ensures AllBilled(Out.Run(lim, steps), listing, uuid) == Billed(Out.Log(steps), uuid)
  {
    var f, cuts := Out.Run(lim, steps), Out.Cuts(lim, steps);
    Out.RotationPartitionsTheLog(lim, steps);
    BilledConcat(Out.Flatten(cuts), Out.LiveEntries(f), uuid);
    forall i | 0 <= i < |cuts|
      ensures cuts[i].second in f.rotated && f.rotated[cuts[i].second] == cuts[i].entries
    {
      Out.RotatedFileHoldsItsCut(lim, steps, cuts[i].second);
      assert Out.Latest(cuts, cuts[i].second) == i;
    }
    forall k | 0 <= k < |listing| ensures Named(cuts, listing[k]) {
      assert listing[k] in listing;
      Out.RotatedFileHoldsItsCut(lim, steps, listing[k]);
      assert cuts[Out.Latest(cuts, listing[k])].second == listing[k];
    }
    FilesBillTheCuts(f.rotated, uuid, listing, cuts);
  }

  // ----- End to end -----

  /** What the files bill a stopped instance is the time its events say it ran. */
  lemma FilesBillTheTransitions(interval: int, steps: seq<Runs.Step>, lim: Out.Limits, writes: seq<Out.Step>,
                                listing: seq<int>, uuid: string, evs: seq<Runs.RawEvent>)
    requires Runs.ValidRun(interval, steps) && Runs.Clean(steps, uuid) && Stamped(evs, uuid) && evs == EventsIn(steps)
    requires RecordsOf(Out.Log(writes)) == Runs.Run(interval, steps).out
    requires AllKept(lim, writes) && IsListing(listing, Out.Run(lim, writes).rotated)
    requires TimelineOfEvents(Transitions(evs, uuid)).since.None?
    ensures AllBilled(Out.Run(lim, writes), listing, uuid)
            == StretchTotal(TimelineOfEvents(Transitions(evs, uuid)).stretches)
  {
    FilesBillTheLog(lim, writes, listing, uuid);
    BilledIsTotal(Out.Log(writes), uuid);
    ProcessorSeesTransitions(steps, uuid);
    var lane := Runs.Restrict(steps, uuid);
    TimelineIgnoresTicks(lane);
    StoppedRunBills(FlushSkipThreshold(interval), lane);
    Runs.UuidsAreIndependent(interval, steps, uuid);
  }

  /** The time that these lines say the instance ran. */
  function TimeRun(lines: seq<Line>, decode: Line -> Option<Runs.RawEvent>, uuid: string): int {
    StretchTotal(TimelineOfEvents(Transitions(Decoded(lines, decode), uuid)).stretches)
  }

  /** A run of the tailer from the first byte that has handed on `lines`. */
  ghost predicate Reads(ts: seq<Tailer.Progress>, polls: seq<Tailer.Poll>, lines: seq<Line>, blank: Line -> bool) {
    && Rotation.Tails(ts, polls, blank) && Rotation.AppendOnly(ts, polls)
    && ts[0] == Tailer.Start(0) && lines == ts[|polls|].handed
  }

  /** The instance is stopped after these lines. */
  ghost predicate Stopped(lines: seq<Line>, decode: Line -> Option<Runs.RawEvent>, uuid: string) {
    TimelineOfEvents(Transitions(Decoded(lines, decode), uuid)).since.None?
  }

  /** A run of the processor over these lines, clean for the instance. */
  ghost predicate Processes(interval: int, steps: seq<Runs.Step>, lines: seq<Line>,
                            decode: Line -> Option<Runs.RawEvent>, uuid: string) {
    && EventsIn(steps) == Decoded(lines, decode) && Stamped(EventsIn(steps), uuid)
    && Runs.ValidRun(interval, steps) && Runs.Clean(steps, uuid)
  }

  /** A run of the writer over the records of the processor, with all its files still there. */
  ghost predicate Writes(lim: Out.Limits, writes: seq<Out.Step>, listing: seq<int>, records: seq<Record>) {
    && RecordsOf(Out.Log(writes)) == records && AllKept(lim, writes)
    && IsListing(listing, Out.Run(lim, writes).rotated)
  }

  lemma ReadFromStart(ts: seq<Tailer.Progress>, polls: seq<Tailer.Poll>, lines: seq<Line>, blank: Line -> bool)
    requires Reads(ts, polls, lines, blank)
    ensures var passes := Rotation.PassesUpTo(ts, polls, |polls|);
            && Rotation.PassesOf(ts, polls, |polls|, passes, blank) && lines == Rotation.HandedBy(passes, blank)
            && (lines == Rotation.WholeBy(passes, blank) <==> Rotation.LostLines(passes, blank) == [])
  {
    Rotation.RotatedRunsFrame(ts, polls, |polls|, blank);
    Rotation.PassesLose(Rotation.PassesUpTo(ts, polls, |polls|), blank);
  }

  /**
   End to end. However the event files are cut into polls and reads and rotated, whenever the processor flushes and in
   whatever order, however the output is rotated and listed, and whatever other instances do: the records of a stopped
   instance in the output files add up to exactly the time that the lines read from the event files say it ran. These
   are all the lines of the files, as far as each was found on disk, if and only if no rotation left a line unread.
   This takes clean timing and writes, times in its events, and output files that were neither overwritten nor swept.
   */
  lemma ProjectorConserves(ts: seq<Tailer.Progress>, polls: seq<Tailer.Poll>, lines: seq<Line>, blank: Line -> bool,
                           decode: Line -> Option<Runs.RawEvent>, interval: int, steps: seq<Runs.Step>,
                           lim: Out.Limits, writes: seq<Out.Step>, listing: seq<int>, uuid: string)
    requires Reads(ts, polls, lines, blank) && Processes(interval, steps, lines, decode, uuid)
    requires Stopped(lines, decode, uuid) && Writes(lim, writes, listing, Runs.Run(interval, steps).out)
    ensures AllBilled(Out.Run(lim, writes), listing, uuid) == TimeRun(lines, decode, uuid)
    ensures var passes := Rotation.PassesUpTo(ts, polls, |polls|);
            && Rotation.PassesOf(ts, polls, |polls|, passes, blank) && lines == Rotation.HandedBy(passes, blank)
            && (lines == Rotation.WholeBy(passes, blank) <==> Rotation.LostLines(passes, blank) == [])
  {
    ReadFromStart(ts, polls, lines, blank);
    FilesBillTheTransitions(interval, steps, lim, writes, listing, uuid, EventsIn(steps));
  }

  // ----- Over a restart -----

  lemma {:induction false} DecodedConcat(a: seq<Line>, b: seq<Line>, decode: Line -> Option<Runs.RawEvent>)
    ensures Decoded(a + b, decode) == Decoded(a, decode) + Decoded(b, decode)
  {
    if b == [] {
      assert a + b == a;
    } else {
      DecodedConcat(a, b[..|b| - 1], decode);
      assert (a + b)[..|a + b| - 1] == a + b[..|b| - 1];
    }
  }

  lemma {:induction false} TransitionsConcat(a: seq<Runs.RawEvent>, b: seq<Runs.RawEvent>, uuid: string)
    ensures Transitions(a + b, uuid) == Transitions(a, uuid) + Transitions(b, uuid)
  {
    if b == [] {
      assert a + b == a;
    } else {
      TransitionsConcat(a, b[..|b| - 1], uuid);
      assert (a + b)[..|a + b| - 1] == a + b[..|b| - 1];
    }
  }

  /** The transitions of the instance that these lines announce. */
  function Announced(lines: seq<Line>, decode: Line -> Option<Runs.RawEvent>, uuid: string): seq<(bool, int)> {
    Transitions(Decoded(lines, decode), uuid)
  }

  lemma AnnouncedConcat(a: seq<Line>, b: seq<Line>, decode: Line -> Option<Runs.RawEvent>, uuid: string)
    ensures Announced(a + b, decode, uuid) == Announced(a, decode, uuid) + Announced(b, decode, uuid)
  {
    DecodedConcat(a, b, decode);
    TransitionsConcat(Decoded(a, decode), Decoded(b, decode), uuid);
  }

  lemma {:induction false} MineConcat(a: seq<Record>, b: seq<Record>, uuid: string)
    ensures Runs.Mine(a + b, uuid) == Runs.Mine(a, uuid) + Runs.Mine(b, uuid)
  {
    if b == [] {
      assert a + b == a;
    } else {
      MineConcat(a, b[..|b| - 1], uuid);
      assert (a + b)[..|a + b| - 1] == a + b[..|b| - 1];
    }
  }

  /** What a run of the processor makes of an instance, as its lane. */
  lemma ProcessedLane(interval: int, steps: seq<Runs.Step>, lines: seq<Line>, decode: Line -> Option<Runs.RawEvent>,
                      uuid: string)
    requires Processes(interval, steps, lines, decode, uuid)
    ensures EventsOf(Runs.Restrict(steps, uuid)) == Announced(lines, decode, uuid)
    ensures Runs.LaneOf(Runs.Run(interval, steps), uuid)
            == LaneRun(FlushSkipThreshold(interval), Runs.Restrict(steps, uuid))
  {
    ProcessorSeesTransitions(steps, uuid);
    Runs.UuidsAreIndependent(interval, steps, uuid);
  }

  /** Two runs of the processor, the second of which starts with nothing in memory. */
  lemma ProcessorsBill(interval: int, first: seq<Runs.Step>, second: seq<Runs.Step>, lines1: seq<Line>,
                       lines2: seq<Line>, decode: Line -> Option<Runs.RawEvent>, uuid: string)
    requires Processes(interval, first, lines1, decode, uuid) && Processes(interval, second, lines2, decode, uuid)
    requires Stopped(lines1 + lines2, decode, uuid)
    ensures Total(Runs.Mine(Runs.Run(interval, first).out + Runs.Run(interval, second).out, uuid))
            == TimeRun(lines1 + lines2, decode, uuid)
               - LostAtRestart(Runs.LaneOf(Runs.Run(interval, first), uuid), Announced(lines2, decode, uuid))
  {
    var out1, out2 := Runs.Run(interval, first).out, Runs.Run(interval, second).out;
    ProcessedLane(interval, first, lines1, decode, uuid);
    ProcessedLane(interval, second, lines2, decode, uuid);
    AnnouncedConcat(lines1, lines2, decode, uuid);
    var threshold := FlushSkipThreshold(interval);
    RestartedRunsBill(threshold, Runs.Restrict(first, uuid), threshold, Runs.Restrict(second, uuid));
    MineConcat(out1, out2, uuid);
    TotalSplit(Runs.Mine(out1, uuid), Runs.Mine(out2, uuid));
  }

  /**
   End to end over a restart, by an exit or by a crash at any moment. The output files bill an instance that is stopped
   in the end the time that the lines say which the two runs handed on, less what the restart loses: the time from the
   watermark of the window that was open to the first event of the instance after it. Whenever the offset was saved
   last, these lines are all lines of the event file if and only if the offset is a clean cut; otherwise what was read
   beyond the saved offset is read again, and counts twice.
   */
  lemma RestartedProjectorBills(first: seq<Tailer.Poll>, exit: Option<bool>, second: seq<Tailer.Poll>, id: nat,
                                blank: Line -> bool, decode: Line -> Option<Runs.RawEvent>, interval: int,
                                steps1: seq<Runs.Step>, steps2: seq<Runs.Step>, lim: Out.Limits,
                                writes: seq<Out.Step>, listing: seq<int>, uuid: string)
    requires Tailer.Restarts(0, first, second, id)
    requires var (lines1, lines2) := RestartedLines(first, exit, second, id, blank);
             && Processes(interval, steps1, lines1, decode, uuid) && Processes(interval, steps2, lines2, decode, uuid)
             && Stopped(lines1 + lines2, decode, uuid)
    requires Writes(lim, writes, listing, Runs.Run(interval, steps1).out + Runs.Run(interval, steps2).out)
    ensures var (lines1, lines2) := RestartedLines(first, exit, second, id, blank);
            AllBilled(Out.Run(lim, writes), listing, uuid)
            == TimeRun(lines1 + lines2, decode, uuid)
               - LostAtRestart(Runs.LaneOf(Runs.Run(interval, steps1), uuid), Announced(lines2, decode, uuid))
    ensures RestartIsAccounted(first, exit, second, id, blank)
  {
    var (lines1, lines2) := RestartedLines(first, exit, second, id, blank);
    FilesBillTheLog(lim, writes, listing, uuid);
    BilledIsTotal(Out.Log(writes), uuid);
    ProcessorsBill(interval, steps1, steps2, lines1, lines2, decode, uuid);
    Tailer.RestartedRunsDeliver(0, first, exit, second, id, blank);
  }

  /** The lines that the two runs of the tailer hand on. */
  function RestartedLines(first: seq<Tailer.Poll>, exit: Option<bool>, second: seq<Tailer.Poll>, id: nat,
                          blank: Line -> bool): (seq<Line>, seq<Line>)
    requires forall i :: 0 <= i < |first| ==> first[i].disk.path == Some(id) && id in first[i].disk.files
    requires forall i :: 0 <= i < |second| ==> second[i].disk.path == Some(id) && id in second[i].disk.files
  {
    var t1 := Tailer.Stopped(Tailer.Run(Tailer.Start(0), first, id, blank), exit);
    (t1.handed, Tailer.Run(Tailer.Start(t1.saved), second, id, blank).handed)
  }

  /** How these lines relate to those of the whole file. */
  ghost predicate RestartIsAccounted(first: seq<Tailer.Poll>, exit: Option<bool>, second: seq<Tailer.Poll>, id: nat,
                                     blank: Line -> bool)
    requires Tailer.Restarts(0, first, second, id)
  {
    var t1 := Tailer.Stopped(Tailer.Run(Tailer.Start(0), first, id, blank), exit);
    var t2 := Tailer.Run(Tailer.Start(t1.saved), second, id, blank);
    var data := second[|second| - 1].disk.files[id];
    && 0 <= t1.saved <= t1.offset <= |data| && t1.saved <= t2.offset <= |data|
    && Tailer.Delivered(data, 0, t1.saved, t1.offset, t2.offset, t1.handed, t2.handed, blank)
  }
}
