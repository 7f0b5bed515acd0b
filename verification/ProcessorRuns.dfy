/**
 The processor over all uuids: one step is one event or one flush tick, since each runs under the windows lock.
 A flush visits the open windows in an arbitrary order, which the step carries.
 */
module ProcessorRuns {
  import opened Options
  import opened Billing
  import opened BillingLaws

  /** A state-change event after decoding. `ts` is absent when the timestamp does not parse. */
  datatype RawEvent = RawEvent(kind: string, ts: Option<int>, uuid: string, newState: string)

  datatype Stats = Stats(wrongType: nat, noUuid: nat, noState: nat, windowsOpened: nat, windowsClosed: nat,
                         written: nat, writeErrors: nat, overbilled: nat)

  datatype State = State(windows: map<string, Window>, out: seq<Record>, stats: Stats)

  datatype Step =
    | Event(ev: RawEvent, now: int, ans: Answer)
    | Flush(now: int, order: seq<string>, answers: map<string, Answer>)

  const ON_STATE: string := "running"
  const EVENT_KIND: string := "vm.state_change"

  const INITIAL: State := State(map[], [], Stats(0, 0, 0, 0, 0, 0, 0, 0))

  /** The event's own time, or wall clock when it has none. */
  function EventTime(ev: RawEvent, now: int): int {
    if ev.ts.Some? then ev.ts.value else now
  }

  predicate Dropped(ev: RawEvent) {
    (ev.kind != "" && ev.kind != EVENT_KIND) || ev.uuid == "" || ev.newState == ""
  }

  function CountDrop(stats: Stats, ev: RawEvent): Stats {
    if ev.kind != "" && ev.kind != EVENT_KIND then stats.(wrongType := stats.wrongType + 1)
    else if ev.uuid == "" then stats.(noUuid := stats.noUuid + 1)
    else stats.(noState := stats.noState + 1)
  }

  function CountEmission(stats: Stats, e: Emission): Stats {
    stats.(overbilled := stats.overbilled + (if e.overbilled then 1 else 0),
           written := stats.written + (if e.record.Some? then 1 else 0),
           writeErrors := stats.writeErrors + (if e.failed then 1 else 0))
  }

  /** The state after `emitWindow` on the open window of `uuid`. */
  function Emitted(st: State, uuid: string, at: int, ans: Answer): State
    requires uuid in st.windows
  {
    var e := Emit(st.windows[uuid], at, ans);
    State(st.windows[uuid := e.window], Appended(st.out, e.record), CountEmission(st.stats, e))
  }

  function HandleEvent(st: State, ev: RawEvent, now: int, ans: Answer): State {
    var ts := EventTime(ev, now);
    if Dropped(ev) then st.(stats := CountDrop(st.stats, ev))
    else if ev.newState == ON_STATE then
      if ev.uuid in st.windows then st
      else st.(windows := st.windows[ev.uuid := Resolve(NewWindow(ev.uuid, ts), ans.info)],
               stats := st.stats.(windowsOpened := st.stats.windowsOpened + 1))
    else if ev.uuid !in st.windows then st
    else
      var st' := Emitted(st, ev.uuid, ts, ans);
      st'.(windows := st'.windows - {ev.uuid}, stats := st'.stats.(windowsClosed := st'.stats.windowsClosed + 1))
  }

  function AnswerFor(answers: map<string, Answer>, uuid: string): Answer {
    if uuid in answers then answers[uuid] else Answer(None, true)
  }

  function FlushOne(threshold: int, st: State, uuid: string, now: int, ans: Answer): State {
    if uuid in st.windows && Due(st.windows[uuid], now, threshold) then Emitted(st, uuid, now, ans) else st
  }

  /** One flush cycle over the uuids of `order`. */
  function FlushAll(threshold: int, st: State, now: int, order: seq<string>, answers: map<string, Answer>): State {
    if order == [] then st
    else
      var uuid := order[|order| - 1];
      FlushOne(threshold, FlushAll(threshold, st, now, order[..|order| - 1], answers), uuid, now,
               AnswerFor(answers, uuid))
  }

  function Next(interval: int, st: State, step: Step): State {
    match step
    case Event(ev, now, ans) => HandleEvent(st, ev, now, ans)
    case Flush(now, order, answers) => FlushAll(FlushSkipThreshold(interval), st, now, order, answers)
  }

  function Run(interval: int, steps: seq<Step>): State {
    if steps == [] then INITIAL else Next(interval, Run(interval, steps[..|steps| - 1]), steps[|steps| - 1])
  }

  /** `order` lists every open uuid once. */
  ghost predicate IsOrder(order: seq<string>, windows: map<string, Window>) {
    && (forall i, j :: 0 <= i < j < |order| ==> order[i] != order[j])
    && forall uuid :: uuid in order <==> uuid in windows
  }

  /** Every flush of the run visits exactly the windows open at that moment. */
  ghost predicate ValidRun(interval: int, steps: seq<Step>) {
    forall i :: 0 <= i < |steps| && steps[i].Flush? ==> IsOrder(steps[i].order, Run(interval, steps[..i]).windows)
  }

  // ----- Independence of uuids -----

  /** The records of one uuid, in write order. */
  function Mine(out: seq<Record>, uuid: string): seq<Record> {
    if out == [] then []
    else
      var mine := Mine(out[..|out| - 1], uuid);
      if out[|out| - 1].uuid == uuid then mine + [out[|out| - 1]] else mine
  }

  function LaneOf(st: State, uuid: string): Lane {
    Lane(if uuid in st.windows then Some(st.windows[uuid]) else None, Mine(st.out, uuid))
  }

  /** The steps of the run that concern `uuid`: its own events that are not dropped, and every flush. */
  function Restrict(steps: seq<Step>, uuid: string): seq<LaneStep> {
    if steps == [] then []
    else
      var pre := Restrict(steps[..|steps| - 1], uuid);
      match steps[|steps| - 1]
      case Event(ev, now, ans) =>
        if Dropped(ev) || ev.uuid != uuid then pre
        else if ev.newState == ON_STATE then pre + [On(uuid, EventTime(ev, now), ans)]
        else pre + [Off(EventTime(ev, now), ans)]
      case Flush(now, order, answers) => pre + [Tick(now, AnswerFor(answers, uuid))]
  }

  ghost predicate Keyed(st: State) {
    forall uuid :: uuid in st.windows ==> st.windows[uuid].uuid == uuid
  }

  /**
   Independence. In every run, whatever order each flush takes, the window and the records of a uuid are those of
   the run restricted to its own events and all the ticks.
   */
  lemma {:induction false} UuidsAreIndependent(interval: int, steps: seq<Step>, uuid: string)
    requires ValidRun(interval, steps)
    ensures Keyed(Run(interval, steps))
    ensures LaneOf(Run(interval, steps), uuid) == LaneRun(FlushSkipThreshold(interval), Restrict(steps, uuid))
  {
    if steps != [] {
      var pre, step := steps[..|steps| - 1], steps[|steps| - 1];
      assert forall i :: 0 <= i < |pre| ==> pre[..i] == steps[..i];
      UuidsAreIndependent(interval, pre, uuid);
      var st, lane, all := Run(interval, pre), Restrict(pre, uuid), Restrict(steps, uuid);
      if |all| > |lane| {
        assert all[..|all| - 1] == lane;
      }
      match step {
        case Event(ev, now, ans) => EventConcernsItsLane(interval, st, ev, now, ans, uuid);
        case Flush(now, order, answers) =>
          assert IsOrder(order, Run(interval, steps[..|steps| - 1]).windows);
          FlushConcernsEachLane(FlushSkipThreshold(interval), st, now, order, answers, uuid);
      }
    }
  }

  lemma EmittedConcernsItsLane(st: State, at: int, ans: Answer, emitting: string, uuid: string)
    requires Keyed(st) && emitting in st.windows
    ensures var st' := Emitted(st, emitting, at, ans);
            && Keyed(st')
            && (emitting != uuid ==> LaneOf(st', uuid) == LaneOf(st, uuid))
            && (emitting == uuid ==>
                  var e := Emit(st.windows[uuid], at, ans);
                  LaneOf(st', uuid) == Lane(Some(e.window), Appended(LaneOf(st, uuid).out, e.record)))
  {
  }

  lemma EventConcernsItsLane(interval: int, st: State, ev: RawEvent, now: int, ans: Answer, uuid: string)
    requires Keyed(st)
    ensures var st', ts := HandleEvent(st, ev, now, ans), EventTime(ev, now);
            && Keyed(st')
            && LaneOf(st', uuid) ==
               if Dropped(ev) || ev.uuid != uuid then LaneOf(st, uuid)
               else LaneNext(FlushSkipThreshold(interval), LaneOf(st, uuid),
                             if ev.newState == ON_STATE then On(uuid, ts, ans) else Off(ts, ans))
  {
  }

  /** A flush over any order without repetition steps the lane of each uuid in it once, and no other lane. */
  lemma {:induction false} FlushPrefix(threshold: int, st: State, now: int, order: seq<string>,
                                       answers: map<string, Answer>, uuid: string)
    requires Keyed(st)
    requires forall i, j :: 0 <= i < j < |order| ==> order[i] != order[j]
    ensures var st' := FlushAll(threshold, st, now, order, answers);
            && Keyed(st') && st'.windows.Keys == st.windows.Keys
            && LaneOf(st', uuid) == if uuid in order
                                    then LaneNext(threshold, LaneOf(st, uuid), Tick(now, AnswerFor(answers, uuid)))
                                    else LaneOf(st, uuid)
  {
    if order != [] {
      var pre, last := order[..|order| - 1], order[|order| - 1];
      FlushPrefix(threshold, st, now, pre, answers, uuid);
      assert last !in pre;
      assert order == pre + [last];
      var mid := FlushAll(threshold, st, now, pre, answers);
      if last in mid.windows && Due(mid.windows[last], now, threshold) {
        EmittedConcernsItsLane(mid, now, AnswerFor(answers, last), last, uuid);
      }
    }
  }

  lemma FlushConcernsEachLane(threshold: int, st: State, now: int, order: seq<string>,
                              answers: map<string, Answer>, uuid: string)
    requires Keyed(st) && IsOrder(order, st.windows)
    ensures var st' := FlushAll(threshold, st, now, order, answers);
            && Keyed(st')
            && LaneOf(st', uuid) == LaneNext(threshold, LaneOf(st, uuid), Tick(now, AnswerFor(answers, uuid)))
  {
    FlushPrefix(threshold, st, now, order, answers, uuid);
  }

  /** The same steps, up to the order in which flushes visit the windows. */
  ghost predicate SameButOrder(a: seq<Step>, b: seq<Step>) {
    && |a| == |b|
    && forall i :: 0 <= i < |a| ==>
         a[i] == b[i] || (a[i].Flush? && b[i].Flush? && a[i].now == b[i].now && a[i].answers == b[i].answers)
  }

  lemma {:induction false} RestrictIgnoresOrder(a: seq<Step>, b: seq<Step>, uuid: string)
    requires SameButOrder(a, b)
    ensures Restrict(a, uuid) == Restrict(b, uuid)
  {
    if a != [] {
      RestrictIgnoresOrder(a[..|a| - 1], b[..|b| - 1], uuid);
    }
  }

  /** The order in which flushes visit the windows decides nothing about any uuid. */
  lemma {:induction false} FlushOrderIsIrrelevant(interval: int, a: seq<Step>, b: seq<Step>, uuid: string)
    requires ValidRun(interval, a) && ValidRun(interval, b) && SameButOrder(a, b)
    ensures LaneOf(Run(interval, a), uuid) == LaneOf(Run(interval, b), uuid)
  {
    UuidsAreIndependent(interval, a, uuid);
    UuidsAreIndependent(interval, b, uuid);
    RestrictIgnoresOrder(a, b, uuid);
  }

  /** Conservation for the whole processor: what a uuid was billed is the sum of the stretches of its windows. */
  lemma {:induction false} ProcessorConserves(interval: int, steps: seq<Step>, uuid: string)
    requires ValidRun(interval, steps)
    ensures var st := Run(interval, steps);
            && Total(Mine(st.out, uuid)) ==
               StaysTotal(Stays(FlushSkipThreshold(interval), Restrict(steps, uuid)))
               + (if uuid in st.windows then st.windows[uuid].reportedUntil - st.windows[uuid].runningSince else 0)
            && Accounted(LaneOf(st, uuid), Stays(FlushSkipThreshold(interval), Restrict(steps, uuid)))
  {
    UuidsAreIndependent(interval, steps, uuid);
    RunConserves(FlushSkipThreshold(interval), Restrict(steps, uuid));
    RunsTile(FlushSkipThreshold(interval), Restrict(steps, uuid));
  }

  /** The restriction of the run to `uuid` has only written records and no step later than an event after it. */
  ghost predicate Clean(steps: seq<Step>, uuid: string) {
    AllWritten(Restrict(steps, uuid)) && WellTimed(Restrict(steps, uuid))
  }

  /**
   Flush invariance for the whole processor. Two clean runs that give an instance the same events, whatever their
   flush intervals, their ticks, the order of their flushes and the events of other instances, bill a stopped instance
   the same total, namely the time its events say it ran.
   */
  lemma {:induction false} BillIsIndependentOfFlushing(interval: int, a: seq<Step>, interval': int, b: seq<Step>,
                                                       uuid: string)
    requires ValidRun(interval, a) && ValidRun(interval', b) && Clean(a, uuid) && Clean(b, uuid)
    requires EventsOf(Restrict(a, uuid)) == EventsOf(Restrict(b, uuid))
    ensures uuid in Run(interval, a).windows <==> uuid in Run(interval', b).windows
    ensures uuid !in Run(interval, a).windows ==>
              && Total(Mine(Run(interval, a).out, uuid)) == Total(Mine(Run(interval', b).out, uuid))
              && Total(Mine(Run(interval, a).out, uuid))
                 == StretchTotal(TimelineOfEvents(EventsOf(Restrict(a, uuid))).stretches)
  {
    UuidsAreIndependent(interval, a, uuid);
    UuidsAreIndependent(interval', b, uuid);
    FlushingNeverChangesTheBill(FlushSkipThreshold(interval), Restrict(a, uuid),
                                FlushSkipThreshold(interval'), Restrict(b, uuid));
  }

  // ----- Events and counters -----

  /** An event counts if its type is absent or right and it names an instance and a state. */
  lemma EventIsTakenIff(ev: RawEvent)
    ensures !Dropped(ev) <==> (ev.kind == "" || ev.kind == "vm.state_change") && ev.uuid != "" && ev.newState != ""
  {
  }

  /** A dropped event changes nothing but the one counter that says why it was dropped. */
  lemma DroppedEventIsCounted(st: State, ev: RawEvent, now: int, ans: Answer)
    requires Dropped(ev)
    ensures var st' := HandleEvent(st, ev, now, ans);
            && st'.windows == st.windows && st'.out == st.out
            && st'.stats ==
               if ev.kind != "" && ev.kind != "vm.state_change" then st.stats.(wrongType := st.stats.wrongType + 1)
               else if ev.uuid == "" then st.stats.(noUuid := st.stats.noUuid + 1)
               else st.stats.(noState := st.stats.noState + 1)
  {
  }

  /** An event without a readable time happens when it is handled. */
  lemma UnstampedHappensNow(st: State, ev: RawEvent, now: int, later: int, ans: Answer)
    requires ev.ts.None?
    ensures HandleEvent(st, ev, now, ans) == HandleEvent(st, ev.(ts := Some(now)), later, ans)
  {
  }

  /** What an event that counts does: only the state `running` opens a window, and every other state closes it. */
  lemma EventMeans(st: State, ev: RawEvent, now: int, ans: Answer)
    requires !Dropped(ev)
    ensures var st' := HandleEvent(st, ev, now, ans);
            && (ev.uuid in st'.windows <==> ev.newState == "running")
            && (forall u :: u != ev.uuid ==> (u in st'.windows <==> u in st.windows)
                                             && (u in st.windows ==> st'.windows[u] == st.windows[u]))
            && (ev.uuid in st.windows && ev.newState == "running" ==> st' == st)
            && (ev.uuid !in st.windows && ev.newState == "running" ==>
                  && st'.windows[ev.uuid].runningSince == st'.windows[ev.uuid].reportedUntil
                  && st'.windows[ev.uuid].runningSince == (if ev.ts.Some? then ev.ts.value else now))
  {
  }

  lemma EmissionIsCounted(st: State, uuid: string, at: int, ans: Answer)
    requires uuid in st.windows
    ensures var st', due := Emitted(st, uuid, at, ans), st.windows[uuid].reportedUntil < at;
            && |st'.out| - |st.out| == (if due && ans.written then 1 else 0)
            && st'.stats.written - st.stats.written == (if due && ans.written then 1 else 0)
            && st'.stats.writeErrors - st.stats.writeErrors == (if due && !ans.written then 1 else 0)
            && st'.stats.windowsOpened == st.stats.windowsOpened && st'.stats.windowsClosed == st.stats.windowsClosed
            && st'.windows.Keys == st.windows.Keys
  {
  }

  lemma {:induction false} FlushIsCounted(threshold: int, st: State, now: int, order: seq<string>,
                                          answers: map<string, Answer>)
    requires CountersAgree(st)
    ensures CountersAgree(FlushAll(threshold, st, now, order, answers))
  {
    if order != [] {
      var pre, last := order[..|order| - 1], order[|order| - 1];
      FlushIsCounted(threshold, st, now, pre, answers);
      var mid := FlushAll(threshold, st, now, pre, answers);
      if last in mid.windows {
        EmissionIsCounted(mid, last, now, AnswerFor(answers, last));
      }
    }
  }

  ghost predicate CountersAgree(st: State) {
    st.stats.written == |st.out| && st.stats.windowsOpened == st.stats.windowsClosed + |st.windows|
  }

  /** In every run as many records are counted as were written, and windows are open that were opened and not closed. */
  lemma {:induction false} CountersAreRight(interval: int, steps: seq<Step>)
    ensures CountersAgree(Run(interval, steps))
  {
    if steps != [] {
      var pre, step := steps[..|steps| - 1], steps[|steps| - 1];
      CountersAreRight(interval, pre);
      var st := Run(interval, pre);
      match step {
        case Event(ev, now, ans) => EventIsCounted(st, ev, now, ans);
        case Flush(now, order, answers) => FlushIsCounted(FlushSkipThreshold(interval), st, now, order, answers);
      }
    }
  }

  lemma EventIsCounted(st: State, ev: RawEvent, now: int, ans: Answer)
    requires CountersAgree(st)
    ensures CountersAgree(HandleEvent(st, ev, now, ans))
  {
    if !Dropped(ev) && ev.newState != ON_STATE && ev.uuid in st.windows {
      EmissionIsCounted(st, ev.uuid, EventTime(ev, now), ans);
      var mid := Emitted(st, ev.uuid, EventTime(ev, now), ans);
      assert (mid.windows - {ev.uuid}).Keys == st.windows.Keys - {ev.uuid};
      assert |mid.windows.Keys| == |st.windows.Keys|;
      assert |mid.windows - {ev.uuid}| == |(mid.windows - {ev.uuid}).Keys|;
    }
  }

  // ----- The overbilled counter -----

  /** Whether the step closes a window at a time below its watermark. */
  predicate LateClose(st: State, step: Step) {
    && step.Event? && !Dropped(step.ev) && step.ev.newState != ON_STATE && step.ev.uuid in st.windows
    && EventTime(step.ev, step.now) < st.windows[step.ev.uuid].reportedUntil
  }

  lemma {:induction false} FlushNeverOverbills(threshold: int, st: State, now: int, order: seq<string>,
                                               answers: map<string, Answer>)
    requires 0 < threshold
    ensures FlushAll(threshold, st, now, order, answers).stats.overbilled == st.stats.overbilled
  {
    if order != [] {
      FlushNeverOverbills(threshold, st, now, order[..|order| - 1], answers);
    }
  }

  function LateCloses(interval: int, steps: seq<Step>): nat {
    if steps == [] then 0
    else LateCloses(interval, steps[..|steps| - 1])
         + if LateClose(Run(interval, steps[..|steps| - 1]), steps[|steps| - 1]) then 1 else 0
  }

  /** In every run the alert counter is the number of closes below the watermark; no flush ever raises it. */
  lemma {:induction false} OverbilledCountsLateCloses(interval: int, steps: seq<Step>)
    requires 0 < interval
    ensures Run(interval, steps).stats.overbilled == LateCloses(interval, steps)
  {
    if steps != [] {
      var pre, step := steps[..|steps| - 1], steps[|steps| - 1];
      OverbilledCountsLateCloses(interval, pre);
      if step.Flush? {
        FlushNeverOverbills(FlushSkipThreshold(interval), Run(interval, pre), step.now, step.order, step.answers);
      }
    }
  }
}
