/**
 The processor and its window store as mutable objects, proved to take exactly the steps of ProcessorRuns.
 */
module Processor {
  import opened Options
  import opened Billing
  import Runs = ProcessorRuns

  class WindowCell {
    const uuid: string
    const runningSince: int
    var reportedUntil: int
    var resolved: Option<Info>
    var records: nat

    constructor (uuid: string, at: int)
      ensures Value() == NewWindow(uuid, at)
    {
      this.uuid, runningSince, reportedUntil := uuid, at, at;
      resolved, records := None, 0;
    }

    function Value(): Window
      reads this
    {
      Window(uuid, runningSince, reportedUntil, resolved, records)
    }
  }

  class WindowStore {
    var windows: map<string, WindowCell>

    constructor ()
      ensures windows == map[]
    {
      windows := map[];
    }

    ghost predicate Valid()
      reads this, windows.Values
    {
      forall uuid :: uuid in windows ==> windows[uuid].uuid == uuid
    }

    ghost function View(): map<string, Window>
      reads this, windows.Values
    {
      map uuid | uuid in windows :: windows[uuid].Value()
    }

    /** The existing window of the uuid, or a new one anchored at `at`. */
    method GetOrOpen(uuid: string, at: int) returns (w: WindowCell, created: bool)
      requires Valid()
      modifies this
      ensures Valid()
      ensures created <==> uuid !in old(windows)
      ensures uuid in windows && windows[uuid] == w
      ensures created ==> fresh(w) && windows == old(windows)[uuid := w] && w.Value() == NewWindow(uuid, at)
      ensures !created ==> windows == old(windows)
    {
      if uuid in windows {
        return windows[uuid], false;
      }
      w := new WindowCell(uuid, at);
      windows := windows[uuid := w];
      created := true;
    }

    method Delete(uuid: string)
      requires Valid()
      modifies this
      ensures Valid() && windows == old(windows) - {uuid}
    {
      windows := windows - {uuid};
    }

    /** Every open window once, in no particular order. */
    method All() returns (out: seq<WindowCell>)
      requires Valid()
      ensures forall i, j :: 0 <= i < j < |out| ==> out[i].uuid != out[j].uuid
      ensures forall i :: 0 <= i < |out| ==> out[i].uuid in windows && windows[out[i].uuid] == out[i]
      ensures forall uuid :: uuid in windows ==> windows[uuid] in out
    {
      out := [];
      var left := windows.Keys;
      while left != {}
        invariant left <= windows.Keys
        invariant forall i, j :: 0 <= i < j < |out| ==> out[i].uuid != out[j].uuid
        invariant forall i :: 0 <= i < |out| ==>
                                && out[i].uuid in windows && windows[out[i].uuid] == out[i]
                                && out[i].uuid !in left
        invariant forall uuid :: uuid in windows && uuid !in left ==> windows[uuid] in out
        decreases left
      {
        var uuid :| uuid in left;
        left := left - {uuid};
        out := out + [windows[uuid]];
      }
    }
  }

  class EventProcessor {
    const store: WindowStore
    const interval: int
    var out: seq<Record>
    var stats: Runs.Stats

    constructor (interval: int)
      ensures Valid() && State() == Runs.INITIAL && this.interval == interval
      ensures fresh(store)
    {
      store := new WindowStore();
      this.interval := interval;
      out, stats := [], Runs.Stats(0, 0, 0, 0, 0, 0, 0, 0);
    }

    ghost predicate Valid()
      reads this, store, store.windows.Values
    {
      store.Valid()
    }

    ghost function State(): Runs.State
      reads this, store, store.windows.Values
    {
      Runs.State(store.View(), out, stats)
    }

    /** Caches the resolver's answer unless the window is already attributed. */
    method ResolveWindow(w: WindowCell, answer: Option<Info>)
      modifies w`resolved
      ensures w.Value() == Resolve(old(w.Value()), answer)
    {
      if w.resolved.Some? {
        return;
      }
      if answer.Some? {
        w.resolved := answer;
      }
    }

    /** Bills the window up to `at` and moves its watermark, unless the record cannot be written. */
    method EmitWindow(w: WindowCell, at: int, ans: Answer)
      modifies this, w
      ensures var e := Emit(old(w.Value()), at, ans);
              && w.Value() == e.window
              && out == Appended(old(out), e.record)
              && stats == Runs.CountEmission(old(stats), e)
    {
      var end := at;
      if end < w.reportedUntil {
        stats := stats.(overbilled := stats.overbilled + 1);
        end := w.reportedUntil;
      }
      if end == w.reportedUntil {
        return;
      }
      ResolveWindow(w, ans.info);
      var rec := RecordFor(w.Value(), end);
      if !ans.written {
        stats := stats.(writeErrors := stats.writeErrors + 1);
        return;
      }
      out := out + [rec];
      w.reportedUntil := end;
      w.records := w.records + 1;
      stats := stats.(written := stats.written + 1);
    }

    /** EmitWindow on a window of the store touches no other window. */
    method EmitStored(w: WindowCell, at: int, ans: Answer)
      requires Valid() && w.uuid in store.windows && store.windows[w.uuid] == w
      modifies this, w
      ensures Valid()
      ensures State() == Runs.Emitted(old(State()), w.uuid, at, ans)
    {
      EmitWindow(w, at, ans);
      assert forall uuid :: uuid in store.windows && uuid != w.uuid ==> store.windows[uuid] != w;
      assert store.View() == old(store.View())[w.uuid := w.Value()];
    }

    method HandleEvent(ev: Runs.RawEvent, now: int, ans: Answer)
      requires Valid()
      modifies this, store, store.windows.Values
      ensures Valid()
      ensures State() == Runs.Next(interval, old(State()), Runs.Event(ev, now, ans))
      ensures fresh(store.windows.Values - old(store.windows.Values))
    {
      if ev.kind != "" && ev.kind != Runs.EVENT_KIND {
        stats := stats.(wrongType := stats.wrongType + 1);
        return;
      }
      var ts := if ev.ts.Some? then ev.ts.value else now;
      if ev.uuid == "" {
        stats := stats.(noUuid := stats.noUuid + 1);
        return;
      }
      if ev.newState == "" {
        stats := stats.(noState := stats.noState + 1);
        return;
      }
      if ev.newState == Runs.ON_STATE {
        Open(ev.uuid, ts, ans);
      } else if ev.uuid in store.windows {
        Close(ev.uuid, ts, ans);
      }
    }

    method Open(uuid: string, ts: int, ans: Answer)
      requires Valid()
      modifies this, store
      ensures Valid()
      ensures fresh(store.windows.Values - old(store.windows.Values))
      ensures var st := old(State());
              State() == if uuid in st.windows then st
                         else st.(windows := st.windows[uuid := Resolve(NewWindow(uuid, ts), ans.info)],
                                  stats := st.stats.(windowsOpened := st.stats.windowsOpened + 1))
    {
      ghost var before := State();
      var w, created := store.GetOrOpen(uuid, ts);
      if created {
        stats := stats.(windowsOpened := stats.windowsOpened + 1);
        ResolveWindow(w, ans.info);
        assert forall u :: u in store.windows && u != uuid ==> store.windows[u] != w;
        assert store.View() == before.windows[uuid := w.Value()];
      }
    }

    method Close(uuid: string, ts: int, ans: Answer)
      requires Valid() && uuid in store.windows
      modifies this, store, store.windows[uuid]
      ensures Valid()
      ensures store.windows.Values <= old(store.windows.Values)
      ensures var st := Runs.Emitted(old(State()), uuid, ts, ans);
              State() == st.(windows := st.windows - {uuid},
                             stats := st.stats.(windowsClosed := st.stats.windowsClosed + 1))
    {
      EmitStored(store.windows[uuid], ts, ans);
      ghost var mid := State();
      store.Delete(uuid);
      stats := stats.(windowsClosed := stats.windowsClosed + 1);
      assert store.View() == mid.windows - {uuid};
    }

    /** The order in which the windows are visited, and that it is one. */
    ghost method OrderOf(all: seq<WindowCell>) returns (order: seq<string>)
      requires Valid()
      requires forall i, j :: 0 <= i < j < |all| ==> all[i].uuid != all[j].uuid
      requires forall i :: 0 <= i < |all| ==> all[i].uuid in store.windows && store.windows[all[i].uuid] == all[i]
      requires forall uuid :: uuid in store.windows ==> store.windows[uuid] in all
      ensures Runs.IsOrder(order, State().windows)
      ensures |order| == |all| && forall i :: 0 <= i < |all| ==> order[i] == all[i].uuid
    {
      order := seq(|all|, i requires 0 <= i < |all| => all[i].uuid);
      forall uuid | uuid in store.windows ensures uuid in order {
        var i :| 0 <= i < |all| && all[i] == store.windows[uuid];
        assert order[i] == uuid;
      }
    }

    /** Flushes one window if it is due. */
    method FlushWindow(w: WindowCell, now: int, threshold: int, ans: Answer)
      requires Valid() && w.uuid in store.windows && store.windows[w.uuid] == w
      modifies this, w
      ensures Valid()
      ensures State() == Runs.FlushOne(threshold, old(State()), w.uuid, now, ans)
    {
      if !(now - w.reportedUntil < threshold) {
        EmitStored(w, now, ans);
      }
    }

    /** The pass over the windows that the store yielded. */
    method FlushEach(all: seq<WindowCell>, now: int, threshold: int, answers: map<string, Answer>,
                     ghost order: seq<string>)
      requires Valid() && |order| == |all| && forall i :: 0 <= i < |all| ==> order[i] == all[i].uuid
      requires forall i :: 0 <= i < |all| ==> order[i] in store.windows && store.windows[order[i]] == all[i]
      modifies this, all
      ensures Valid()
      ensures State() == Runs.FlushAll(threshold, old(State()), now, order, answers)
    {
      for i := 0 to |all|
        invariant Valid()
        invariant State() == Runs.FlushAll(threshold, old(State()), now, order[..i], answers)
      {
        assert order[..i + 1][..i] == order[..i] && order[..i + 1][i] == all[i].uuid;
        assert order[i] in store.windows;
        FlushWindow(all[i], now, threshold, Runs.AnswerFor(answers, all[i].uuid));
      }
      assert order[..|all|] == order;
    }

    /** One tick of the periodic flush. The order is the one in which the store yields the windows. */
    method FlushTick(now: int, answers: map<string, Answer>) returns (ghost order: seq<string>)
      requires Valid()
      modifies this, store.windows.Values
      ensures Valid()
      ensures Runs.IsOrder(order, old(State()).windows)
      ensures State() == Runs.Next(interval, old(State()), Runs.Flush(now, order, answers))
    {
      var all := store.All();
      order := OrderOf(all);
      FlushEach(all, now, FlushSkipThreshold(interval), answers, order);
    }
  }
}
