/**
 The output writer: records go to a live file, which is renamed away when it is large enough; rotated files are
 swept when they are old enough. A rotated file is named by the Unix second of its rotation.
 */
module OutputFiles {
  import opened Options
  import opened Billing

  /** A record and the length of its line on disk. */
  datatype Entry = Entry(rec: Record, size: nat)

  datatype Files = Files(live: Option<seq<Entry>>, rotated: map<int, seq<Entry>>)

  /** `Emit` is a successful append followed by a rotation check; `Sweep` is a cleanup. */
  datatype Step =
    | Emit(entry: Entry, second: int, renames: bool)
    | Sweep(now: int, removable: set<int>)

  datatype Limits = Limits(rotateSize: int, maxAge: int)

  function Size(es: seq<Entry>): nat {
    if es == [] then 0 else Size(es[..|es| - 1]) + es[|es| - 1].size
  }

  function LiveEntries(f: Files): seq<Entry> {
    if f.live.Some? then f.live.value else []
  }

  function Append(f: Files, e: Entry): Files {
    f.(live := Some(LiveEntries(f) + [e]))
  }

  predicate MustRotate(lim: Limits, f: Files) {
    0 < lim.rotateSize && f.live.Some? && lim.rotateSize <= Size(f.live.value)
  }

  /** Renaming replaces whatever has the same name. */
  function RotateIfNeeded(lim: Limits, f: Files, second: int, renames: bool): Files {
    if MustRotate(lim, f) && renames then Files(None, f.rotated[second := f.live.value]) else f
  }

  /** The instant, in nanoseconds, that a rotated file's name stands for. */
  function Nanos(second: int): int {
    second * 1_000_000_000
  }

  predicate Expired(lim: Limits, second: int, now: int) {
    0 < lim.maxAge && lim.maxAge <= now - Nanos(second)
  }

  function CleanUp(lim: Limits, f: Files, now: int, removable: set<int>): Files {
    f.(rotated := map s | s in f.rotated && !(Expired(lim, s, now) && s in removable) :: f.rotated[s])
  }

  function Next(lim: Limits, f: Files, step: Step): Files {
    match step
    case Emit(e, second, renames) => RotateIfNeeded(lim, Append(f, e), second, renames)
    case Sweep(now, removable) => CleanUp(lim, f, now, removable)
  }

  function Run(lim: Limits, steps: seq<Step>): Files {
    if steps == [] then Files(None, map[]) else Next(lim, Run(lim, steps[..|steps| - 1]), steps[|steps| - 1])
  }

  // ----- What a run wrote -----

  /** Every entry appended, in order. */
  function Log(steps: seq<Step>): seq<Entry> {
    if steps == [] then []
    else if steps[|steps| - 1].Emit? then Log(steps[..|steps| - 1]) + [steps[|steps| - 1].entry]
    else Log(steps[..|steps| - 1])
  }

  /** The content of one rotation, the second it is named by and the step that made it. */
  datatype Cut = Cut(second: int, entries: seq<Entry>, at: nat)

  /** The rotations of a run, in order. */
  function Cuts(lim: Limits, steps: seq<Step>): seq<Cut> {
    if steps == [] then []
    else
      var pre := steps[..|steps| - 1];
      CutsAfter(lim, Run(lim, pre), Cuts(lim, pre), steps[|steps| - 1], |pre|)
  }

  function CutsAfter(lim: Limits, f: Files, cuts: seq<Cut>, step: Step, at: nat): seq<Cut> {
    if step.Emit? && step.renames && MustRotate(lim, Append(f, step.entry))
    then cuts + [Cut(step.second, LiveEntries(f) + [step.entry], at)]
    else cuts
  }

  function Flatten(cuts: seq<Cut>): seq<Entry> {
    if cuts == [] then [] else Flatten(cuts[..|cuts| - 1]) + cuts[|cuts| - 1].entries
  }

  /** In every run the rotations followed by the live file are the log, cut into consecutive pieces. */
  lemma {:induction false} RotationPartitionsTheLog(lim: Limits, steps: seq<Step>)
    ensures Flatten(Cuts(lim, steps)) + LiveEntries(Run(lim, steps)) == Log(steps)
    ensures forall i :: 0 <= i < |Cuts(lim, steps)| ==> Cuts(lim, steps)[i].entries != []
  {
    if steps != [] {
      var pre, step := steps[..|steps| - 1], steps[|steps| - 1];
      RotationPartitionsTheLog(lim, pre);
      StepPartitions(lim, Run(lim, pre), Cuts(lim, pre), step, |pre|);
    }
  }

  lemma StepPartitions(lim: Limits, f: Files, cuts: seq<Cut>, step: Step, at: nat)
    ensures Flatten(CutsAfter(lim, f, cuts, step, at)) + LiveEntries(Next(lim, f, step))
            == Flatten(cuts) + LiveEntries(f) + if step.Emit? then [step.entry] else []
    ensures cuts <= CutsAfter(lim, f, cuts, step, at)
    ensures var all := CutsAfter(lim, f, cuts, step, at);
            forall i :: |cuts| <= i < |all| ==> all[i].entries != []
  {
    if step.Emit? {
      var live := LiveEntries(f) + [step.entry];
      assert Flatten(cuts) + live == Flatten(cuts) + LiveEntries(f) + [step.entry];
      if CutsAfter(lim, f, cuts, step, at) != cuts {
        FlattenSnoc(cuts, Cut(step.second, live, at));
      }
    }
  }

  lemma FlattenSnoc(cuts: seq<Cut>, cut: Cut)
    ensures Flatten(cuts + [cut]) == Flatten(cuts) + cut.entries
  {
    assert (cuts + [cut])[..|cuts|] == cuts;
  }

  /** The last rotation named by `second`, or -1. */
  function Latest(cuts: seq<Cut>, second: int): (i: int)
    ensures -1 <= i < |cuts|
    ensures i >= 0 ==> cuts[i].second == second
    ensures forall j :: i < j < |cuts| ==> cuts[j].second != second
  {
    if cuts == [] then -1
    else if cuts[|cuts| - 1].second == second then |cuts| - 1
    else Latest(cuts[..|cuts| - 1], second)
  }

  /** After the rotation some cleanup found its file old enough to remove. */
  ghost predicate Swept(lim: Limits, steps: seq<Step>, cut: Cut) {
    exists k :: cut.at < k < |steps| && steps[k].Sweep? && Expired(lim, cut.second, steps[k].now)
  }

  /**
   In every run a rotated file holds exactly its last rotation, and a rotation's file is missing only when a
   cleanup after the rotation found it at least `maxAge` old.
   */
  lemma {:induction false} RotatedFileHoldsItsCut(lim: Limits, steps: seq<Step>, second: int)
    ensures FileMatches(lim, steps, Run(lim, steps), Cuts(lim, steps), second)
  {
    if steps != [] {
      var pre, step := steps[..|steps| - 1], steps[|steps| - 1];
      RotatedFileHoldsItsCut(lim, pre, second);
      assert steps == pre + [step];
      StepKeepsFile(lim, pre, Run(lim, pre), Cuts(lim, pre), step, second);
    }
  }

  /** The file of `second` holds its last rotation, unless there was none or it was swept. */
  ghost predicate FileMatches(lim: Limits, steps: seq<Step>, f: Files, cuts: seq<Cut>, second: int) {
    var i := Latest(cuts, second);
    && (0 <= i ==> cuts[i].at < |steps|)
    && (second in f.rotated ==> 0 <= i && f.rotated[second] == cuts[i].entries)
    && (0 <= i && second !in f.rotated ==> Swept(lim, steps, cuts[i]))
  }

  lemma SweptStays(lim: Limits, steps: seq<Step>, step: Step, cut: Cut)
    requires cut.at < |steps|
    requires Swept(lim, steps, cut) || (step.Sweep? && Expired(lim, cut.second, step.now))
    ensures Swept(lim, steps + [step], cut)
  {
    var all := steps + [step];
    if Swept(lim, steps, cut) {
      var k :| cut.at < k < |steps| && steps[k].Sweep? && Expired(lim, cut.second, steps[k].now);
      assert all[k] == steps[k];
    } else {
      assert all[|steps|] == step;
    }
  }

  lemma StepKeepsFile(lim: Limits, steps: seq<Step>, f: Files, cuts: seq<Cut>, step: Step, second: int)
    requires FileMatches(lim, steps, f, cuts, second)
    ensures FileMatches(lim, steps + [step], Next(lim, f, step), CutsAfter(lim, f, cuts, step, |steps|), second)
  {
    var i := Latest(cuts, second);
    if 0 <= i && (second !in f.rotated || (step.Sweep? && Expired(lim, second, step.now))) {
      SweptStays(lim, steps, step, cuts[i]);
    }
  }

  // ----- When nothing is lost -----

  ghost predicate DistinctSeconds(cuts: seq<Cut>) {
    forall i, j :: 0 <= i < j < |cuts| ==> cuts[i].second != cuts[j].second
  }

  ghost predicate NoRepeats(es: seq<Entry>) {
    forall i, j :: 0 <= i < j < |es| ==> es[i] != es[j]
  }

  ghost predicate NoSweeps(steps: seq<Step>) {
    forall i :: 0 <= i < |steps| ==> steps[i].Emit?
  }

  ghost predicate Stored(f: Files, e: Entry) {
    e in LiveEntries(f) || exists s :: s in f.rotated && e in f.rotated[s]
  }

  /**
   Before any cleanup, every record ever written is in some file if and only if no two rotations share a
   second. When two do, the second rename replaces the first file.
   */
  lemma {:induction false} EveryRecordStoredIff(lim: Limits, steps: seq<Step>)
    requires NoSweeps(steps) && NoRepeats(Log(steps))
    ensures (forall e :: e in Log(steps) ==> Stored(Run(lim, steps), e)) <==> DistinctSeconds(Cuts(lim, steps))
  {
    RotationPartitionsTheLog(lim, steps);
    if DistinctSeconds(Cuts(lim, steps)) {
      forall e | e in Log(steps) ensures Stored(Run(lim, steps), e) {
        DistinctMeansStored(lim, steps, e);
      }
    } else {
      var cuts := Cuts(lim, steps);
      var i, j :| 0 <= i < j < |cuts| && cuts[i].second == cuts[j].second;
      OverwrittenIsNotStored(lim, steps, i, j);
    }
  }

  lemma {:induction false} DistinctMeansStored(lim: Limits, steps: seq<Step>, e: Entry)
    requires NoSweeps(steps) && DistinctSeconds(Cuts(lim, steps)) && e in Log(steps)
    ensures Stored(Run(lim, steps), e)
  {
    RecordStoredUntilSwept(lim, steps, e);
  }

  lemma {:induction false} FlattenFind(cuts: seq<Cut>, e: Entry) returns (i: nat)
    requires e in Flatten(cuts)
    ensures i < |cuts| && e in cuts[i].entries
  {
    if e in cuts[|cuts| - 1].entries {
      i := |cuts| - 1;
    } else {
      i := FlattenFind(cuts[..|cuts| - 1], e);
    }
  }

  /** Where an entry of rotation `i` sits in the flattened log, and that other rotations sit elsewhere. */
  function Base(cuts: seq<Cut>, i: nat): nat
    requires i <= |cuts|
  {
    |Flatten(cuts[..i])|
  }

  lemma {:induction false} FlattenHas(cuts: seq<Cut>, i: nat, k: nat)
    requires i < |cuts| && k < |cuts[i].entries|
    ensures Base(cuts, i) + k < |Flatten(cuts)|
    ensures Flatten(cuts)[Base(cuts, i) + k] == cuts[i].entries[k]
    ensures Base(cuts, i) + |cuts[i].entries| == Base(cuts, i + 1)
  {
    assert cuts[..i + 1][..i] == cuts[..i];
    if i + 1 == |cuts| {
      assert cuts[..i + 1] == cuts;
    } else {
      FlattenHas(cuts[..|cuts| - 1], i, k);
      assert cuts[..|cuts| - 1][..i] == cuts[..i];
      assert cuts[..|cuts| - 1][..i + 1] == cuts[..i + 1];
    }
  }

  lemma {:induction false} BaseMonotone(cuts: seq<Cut>, i: nat, j: nat)
    requires i <= j <= |cuts|
    ensures Base(cuts, i) <= Base(cuts, j)
  {
    if i < j {
      BaseMonotone(cuts, i, j - 1);
      assert cuts[..j][..j - 1] == cuts[..j - 1];
    }
  }

  /** Entries of different rotations are different, when the log has no repeats. */
  lemma CutsAreDisjoint(cuts: seq<Cut>, i: nat, k: nat, j: nat, m: nat)
    requires NoRepeats(Flatten(cuts)) && i < |cuts| && j < |cuts| && i != j
    requires k < |cuts[i].entries| && m < |cuts[j].entries|
    ensures cuts[i].entries[k] != cuts[j].entries[m]
  {
    FlattenHas(cuts, i, k);
    FlattenHas(cuts, j, m);
    if i < j {
      BaseMonotone(cuts, i + 1, j);
    } else {
      BaseMonotone(cuts, j + 1, i);
    }
  }

  lemma {:induction false} OverwrittenIsNotStored(lim: Limits, steps: seq<Step>, i: nat, j: nat)
    requires NoRepeats(Log(steps))
    requires var cuts := Cuts(lim, steps);
             i < j < |cuts| && cuts[i].second == cuts[j].second && cuts[i].entries != []
    ensures var e := Cuts(lim, steps)[i].entries[0];
            e in Log(steps) && !Stored(Run(lim, steps), e)
  {
    var f, cuts := Run(lim, steps), Cuts(lim, steps);
    var e := cuts[i].entries[0];
    RotationPartitionsTheLog(lim, steps);
    FlattenHas(cuts, i, 0);
    NoRepeatsAcross(Flatten(cuts), LiveEntries(f), Base(cuts, i));
    forall s | s in f.rotated ensures e !in f.rotated[s] {
      RotatedFileHoldsItsCut(lim, steps, s);
      var l := Latest(cuts, s);
      forall m | 0 <= m < |cuts[l].entries| ensures cuts[l].entries[m] != e {
        CutsAreDisjoint(cuts, i, 0, l, m);
      }
    }
  }

  /** Two rotations in one second: the second rename replaces the first file, and the first record is in no file. */
  lemma SameSecondLosesRecord(e: Entry, e': Entry, second: int)
    requires e != e' && 0 < e.size && e.size == e'.size
    ensures var lim, steps := Limits(e.size, 0), [Emit(e, second, true), Emit(e', second, true)];
            && Log(steps) == [e, e'] && Run(lim, steps) == Files(None, map[second := [e']])
            && !Stored(Run(lim, steps), e)
  {
    var lim, first, next := Limits(e.size, 0), Emit(e, second, true), Emit(e', second, true);
    var f, f' := Files(None, map[second := [e]]), Files(None, map[second := [e']]);
    RunTwo(lim, first, next);
    LargeEmitRotates(lim, Files(None, map[]), e, second);
    LargeEmitRotates(lim, f, e', second);
    assert f.rotated[second := [e']] == f'.rotated;
    assert !Stored(f', e);
  }

  lemma RunTwo(lim: Limits, first: Step, next: Step)
    requires first.Emit? && next.Emit?
    ensures Run(lim, [first, next]) == Next(lim, Next(lim, Files(None, map[]), first), next)
    ensures Log([first, next]) == [first.entry, next.entry]
  {
    RunSnoc(lim, [], first);
    RunSnoc(lim, [first], next);
    assert [] + [first] == [first] && [first] + [next] == [first, next];
  }

  lemma RunSnoc(lim: Limits, steps: seq<Step>, step: Step)
    ensures Run(lim, steps + [step]) == Next(lim, Run(lim, steps), step)
    ensures Log(steps + [step]) == Log(steps) + if step.Emit? then [step.entry] else []
  {
    assert (steps + [step])[..|steps|] == steps;
  }

  lemma LargeEmitRotates(lim: Limits, f: Files, e: Entry, second: int)
    requires f.live.None? && 0 < lim.rotateSize <= e.size
    ensures Next(lim, f, Emit(e, second, true)) == Files(None, f.rotated[second := [e]])
  {
    assert [] + [e] == [e] && [e][..0] == [];
    assert Size([e]) == e.size;
  }

  lemma NoRepeatsAcross(a: seq<Entry>, b: seq<Entry>, k: nat)
    requires NoRepeats(a + b) && k < |a|
    ensures NoRepeats(a) && a[k] in a + b && a[k] !in b
  {
    assert forall i :: 0 <= i < |a| ==> (a + b)[i] == a[i];
    assert forall i :: 0 <= i < |b| ==> (a + b)[|a| + i] == b[i];
  }

  /**
   With cleanups too: when no two rotations share a second, every record ever written is in a file unless a later
   cleanup found the rotation that holds it at least `maxAge` old.
   */
  lemma {:induction false} RecordStoredUntilSwept(lim: Limits, steps: seq<Step>, e: Entry)
    requires DistinctSeconds(Cuts(lim, steps)) && e in Log(steps)
    ensures || Stored(Run(lim, steps), e)
            || exists i :: && 0 <= i < |Cuts(lim, steps)| && e in Cuts(lim, steps)[i].entries
                           && Swept(lim, steps, Cuts(lim, steps)[i])
  {
    var f, cuts := Run(lim, steps), Cuts(lim, steps);
    RotationPartitionsTheLog(lim, steps);
    if e !in LiveEntries(f) {
      assert e in Flatten(cuts);
      var i := FlattenFind(cuts, e);
      RotatedFileHoldsItsCut(lim, steps, cuts[i].second);
      assert Latest(cuts, cuts[i].second) == i;
    }
  }

  /** An entry of a rotated file has its place in the log. */
  lemma PlaceOf(lim: Limits, steps: seq<Step>, e: Entry, s: int) returns (i: nat, k: nat)
    requires s in Run(lim, steps).rotated && e in Run(lim, steps).rotated[s]
    ensures var cuts := Cuts(lim, steps);
            i < |cuts| && cuts[i].second == s && k < |cuts[i].entries| && cuts[i].entries[k] == e
  {
    RotatedFileHoldsItsCut(lim, steps, s);
    var cuts := Cuts(lim, steps);
    i := Latest(cuts, s);
    k :| 0 <= k < |cuts[i].entries| && cuts[i].entries[k] == e;
  }

  /** No record is in two files, whatever was rotated, overwritten or swept. */
  lemma RecordStoredOnce(lim: Limits, steps: seq<Step>, e: Entry, s: int, s': int)
    requires NoRepeats(Log(steps)) && s in Run(lim, steps).rotated && e in Run(lim, steps).rotated[s]
    ensures e !in LiveEntries(Run(lim, steps))
    ensures s' in Run(lim, steps).rotated && e in Run(lim, steps).rotated[s'] ==> s' == s
  {
    var f, cuts := Run(lim, steps), Cuts(lim, steps);
    RotationPartitionsTheLog(lim, steps);
    var i, k := PlaceOf(lim, steps, e, s);
    NotInLive(cuts, LiveEntries(f), i, k);
    if s' in f.rotated && e in f.rotated[s'] && s' != s {
      var j, m := PlaceOf(lim, steps, e, s');
      CutsAreDisjoint(cuts, i, k, j, m);
    }
  }

  lemma NotInLive(cuts: seq<Cut>, live: seq<Entry>, i: nat, k: nat)
    requires NoRepeats(Flatten(cuts) + live) && i < |cuts| && k < |cuts[i].entries|
    ensures NoRepeats(Flatten(cuts)) && cuts[i].entries[k] !in live
  {
    FlattenHas(cuts, i, k);
    NoRepeatsAcross(Flatten(cuts), live, Base(cuts, i) + k);
  }

  /** While renames succeed the live file is below the limit after every emit. */
  lemma {:induction false} LiveFileStaysSmall(lim: Limits, steps: seq<Step>)
    requires 0 < lim.rotateSize
    requires forall i :: 0 <= i < |steps| && steps[i].Emit? ==> steps[i].renames
    ensures Size(LiveEntries(Run(lim, steps))) < lim.rotateSize
  {
    if steps != [] {
      LiveFileStaysSmall(lim, steps[..|steps| - 1]);
    }
  }

  /** A file is rotated only when it has reached the limit. */
  lemma {:induction false} RotationsReachTheLimit(lim: Limits, steps: seq<Step>, i: nat)
    requires i < |Cuts(lim, steps)|
    ensures 0 < lim.rotateSize <= Size(Cuts(lim, steps)[i].entries)
  {
    var pre := steps[..|steps| - 1];
    if i < |Cuts(lim, pre)| {
      RotationsReachTheLimit(lim, pre, i);
    }
  }

  /**
   A cleanup at `now` leaves exactly the rotations that are younger than the maximum age or cannot be removed, with
   what they hold; without a maximum age it leaves all.
   */
  lemma SweepLeavesTheYoung(lim: Limits, f: Files, now: int, removable: set<int>, second: int)
    ensures var f' := Next(lim, f, Sweep(now, removable));
            && f'.live == f.live
            && (second in f'.rotated <==>
                  && second in f.rotated
                  && (second !in removable || lim.maxAge <= 0 || now - second * 1_000_000_000 < lim.maxAge))
            && (second in f'.rotated ==> f'.rotated[second] == f.rotated[second])
  {
  }

  // ----- The writer object -----

  lemma CleanedUp(lim: Limits, f: Files, now: int, removable: set<int>, kept: map<int, seq<Entry>>)
    requires kept.Keys <= f.rotated.Keys && forall s :: s in kept ==> kept[s] == f.rotated[s]
    requires forall s :: s in f.rotated ==> (s in kept <==> !(Expired(lim, s, now) && s in removable))
    ensures CleanUp(lim, f, now, removable) == f.(rotated := kept)
  {
    var rotated := CleanUp(lim, f, now, removable).rotated;
    assert rotated.Keys == kept.Keys by {
      forall s ensures s in rotated <==> s in kept {
      }
    }
    assert rotated == kept;
  }

  class OutputWriter {
    const limits: Limits
    var live: Option<seq<Entry>>
    var rotated: map<int, seq<Entry>>

    constructor (limits: Limits)
      ensures State() == Files(None, map[]) && this.limits == limits
    {
      this.limits := limits;
      live, rotated := None, map[];
    }

    function State(): Files
      reads this
    {
      Files(live, rotated)
    }

    /** Opening for append creates the file when it is missing. A failed append writes nothing. */
    method AppendEntry(e: Entry, fails: bool) returns (ok: bool)
      modifies this`live
      ensures ok == !fails
      ensures State() == if ok then Append(old(State()), e) else old(State())
    {
      if fails {
        return false;
      }
      live := Some((if live.Some? then live.value else []) + [e]);
      ok := true;
    }

    method Rotate(second: int, renames: bool)
      modifies this`live, this`rotated
      ensures State() == RotateIfNeeded(limits, old(State()), second, renames)
    {
      if limits.rotateSize <= 0 || live.None? || Size(live.value) < limits.rotateSize {
        return;
      }
      if renames {
        rotated := rotated[second := live.value];
        live := None;
      }
    }

    /**
     Visits the rotated files in the order the directory listing gives them and removes the expired ones. A file
     that cannot be removed stays.
     */
    method CleanUpOldRotations(matches: seq<int>, now: int, removable: set<int>)
      requires forall s :: s in matches <==> s in rotated
      modifies this`rotated
      ensures State() == CleanUp(limits, old(State()), now, removable)
    {
      if limits.maxAge <= 0 {
        CleanedUp(limits, State(), now, removable, rotated);
        return;
      }
      var before := rotated;
      for i := 0 to |matches|
        invariant rotated.Keys <= before.Keys
        invariant forall s :: s in rotated ==> rotated[s] == before[s]
        invariant forall s :: s in before ==>
                    (s in rotated <==> !(s in matches[..i] && Expired(limits, s, now) && s in removable))
      {
        var s := matches[i];
        if now - Nanos(s) >= limits.maxAge && s in removable {
          rotated := rotated - {s};
        }
        assert matches[..i + 1] == matches[..i] + [s];
      }
      assert matches[..|matches|] == matches;
      CleanedUp(limits, old(State()), now, removable, rotated);
    }
  }
}
