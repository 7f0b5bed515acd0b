/**
 The index from an instance uuid to the identity and footprint of the Pod that runs it, which is what the billing
 windows resolve against.
 */
module PodIndex {
  import opened Options
  import opened Billing
  import opened BillingLaws
  import opened Footprint

  /** The parts of a Pod the index reads. `project` is what the namespace resolves to, empty when it does not. */
  datatype Pod = Pod(containerIds: seq<string>, instance: string, project: string, containers: seq<PodContainer>)

  const SEPARATOR: string := "://"

  /** Whether the separator starts at position `i`. */
  predicate SeparatorAt(id: string, i: nat) {
    i + 3 <= |id| && id[i..i + 3] == SEPARATOR
  }

  /** The id without anything up to its first separator at or after `from`, or None when there is no separator. */
  function AfterSeparator(id: string, from: nat): Option<string>
    decreases |id| - from
  {
    if from + 3 > |id| then None
    else if SeparatorAt(id, from) then Some(id[from + 3..])
    else AfterSeparator(id, from + 1)
  }

  function BareId(id: string): string {
    if AfterSeparator(id, 0).Some? then AfterSeparator(id, 0).value else id
  }

  /** A runtime prefix without a separator of its own is stripped, whatever follows it. */
  lemma {:induction false} SchemeIsStripped(scheme: string, rest: string)
    requires forall i :: 0 <= i < |scheme| ==> !SeparatorAt(scheme + SEPARATOR + rest, i)
    ensures BareId(scheme + SEPARATOR + rest) == rest
  {
    var id := scheme + SEPARATOR + rest;
    assert id[|scheme|..|scheme| + 3] == SEPARATOR;
    assert id[|scheme| + 3..] == rest;
    FirstSeparator(id, 0, |scheme|);
  }

  lemma {:induction false} FirstSeparator(id: string, from: nat, at: nat)
    requires from <= at && SeparatorAt(id, at) && forall i :: from <= i < at ==> !SeparatorAt(id, i)
    ensures AfterSeparator(id, from) == Some(id[at + 3..])
    decreases at - from
  {
    if from < at {
      FirstSeparator(id, from + 1, at);
    }
  }

  /** The uuids behind a Pod's containers; a container that has not started has no id yet. */
  function Uuids(ids: seq<string>): seq<string> {
    if ids == [] then []
    else
      var pre, last := Uuids(ids[..|ids| - 1]), ids[|ids| - 1];
      if last == "" then pre else pre + [BareId(last)]
  }

  /** An id without a separator, which is what kraftlet sets, is the uuid itself. */
  lemma BareIdIsTheUuid(id: string)
    requires forall i :: 0 <= i <= |id| ==> !SeparatorAt(id, i)
    ensures BareId(id) == id
  {
    NoSeparatorFound(id, 0);
  }

  lemma {:induction false} NoSeparatorFound(id: string, from: nat)
    requires forall i :: from <= i <= |id| ==> !SeparatorAt(id, i)
    ensures AfterSeparator(id, from).None?
    decreases |id| - from
  {
    if from + 3 <= |id| {
      assert !SeparatorAt(id, from);
      NoSeparatorFound(id, from + 1);
    }
  }

  /** The uuids of a Pod are those of its started containers and no others. */
  lemma {:induction false} UuidsAreOfStarted(ids: seq<string>, uuid: string)
    ensures uuid in Uuids(ids) <==> exists i :: 0 <= i < |ids| && ids[i] != "" && BareId(ids[i]) == uuid
  {
    if ids != [] {
      var pre, last := ids[..|ids| - 1], ids[|ids| - 1];
      UuidsAreOfStarted(pre, uuid);
      if uuid in Uuids(pre) {
        var i :| 0 <= i < |pre| && pre[i] != "" && BareId(pre[i]) == uuid;
        assert ids[i] == pre[i];
      } else if last != "" && BareId(last) == uuid {
        assert ids[|ids| - 1] == last;
      }
    }
  }

  function InfoOf(pod: Pod): Info {
    var b := FootprintOf(pod.containers);
    Info(pod.project, pod.instance, b.vcpuMilli, b.memoryBytes)
  }

  /** What the informer tells the index. */
  datatype Change = Upserted(pod: Pod) | Deleted(pod: Pod)

  /** The Pod of the last upsert that named the uuid, unless a deletion named it since. */
  function LatestPod(history: seq<Change>, uuid: string): Option<Pod> {
    if history == [] then None
    else
      var last := history[|history| - 1];
      if uuid !in Uuids(last.pod.containerIds) then LatestPod(history[..|history| - 1], uuid)
      else if last.Upserted? then Some(last.pod)
      else None
  }

  /** What the index answers after these changes. */
  function Answered(history: seq<Change>, uuid: string): Option<Info> {
    var pod := LatestPod(history, uuid);
    if pod.Some? then Some(InfoOf(pod.value)) else None
  }

  lemma HistoryGrows(history: seq<Change>, change: Change)
    ensures forall uuid ::
              Answered(history + [change], uuid) ==
              if uuid !in Uuids(change.pod.containerIds) then Answered(history, uuid)
              else if change.Upserted? then Some(InfoOf(change.pod))
              else None
  {
    assert (history + [change])[..|history|] == history;
  }

  /** Records of a window that was resolved to a Pod bill the sizes the Pod was programmed with. */
  lemma ResolvedRecordsBill(threshold: int, l: Lane, steps: seq<LaneStep>, pod: Pod, cs: seq<Container>,
                            instanceType: string)
    requires forall i :: 0 <= i < |cs| ==> InRange(cs[i]) && SizeOf(cs[i], instanceType).Sized?
    requires pod.containers == BuildPod(Sizes(cs, instanceType))
    requires l.open.Some? && l.open.value.resolved == Some(InfoOf(pod)) && OneWindow(steps)
    ensures l.out <= LaneFrom(threshold, l, steps).out
    ensures BillSizes(LaneFrom(threshold, l, steps).out, |l.out|, pod, Sizes(cs, instanceType))
  {
    AttributionIsStable(threshold, l, steps);
    BilledIsProgrammed(cs, instanceType);
  }

  /** From record `from` on, all bill this Pod at the largest CPU and the largest memory of these sizes. */
  ghost predicate BillSizes(out: seq<Record>, from: nat, pod: Pod, sizes: seq<Size>) {
    forall i :: from <= i < |out| ==>
      && out[i].instance == pod.instance && out[i].project == (if pod.project == "" then "-" else pod.project)
      && out[i].vcpuMilli == Largest(Cpus(sizes)) && out[i].memoryBytes == Largest(Memories(sizes))
  }

  /**
   End to end: when an instance starts while the last the index heard of its uuid is a Pod, then every record of its
   window, that of its close included, bills the largest CPU and the largest memory that the Pod's containers were
   sized at, whatever the index hears later.
   */
  lemma RecordsBillTheProgrammedSize(threshold: int, out: seq<Record>, history: seq<Change>, uuid: string, ts: int,
                                     written: bool, steps: seq<LaneStep>, cs: seq<Container>, instanceType: string)
    requires LatestPod(history, uuid).Some? && OneWindow(steps)
    requires forall i :: 0 <= i < |cs| ==> InRange(cs[i]) && SizeOf(cs[i], instanceType).Sized?
    requires LatestPod(history, uuid).value.containers == BuildPod(Sizes(cs, instanceType))
    ensures var l := LaneNext(threshold, Lane(None, out), On(uuid, ts, Answer(Answered(history, uuid), written)));
            var out' := LaneFrom(threshold, l, steps).out;
            out <= out' && BillSizes(out', |out|, LatestPod(history, uuid).value, Sizes(cs, instanceType))
  {
    var l := LaneNext(threshold, Lane(None, out), On(uuid, ts, Answer(Answered(history, uuid), written)));
    ResolvedRecordsBill(threshold, l, steps, LatestPod(history, uuid).value, cs, instanceType);
  }

  class Index {
    var pods: map<string, Info>
    ghost var history: seq<Change>

    /** The index holds what its history says. */
    ghost predicate Valid()
      reads this
    {
      forall uuid :: Lookup(uuid) == Answered(history, uuid)
    }

    function Lookup(uuid: string): Option<Info>
      reads this
    {
      if uuid in pods then Some(pods[uuid]) else None
    }

    constructor ()
      ensures Valid() && history == []
    {
      pods, history := map[], [];
    }

    static method ContainerIds(ids: seq<string>) returns (out: seq<string>)
      ensures out == Uuids(ids)
    {
      out := [];
      for i := 0 to |ids|
        invariant out == Uuids(ids[..i])
      {
        assert ids[..i + 1][..i] == ids[..i];
        if ids[i] != "" {
          out := out + [BareId(ids[i])];
        }
      }
      assert ids[..|ids|] == ids;
    }

    /** Every uuid of the Pod now resolves to it; every other uuid resolves as before. */
    method Upsert(pod: Pod)
      requires Valid()
      modifies this
      ensures Valid() && history == old(history) + [Upserted(pod)]
      ensures forall uuid ::
                Lookup(uuid) == if uuid in Uuids(pod.containerIds) then Some(InfoOf(pod)) else old(Lookup(uuid))
    {
      var ids := ContainerIds(pod.containerIds);
      if |ids| != 0 {
        var b := BilledFootprint(pod.containers);
        Put(ids, Info(pod.project, pod.instance, b.vcpuMilli, b.memoryBytes));
      }
      HistoryGrows(history, Upserted(pod));
      history := history + [Upserted(pod)];
    }

    method Put(ids: seq<string>, rec: Info)
      modifies this`pods
      ensures forall uuid :: Lookup(uuid) == if uuid in ids then Some(rec) else old(Lookup(uuid))
    {
      for i := 0 to |ids|
        invariant forall uuid :: Lookup(uuid) == if uuid in ids[..i] then Some(rec) else old(Lookup(uuid))
      {
        pods := pods[ids[i] := rec];
        assert ids[..i + 1] == ids[..i] + [ids[i]];
      }
      assert ids[..|ids|] == ids;
    }

    /** No uuid of the Pod resolves any more; every other uuid resolves as before. */
    method Delete(pod: Pod)
      requires Valid()
      modifies this
      ensures Valid() && history == old(history) + [Deleted(pod)]
      ensures forall uuid :: Lookup(uuid) == if uuid in Uuids(pod.containerIds) then None else old(Lookup(uuid))
    {
      var ids := ContainerIds(pod.containerIds);
      for i := 0 to |ids|
        invariant history == old(history)
        invariant forall uuid :: Lookup(uuid) == if uuid in ids[..i] then None else old(Lookup(uuid))
      {
        pods := pods - {ids[i]};
        assert ids[..i + 1] == ids[..i] + [ids[i]];
      }
      assert ids[..|ids|] == ids;
      HistoryGrows(history, Deleted(pod));
      history := history + [Deleted(pod)];
    }

    /** Answers with the Pod of the last upsert that named the uuid, or with nothing if it was deleted since. */
    method Resolve(uuid: string) returns (info: Option<Info>)
      requires Valid()
      ensures match LatestPod(history, uuid)
              case None => info == None
              case Some(pod) => info == Some(InfoOf(pod))
    {
      assert Lookup(uuid) == Answered(history, uuid);
      info := if uuid in pods then Some(pods[uuid]) else None;
    }
  }
}
