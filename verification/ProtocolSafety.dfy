/**
 Safety of the reconcile protocol over every interleaving: backing objects never outlive the finalizer, and compute's
 status writes are never lost.
 */
module ProtocolSafety {
  import opened Options
  import opened Status = InstanceStatus
  import opened Protocol

  // ----- The invariant -----

  /** The Instance in hand is a version that a read or the reconcile's own write returned. */
  ghost predicate InHand(s: State) {
    && s.seen < |s.versions|
    && (s.control.Busy? ==>
          var c := s.control;
          && s.seen <= c.ver < |s.versions| && s.versions[c.ver] == Some(c.inst)
          && (TearingDown(c.stage) ==> c.inst.deleting && c.inst.finalizer && c.ver == s.seen)
          && (!TearingDown(c.stage) ==> !c.inst.deleting)
          && (Building(c.stage) ==> c.inst.finalizer))
  }

  /** The stages that may create or rely on backing objects. */
  predicate Building(stage: Stage) {
    !TearingDown(stage) && stage != SuspendPod && stage != AddFinalizer
  }

  ghost predicate Held(v: Option<Instance>) {
    v.Some? && v.value.finalizer && !v.value.deleting
  }

  /** The current Instance is incarnation `uid` and carries the provider's finalizer. */
  ghost predicate Guards(s: State, uid: nat) {
    Current(s).Some? && Current(s).value.finalizer && Current(s).value.uid == uid
  }

  /** Whatever a stale read may still return as live and finalized is still there and finalized. */
  ghost predicate StaleReadsAreSafe(s: State) {
    forall k :: s.seen <= k < |s.versions| && Held(s.versions[k]) ==> Guards(s, s.versions[k].value.uid)
  }

  /** A backing object exists only while the Instance that owns it exists and carries the finalizer. */
  ghost predicate BackingIsGuarded(s: State) {
    && (s.pod.Some? ==> Guards(s, s.pod.value.owner))
    && (s.service.Some? ==> Guards(s, s.service.value.owner))
  }

  /** What the teardown has found absent is still absent. */
  ghost predicate FoundAbsent(s: State) {
    s.control.Busy? ==>
      && (s.control.stage == CheckService ==> s.pod.None?)
      && (s.control.stage == Unfinalize ==> s.pod.None? && s.service.None?)
  }

  ghost predicate Inv(s: State) {
    InHand(s) && StaleReadsAreSafe(s) && BackingIsGuarded(s) && FoundAbsent(s)
  }

  // ----- Every step keeps it -----

  lemma ReadKeeps(s: State, k: nat)
    requires Inv(s)
    ensures Inv(ReadStep(s, k))
  {
  }

  /** Writing a version that is no less finalized keeps the invariant. */
  lemma WriteKeeps(s: State, v: Option<Instance>)
    requires Inv(s)
    requires Current(s).Some? && Current(s).value.finalizer ==>
               v.Some? && v.value.finalizer && v.value.uid == Current(s).value.uid
    ensures Inv(Write(s, v))
  {
    var s' := Write(s, v);
    forall k | s'.seen <= k < |s'.versions| && Held(s'.versions[k]) ensures Guards(s', s'.versions[k].value.uid) {
      if k < |s.versions| {
        assert Held(s.versions[k]);
      }
    }
  }

  lemma TeardownKeeps(s: State)
    requires Inv(s) && s.control.Busy?
    ensures Inv(TeardownStep(s))
  {
  }

  /** Moving on without writing the Instance. */
  lemma MoveKeeps(s: State, s': State)
    requires Inv(s) && s'.versions == s.versions && s'.seen == s.seen
    requires s'.pod.Some? ==> Guards(s, s'.pod.value.owner)
    requires s'.service.Some? ==> Guards(s, s'.service.value.owner)
    requires InHand(s') && FoundAbsent(s')
    ensures Inv(s')
  {
  }

  /** While a reconcile is building, the Instance in hand is guarded. */
  lemma BuildingIsGuarded(s: State)
    requires Inv(s) && s.control.Busy? && Building(s.control.stage)
    ensures Guards(s, s.control.inst.uid)
  {
  }

  lemma AddFinalizerKeeps(cfg: Settings, s: State, now: int, touched: bool)
    requires Inv(s) && s.control.Busy? && s.control.stage.AddFinalizer?
    ensures Inv(PodStep(cfg, s, now, touched))
  {
    var c := s.control;
    if c.ver == Last(s) {
      WriteKeeps(s, Some(c.inst.(finalizer := true)));
      var w := Write(s, Some(c.inst.(finalizer := true)));
      MoveKeeps(w, PodStep(cfg, s, now, touched));
    }
  }

  lemma CreatePodKeeps(cfg: Settings, s: State, now: int, touched: bool)
    requires Inv(s) && s.control.Busy? && s.control.stage.CreatePod?
    ensures Inv(PodStep(cfg, s, now, touched))
  {
    BuildingIsGuarded(s);
    MoveKeeps(s, PodStep(cfg, s, now, touched));
  }

  lemma PodKeeps(cfg: Settings, s: State, now: int, touched: bool)
    requires Inv(s) && s.control.Busy? && PodStage(s.control.stage)
    ensures Inv(PodStep(cfg, s, now, touched))
  {
    if s.control.stage.AddFinalizer? {
      AddFinalizerKeeps(cfg, s, now, touched);
    } else if s.control.stage.CreatePod? {
      CreatePodKeeps(cfg, s, now, touched);
    } else {
      MoveKeeps(s, PodStep(cfg, s, now, touched));
    }
  }

  lemma RecoverKeeps(s: State, now: int)
    requires Inv(s) && s.control.Busy? && RecoverStage(s.control.stage)
    ensures Inv(RecoverStep(s, now))
  {
    MoveKeeps(s, RecoverStep(s, now));
  }

  lemma ServiceKeeps(s: State, touched: bool)
    requires Inv(s) && s.control.Busy? && Building(s.control.stage)
    ensures Inv(ServiceStep(s, touched))
  {
    BuildingIsGuarded(s);
    MoveKeeps(s, ServiceStep(s, touched));
  }

  lemma ReportKeeps(cfg: Settings, s: State, now: int)
    requires Inv(s) && s.control.Busy?
    ensures Inv(ReportStep(cfg, s, now))
  {
  }

  lemma InstanceKeeps(s: State, step: Step)
    requires Inv(s)
    ensures Inv(InstanceStep(s, step))
  {
  }

  lemma GoKeeps(cfg: Settings, s: State, now: int, touched: bool)
    requires Inv(s)
    ensures Inv(GoStep(cfg, s, now, touched))
  {
    if s.control.Busy? {
      var stage := s.control.stage;
      if TearingDown(stage) || stage == SuspendPod {
        TeardownKeeps(s);
      } else if PodStage(stage) {
        PodKeeps(cfg, s, now, touched);
      } else if RecoverStage(stage) {
        RecoverKeeps(s, now);
      } else if stage.PatchInstance? {
        ReportKeeps(cfg, s, now);
      } else {
        ServiceKeeps(s, touched);
      }
    }
  }

  lemma NextKeeps(cfg: Settings, s: State, step: Step)
    requires Inv(s)
    ensures Inv(Next(cfg, s, step))
  {
    match step {
      case Read(k) => ReadKeeps(s, k);
      case Go(now, touched) => GoKeeps(cfg, s, now, touched);
      case Fail =>
      case UserCreate(_) => InstanceKeeps(s, step);
      case UserDelete => InstanceKeeps(s, step);
      case InstanceWrite(_) => InstanceKeeps(s, step);
      case ComputeWrite(_) => InstanceKeeps(s, step);
      case _ => BackingKeeps(s, step);
    }
  }

  lemma BackingKeeps(s: State, step: Step)
    requires Inv(s)
    ensures Inv(BackingStep(s, step))
  {
  }

  lemma {:induction false} RunKeeps(cfg: Settings, steps: seq<Step>)
    ensures Inv(Run(cfg, steps))
  {
    if steps != [] {
      RunKeeps(cfg, steps[..|steps| - 1]);
      NextKeeps(cfg, Run(cfg, steps[..|steps| - 1]), steps[|steps| - 1]);
    }
  }

  /**
   Finalizer safety. In every reachable state a Pod or Service exists only while the very Instance that owns it
   exists and carries the provider's finalizer, also when the Instance is deleted between a read and a create,
   and however stale the read was.
   */
  lemma FinalizerSafety(cfg: Settings, steps: seq<Step>)
    ensures var s := Run(cfg, steps);
            && (s.pod.Some? ==> Guards(s, s.pod.value.owner))
            && (s.service.Some? ==> Guards(s, s.service.value.owner))
  {
    RunKeeps(cfg, steps);
  }

  // ----- No lost update -----

  ghost predicate HasReference(interfaces: seq<Interface>) {
    exists i :: 0 <= i < |interfaces| && interfaces[i].reference.Some?
  }

  ghost predicate ComputeIntact(s: State) {
    Current(s).Some? ==>
      var st := Current(s).value.status;
      && ComputeOwned(st.conditions) == s.computeConditions
      && (HasReference(s.computeInterfaces) ==> st.interfaces == s.computeInterfaces)
  }

  /** `st'` has compute's part as in `st`. */
  ghost predicate KeepsCompute(st: Status.Status, st': Status.Status) {
    && ComputeOwned(st'.conditions) == ComputeOwned(st.conditions)
    && (HasReference(st.interfaces) ==> st'.interfaces == st.interfaces)
  }

  /** On the version it was computed from, the status patch leaves compute's part as it is. */
  lemma PatchKeepsCompute(cfg: Settings, inst: Instance, pod: Pod, now: int)
    requires StatusPatchOf(cfg, inst, pod, now).Some?
    ensures KeepsCompute(inst.status, PatchStatus(inst.status, StatusPatchOf(cfg, inst, pod, now).value))
  {
    var synced := Sync(inst.spec, inst.deleting, cfg.vpc, pod.status, inst.status, now);
    PatchOnBase(inst.status, synced.status);
    SyncFrame(inst.spec, inst.deleting, cfg.vpc, pod.status, inst.status, now);
  }

  lemma SentKeepsCompute(s: State, patch: Option<StatusPatch>)
    requires ComputeIntact(s) && s.control.Busy? && s.versions != []
    requires patch.Some? && Current(s).Some? && s.control.ver == Last(s) ==>
               KeepsCompute(Current(s).value.status, PatchStatus(Current(s).value.status, patch.value))
    ensures ComputeIntact(Sent(s, patch))
  {
  }

  lemma ReportKeepsCompute(cfg: Settings, s: State, now: int)
    requires ComputeIntact(s) && s.control.Busy? && s.versions != []
    requires s.control.ver == Last(s) ==> Current(s) == Some(s.control.inst)
    ensures ComputeIntact(ReportStep(cfg, s, now))
  {
    var c := s.control;
    if c.pod.Some? {
      var patch := StatusPatchOf(cfg, c.inst, c.pod.value, now);
      if patch.Some? {
        PatchKeepsCompute(cfg, c.inst, c.pod.value, now);
      }
      SentKeepsCompute(s, patch);
    }
  }

  /** Steps that write no status. */
  lemma SameStatusKeepsCompute(s: State, s': State)
    requires ComputeIntact(s)
    requires s'.computeConditions == s.computeConditions && s'.computeInterfaces == s.computeInterfaces
    requires Current(s').Some? ==> Current(s).Some? && Current(s').value.status == Current(s).value.status
    ensures ComputeIntact(s')
  {
  }

  lemma TeardownWritesNoStatus(s: State)
    requires Inv(s) && ComputeIntact(s) && s.control.Busy?
    ensures ComputeIntact(TeardownStep(s))
  {
  }

  lemma PodWritesNoStatus(cfg: Settings, s: State, now: int, touched: bool)
    requires Inv(s) && ComputeIntact(s) && s.control.Busy?
    ensures ComputeIntact(PodStep(cfg, s, now, touched))
  {
    SameStatusKeepsCompute(s, PodStep(cfg, s, now, touched));
  }

  lemma RecoveryWritesNoStatus(s: State, now: int)
    requires Inv(s) && ComputeIntact(s) && s.control.Busy?
    ensures ComputeIntact(RecoverStep(s, now))
  {
  }

  lemma GoKeepsCompute(cfg: Settings, s: State, now: int, touched: bool)
    requires Inv(s) && ComputeIntact(s)
    ensures ComputeIntact(GoStep(cfg, s, now, touched))
  {
    if s.control.Busy? {
      var stage := s.control.stage;
      if TearingDown(stage) || stage == SuspendPod {
        TeardownWritesNoStatus(s);
      } else if PodStage(stage) {
        PodWritesNoStatus(cfg, s, now, touched);
      } else if RecoverStage(stage) {
        RecoveryWritesNoStatus(s, now);
      } else if stage.PatchInstance? {
        ReportKeepsCompute(cfg, s, now);
      }
    }
  }

  lemma InstanceKeepsCompute(s: State, step: Step)
    requires ComputeIntact(s)
    ensures ComputeIntact(InstanceStep(s, step))
  {
  }

  lemma BackingKeepsCompute(s: State, step: Step)
    requires ComputeIntact(s)
    ensures ComputeIntact(BackingStep(s, step))
  {
  }

  lemma NextKeepsCompute(cfg: Settings, s: State, step: Step)
    requires Inv(s) && ComputeIntact(s)
    ensures ComputeIntact(Next(cfg, s, step))
  {
    match step {
      case Go(now, touched) => GoKeepsCompute(cfg, s, now, touched);
      case Read(k) =>
      case Fail =>
      case UserCreate(_) => InstanceKeepsCompute(s, step);
      case UserDelete => InstanceKeepsCompute(s, step);
      case InstanceWrite(_) => InstanceKeepsCompute(s, step);
      case ComputeWrite(_) => InstanceKeepsCompute(s, step);
      case _ => BackingKeepsCompute(s, step);
    }
  }

  /**
   No lost update. In every run the conditions compute owns, and the interface status once compute has published a
   reference in it, are exactly what compute last wrote.
   */
  lemma {:induction false} ComputeWritesSurvive(cfg: Settings, steps: seq<Step>)
    ensures ComputeIntact(Run(cfg, steps))
  {
    if steps != [] {
      var pre := steps[..|steps| - 1];
      ComputeWritesSurvive(cfg, pre);
      RunKeeps(cfg, pre);
      NextKeepsCompute(cfg, Run(cfg, pre), steps[|steps| - 1]);
    }
  }
}
