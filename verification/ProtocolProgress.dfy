/**
 What reconciles achieve when nobody disturbs them: which Instances get a Pod and a Service, that a suspended one is
 stopped, that a rebooted host's or a stuck Pod is removed, and what is reported in the end.
 */
module ProtocolProgress {
  import opened Options
  import opened Status = InstanceStatus
  import opened Meta = PodMetadata
  import opened Recovery
  import opened Protocol
  import Safety = ProtocolSafety
  import Rec = ProtocolRecovery

  /** An Instance that is to run. */
  predicate Wanted(i: Instance) {
    !i.deleting && i.sandbox && !i.gated && !i.status.suspended
  }

  // ----- Who gets a Pod or a Service -----

  /** Beyond teardown and suspension a reconcile has an Instance in hand that is to run. */
  ghost predicate WantedInHand(s: State) {
    s.control.Busy? && !TearingDown(s.control.stage) && s.control.stage != SuspendPod ==> Wanted(s.control.inst)
  }

  lemma ReadKeepsWanted(s: State, k: nat)
    requires WantedInHand(s)
    ensures WantedInHand(ReadStep(s, k))
  {
  }

  lemma PodStepKeepsWanted(cfg: Settings, s: State, now: int, touched: bool)
    requires WantedInHand(s) && s.control.Busy? && PodStage(s.control.stage) && s.versions != []
    ensures WantedInHand(PodStep(cfg, s, now, touched))
  {
  }

  lemma GoKeepsWanted(cfg: Settings, s: State, now: int, touched: bool)
    requires WantedInHand(s)
    ensures WantedInHand(GoStep(cfg, s, now, touched))
  {
    if s.control.Busy? && s.versions != [] {
      if PodStage(s.control.stage) {
        PodStepKeepsWanted(cfg, s, now, touched);
      } else if s.control.stage.PatchInstance? {
        Rec.ReportLeavesPod(cfg, s, now);
      }
    }
  }

  lemma NextKeepsWanted(cfg: Settings, s: State, step: Step)
    requires WantedInHand(s)
    ensures WantedInHand(Next(cfg, s, step))
  {
    if step.Go? {
      GoKeepsWanted(cfg, s, step.now, step.touched);
    } else if step.Read? {
      ReadKeepsWanted(s, step.version);
    }
  }

  lemma {:induction false} RunKeepsWanted(cfg: Settings, steps: seq<Step>)
    ensures WantedInHand(Run(cfg, steps))
  {
    if steps != [] {
      RunKeepsWanted(cfg, steps[..|steps| - 1]);
      NextKeepsWanted(cfg, Run(cfg, steps[..|steps| - 1]), steps[|steps| - 1]);
    }
  }

  /** The step creates a Pod or a Service. */
  ghost predicate Creates(s: State, s': State) {
    (s.pod.None? && s'.pod.Some?) || (s.service.None? && s'.service.Some?)
  }

  lemma OnlyCallsCreate(cfg: Settings, s: State, step: Step)
    requires Creates(s, Next(cfg, s, step))
    ensures step.Go? && s.control.Busy? && (s.control.stage.CreatePod? || s.control.stage.CreateService?)
  {
    if step.Go? && s.control.Busy? && s.versions != [] {
      CallCreates(cfg, s, step.now, step.touched);
    }
  }

  lemma CallCreates(cfg: Settings, s: State, now: int, touched: bool)
    requires s.control.Busy? && s.versions != [] && Creates(s, GoStep(cfg, s, now, touched))
    ensures s.control.stage.CreatePod? || s.control.stage.CreateService?
  {
    if s.control.stage.PatchInstance? {
      Rec.ReportLeavesPod(cfg, s, now);
    }
  }

  /**
   In no run does anything get a Pod or a Service but an Instance that was read as live, sandboxed, ungated and not
   suspended, and that carries the finalizer.
   */
  lemma OnlyWantedInstancesGetObjects(cfg: Settings, steps: seq<Step>, step: Step)
    requires Creates(Run(cfg, steps), Next(cfg, Run(cfg, steps), step))
    ensures var c := Run(cfg, steps).control; c.Busy? && Wanted(c.inst) && c.inst.finalizer
  {
    OnlyCallsCreate(cfg, Run(cfg, steps), step);
    RunKeepsWanted(cfg, steps);
    Safety.RunKeeps(cfg, steps);
  }

  // ----- Suspended, gated and other Instances -----

  /**
   The laws below hold of every state in which a version has been read that exists. Every reachable state is one, and
   whatever else a law needs of the state it says.
   */
  ghost predicate Sound(s: State) {
    s.seen < |s.versions|
  }

  lemma ReachableIsSound(cfg: Settings, steps: seq<Step>)
    ensures Sound(Run(cfg, steps)) && Safety.Inv(Run(cfg, steps))
  {
    Safety.RunKeeps(cfg, steps);
  }

  /** A reconcile may start, and its read returns the current version `i`. */
  ghost predicate MayRead(s: State, i: Instance) {
    Sound(s) && s.control.Idle? && Current(s) == Some(i)
  }

  /**
   A suspended Instance is stopped. One read and one call leave its Pod absent or terminating, and its Service and all
   versions of it as they were.
   */
  lemma SuspendedInstanceIsStopped(cfg: Settings, s: State, i: Instance, now: int, touched: bool)
    requires MayRead(s, i) && !i.deleting && i.sandbox && !i.gated && i.status.suspended
    ensures var s' := Next(cfg, Next(cfg, s, Read(|s.versions| - 1)), Go(now, touched));
            && s'.control.Idle? && s'.service == s.service && s'.versions == s.versions
            && s'.pod.Some? == s.pod.Some? && (s'.pod.Some? ==> s'.pod.value == s.pod.value.(deleting := true))
  {
  }

  /** An Instance that is no sandbox, is gated, or is already released, is left alone: the reconcile ends at once. */
  lemma OtherInstancesAreLeftAlone(cfg: Settings, s: State, i: Instance)
    requires MayRead(s, i)
    requires if i.deleting then !i.finalizer else !i.sandbox || i.gated
    ensures Next(cfg, s, Read(|s.versions| - 1)) == s.(seen := |s.versions| - 1)
  {
  }

  // ----- Reboots -----

  /** The reconcile makes its next call at this stage, with this Pod in hand. */
  ghost predicate Stands(s: State, stage: Stage, p: Pod) {
    Sound(s) && s.control.Busy? && s.control.stage == stage && s.control.pod == Some(p)
  }

  lemma NodeNamesHost(node: string, host: string)
    requires host != "" && node == "kraftlet-" + host
    ensures HostOf(node) == Some(host)
  {
    assert |KRAFTLET| == 9 && node[..9] == KRAFTLET && node[9..] == host;
  }

  /** This incarnation is terminating or gone. */
  ghost predicate Ended(s: State, p: Pod) {
    s.pod.Some? && s.pod.value.uid == p.uid ==> s.pod.value.deleting
  }

  /**
   The Pod of a rebooted host is removed: when the Node is about to be read, two calls leave a Pod that was recorded
   under another boot ID than its host reports terminating or gone.
   */
  lemma RebootIsRecovered(cfg: Settings, s: State, p: Pod, host: string, a: Step, b: Step)
    requires Stands(s, GetNode, p) && !p.deleting && host != "" && p.node == "kraftlet-" + host && a.Go? && b.Go?
    requires HOST_BOOT_ID in p.annotations && p.annotations[HOST_BOOT_ID] != ""
    requires host in s.boots && s.boots[host] !in {"", p.annotations[HOST_BOOT_ID]}
    ensures var s' := Next(cfg, Next(cfg, s, a), b); s'.control.Idle? && Ended(s', p)
  {
    NodeNamesHost(p.node, host);
    JudgedRebooted(cfg, s, p, a);
    RemovalEnds(cfg, Next(cfg, s, a), p, b);
  }

  lemma JudgedRebooted(cfg: Settings, s: State, p: Pod, a: Step)
    requires s.versions != [] && a.Go? && s.control.Busy? && s.control.stage == GetNode
    requires s.control.pod == Some(p) && !p.deleting && HostOf(p.node).Some? && HostOf(p.node).value in s.boots
    requires s.boots[HostOf(p.node).value] !in {"", Recorded(p)} && Recorded(p) != ""
    ensures Next(cfg, s, a) == At(s, RemoveRebooted)
  {
  }

  lemma RemovalEnds(cfg: Settings, s: State, p: Pod, b: Step)
    requires s.versions != [] && b.Go? && s.control.Busy? && s.control.pod == Some(p)
    requires s.control.stage == RemoveRebooted || s.control.stage == RemoveStuck
    ensures Next(cfg, s, b).control.Idle? && Ended(Next(cfg, s, b), p)
    ensures Next(cfg, s, b).versions == s.versions && Next(cfg, s, b).service == s.service
  {
  }

  /** The UID precondition: whatever the state, if another incarnation has taken the Pod's place it is spared. */
  lemma AnotherIncarnationIsSpared(cfg: Settings, s: State, p: Pod, b: Step)
    requires Stands(s, RemoveRebooted, p) || Stands(s, RemoveStuck, p)
    requires s.pod.Some? && s.pod.value.uid != p.uid && b.Go?
    ensures Next(cfg, s, b) == s.(control := Idle)
  {
  }

  /**
   Otherwise nothing is done about a reboot. When the host is unknown or silent, or reports the recorded boot ID, the
   reconcile goes on to judge whether the Pod is stuck; a Pod without a boot ID gets the one reported, as long as it
   exists, and nothing else of it changes.
   */
  lemma NoRebootIsNoRemoval(cfg: Settings, s: State, p: Pod, a: Step, b: Step)
    requires Stands(s, GetNode, p) && !p.deleting && a.Go? && b.Go?
    ensures var host := HostOf(p.node);
            var s1 := Next(cfg, s, a);
            var silent := host.None? || host.value !in s.boots || s.boots[host.value] == "";
            && (silent || s.boots[host.value] == Recorded(p) ==> s1 == s.(control := s.control.(stage := JudgeStuck)))
            && (!silent && Recorded(p) == "" && s.pod.Some? ==>
                  Next(cfg, s1, b).pod
                  == Some(s.pod.value.(annotations := s.pod.value.annotations[HOST_BOOT_ID := s.boots[host.value]])))
  {
  }

  /** A terminating Pod is not judged. */
  lemma TerminatingPodIsNotJudged(cfg: Settings, s: State, p: Pod, a: Step)
    requires Stands(s, GetNode, p) && p.deleting && a.Go?
    ensures Next(cfg, s, a) == At(s, GetService)
  {
  }

  // ----- Stuck starts -----

  /** Pending for two minutes with every container stopped, none over a failed image pull. */
  ghost predicate StuckAt(p: Pod, now: int) {
    && p.status.phase == Pending && p.status.containers != [] && p.created + 120_000_000_000 <= now
    && forall i :: 0 <= i < |p.status.containers| ==> StoppedAt(p.status.containers[i], now)
  }

  ghost predicate StoppedAt(c: ContainerState, now: int) {
    && c.terminated.Some? && !Contains(c.terminated.value.message, "image pull failed")
    && c.terminated.value.finishedAt + 120_000_000_000 <= now
  }

  /** A stuck Pod is removed by two calls, and a Pod that is not is left alone and the reconcile goes on. */
  lemma StuckPodIsRecovered(cfg: Settings, s: State, p: Pod, a: Step, b: Step)
    requires Stands(s, JudgeStuck, p) && a.Go? && b.Go?
    ensures var s1 := Next(cfg, s, a);
            && (StuckAt(p, a.now) ==> Next(cfg, s1, b).control.Idle? && Ended(Next(cfg, s1, b), p))
            && (!StuckAt(p, a.now) ==> s1 == s.(control := s.control.(stage := GetService)))
  {
    StuckMeans(p, a.now);
    JudgedStuck(cfg, s, p, a);
    if StuckAt(p, a.now) {
      RemovalEnds(cfg, Next(cfg, s, a), p, b);
    }
  }

  lemma StuckMeans(p: Pod, now: int)
    ensures StuckAt(p, now) <==> Stuck(p.status) && GraceOver(p.status, p.created, now)
  {
    if Stuck(p.status) && GraceOver(p.status, p.created, now) {
      forall i | 0 <= i < |p.status.containers| ensures StoppedAt(p.status.containers[i], now) {
        assert StoppedForGood(p.status.containers[i]);
      }
    }
    if StuckAt(p, now) {
      forall i | 0 <= i < |p.status.containers| ensures StoppedForGood(p.status.containers[i]) {
        assert StoppedAt(p.status.containers[i], now);
      }
    }
  }

  lemma JudgedStuck(cfg: Settings, s: State, p: Pod, a: Step)
    requires s.versions != [] && a.Go? && s.control.Busy? && s.control.stage == JudgeStuck && s.control.pod == Some(p)
    ensures Next(cfg, s, a)
            == At(s, if Stuck(p.status) && GraceOver(p.status, p.created, a.now) then RemoveStuck else GetService)
  {
  }

  // ----- Pod, Service and status -----

  /** An existing Pod of this Instance gets the wanted annotations; somebody else's ends the reconcile untouched. */
  lemma PodIsBroughtUpToDate(cfg: Settings, s: State, a: Step, b: Step)
    requires Sound(s) && s.control.Busy? && s.control.stage == GetPod && s.pod.Some? && a.Go? && b.Go?
    ensures var c, p, s' := s.control, s.pod.value, Next(cfg, Next(cfg, s, a), b);
            var q := p.(annotations := Mutate(cfg.config, c.inst.annotations, p.annotations));
            if p.owner != c.inst.uid then s' == s.(control := Idle)
            else s' == s.(pod := Some(q), control := c.(stage := GetNode, pod := Some(q)))
  {
    var c, p := s.control, s.pod.value;
    var mid := s.(control := c.(stage := PatchPod, pod := Some(p)));
    assert Next(cfg, s, a) == mid;
    PatchGives(p.annotations, Mutate(cfg.config, c.inst.annotations, p.annotations));
    PatchedPod(cfg, mid, p, b);
  }

  lemma PatchGives(base: Annotations, wanted: Annotations)
    ensures PatchMap(base, DiffMaps(base, wanted)) == wanted
  {
    forall k ensures Get(PatchMap(base, DiffMaps(base, wanted)), k) == Get(wanted, k) {
      PatchTouchesOnlyDifferences(base, wanted, base, k);
    }
    SameLookups(PatchMap(base, DiffMaps(base, wanted)), wanted);
  }

  lemma PatchedPod(cfg: Settings, s: State, p: Pod, b: Step)
    requires s.versions != [] && b.Go? && s.control.Busy? && s.control.stage == PatchPod
    requires s.pod == s.control.pod == Some(p)
    requires var wanted := Mutate(cfg.config, s.control.inst.annotations, p.annotations);
             PatchMap(p.annotations, DiffMaps(p.annotations, wanted)) == wanted
    ensures var c := s.control;
            var q := p.(annotations := Mutate(cfg.config, c.inst.annotations, p.annotations));
            Next(cfg, s, b) ==
            if p.owner != c.inst.uid then s.(control := Idle)
            else s.(pod := Some(q), control := c.(stage := GetNode, pod := Some(q)))
  {
  }

  /** There is a Service exactly if the Instance has ports, and somebody else's is not touched. */
  lemma ServiceFollowsPorts(cfg: Settings, s: State, a: Step, b: Step)
    requires Sound(s) && s.control.Busy? && s.control.stage == GetService && a.Go? && b.Go?
    ensures var c, s' := s.control, Next(cfg, Next(cfg, s, a), b);
            var done := c.(stage := PatchInstance);
            if !c.inst.hasPorts then
              && s' == s.(service := s'.service, control := done)
              && s'.service == if s.service.Some? then Some(s.service.value.(deleting := true)) else None
            else if s.service.None? then s' == s.(service := Some(Service(c.inst.uid, false)), control := done)
            else s' == s.(control := if s.service.value.owner == c.inst.uid then done else Idle)
  {
  }

  /** An object that somebody else has created under the name since it was looked up ends the reconcile. */
  lemma TakenNameEndsReconcile(cfg: Settings, s: State, a: Step)
    requires Sound(s) && s.control.Busy? && a.Go?
    requires || (s.control.stage == CreatePod && s.pod.Some?)
             || (s.control.stage == CreateService && s.service.Some?)
    ensures Next(cfg, s, a) == s.(control := Idle)
  {
  }

  /** One that has gone since ends it exactly if there was anything to patch. */
  lemma VanishedObjectEndsReconcileIff(cfg: Settings, s: State, a: Step)
    requires Sound(s) && s.control.Busy? && a.Go?
    ensures s.control.stage == PatchPod && s.pod.None? && s.control.pod.Some? ==>
              var c, p := s.control, s.control.pod.value;
              p.owner == c.inst.uid ==>
                Next(cfg, s, a)
                == if a.touched || Mutate(cfg.config, c.inst.annotations, p.annotations) != p.annotations
                   then s.(control := Idle)
                   else s.(control := c.(stage := GetNode))
    ensures s.control.stage == PatchService && s.service.None? ==>
              Next(cfg, s, a) == s.(control := if a.touched then Idle else s.control.(stage := PatchInstance))
  {
  }

  /**
   The status of the Instance ends up saying what the Pod says, when nobody has written the Instance since it was read.
   Otherwise nothing is written.
   */
  lemma StatusIsReported(cfg: Settings, s: State, p: Pod, a: Step)
    requires Stands(s, PatchInstance, p) && a.Go?
    requires s.control.ver < |s.versions| && s.versions[s.control.ver] == Some(s.control.inst)
    ensures Reports(cfg, s, Next(cfg, s, a), p, a.now)
  {
    ReportMoves(cfg, s, p, a);
    ReportedSays(cfg, s.control.inst, p, a.now);
  }

  /** The step from `s` to `s'` ends the reconcile and changes nothing but the status, which says what the Pod says. */
  ghost predicate Reports(cfg: Settings, s: State, s': State, p: Pod, now: int) {
    && s.control.Busy? && s' == s.(versions := s'.versions, control := Idle)
    && var i := s.control.inst;
       if s.control.ver != |s.versions| - 1 then s'.versions == s.versions
       else
         && Current(s').Some? && Current(s').value == i.(status := Current(s').value.status)
         && SaysAs(Current(s').value.status, i, cfg.vpc, p, now)
  }

  /** The status is that of a sync of this Instance with this Pod. An absent hash counts as an empty one. */
  ghost predicate SaysAs(st: Status.Status, i: Instance, vpc: bool, p: Pod, now: int) {
    var synced := Sync(i.spec, i.deleting, vpc, p.status, i.status, now).status;
    st == synced.(observedHash := st.observedHash) && HashText(st.observedHash) == HashText(synced.observedHash)
  }

  /** What the Instance says after the patch, if there is one. */
  function Reported(i: Instance, patch: Option<StatusPatch>): Instance {
    if patch.Some? then WithPatch(i, patch.value) else i
  }

  lemma ReportedSays(cfg: Settings, i: Instance, p: Pod, now: int)
    ensures var i' := Reported(i, StatusPatchOf(cfg, i, p, now));
            i' == i.(status := i'.status) && SaysAs(i'.status, i, cfg.vpc, p, now)
  {
    var synced := Sync(i.spec, i.deleting, cfg.vpc, p.status, i.status, now);
    if synced.changed {
      PatchOnBase(i.status, synced.status);
    } else {
      UnchangedMeansSame(i.spec, i.deleting, cfg.vpc, p.status, i.status, now);
    }
  }

  /** The call either writes the current version as patched, or nothing. */
  lemma ReportMoves(cfg: Settings, s: State, p: Pod, a: Step)
    requires Stands(s, PatchInstance, p) && a.Go?
    requires s.control.ver < |s.versions| && s.versions[s.control.ver] == Some(s.control.inst)
    ensures var c, s' := s.control, Next(cfg, s, a);
            && s' == s.(versions := s'.versions, control := Idle)
            && (c.ver != |s.versions| - 1 ==> s'.versions == s.versions)
            && (c.ver == |s.versions| - 1 ==>
                  Current(s') == Some(Reported(c.inst, StatusPatchOf(cfg, c.inst, p, a.now))))
  {
    assert Next(cfg, s, a) == Sent(s, StatusPatchOf(cfg, s.control.inst, p, a.now));
  }

  // ----- A whole reconcile -----

  /** How many calls a reconcile that creates a Pod has left at most. */
  function CallsLeft(c: Control): nat {
    if c.Idle? then 0
    else match c.stage
      case AddFinalizer => 8
      case GetPod => 7
      case CreatePod => 6
      case GetNode => 5
      case JudgeStuck => 4
      case GetService => 3
      case PatchInstance => 1
      case _ => 2
  }

  /** The Pod was created for this Instance by this reconcile, and nothing has happened to it. */
  ghost predicate IsNew(wanted: Annotations, uid: nat, i: Instance, pod: Option<Pod>) {
    && pod.Some? && pod.value.uid == uid && pod.value.owner == i.uid && !pod.value.deleting && pod.value.node == ""
    && pod.value.annotations == wanted
    && pod.value.status == PodStatus(Pending, "", [], [], [])
  }

  ghost predicate ServiceIsRight(i: Instance, x: Option<Service>) {
    if i.hasPorts then x.Some? && x.value.owner == i.uid else x.Some? ==> x.value.deleting
  }

  /** The Instance with the finalizer, its Pod and Service in place, and reported as being provisioned. */
  ghost predicate Programmed(wanted: Annotations, uid: nat, i: Instance, s: State) {
    && IsNew(wanted, uid, i, s.pod) && ServiceIsRight(i, s.service) && Current(s).Some?
    && var cur := Current(s).value;
       && cur == i.(finalizer := true, status := cur.status)
       && Says(cur.status.conditions, "Available", Unclear, "Provisioning", Plain("Instance is provisioning"))
       && Says(cur.status.conditions, "Programmed", Unclear, "ProgrammingInProgress",
               Plain("Instance is provisioning"))
  }

  /** The stages that such a reconcile passes through. */
  predicate OnPath(stage: Stage) {
    || stage.AddFinalizer? || stage.GetPod? || stage.CreatePod? || stage.GetNode? || stage.JudgeStuck?
    || stage.GetService? || stage.CreateService? || stage.PatchService? || stage.DropService? || stage.PatchInstance?
  }

  /** A reconcile of `i` that found no Pod is on its way, and nobody has disturbed it. */
  ghost predicate OnItsWay(wanted: Annotations, uid: nat, i: Instance, s: State) {
    s.versions != [] &&
    if s.control.Idle? then Programmed(wanted, uid, i, s)
    else
      var c, left := s.control, CallsLeft(s.control);
      && c.ver == Last(s) && Current(s) == Some(c.inst)
      && c.inst == (if c.stage.AddFinalizer? then i else i.(finalizer := true))
      && OnPath(c.stage)
      && (s.service.Some? ==> s.service.value.owner == i.uid)
      && (if 6 <= left then s.pod.None? && s.nextUid == uid else IsNew(wanted, uid, i, s.pod) && c.pod == s.pod)
      && (c.stage.CreateService? ==> s.service.None? && i.hasPorts)
      && (c.stage.PatchService? ==> s.service.Some? && i.hasPorts)
      && (c.stage.DropService? ==> !i.hasPorts)
      && (c.stage.PatchInstance? ==> ServiceIsRight(i, s.service))
  }

  ghost predicate Advances(wanted: Annotations, uid: nat, i: Instance, s: State, s': State) {
    OnItsWay(wanted, uid, i, s') && (CallsLeft(s'.control) < CallsLeft(s.control) || CallsLeft(s'.control) == 0)
  }

  lemma FinalizerCallAdvances(cfg: Settings, wanted: Annotations, uid: nat, i: Instance, s: State, now: int,
                              touched: bool)
    requires OnItsWay(wanted, uid, i, s) && s.control.Busy? && s.control.stage == AddFinalizer
    ensures Advances(wanted, uid, i, s, PodStep(cfg, s, now, touched))
  {
  }

  lemma CreateCallAdvances(cfg: Settings, wanted: Annotations, uid: nat, i: Instance, s: State, now: int, touched: bool)
    requires OnItsWay(wanted, uid, i, s) && s.control.Busy? && s.control.stage == CreatePod
    requires wanted == Mutate(cfg.config, i.annotations, map[])
    ensures Advances(wanted, uid, i, s, PodStep(cfg, s, now, touched))
  {
    var p := NewPod(cfg, s, s.control.inst, now);
    var s' := s.(pod := Some(p), nextUid := uid + 1, control := s.control.(stage := GetNode, pod := Some(p)));
    assert IsNew(wanted, uid, i, Some(p));
    assert PodStep(cfg, s, now, touched) == s';
    assert OnItsWay(wanted, uid, i, s');
  }

  lemma PodCallAdvances(cfg: Settings, wanted: Annotations, uid: nat, i: Instance, s: State, now: int, touched: bool)
    requires OnItsWay(wanted, uid, i, s) && s.control.Busy? && PodStage(s.control.stage)
    requires wanted == Mutate(cfg.config, i.annotations, map[])
    ensures Advances(wanted, uid, i, s, PodStep(cfg, s, now, touched))
  {
    if s.control.stage == AddFinalizer {
      FinalizerCallAdvances(cfg, wanted, uid, i, s, now, touched);
    } else if s.control.stage == CreatePod {
      CreateCallAdvances(cfg, wanted, uid, i, s, now, touched);
    }
  }

  lemma JudgingAdvances(wanted: Annotations, uid: nat, i: Instance, s: State, stage: Stage)
    requires OnItsWay(wanted, uid, i, s) && s.control.Busy?
    requires if s.control.stage.GetNode? then stage.JudgeStuck? else s.control.stage.JudgeStuck? && stage.GetService?
    ensures Advances(wanted, uid, i, s, At(s, stage))
  {
  }

  /** A new Pod has no host yet and no container that could have stopped. */
  lemma NewPodIsLeftAlone(wanted: Annotations, uid: nat, i: Instance, s: State, now: int)
    requires s.control.Busy? && IsNew(wanted, uid, i, s.control.pod)
    requires s.control.stage == GetNode || s.control.stage == JudgeStuck
    ensures RecoverStep(s, now) == At(s, if s.control.stage == GetNode then JudgeStuck else GetService)
  {
  }

  lemma RecoveryCallAdvances(wanted: Annotations, uid: nat, i: Instance, s: State, now: int)
    requires OnItsWay(wanted, uid, i, s) && s.control.Busy? && RecoverStage(s.control.stage)
    ensures Advances(wanted, uid, i, s, RecoverStep(s, now))
  {
    NewPodIsLeftAlone(wanted, uid, i, s, now);
    JudgingAdvances(wanted, uid, i, s, if s.control.stage == GetNode then JudgeStuck else GetService);
  }

  function ServiceStage(i: Instance, x: Option<Service>): Stage {
    if !i.hasPorts then DropService else if x.None? then CreateService else PatchService
  }

  lemma LookUpLeads(s: State, i: Instance, touched: bool)
    requires s.control.Busy? && s.control.stage == GetService && s.control.inst == i.(finalizer := true)
    requires s.service.Some? ==> s.service.value.owner == i.uid
    ensures ServiceStep(s, touched) == At(s, ServiceStage(i, s.service))
  {
  }

  lemma LookUpMoves(wanted: Annotations, uid: nat, i: Instance, s: State)
    requires OnItsWay(wanted, uid, i, s) && s.control.Busy? && s.control.stage == GetService
    ensures Advances(wanted, uid, i, s, At(s, ServiceStage(i, s.service)))
  {
  }

  lemma LookUpAdvances(wanted: Annotations, uid: nat, i: Instance, s: State, touched: bool)
    requires OnItsWay(wanted, uid, i, s) && s.control.Busy? && s.control.stage == GetService
    ensures Advances(wanted, uid, i, s, ServiceStep(s, touched))
  {
    LookUpLeads(s, i, touched);
    LookUpMoves(wanted, uid, i, s);
  }

  lemma ServiceCallAdvances(wanted: Annotations, uid: nat, i: Instance, s: State, touched: bool)
    requires OnItsWay(wanted, uid, i, s) && s.control.Busy?
    requires s.control.stage.CreateService? || s.control.stage.PatchService? || s.control.stage.DropService?
    ensures Advances(wanted, uid, i, s, ServiceStep(s, touched))
  {
  }

  lemma ReportCallAdvances(cfg: Settings, wanted: Annotations, uid: nat, i: Instance, s: State, a: Step)
    requires OnItsWay(wanted, uid, i, s) && Sound(s) && s.control.Busy? && s.control.stage == PatchInstance
    requires !i.deleting && a.Go?
    ensures Advances(wanted, uid, i, s, Next(cfg, s, a))
  {
    StatusIsReported(cfg, s, s.pod.value, a);
    ReportFinishes(cfg, wanted, uid, i, s, Next(cfg, s, a), a.now);
  }

  lemma ReportFinishes(cfg: Settings, wanted: Annotations, uid: nat, i: Instance, s: State, s': State, now: int)
    requires IsNew(wanted, uid, i, s.pod) && ServiceIsRight(i, s.service) && !i.deleting
    requires s.control.Busy? && s.control.ver == |s.versions| - 1 && s.control.inst == i.(finalizer := true)
    requires Reports(cfg, s, s', s.pod.value, now)
    ensures Advances(wanted, uid, i, s, s')
  {
    ReportedIsProgrammed(cfg, wanted, uid, i, s, s', now);
  }

  lemma ReportedIsProgrammed(cfg: Settings, wanted: Annotations, uid: nat, i: Instance, s: State, s': State, now: int)
    requires IsNew(wanted, uid, i, s.pod) && ServiceIsRight(i, s.service) && !i.deleting
    requires s'.pod == s.pod && s'.service == s.service && Current(s').Some?
    requires var cur, j := Current(s').value, i.(finalizer := true);
             cur == j.(status := cur.status) && SaysAs(cur.status, j, cfg.vpc, s.pod.value, now)
    ensures s'.versions != [] && Programmed(wanted, uid, i, s')
  {
    PhaseIsReported(i.spec, i.deleting, cfg.vpc, s.pod.value.status, i.status, now);
  }

  lemma CallAdvances(cfg: Settings, wanted: Annotations, uid: nat, i: Instance, s: State, now: int, touched: bool)
    requires OnItsWay(wanted, uid, i, s) && Sound(s) && !i.deleting
    requires wanted == Mutate(cfg.config, i.annotations, map[])
    ensures Advances(wanted, uid, i, s, Next(cfg, s, Go(now, touched)))
    ensures Sound(Next(cfg, s, Go(now, touched)))
  {
    CallsKeepSound(cfg, s, now, touched);
    if s.control.Busy? {
      if PodStage(s.control.stage) {
        PodCallAdvances(cfg, wanted, uid, i, s, now, touched);
      } else if RecoverStage(s.control.stage) {
        RecoveryCallAdvances(wanted, uid, i, s, now);
      } else if s.control.stage == PatchInstance {
        ReportCallAdvances(cfg, wanted, uid, i, s, Go(now, touched));
      } else if s.control.stage == GetService {
        LookUpAdvances(wanted, uid, i, s, touched);
      } else {
        ServiceCallAdvances(wanted, uid, i, s, touched);
      }
    }
  }

  lemma CallsKeepSound(cfg: Settings, s: State, now: int, touched: bool)
    requires Sound(s)
    ensures Sound(Next(cfg, s, Go(now, touched)))
  {
    if s.control.Busy? {
      if PodStage(s.control.stage) {
        PodCallKeepsSound(cfg, s, now, touched);
      } else if s.control.stage == PatchInstance {
        ReportKeepsSound(cfg, s, now);
      }
    }
  }

  lemma PodCallKeepsSound(cfg: Settings, s: State, now: int, touched: bool)
    requires Sound(s) && s.control.Busy?
    ensures Sound(PodStep(cfg, s, now, touched))
  {
  }

  lemma ReportKeepsSound(cfg: Settings, s: State, now: int)
    requires Sound(s) && s.control.Busy?
    ensures Sound(ReportStep(cfg, s, now))
  {
  }

  lemma {:induction false} CallsAdvance(cfg: Settings, wanted: Annotations, uid: nat, i: Instance, s: State,
                                        calls: seq<Step>)
    requires OnItsWay(wanted, uid, i, s) && Sound(s) && !i.deleting && forall k :: 0 <= k < |calls| ==> calls[k].Go?
    requires wanted == Mutate(cfg.config, i.annotations, map[])
    ensures var s' := RunFrom(cfg, s, calls);
            && OnItsWay(wanted, uid, i, s') && Sound(s')
            && (CallsLeft(s'.control) == 0 || CallsLeft(s'.control) + |calls| <= 8)
  {
    if calls != [] {
      var pre, last := calls[..|calls| - 1], calls[|calls| - 1];
      CallsAdvance(cfg, wanted, uid, i, s, pre);
      CallAdvances(cfg, wanted, uid, i, RunFrom(cfg, s, pre), last.now, last.touched);
    }
  }

  /**
   An Instance that is to run and has no Pod gets everything in one undisturbed reconcile, from every state that keeps
   the protocol's invariant: after eight calls it carries the finalizer, has a new Pod with the wanted annotations, has
   a Service exactly if it has ports, and is reported as being provisioned.
   */
  lemma InstanceIsProgrammed(cfg: Settings, s: State, i: Instance, calls: seq<Step>)
    requires Safety.Inv(s) && MayRead(s, i) && Wanted(i) && s.pod.None?
    requires 8 <= |calls| && forall k :: 0 <= k < |calls| ==> calls[k].Go?
    ensures var s' := RunFrom(cfg, Next(cfg, s, Read(|s.versions| - 1)), calls);
            s'.control.Idle? && Programmed(Mutate(cfg.config, i.annotations, map[]), s.nextUid, i, s')
  {
    var wanted := Mutate(cfg.config, i.annotations, map[]);
    ReadSetsOut(cfg, wanted, s, i);
    CallsAdvance(cfg, wanted, s.nextUid, i, Next(cfg, s, Read(|s.versions| - 1)), calls);
  }

  lemma ReadSetsOut(cfg: Settings, wanted: Annotations, s: State, i: Instance)
    requires Safety.Inv(s) && MayRead(s, i) && Wanted(i) && s.pod.None?
    ensures var s' := Next(cfg, s, Read(|s.versions| - 1)); OnItsWay(wanted, s.nextUid, i, s') && Sound(s')
  {
  }
}
