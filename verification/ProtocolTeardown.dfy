/**
 Teardown: once a reconcile has seen that an Instance is being deleted nothing is created for it any more, and while
 terminating objects do go away the finalizer is released.
 */
module ProtocolTeardown {
  import opened Options
  import opened Status = InstanceStatus
  import opened Protocol
  import opened ProtocolSafety

  // ----- Deletion is final -----

  ghost predicate IsVersion(v: Option<Instance>, uid: nat) {
    v.Some? && v.value.uid == uid
  }

  /** Uids are never reused, and an incarnation that is being deleted stays so. */
  ghost predicate DeletionIsFinal(s: State) {
    && (forall k :: 0 <= k < |s.versions| && s.versions[k].Some? ==> s.versions[k].value.uid < s.nextUid)
    && forall j, k ::
         && 0 <= j <= k < |s.versions|
         && s.versions[j].Some? && s.versions[j].value.deleting && IsVersion(s.versions[k], s.versions[j].value.uid)
         ==> s.versions[k].value.deleting
  }

  /** A write that continues the current incarnation, or removes it. */
  ghost predicate Continues(s: State, v: Option<Instance>) {
    v.Some? ==> Current(s).Some? && v.value.uid == Current(s).value.uid
                && (Current(s).value.deleting ==> v.value.deleting)
  }

  lemma WriteKeepsFinal(s: State, s': State, v: Option<Instance>)
    requires s.versions != [] && DeletionIsFinal(s) && Continues(s, v)
    requires s'.versions == s.versions + [v] && s'.nextUid == s.nextUid
    ensures DeletionIsFinal(s')
  {
  }

  lemma SameVersionsKeepFinal(s: State, s': State)
    requires DeletionIsFinal(s) && s'.versions == s.versions && s.nextUid <= s'.nextUid
    ensures DeletionIsFinal(s')
  {
  }

  /** What a step does to the versions: nothing, or the write `v` that continues the incarnation. */
  ghost predicate Writes(s: State, s': State, v: Option<Option<Instance>>) {
    && s.nextUid <= s'.nextUid && s'.seen == s.seen
    && (v.None? ==> s'.versions == s.versions)
    && (v.Some? ==> s'.versions == s.versions + [v.value] && Continues(s, v.value) && s'.nextUid == s.nextUid)
  }

  lemma TeardownWrites(s: State) returns (v: Option<Option<Instance>>)
    requires Inv(s) && s.control.Busy?
    ensures Writes(s, TeardownStep(s), v)
  {
    var c := s.control;
    v := if c.stage == Unfinalize && c.ver == Last(s) then Some(Settle(c.inst.(finalizer := false))) else None;
  }

  lemma PodStepWrites(cfg: Settings, s: State, now: int, touched: bool) returns (v: Option<Option<Instance>>)
    requires Inv(s) && s.control.Busy? && PodStage(s.control.stage)
    ensures Writes(s, PodStep(cfg, s, now, touched), v)
  {
    var c := s.control;
    v := if c.stage.AddFinalizer? && c.ver == Last(s) then Some(Some(c.inst.(finalizer := true))) else None;
  }

  lemma GoWrites(cfg: Settings, s: State, now: int, touched: bool) returns (v: Option<Option<Instance>>)
    requires Inv(s)
    ensures Writes(s, GoStep(cfg, s, now, touched), v)
  {
    v := None;
    if s.control.Busy? {
      var c := s.control;
      if TearingDown(c.stage) || c.stage == SuspendPod {
        v := TeardownWrites(s);
      } else if PodStage(c.stage) {
        v := PodStepWrites(cfg, s, now, touched);
      } else if RecoverStage(c.stage) {
      } else if c.stage.PatchInstance? {
        v := ReportWrites(cfg, s, now);
      }
    }
  }

  lemma ReportWrites(cfg: Settings, s: State, now: int) returns (v: Option<Option<Instance>>)
    requires Inv(s) && s.control.Busy?
    ensures Writes(s, ReportStep(cfg, s, now), v)
  {
    var c := s.control;
    v := None;
    if c.pod.Some? {
      v := SentWrites(s, StatusPatchOf(cfg, c.inst, c.pod.value, now));
    }
  }

  lemma SentWrites(s: State, patch: Option<StatusPatch>) returns (v: Option<Option<Instance>>)
    requires Inv(s) && s.control.Busy?
    ensures Writes(s, Sent(s, patch), v)
  {
    var cur := Current(s);
    v := if patch.Some? && cur.Some? && s.control.ver == Last(s)
         then Some(Some(WithPatch(cur.value, patch.value))) else None;
  }

  lemma InstanceKeepsFinal(s: State, step: Step)
    requires s.versions != [] && DeletionIsFinal(s)
    ensures DeletionIsFinal(InstanceStep(s, step))
  {
  }

  lemma NextKeepsFinal(cfg: Settings, s: State, step: Step)
    requires Inv(s) && DeletionIsFinal(s)
    ensures DeletionIsFinal(Next(cfg, s, step))
  {
    match step {
      case Go(now, touched) =>
        var v := GoWrites(cfg, s, now, touched);
        if v.Some? {
          WriteKeepsFinal(s, GoStep(cfg, s, now, touched), v.value);
        } else {
          SameVersionsKeepFinal(s, GoStep(cfg, s, now, touched));
        }
      case UserCreate(_) => InstanceKeepsFinal(s, step);
      case UserDelete => InstanceKeepsFinal(s, step);
      case InstanceWrite(_) => InstanceKeepsFinal(s, step);
      case ComputeWrite(_) => InstanceKeepsFinal(s, step);
      case Read(k) => SameVersionsKeepFinal(s, ReadStep(s, k));
      case Fail => SameVersionsKeepFinal(s, Done(s));
      case _ => SameVersionsKeepFinal(s, BackingStep(s, step));
    }
  }

  lemma {:induction false} RunKeepsFinal(cfg: Settings, steps: seq<Step>)
    ensures DeletionIsFinal(Run(cfg, steps))
  {
    if steps != [] {
      RunKeeps(cfg, steps[..|steps| - 1]);
      RunKeepsFinal(cfg, steps[..|steps| - 1]);
      NextKeepsFinal(cfg, Run(cfg, steps[..|steps| - 1]), steps[|steps| - 1]);
    }
  }

  // ----- Nothing is created once deletion was seen -----

  /** Every version of incarnation `uid` that a read may still return is being deleted. */
  ghost predicate Observed(s: State, uid: nat) {
    && uid < s.nextUid
    && forall k :: s.seen <= k < |s.versions| && IsVersion(s.versions[k], uid) ==> s.versions[k].value.deleting
  }

  ghost predicate OwnsPod(s: State, uid: nat) {
    s.pod.Some? && s.pod.value.owner == uid
  }

  ghost predicate OwnsService(s: State, uid: nat) {
    s.service.Some? && s.service.value.owner == uid
  }

  ghost predicate HoldsFinalizer(s: State, uid: nat) {
    IsVersion(Current(s), uid) && Current(s).value.finalizer
  }

  /**
   Nothing of incarnation `uid` has come back: its Pod and Service in `s'` were there in `s`, as the same objects
   and no less terminating, and its finalizer is held only if it was.
   */
  ghost predicate NoneCreated(s: State, s': State, uid: nat) {
    && (OwnsPod(s', uid) ==>
          && OwnsPod(s, uid) && s'.pod.value.uid == s.pod.value.uid
          && (s.pod.value.deleting ==> s'.pod.value.deleting))
    && (OwnsService(s', uid) ==> OwnsService(s, uid) && (s.service.value.deleting ==> s'.service.value.deleting))
    && (HoldsFinalizer(s', uid) ==> HoldsFinalizer(s, uid))
  }

  lemma NextKeepsObserved(cfg: Settings, s: State, step: Step, uid: nat)
    requires Inv(s) && Observed(s, uid)
    ensures Observed(Next(cfg, s, step), uid)
  {
    match step {
      case Go(now, touched) => var v := GoWrites(cfg, s, now, touched);
      case UserCreate(_) => InstanceKeepsObserved(s, step, uid);
      case UserDelete => InstanceKeepsObserved(s, step, uid);
      case InstanceWrite(_) => InstanceKeepsObserved(s, step, uid);
      case ComputeWrite(_) => InstanceKeepsObserved(s, step, uid);
      case _ =>
    }
  }

  lemma InstanceKeepsObserved(s: State, step: Step, uid: nat)
    requires Inv(s) && Observed(s, uid)
    ensures Observed(InstanceStep(s, step), uid)
  {
  }

  lemma TeardownCreatesNothing(s: State, uid: nat)
    requires Inv(s) && s.control.Busy?
    ensures NoneCreated(s, TeardownStep(s), uid)
  {
  }

  lemma PodStepCreatesNothing(cfg: Settings, s: State, now: int, touched: bool, uid: nat)
    requires Inv(s) && s.control.Busy? && PodStage(s.control.stage) && s.control.inst.uid != uid
    ensures NoneCreated(s, PodStep(cfg, s, now, touched), uid)
  {
  }

  lemma RecoveryCreatesNothing(s: State, now: int, uid: nat)
    requires Inv(s) && s.control.Busy?
    ensures NoneCreated(s, RecoverStep(s, now), uid)
  {
  }

  lemma ServiceStepCreatesNothing(s: State, touched: bool, uid: nat)
    requires Inv(s) && s.control.Busy? && s.control.inst.uid != uid
    ensures NoneCreated(s, ServiceStep(s, touched), uid)
  {
  }

  lemma ReportCreatesNothing(cfg: Settings, s: State, now: int, uid: nat)
    requires Inv(s) && s.control.Busy?
    ensures NoneCreated(s, ReportStep(cfg, s, now), uid)
  {
  }

  lemma GoCreatesNothing(cfg: Settings, s: State, now: int, touched: bool, uid: nat)
    requires Inv(s) && Observed(s, uid)
    ensures NoneCreated(s, GoStep(cfg, s, now, touched), uid)
  {
    if s.control.Busy? {
      var c := s.control;
      assert !TearingDown(c.stage) ==> c.inst.uid != uid;
      if TearingDown(c.stage) || c.stage == SuspendPod {
        TeardownCreatesNothing(s, uid);
      } else if PodStage(c.stage) {
        PodStepCreatesNothing(cfg, s, now, touched, uid);
      } else if RecoverStage(c.stage) {
        RecoveryCreatesNothing(s, now, uid);
      } else if c.stage.PatchInstance? {
        ReportCreatesNothing(cfg, s, now, uid);
      } else {
        ServiceStepCreatesNothing(s, touched, uid);
      }
    }
  }

  lemma NextCreatesNothing(cfg: Settings, s: State, step: Step, uid: nat)
    requires Inv(s) && Observed(s, uid)
    ensures NoneCreated(s, Next(cfg, s, step), uid)
  {
    if step.Go? {
      GoCreatesNothing(cfg, s, step.now, step.touched, uid);
    }
  }

  lemma NoneCreatedChains(s: State, mid: State, s': State, uid: nat)
    requires NoneCreated(s, mid, uid) && NoneCreated(mid, s', uid)
    ensures NoneCreated(s, s', uid)
  {
  }

  /** The objects of incarnation `uid` that still have to go. */
  ghost function Remaining(s: State, uid: nat): nat {
    (if OwnsPod(s, uid) then 1 else 0) + (if OwnsService(s, uid) then 1 else 0)
  }

  lemma {:induction false} RunCreatesNothing(cfg: Settings, s: State, more: seq<Step>, uid: nat)
    requires Inv(s) && Observed(s, uid)
    ensures var s' := RunFrom(cfg, s, more);
            Inv(s') && Observed(s', uid) && NoneCreated(s, s', uid)
  {
    if more != [] {
      var pre, step := more[..|more| - 1], more[|more| - 1];
      RunCreatesNothing(cfg, s, pre, uid);
      var mid := RunFrom(cfg, s, pre);
      NextKeeps(cfg, mid, step);
      NextKeepsObserved(cfg, mid, step, uid);
      NextCreatesNothing(cfg, mid, step, uid);
      NoneCreatedChains(s, mid, Next(cfg, mid, step), uid);
    }
  }

  /**
   Teardown never goes back. Take any reachable state in which the latest Instance a reconcile has read is being
   deleted. Whatever happens afterwards, in any interleaving and also if the name is used again, no Pod or Service is
   ever created for that incarnation, a terminating one stays so, their number never grows, and its finalizer,
   once released, is never taken again.
   */
  lemma {:induction false} TeardownNeverGoesBack(cfg: Settings, steps: seq<Step>, more: seq<Step>)
    requires var s := Run(cfg, steps);
             s.seen < |s.versions| && s.versions[s.seen].Some? && s.versions[s.seen].value.deleting
    ensures var s := Run(cfg, steps);
            var s', uid := RunFrom(cfg, s, more), s.versions[s.seen].value.uid;
            NoneCreated(s, s', uid) && Remaining(s', uid) <= Remaining(s, uid)
  {
    var s := Run(cfg, steps);
    RunKeeps(cfg, steps);
    RunKeepsFinal(cfg, steps);
    RunCreatesNothing(cfg, s, more, s.versions[s.seen].value.uid);
  }

  // ----- The finalizer is released -----

  /** A call of the reconciler that does not fail, or an action on backing objects or hosts. */
  predicate Quiet(step: Step) {
    || step.Go? || step.PodWrite? || step.PodEvict? || step.PodGone? || step.ServiceGone?
    || step.HostReports? || step.HostLeaves?
  }

  function Calls(steps: seq<Step>): nat {
    if steps == [] then 0 else Calls(steps[..|steps| - 1]) + if steps[|steps| - 1].Go? then 1 else 0
  }

  function StageNumber(stage: Stage): nat {
    match stage
    case DeletePod => 0
    case DeleteService => 1
    case CheckPod => 2
    case CheckService => 3
    case Unfinalize => 4
    case _ => 5
  }

  ghost predicate Marked(s: State) {
    (s.pod.Some? ==> s.pod.value.deleting) && (s.service.Some? ==> s.service.value.deleting)
  }

  ghost predicate Released(s: State, i: Instance) {
    Current(s) == Settle(i.(finalizer := false))
  }

  /** A teardown of `i` after `calls` undisturbed calls. `absent` says that there was nothing left to begin with. */
  ghost predicate InRound(s: State, i: Instance, calls: nat, absent: bool) {
    && s.versions != []
    && (1 <= calls && s.pod.Some? ==> s.pod.value.deleting)
    && (2 <= calls && s.service.Some? ==> s.service.value.deleting)
    && (absent ==> s.pod.None? && s.service.None?)
    && (s.control.Busy? ==>
          && TearingDown(s.control.stage) && StageNumber(s.control.stage) == calls
          && s.control.ver == Last(s) && s.control.inst == i && Current(s) == Some(i))
    && (s.control.Idle? ==> 3 <= calls && (Released(s, i) || (!absent && Current(s) == Some(i))))
  }

  lemma QuietStep(cfg: Settings, s: State, step: Step, i: Instance, calls: nat, absent: bool)
    requires InRound(s, i, calls, absent) && Quiet(step)
    ensures InRound(Next(cfg, s, step), i, calls + if step.Go? then 1 else 0, absent)
  {
    if !step.Go? {
      QuietBacking(s, step, i, calls, absent);
    } else if s.control.Busy? {
      QuietCall(s, i, calls, absent);
    }
  }

  lemma QuietCall(s: State, i: Instance, calls: nat, absent: bool)
    requires InRound(s, i, calls, absent) && s.control.Busy?
    ensures InRound(TeardownStep(s), i, calls + 1, absent)
  {
  }

  lemma QuietBacking(s: State, step: Step, i: Instance, calls: nat, absent: bool)
    requires InRound(s, i, calls, absent)
    ensures InRound(BackingStep(s, step), i, calls, absent)
  {
  }

  lemma {:induction false} QuietRun(cfg: Settings, s: State, steps: seq<Step>, i: Instance, absent: bool)
    requires InRound(s, i, 0, absent) && forall k :: 0 <= k < |steps| ==> Quiet(steps[k])
    ensures InRound(RunFrom(cfg, s, steps), i, Calls(steps), absent)
  {
    if steps != [] {
      var pre := steps[..|steps| - 1];
      QuietRun(cfg, s, pre, i, absent);
      QuietStep(cfg, RunFrom(cfg, s, pre), steps[|steps| - 1], i, Calls(pre), absent);
    }
  }

  /** A reconcile starts on the current version of a deleting Instance that carries the finalizer. */
  ghost predicate CanTearDown(s: State, i: Instance) {
    Inv(s) && s.control.Idle? && Current(s) == Some(i) && i.deleting && i.finalizer
  }

  /**
   One teardown during which nobody writes the Instance, however backing objects and hosts change meanwhile. After
   two calls everything that is left is terminating. If nothing was left at the start, five calls release the finalizer,
   and with it the Instance when no other finalizer holds it. The Instance is not otherwise changed.
   */
  lemma {:induction false} QuietTeardown(cfg: Settings, s: State, i: Instance, steps: seq<Step>)
    requires CanTearDown(s, i) && forall k :: 0 <= k < |steps| ==> Quiet(steps[k])
    ensures var s' := RunFrom(cfg, ReadStep(s, Last(s)), steps);
            && (2 <= Calls(steps) ==> Marked(s'))
            && (Current(s') == Some(i) || Released(s', i))
            && (5 <= Calls(steps) ==> s'.control.Idle?)
            && (5 <= Calls(steps) && s.pod.None? && s.service.None? ==>
                  && Released(s', i)
                  && (!i.otherFinalizers ==> Current(s').None?))
  {
    QuietRun(cfg, ReadStep(s, Last(s)), steps, i, s.pod.None? && s.service.None?);
  }

  lemma {:induction false} RunFromKeeps(cfg: Settings, s: State, steps: seq<Step>)
    requires Inv(s)
    ensures Inv(RunFrom(cfg, s, steps))
  {
    if steps != [] {
      RunFromKeeps(cfg, s, steps[..|steps| - 1]);
      NextKeeps(cfg, RunFrom(cfg, s, steps[..|steps| - 1]), steps[|steps| - 1]);
    }
  }

  /** Kraftlet and the garbage collector finish with whatever is terminating. */
  function Collected(s: State): State {
    BackingStep(BackingStep(s, PodGone), ServiceGone)
  }

  /**
   Teardown completes. One undisturbed teardown, the removal of what it left terminating, and a second
   undisturbed teardown release the finalizer, from every reachable state.
   */
  lemma {:induction false} TeardownCompletes(cfg: Settings, steps: seq<Step>, i: Instance,
                                             first: seq<Step>, second: seq<Step>)
    requires CanTearDown(Run(cfg, steps), i)
    requires forall k :: 0 <= k < |first| ==> Quiet(first[k])
    requires forall k :: 0 <= k < |second| ==> Quiet(second[k])
    requires 5 <= Calls(first) && 5 <= Calls(second)
    ensures var s := Run(cfg, steps);
            var mid := Collected(RunFrom(cfg, ReadStep(s, Last(s)), first));
            mid.versions != [] &&
            var s' := RunFrom(cfg, ReadStep(mid, Last(mid)), second);
            Released(s', i) && (!i.otherFinalizers ==> Current(s').None?)
  {
    var s := Run(cfg, steps);
    var start := ReadStep(s, Last(s));
    QuietTeardown(cfg, s, i, first);
    ReadKeeps(s, Last(s));
    RunFromKeeps(cfg, start, first);
    SecondTeardown(cfg, RunFrom(cfg, start, first), i, second);
  }

  lemma {:induction false} SecondTeardown(cfg: Settings, s: State, i: Instance, steps: seq<Step>)
    requires Inv(s) && s.control.Idle? && Marked(s) && i.deleting && i.finalizer
    requires Current(s) == Some(i) || Released(s, i)
    requires 5 <= Calls(steps) && forall k :: 0 <= k < |steps| ==> Quiet(steps[k])
    ensures var mid := Collected(s);
            mid.versions != [] &&
            var s' := RunFrom(cfg, ReadStep(mid, Last(mid)), steps);
            Released(s', i) && (!i.otherFinalizers ==> Current(s').None?)
  {
    var mid := Collected(s);
    BackingKeeps(s, PodGone);
    BackingKeeps(BackingStep(s, PodGone), ServiceGone);
    assert Current(mid) == Current(s) && mid.pod.None? && mid.service.None?;
    if Current(mid) == Some(i) {
      QuietTeardown(cfg, mid, i, steps);
    } else {
      assert ReadStep(mid, Last(mid)).control.Idle?;
      IdleIsQuiet(cfg, ReadStep(mid, Last(mid)), steps);
    }
  }

  lemma {:induction false} IdleIsQuiet(cfg: Settings, s: State, steps: seq<Step>)
    requires s.control.Idle? && forall k :: 0 <= k < |steps| ==> Quiet(steps[k])
    ensures RunFrom(cfg, s, steps).control.Idle? && RunFrom(cfg, s, steps).versions == s.versions
  {
    if steps != [] {
      IdleIsQuiet(cfg, s, steps[..|steps| - 1]);
    }
  }
}
