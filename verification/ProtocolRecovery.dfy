/**
 Recovery over every interleaving: a Pod's boot ID is recorded once and for all, and recovery deletes a Pod only for a
 cause that holds of that very Pod.
 */
module ProtocolRecovery {
  import opened Options
  import opened Status = InstanceStatus
  import opened Meta = PodMetadata
  import opened Recovery
  import opened Protocol

  // ----- Runs -----

  ghost predicate Stepped(cfg: Settings, h: seq<State>, steps: seq<Step>, k: nat)
    requires k < |steps| && |h| == |steps| + 1
  {
    h[k + 1] == Next(cfg, h[k], steps[k])
  }

  /** `h` are the states of the run `steps`: `h[k]` is the one before step `k`, and the last is where the run leads. */
  ghost predicate IsRun(cfg: Settings, h: seq<State>, steps: seq<Step>) {
    |h| == |steps| + 1 && h[0] == INITIAL && forall k :: 0 <= k < |steps| ==> Stepped(cfg, h, steps, k)
  }

  ghost function States(cfg: Settings, steps: seq<Step>): seq<State> {
    if steps == [] then [INITIAL] else States(cfg, steps[..|steps| - 1]) + [Run(cfg, steps)]
  }

  lemma {:induction false} StatesAreRun(cfg: Settings, steps: seq<Step>)
    ensures IsRun(cfg, States(cfg, steps), steps) && States(cfg, steps)[|steps|] == Run(cfg, steps)
  {
    if steps != [] {
      var pre, n := steps[..|steps| - 1], |steps| - 1;
      StatesAreRun(cfg, pre);
      var before, h := States(cfg, pre), States(cfg, steps);
      forall k | 0 <= k < |steps| ensures Stepped(cfg, h, steps, k) {
        if k < n {
          assert Stepped(cfg, before, pre, k);
        }
      }
    }
  }

  lemma RunPrefix(cfg: Settings, h: seq<State>, steps: seq<Step>, n: nat)
    requires IsRun(cfg, h, steps) && n <= |steps|
    ensures IsRun(cfg, h[..n + 1], steps[..n])
  {
    var h', steps' := h[..n + 1], steps[..n];
    forall k | 0 <= k < n ensures Stepped(cfg, h', steps', k) {
      assert Stepped(cfg, h, steps, k);
    }
  }

  // ----- What hosts reported -----

  /** The report at `i` is the latest one of that host before step `r`. */
  ghost predicate LatestReport(steps: seq<Step>, host: string, bootId: string, i: nat, r: nat) {
    && i < r <= |steps| && steps[i] == HostReports(host, bootId)
    && forall k :: i < k < r && steps[k].HostReports? ==> steps[k].host != host
  }

  predicate IsReport(step: Step, host: string) {
    step.HostReports? && step.host == host && step.bootId != ""
  }

  /** What a host is known to report is its latest report. */
  lemma {:induction false} BootsAreLatest(cfg: Settings, h: seq<State>, steps: seq<Step>, host: string, n: nat)
    returns (j: nat)
    requires IsRun(cfg, h, steps) && n <= |steps| && host in h[n].boots
    ensures LatestReport(steps, host, h[n].boots[host], j, n)
  {
    var m := n - 1;
    assert Stepped(cfg, h, steps, m);
    BootsChange(cfg, h[m], steps[m], host);
    if steps[m].HostReports? && steps[m].host == host {
      j := m;
    } else {
      j := BootsAreLatest(cfg, h, steps, host, m);
    }
  }

  lemma BootsChange(cfg: Settings, s: State, step: Step, host: string)
    ensures var s' := Next(cfg, s, step);
            host in s'.boots ==>
              if step.HostReports? && step.host == host then s'.boots[host] == step.bootId
              else host in s.boots && s'.boots[host] == s.boots[host]
  {
    if step.Go? {
      GoKeepsBoots(cfg, s, step.now, step.touched);
    }
  }

  lemma GoKeepsBoots(cfg: Settings, s: State, now: int, touched: bool)
    ensures GoStep(cfg, s, now, touched).boots == s.boots
  {
  }

  // ----- The invariant -----

  ghost predicate SamePod(p: Pod, q: Pod) {
    && p.uid == q.uid && (p.node != "" ==> q.node == p.node)
    && Get(p.annotations, HOST_BOOT_ID) == Get(q.annotations, HOST_BOOT_ID)
  }

  /** Only Pods bound to a host have a boot ID, and it is not empty. */
  ghost predicate RecordedRightly(p: Pod) {
    HOST_BOOT_ID in p.annotations ==> Recorded(p) != "" && HostOf(p.node).Some?
  }

  ghost predicate PodInHand(s: State, c: Control)
    requires c.Busy? && c.pod.Some?
  {
    var p := c.pod.value;
    && p.uid < s.nextUid && RecordedRightly(p) && (s.pod.Some? ==> SamePod(p, s.pod.value))
    && (c.stage == RecordBoot ==> HOST_BOOT_ID !in p.annotations && HostOf(p.node).Some? && c.boot != "")
    && (c.stage == RemoveRebooted ==> HOST_BOOT_ID in p.annotations)
  }

  ghost predicate RecInv(s: State) {
    && (s.pod.Some? ==> s.pod.value.uid < s.nextUid && RecordedRightly(s.pod.value))
    && (s.control.Busy? ==>
          if s.control.pod.Some? then PodInHand(s, s.control) else !RecoverStage(s.control.stage))
  }

  // ----- Every step keeps it -----

  lemma NewPodIsUnrecorded(cfg: Settings, s: State, i: Instance, now: int)
    ensures HOST_BOOT_ID !in NewPod(cfg, s, i, now).annotations
  {
    BootIdIsLeftAlone(cfg.config, i.annotations, map[]);
    assert Get(NewPod(cfg, s, i, now).annotations, HOST_BOOT_ID) == None;
  }

  lemma PatchLeavesBootId(cfg: Settings, i: Instance, observed: Pod, p: Pod)
    ensures Get(Patched(cfg, i, observed, p).annotations, HOST_BOOT_ID) == Get(p.annotations, HOST_BOOT_ID)
    ensures HOST_BOOT_ID in Patched(cfg, i, observed, p).annotations <==> HOST_BOOT_ID in p.annotations
    ensures Recorded(Patched(cfg, i, observed, p)) == Recorded(p)
  {
    var wanted := Mutate(cfg.config, i.annotations, observed.annotations);
    BootIdIsLeftAlone(cfg.config, i.annotations, observed.annotations);
    PatchTouchesOnlyDifferences(observed.annotations, wanted, p.annotations, HOST_BOOT_ID);
  }

  lemma CreatePodKeeps(cfg: Settings, s: State, now: int, touched: bool)
    requires RecInv(s) && s.control.Busy? && s.control.stage.CreatePod? && s.versions != []
    ensures RecInv(PodStep(cfg, s, now, touched))
  {
    NewPodIsUnrecorded(cfg, s, s.control.inst, now);
  }

  /** The state after the Pod was read back as `q`. */
  function WithPod(s: State, q: Pod): State
    requires s.control.Busy?
  {
    s.(pod := Some(q), control := s.control.(stage := GetNode, pod := Some(q)))
  }

  lemma ReadBackKeeps(s: State, q: Pod)
    requires RecInv(s) && s.control.Busy? && s.pod.Some?
    requires q.uid == s.pod.value.uid && q.node == s.pod.value.node
    requires HOST_BOOT_ID in q.annotations <==> HOST_BOOT_ID in s.pod.value.annotations
    requires Recorded(q) == Recorded(s.pod.value)
    ensures RecInv(WithPod(s, q))
  {
  }

  lemma PatchPodKeeps(cfg: Settings, s: State, now: int, touched: bool)
    requires RecInv(s) && s.control.Busy? && s.control.stage.PatchPod? && s.versions != []
    ensures RecInv(PodStep(cfg, s, now, touched))
  {
    var c, s' := s.control, PodStep(cfg, s, now, touched);
    if s' != Done(s) && s' != At(s, GetNode) {
      var q := Patched(cfg, c.inst, c.pod.value, s.pod.value);
      PatchLeavesBootId(cfg, c.inst, c.pod.value, s.pod.value);
      ReadBackKeeps(s, q);
    }
  }

  lemma PodStepKeeps(cfg: Settings, s: State, now: int, touched: bool)
    requires RecInv(s) && s.control.Busy? && PodStage(s.control.stage) && s.versions != []
    ensures RecInv(PodStep(cfg, s, now, touched))
  {
    if s.control.stage.CreatePod? {
      CreatePodKeeps(cfg, s, now, touched);
    } else if s.control.stage.PatchPod? {
      PatchPodKeeps(cfg, s, now, touched);
    }
  }

  lemma RecoverStepKeeps(s: State, now: int)
    requires RecInv(s) && s.control.Busy? && RecoverStage(s.control.stage)
    ensures RecInv(RecoverStep(s, now))
  {
  }

  lemma TeardownStepKeeps(s: State)
    requires RecInv(s) && s.control.Busy? && s.versions != []
    ensures RecInv(TeardownStep(s))
  {
  }

  lemma ServiceStepKeeps(s: State, touched: bool)
    requires RecInv(s) && s.control.Busy?
    ensures RecInv(ServiceStep(s, touched))
  {
  }

  lemma ReportLeavesPod(cfg: Settings, s: State, now: int)
    requires s.control.Busy? && s.versions != []
    ensures var s' := ReportStep(cfg, s, now);
            s'.pod == s.pod && s'.control.Idle? && s'.nextUid == s.nextUid
  {
  }

  lemma OtherCallsKeep(cfg: Settings, s: State, now: int, touched: bool)
    requires RecInv(s) && s.control.Busy? && s.versions != []
    requires !PodStage(s.control.stage) && !RecoverStage(s.control.stage)
    ensures RecInv(GoStep(cfg, s, now, touched))
  {
    if TearingDown(s.control.stage) || s.control.stage == SuspendPod {
      TeardownStepKeeps(s);
    } else if s.control.stage.PatchInstance? {
      ReportLeavesPod(cfg, s, now);
    } else {
      ServiceStepKeeps(s, touched);
    }
  }

  lemma OthersKeep(cfg: Settings, s: State, step: Step)
    requires RecInv(s) && !step.Go? && !step.PodWrite?
    ensures RecInv(Next(cfg, s, step))
  {
  }

  lemma PodWriteKeeps(s: State, step: Step)
    requires RecInv(s) && step.PodWrite?
    ensures RecInv(BackingStep(s, step))
  {
  }

  lemma NextKeepsRecovery(cfg: Settings, s: State, step: Step)
    requires RecInv(s)
    ensures RecInv(Next(cfg, s, step))
  {
    if step.PodWrite? {
      PodWriteKeeps(s, step);
    } else if !step.Go? {
      OthersKeep(cfg, s, step);
    } else if s.control.Busy? && s.versions != [] {
      if PodStage(s.control.stage) {
        PodStepKeeps(cfg, s, step.now, step.touched);
      } else if RecoverStage(s.control.stage) {
        RecoverStepKeeps(s, step.now);
      } else {
        OtherCallsKeep(cfg, s, step.now, step.touched);
      }
    }
  }

  lemma {:induction false} RunKeepsRecovery(cfg: Settings, h: seq<State>, steps: seq<Step>, n: nat)
    requires IsRun(cfg, h, steps) && n <= |steps|
    ensures RecInv(h[n])
  {
    if n > 0 {
      RunKeepsRecovery(cfg, h, steps, n - 1);
      assert Stepped(cfg, h, steps, n - 1);
      NextKeepsRecovery(cfg, h[n - 1], steps[n - 1]);
    }
  }

  // ----- The boot ID is recorded once -----

  /** The step from `s` to `s'` changes the boot ID annotation of incarnation `uid`. */
  ghost predicate WritesBootId(s: State, s': State, uid: nat) {
    && s.pod.Some? && s.pod.value.uid == uid && s'.pod.Some? && s'.pod.value.uid == uid
    && Get(s.pod.value.annotations, HOST_BOOT_ID) != Get(s'.pod.value.annotations, HOST_BOOT_ID)
  }

  /** How often that happens before step `n`. */
  ghost function BootIdWrites(h: seq<State>, n: nat, uid: nat): nat
    requires n < |h|
  {
    if n == 0 then 0 else BootIdWrites(h, n - 1, uid) + if WritesBootId(h[n - 1], h[n], uid) then 1 else 0
  }

  /** How a step may change the Pod: it stays the same incarnation, goes, or a fresh unrecorded one comes. */
  ghost predicate PodMoves(s: State, s': State) {
    && s.nextUid <= s'.nextUid
    && (s'.pod.Some? && s.pod.Some? ==> s'.pod.value.uid == s.pod.value.uid)
    && (s'.pod.Some? && s.pod.None? ==>
          && s.nextUid <= s'.pod.value.uid < s'.nextUid && HOST_BOOT_ID !in s'.pod.value.annotations)
  }

  ghost predicate BootIdKept(s: State, s': State) {
    s.pod.Some? && s'.pod.Some? ==>
      Get(s'.pod.value.annotations, HOST_BOOT_ID) == Get(s.pod.value.annotations, HOST_BOOT_ID)
  }

  /** The one call that records a boot ID. */
  predicate Records(s: State, step: Step) {
    step.Go? && s.control.Busy? && s.control.stage == RecordBoot && s.pod.Some? && s.versions != []
  }

  lemma PodStepMoves(cfg: Settings, s: State, now: int, touched: bool)
    requires s.control.Busy? && PodStage(s.control.stage) && s.versions != []
    ensures PodMoves(s, PodStep(cfg, s, now, touched)) && BootIdKept(s, PodStep(cfg, s, now, touched))
  {
    var c := s.control;
    if c.stage.CreatePod? {
      NewPodIsUnrecorded(cfg, s, c.inst, now);
    } else if c.stage.PatchPod? && c.pod.Some? && s.pod.Some? {
      PatchLeavesBootId(cfg, c.inst, c.pod.value, s.pod.value);
    }
  }

  lemma RecoverStepMoves(s: State, now: int)
    requires s.control.Busy? && RecoverStage(s.control.stage)
    ensures var s' := RecoverStep(s, now);
            PodMoves(s, s') && (s.control.stage != RecordBoot ==> BootIdKept(s, s'))
  {
  }

  lemma GoMoves(cfg: Settings, s: State, now: int, touched: bool)
    ensures var s' := GoStep(cfg, s, now, touched);
            PodMoves(s, s') && (!Records(s, Go(now, touched)) ==> BootIdKept(s, s'))
  {
    if s.control.Busy? && s.versions != [] {
      if PodStage(s.control.stage) {
        PodStepMoves(cfg, s, now, touched);
      } else if RecoverStage(s.control.stage) {
        RecoverStepMoves(s, now);
      } else if s.control.stage.PatchInstance? {
        ReportLeavesPod(cfg, s, now);
      }
    }
  }

  lemma NextMoves(cfg: Settings, s: State, step: Step)
    ensures var s' := Next(cfg, s, step);
            PodMoves(s, s') && (!Records(s, step) ==> BootIdKept(s, s'))
  {
    if step.Go? {
      GoMoves(cfg, s, step.now, step.touched);
    }
  }

  /** Recording happens only to a Pod without a boot ID. */
  lemma RecordingIsFirst(s: State, step: Step)
    requires RecInv(s) && Records(s, step)
    ensures HOST_BOOT_ID !in s.pod.value.annotations
  {
    assert Get(s.control.pod.value.annotations, HOST_BOOT_ID) == None;
    assert Get(s.pod.value.annotations, HOST_BOOT_ID) == None;
  }

  /**
   The boot ID of each Pod incarnation is written at most once in every run: not at all while it has none,
   exactly once when it has one.
   */
  lemma {:induction false} BootIdIsWrittenOnce(cfg: Settings, h: seq<State>, steps: seq<Step>, n: nat, uid: nat)
    requires IsRun(cfg, h, steps) && n <= |steps|
    ensures var s, writes := h[n], BootIdWrites(h, n, uid);
            && writes <= 1
            && (s.nextUid <= uid ==> writes == 0)
            && (s.pod.Some? && s.pod.value.uid == uid ==>
                  writes == if HOST_BOOT_ID in s.pod.value.annotations then 1 else 0)
  {
    if n > 0 {
      var m := n - 1;
      BootIdIsWrittenOnce(cfg, h, steps, m, uid);
      RunKeepsRecovery(cfg, h, steps, m);
      assert Stepped(cfg, h, steps, m);
      NextMoves(cfg, h[m], steps[m]);
      if Records(h[m], steps[m]) {
        RecordingIsFirst(h[m], steps[m]);
      }
    }
  }

  /** If the Pod is still there its boot ID is the one `p` has. */
  ghost predicate StillRecorded(s: State, p: Pod) {
    && p.uid < s.nextUid
    && (s.pod.Some? && s.pod.value.uid == p.uid ==>
          Get(s.pod.value.annotations, HOST_BOOT_ID) == Get(p.annotations, HOST_BOOT_ID))
  }

  lemma StepKeepsRecorded(s: State, s': State, p: Pod)
    requires StillRecorded(s, p) && PodMoves(s, s')
    requires s.pod.Some? && s.pod.value.uid == p.uid ==> BootIdKept(s, s')
    ensures StillRecorded(s', p)
  {
  }

  lemma {:induction false} RecordedStays(cfg: Settings, h: seq<State>, steps: seq<Step>, k: nat, n: nat, p: Pod)
    requires IsRun(cfg, h, steps) && k <= n <= |steps| && StillRecorded(h[k], p) && HOST_BOOT_ID in p.annotations
    ensures StillRecorded(h[n], p)
  {
    if k < n {
      var m := n - 1;
      RecordedStays(cfg, h, steps, k, m, p);
      assert Stepped(cfg, h, steps, m);
      RunKeepsRecovery(cfg, h, steps, m);
      NextMoves(cfg, h[m], steps[m]);
      if Records(h[m], steps[m]) {
        RecordingIsFirst(h[m], steps[m]);
      }
      StepKeepsRecorded(h[m], h[n], p);
    }
  }

  /** A recorded boot ID never changes as long as the Pod exists, whoever does what. */
  lemma RecordedForGood(cfg: Settings, h: seq<State>, steps: seq<Step>, k: nat, n: nat)
    requires IsRun(cfg, h, steps) && k <= n <= |steps|
    requires h[k].pod.Some? && HOST_BOOT_ID in h[k].pod.value.annotations
    ensures StillRecorded(h[n], h[k].pod.value)
  {
    RunKeepsRecovery(cfg, h, steps, k);
    RecordedStays(cfg, h, steps, k, n, h[k].pod.value);
  }

  // ----- Where a recorded boot ID comes from -----

  predicate InHand(s: State, stage: Stage, uid: nat) {
    s.control.Busy? && s.control.stage == stage && s.control.pod.Some? && s.control.pod.value.uid == uid
  }

  /**
   Call `r` read the Node for incarnation `uid`, when report `i` was the host's latest, and from then until step `w`
   the reconcile has been about to record what it read.
   */
  ghost predicate NodeRead(h: seq<State>, steps: seq<Step>, uid: nat, host: string, bootId: string,
                           i: nat, r: nat, w: nat) {
    && i < r < w < |h| && w <= |steps| && LatestReport(steps, host, bootId, i, r)
    && steps[r].Go? && InHand(h[r], GetNode, uid)
    && forall k :: r < k <= w ==> InHand(h[k], RecordBoot, uid)
  }

  /** Step `w` recorded the boot ID of incarnation `uid`, as the Node read `r` found it in the host's report `i`. */
  ghost predicate RecordedFrom(h: seq<State>, steps: seq<Step>, uid: nat, host: string, bootId: string,
                               i: nat, r: nat, w: nat) {
    && NodeRead(h, steps, uid, host, bootId, i, r, w)
    && w < |steps| && w + 1 < |h| && WritesBootId(h[w], h[w + 1], uid)
  }

  ghost predicate Known(h: seq<State>, steps: seq<Step>, p: Pod) {
    HOST_BOOT_ID in p.annotations ==>
      && HostOf(p.node).Some?
      && exists i: nat, r: nat, w: nat ::
           RecordedFrom(h, steps, p.uid, HostOf(p.node).value, Recorded(p), i, r, w)
  }

  /** The boot ID of the Pod was read after step `a`, and since then its host has reported another one. */
  ghost predicate RebootedAfter(h: seq<State>, steps: seq<Step>, p: Pod, a: int) {
    HostOf(p.node).Some? &&
    var host := HostOf(p.node).value;
    exists i: nat, r: nat, w: nat, j: nat ::
      && RecordedFrom(h, steps, p.uid, host, Recorded(p), i, r, w)
      && a < r < j < |steps| && IsReport(steps[j], host) && steps[j].bootId != Recorded(p)
  }

  ghost predicate RebootedSince(h: seq<State>, steps: seq<Step>, p: Pod) {
    RebootedAfter(h, steps, p, 0)
  }

  /** Call `k` judged this Pod: Pending with all containers stopped, and past its grace period when judged. */
  ghost predicate JudgedStuck(h: seq<State>, steps: seq<Step>, p: Pod, k: nat) {
    && k < |steps| && k < |h| && steps[k].Go? && InHand(h[k], JudgeStuck, p.uid) && h[k].control.pod == Some(p)
    && Stuck(p.status) && GraceOver(p.status, p.created, steps[k].now)
  }

  ghost predicate StuckForLong(h: seq<State>, steps: seq<Step>, p: Pod) {
    exists k: nat :: JudgedStuck(h, steps, p, k)
  }

  ghost predicate AboutToRecord(h: seq<State>, steps: seq<Step>, p: Pod, bootId: string) {
    && HostOf(p.node).Some?
    && exists i: nat, r: nat :: NodeRead(h, steps, p.uid, HostOf(p.node).value, bootId, i, r, |steps|)
  }

  /** What the past of a Pod in hand must have been. */
  ghost predicate Grounded(h: seq<State>, steps: seq<Step>, c: Control) {
    c.Busy? && c.pod.Some? ==>
      && Known(h, steps, c.pod.value)
      && (c.stage == RecordBoot ==> AboutToRecord(h, steps, c.pod.value, c.boot))
      && (c.stage == RemoveRebooted ==> RebootedSince(h, steps, c.pod.value))
      && (c.stage == RemoveStuck ==> StuckForLong(h, steps, c.pod.value))
  }

  ghost predicate Traced(h: seq<State>, steps: seq<Step>) {
    && |h| == |steps| + 1
    && (h[|steps|].pod.Some? ==> Known(h, steps, h[|steps|].pod.value))
    && Grounded(h, steps, h[|steps|].control)
  }

  // ----- The past stays -----

  /** One history continues another. */
  ghost predicate Extends(h: seq<State>, steps: seq<Step>, h': seq<State>, steps': seq<Step>) {
    h <= h' && steps <= steps'
  }

  lemma RecordedExtends(h: seq<State>, steps: seq<Step>, h': seq<State>, steps': seq<Step>,
                        uid: nat, host: string, bootId: string, i: nat, r: nat, w: nat)
    requires Extends(h, steps, h', steps') && RecordedFrom(h, steps, uid, host, bootId, i, r, w)
    ensures RecordedFrom(h', steps', uid, host, bootId, i, r, w)
  {
  }

  lemma KnownExtends(h: seq<State>, steps: seq<Step>, h': seq<State>, steps': seq<Step>, p: Pod)
    requires Extends(h, steps, h', steps') && Known(h, steps, p)
    ensures Known(h', steps', p)
  {
    if HOST_BOOT_ID in p.annotations {
      var host := HostOf(p.node).value;
      var i: nat, r: nat, w: nat :| RecordedFrom(h, steps, p.uid, host, Recorded(p), i, r, w);
      RecordedExtends(h, steps, h', steps', p.uid, host, Recorded(p), i, r, w);
    }
  }

  lemma RebootedExtends(h: seq<State>, steps: seq<Step>, h': seq<State>, steps': seq<Step>, p: Pod)
    requires Extends(h, steps, h', steps') && RebootedSince(h, steps, p)
    ensures RebootedSince(h', steps', p)
  {
    var host := HostOf(p.node).value;
    var i: nat, r: nat, w: nat, j: nat :|
      && RecordedFrom(h, steps, p.uid, host, Recorded(p), i, r, w)
      && r < j < |steps| && IsReport(steps[j], host) && steps[j].bootId != Recorded(p);
    RecordedExtends(h, steps, h', steps', p.uid, host, Recorded(p), i, r, w);
    assert steps'[j] == steps[j];
  }

  lemma StuckExtends(h: seq<State>, steps: seq<Step>, h': seq<State>, steps': seq<Step>, p: Pod)
    requires Extends(h, steps, h', steps') && StuckForLong(h, steps, p)
    ensures StuckForLong(h', steps', p)
  {
    var k: nat :| JudgedStuck(h, steps, p, k);
    assert JudgedStuck(h', steps', p, k);
  }

  lemma AwaitExtends(h: seq<State>, steps: seq<Step>, h': seq<State>, steps': seq<Step>, p: Pod, bootId: string)
    requires Extends(h, steps, h', steps') && |h| == |steps| + 1 == |steps'| && |h'| == |steps'| + 1
    requires AboutToRecord(h, steps, p, bootId) && InHand(h'[|steps'|], RecordBoot, p.uid)
    ensures AboutToRecord(h', steps', p, bootId)
  {
    var host := HostOf(p.node).value;
    var i: nat, r: nat :| NodeRead(h, steps, p.uid, host, bootId, i, r, |steps|);
    assert NodeRead(h', steps', p.uid, host, bootId, i, r, |steps'|);
  }

  /** A reconcile that is not moved on by the step keeps its past. */
  lemma GroundedExtends(h: seq<State>, steps: seq<Step>, h': seq<State>, steps': seq<Step>, c: Control)
    requires Extends(h, steps, h', steps') && |h| == |steps| + 1 == |steps'| && |h'| == |steps'| + 1
    requires Grounded(h, steps, c) && h'[|steps'|].control == c
    ensures Grounded(h', steps', c)
  {
    if c.Busy? && c.pod.Some? {
      var p := c.pod.value;
      KnownExtends(h, steps, h', steps', p);
      if c.stage == RecordBoot {
        AwaitExtends(h, steps, h', steps', p, c.boot);
      } else if c.stage == RemoveRebooted {
        RebootedExtends(h, steps, h', steps', p);
      } else if c.stage == RemoveStuck {
        StuckExtends(h, steps, h', steps', p);
      }
    }
  }

  // ----- What a step adds -----

  /** `q` says the same about its boot ID and host as `p`. */
  ghost predicate SaysTheSame(p: Pod, q: Pod) {
    && p.uid == q.uid && Get(p.annotations, HOST_BOOT_ID) == Get(q.annotations, HOST_BOOT_ID)
    && Recorded(p) == Recorded(q) && p.node == q.node
  }

  /** `q` is an incarnation that was there, or a new one. */
  predicate Comes(s: State, q: Pod) {
    || s.nextUid <= q.uid
    || (s.pod.Some? && s.pod.value.uid == q.uid)
    || (s.control.Busy? && s.control.pod.Some? && s.control.pod.value.uid == q.uid)
  }

  /** `q` has no boot ID, or is the stored Pod or the Pod in hand as far as that goes. */
  ghost predicate Carried(s: State, q: Pod) {
    || HOST_BOOT_ID !in q.annotations
    || (s.pod.Some? && SaysTheSame(s.pod.value, q))
    || (s.control.Busy? && s.control.pod.Some? && SaysTheSame(s.control.pod.value, q))
  }

  ghost predicate AllCarried(s: State, s': State) {
    && (s'.pod.Some? ==> Carried(s, s'.pod.value) && Comes(s, s'.pod.value))
    && (s'.control.Busy? && s'.control.pod.Some? ==>
          Carried(s, s'.control.pod.value) && Comes(s, s'.control.pod.value))
  }

  lemma PatchPodCarries(cfg: Settings, s: State, now: int, touched: bool)
    requires s.control.Busy? && s.control.stage.PatchPod? && s.versions != []
    ensures AllCarried(s, PodStep(cfg, s, now, touched))
  {
    var c, s' := s.control, PodStep(cfg, s, now, touched);
    if s' != Done(s) && s' != At(s, GetNode) {
      PatchLeavesBootId(cfg, c.inst, c.pod.value, s.pod.value);
      assert SaysTheSame(s.pod.value, Patched(cfg, c.inst, c.pod.value, s.pod.value));
    }
  }

  lemma CreatePodCarries(cfg: Settings, s: State, now: int, touched: bool)
    requires s.control.Busy? && s.control.stage.CreatePod? && s.versions != []
    ensures AllCarried(s, PodStep(cfg, s, now, touched))
  {
    NewPodIsUnrecorded(cfg, s, s.control.inst, now);
  }

  lemma PodStepCarries(cfg: Settings, s: State, now: int, touched: bool)
    requires s.control.Busy? && PodStage(s.control.stage) && s.versions != []
    ensures AllCarried(s, PodStep(cfg, s, now, touched))
  {
    if s.control.stage.CreatePod? {
      CreatePodCarries(cfg, s, now, touched);
    } else if s.control.stage.PatchPod? {
      PatchPodCarries(cfg, s, now, touched);
    }
  }

  lemma RecoverStepCarries(s: State, now: int)
    requires s.control.Busy? && RecoverStage(s.control.stage) && s.control.stage != RecordBoot
    ensures AllCarried(s, RecoverStep(s, now))
  {
  }

  lemma OthersCarry(cfg: Settings, s: State, step: Step)
    requires RecInv(s) && !step.Go?
    ensures AllCarried(s, Next(cfg, s, step))
  {
  }

  lemma OtherCallsCarry(cfg: Settings, s: State, now: int, touched: bool)
    requires s.control.Busy? && s.versions != [] && !PodStage(s.control.stage) && !RecoverStage(s.control.stage)
    ensures AllCarried(s, GoStep(cfg, s, now, touched))
  {
    if s.control.stage.PatchInstance? {
      ReportLeavesPod(cfg, s, now);
    }
  }

  lemma NextCarries(cfg: Settings, s: State, step: Step)
    requires RecInv(s) && !Records(s, step)
    ensures AllCarried(s, Next(cfg, s, step))
  {
    if !step.Go? {
      OthersCarry(cfg, s, step);
    } else if s.control.Busy? && s.versions != [] {
      if PodStage(s.control.stage) {
        PodStepCarries(cfg, s, step.now, step.touched);
      } else if !RecoverStage(s.control.stage) {
        OtherCallsCarry(cfg, s, step.now, step.touched);
      } else if s.control.stage != RecordBoot {
        RecoverStepCarries(s, step.now);
      }
    }
  }

  lemma CarriedIsKnown(h: seq<State>, steps: seq<Step>, h': seq<State>, steps': seq<Step>, q: Pod)
    requires Extends(h, steps, h', steps') && Traced(h, steps) && Carried(h[|steps|], q)
    ensures Known(h', steps', q)
  {
    var s := h[|steps|];
    if HOST_BOOT_ID in q.annotations {
      var p := if s.pod.Some? && SaysTheSame(s.pod.value, q) then s.pod.value else s.control.pod.value;
      assert Get(q.annotations, HOST_BOOT_ID).Some?;
      KnownExtends(h, steps, h', steps', p);
    }
  }

  /** The stages that act on a judgement. */
  predicate ActsOnJudgement(c: Control) {
    c.Busy? && (c.stage == RecordBoot || c.stage == RemoveRebooted || c.stage == RemoveStuck)
  }

  /** Such a stage is entered by a Node read or by the stuck judgement only. */
  lemma JudgementsHaveOrigin(cfg: Settings, s: State, step: Step)
    requires ActsOnJudgement(Next(cfg, s, step).control)
    ensures || Next(cfg, s, step).control == s.control
            || (&& step.Go? && s.control.Busy? && s.versions != []
                && Next(cfg, s, step) == RecoverStep(s, step.now)
                && (s.control.stage == GetNode || s.control.stage == JudgeStuck))
  {
    if !step.Go? {
      OthersJudgeNothing(cfg, s, step);
    } else if s.control.Busy? && s.versions != [] && !RecoverStage(s.control.stage) {
      OtherCallsJudgeNothing(cfg, s, step.now, step.touched);
    }
  }

  lemma OthersJudgeNothing(cfg: Settings, s: State, step: Step)
    requires !step.Go?
    ensures var c := Next(cfg, s, step).control; c == s.control || !ActsOnJudgement(c)
  {
  }

  lemma OtherCallsJudgeNothing(cfg: Settings, s: State, now: int, touched: bool)
    requires s.control.Busy? && s.versions != [] && !RecoverStage(s.control.stage)
    ensures !ActsOnJudgement(GoStep(cfg, s, now, touched).control)
  {
    if s.control.stage.PatchInstance? {
      ReportLeavesPod(cfg, s, now);
    }
  }

  /** A latest report that differs from the recorded boot ID came after the Node read that was recorded. */
  lemma RebootIsLater(h: seq<State>, steps: seq<Step>, p: Pod, j: nat)
    requires Known(h, steps, p) && HOST_BOOT_ID in p.annotations
    requires j < |steps| && IsReport(steps[j], HostOf(p.node).value) && steps[j].bootId != Recorded(p)
    requires LatestReport(steps, HostOf(p.node).value, steps[j].bootId, j, |steps|)
    ensures RebootedSince(h, steps, p)
  {
    var host := HostOf(p.node).value;
    var i: nat, r: nat, w: nat :| RecordedFrom(h, steps, p.uid, host, Recorded(p), i, r, w);
    assert i < j && j != r;
  }

  /** What a Node read leads to, when it leads to acting on a judgement. */
  ghost predicate ReadLeads(s: State, bootId: string, c: Control)
    requires InHandAt(s, GetNode)
  {
    var p := s.control.pod.value;
    && HostOf(p.node).Some? && bootId != "" && c.Busy? && c.pod == Some(p)
    && (|| (c.stage == RecordBoot && c.boot == bootId)
        || (c.stage == RemoveRebooted && HOST_BOOT_ID in p.annotations && bootId != Recorded(p)))
  }

  lemma NodeReadLeads(s: State, now: int)
    requires InHandAt(s, GetNode) && ActsOnJudgement(RecoverStep(s, now).control)
    ensures var host := HostOf(s.control.pod.value.node);
            host.Some? && host.value in s.boots && ReadLeads(s, s.boots[host.value], RecoverStep(s, now).control)
  {
  }

  /** What a Node read leads to is grounded in the host's latest report `i`. */
  lemma NodeReadIsGrounded(h: seq<State>, steps: seq<Step>, h': seq<State>, step: Step, bootId: string, i: nat)
    requires Traced(h, steps) && step.Go? && InHandAt(h[|steps|], GetNode)
    requires |h'| == |h| + 1 && h <= h' && ReadLeads(h[|steps|], bootId, h'[|h|].control)
    requires LatestReport(steps, HostOf(h[|steps|].control.pod.value.node).value, bootId, i, |steps|)
    ensures Grounded(h', steps + [step], h'[|h|].control)
  {
    var all, c, p := steps + [step], h'[|h|].control, h[|steps|].control.pod.value;
    KnownExtends(h, steps, h', all, p);
    if c.stage == RecordBoot {
      ReadIsFirst(h', all, p.uid, HostOf(p.node).value, bootId, i);
    } else {
      RebootIsLater(h, steps, p, i);
      RebootedExtends(h, steps, h', all, p);
    }
  }

  lemma ReadIsFirst(h: seq<State>, steps: seq<Step>, uid: nat, host: string, bootId: string, i: nat)
    requires steps != [] && |h| == |steps| + 1 && steps[|steps| - 1].Go?
    requires LatestReport(steps, host, bootId, i, |steps| - 1)
    requires InHand(h[|steps| - 1], GetNode, uid) && InHand(h[|steps|], RecordBoot, uid)
    ensures NodeRead(h, steps, uid, host, bootId, i, |steps| - 1, |steps|)
  {
  }

  predicate InHandAt(s: State, stage: Stage) {
    s.control.Busy? && s.control.pod.Some? && s.control.stage == stage
  }

  lemma StuckIsGrounded(h: seq<State>, steps: seq<Step>, h': seq<State>, step: Step)
    requires Traced(h, steps) && step.Go? && InHandAt(h[|steps|], JudgeStuck)
    requires |h'| == |h| + 1 && h <= h' && h'[|h|] == RecoverStep(h[|steps|], step.now)
    requires ActsOnJudgement(h'[|h|].control)
    ensures Grounded(h', steps + [step], h'[|h|].control)
  {
    var p := h[|steps|].control.pod.value;
    KnownExtends(h, steps, h', steps + [step], p);
    assert JudgedStuck(h', steps + [step], p, |steps|);
  }

  lemma RecordBootWrites(cfg: Settings, s: State, step: Step)
    requires RecInv(s) && Records(s, step) && HOST_BOOT_ID !in s.pod.value.annotations
    ensures var s' := Next(cfg, s, step);
            && s'.pod.Some? && s'.control.Busy? && s'.control.stage == JudgeStuck && s'.control.pod == s'.pod
            && s'.pod.value.uid == s.pod.value.uid == s.control.pod.value.uid
            && s'.pod.value.node == s.control.pod.value.node && Recorded(s'.pod.value) == s.control.boot
            && WritesBootId(s, s', s.pod.value.uid)
  {
  }

  lemma RecordingIsKnown(cfg: Settings, h: seq<State>, steps: seq<Step>, h': seq<State>, step: Step)
    requires Traced(h, steps) && RecInv(h[|steps|]) && Records(h[|steps|], step)
    requires |h'| == |h| + 1 && h <= h' && h'[|h|] == Next(cfg, h[|steps|], step)
    ensures Traced(h', steps + [step])
  {
    var s, n := h[|steps|], |steps|;
    var p, bootId := s.control.pod.value, s.control.boot;
    var host := HostOf(p.node).value;
    RecordingIsFirst(s, step);
    RecordBootWrites(cfg, s, step);
    var i: nat, r: nat :| NodeRead(h, steps, p.uid, host, bootId, i, r, n);
    assert RecordedFrom(h', steps + [step], p.uid, host, bootId, i, r, n);
  }

  lemma LatestBefore(steps: seq<Step>, host: string, bootId: string, i: nat, n: nat)
    requires LatestReport(steps, host, bootId, i, n)
    ensures LatestReport(steps[..n], host, bootId, i, n)
  {
  }

  lemma NodeJudgementIsGrounded(cfg: Settings, h: seq<State>, steps: seq<Step>, n: nat)
    requires IsRun(cfg, h, steps) && |steps| == n + 1 && Traced(h[..n + 1], steps[..n])
    requires steps[n].Go? && InHandAt(h[n], GetNode)
    requires h[n + 1] == RecoverStep(h[n], steps[n].now) && ActsOnJudgement(h[n + 1].control)
    ensures Grounded(h, steps, h[n + 1].control)
  {
    NodeReadLeads(h[n], steps[n].now);
    var host := HostOf(h[n].control.pod.value.node).value;
    var i := BootsAreLatest(cfg, h, steps, host, n);
    LatestBefore(steps, host, h[n].boots[host], i, n);
    NodeReadIsGrounded(h[..n + 1], steps[..n], h, steps[n], h[n].boots[host], i);
    assert steps[..n] + [steps[n]] == steps;
  }

  lemma JudgementIsGrounded(cfg: Settings, h: seq<State>, steps: seq<Step>, n: nat)
    requires IsRun(cfg, h, steps) && |steps| == n + 1 && Traced(h[..n + 1], steps[..n]) && RecInv(h[n])
    requires h[n + 1].control != h[n].control && ActsOnJudgement(h[n + 1].control)
    ensures Grounded(h, steps, h[n + 1].control)
  {
    assert Stepped(cfg, h, steps, n);
    JudgementsHaveOrigin(cfg, h[n], steps[n]);
    if h[n].control.stage == GetNode {
      NodeJudgementIsGrounded(cfg, h, steps, n);
    } else {
      StuckIsGrounded(h[..n + 1], steps[..n], h, steps[n]);
      assert steps[..n] + [steps[n]] == steps;
    }
  }

  lemma NextIsTraced(cfg: Settings, h: seq<State>, steps: seq<Step>)
    requires IsRun(cfg, h, steps) && steps != [] && Traced(h[..|steps|], steps[..|steps| - 1])
    requires RecInv(h[|steps| - 1]) && !Records(h[|steps| - 1], steps[|steps| - 1])
    ensures Traced(h, steps)
  {
    var n := |steps| - 1;
    var s, s', step, pre, before := h[n], h[n + 1], steps[n], steps[..n], h[..n + 1];
    assert Stepped(cfg, h, steps, n);
    NextCarries(cfg, s, step);
    if s'.pod.Some? {
      CarriedIsKnown(before, pre, h, steps, s'.pod.value);
    }
    if s'.control.Busy? && s'.control.pod.Some? {
      CarriedIsKnown(before, pre, h, steps, s'.control.pod.value);
      if s'.control == s.control {
        GroundedExtends(before, pre, h, steps, s.control);
      } else if ActsOnJudgement(s'.control) {
        JudgementIsGrounded(cfg, h, steps, n);
      }
    }
  }

  /**
   In every run, every recorded boot ID was recorded from a report of the Pod's own host that was the latest one when
   the Node was read, and every Pod about to be deleted by recovery has a cause in the past of that very Pod.
   */
  lemma {:induction false} RunsAreTraced(cfg: Settings, h: seq<State>, steps: seq<Step>)
    requires IsRun(cfg, h, steps)
    ensures Traced(h, steps)
    decreases |steps|
  {
    if steps != [] {
      var n := |steps| - 1;
      var pre, before := steps[..n], h[..n + 1];
      RunPrefix(cfg, h, steps, n);
      RunsAreTraced(cfg, before, pre);
      RunKeepsRecovery(cfg, h, steps, n);
      if Records(h[n], steps[n]) {
        assert Stepped(cfg, h, steps, n) && steps == pre + [steps[n]];
        RecordingIsKnown(cfg, before, pre, h, steps[n]);
      } else {
        NextIsTraced(cfg, h, steps);
      }
    }
  }

  // ----- Why recovery deletes -----

  /**
   Recovery never deletes without a cause, and never the wrong Pod. In every run, a Pod that a recovery call marks for
   deletion is the incarnation that was judged, and either its host reported another boot ID after the Node read from
   which the Pod's own was recorded, or the Pod was stuck and past its grace period when it was judged.
   */
  lemma RecoveryHasCause(cfg: Settings, h: seq<State>, steps: seq<Step>, now: int, touched: bool)
    requires IsRun(cfg, h, steps)
    requires var s := h[|steps|];
             s.control.Busy? && RecoverStage(s.control.stage) && s.pod.Some? && !s.pod.value.deleting
    requires var s' := Next(cfg, h[|steps|], Go(now, touched));
             s'.pod.Some? && s'.pod.value.deleting
    ensures var s := h[|steps|];
            var p := s.pod.value;
            && s.control.pod.Some? && s.control.pod.value.uid == p.uid
            && (RebootedSince(h, steps, p) || StuckForLong(h, steps, s.control.pod.value))
  {
    RunKeepsRecovery(cfg, h, steps, |steps|);
    RunsAreTraced(cfg, h, steps);
    var s := h[|steps|];
    RemovalIsJudged(cfg, s, now, touched);
    if s.control.stage == RemoveRebooted {
      SameReboot(h, steps, s.control.pod.value, s.pod.value);
    }
  }

  lemma RemovalIsJudged(cfg: Settings, s: State, now: int, touched: bool)
    requires RecInv(s) && s.control.Busy? && RecoverStage(s.control.stage) && s.pod.Some? && !s.pod.value.deleting
    requires var s' := Next(cfg, s, Go(now, touched)); s'.pod.Some? && s'.pod.value.deleting
    ensures s.control.pod.Some? && s.control.pod.value.uid == s.pod.value.uid
    ensures s.control.stage == RemoveRebooted || s.control.stage == RemoveStuck
  {
  }

  lemma SameReboot(h: seq<State>, steps: seq<Step>, p: Pod, q: Pod)
    requires RebootedSince(h, steps, p) && SamePod(p, q) && HOST_BOOT_ID in p.annotations
    ensures RebootedSince(h, steps, q)
  {
    assert Get(p.annotations, HOST_BOOT_ID).Some? && Recorded(p) == Recorded(q);
    assert p.node != "" && p.node == q.node;
    var host := HostOf(p.node).value;
    var i: nat, r: nat, w: nat, j: nat :|
      && RecordedFrom(h, steps, p.uid, host, Recorded(p), i, r, w)
      && r < j < |steps| && IsReport(steps[j], host) && steps[j].bootId != Recorded(p);
  }

  // ----- Recovery does not loop -----

  lemma WriteRecords(cfg: Settings, h: seq<State>, steps: seq<Step>, uid: nat, w: nat)
    requires IsRun(cfg, h, steps) && w < |steps| && WritesBootId(h[w], h[w + 1], uid)
    ensures HOST_BOOT_ID in h[w + 1].pod.value.annotations
  {
    assert Stepped(cfg, h, steps, w);
    NextMoves(cfg, h[w], steps[w]);
    RunKeepsRecovery(cfg, h, steps, w);
    RecordingIsFirst(h[w], steps[w]);
    assert Get(h[w].pod.value.annotations, HOST_BOOT_ID) == None;
  }

  lemma WritesOnce(cfg: Settings, h: seq<State>, steps: seq<Step>, uid: nat, w: nat, v: nat)
    requires IsRun(cfg, h, steps)
    requires w < |steps| && WritesBootId(h[w], h[w + 1], uid)
    requires v < |steps| && WritesBootId(h[v], h[v + 1], uid)
    ensures v <= w
  {
    if w < v {
      WriteRecords(cfg, h, steps, uid, w);
      RecordedForGood(cfg, h, steps, w + 1, v);
      RecordedForGood(cfg, h, steps, w + 1, v + 1);
    }
  }

  /** The recording of an incarnation, the Node read it comes from and the report are unique. */
  lemma RecordedOnce(cfg: Settings, h: seq<State>, steps: seq<Step>, uid: nat, host: string,
                     bootId: string, i: nat, r: nat, w: nat, bootId': string, i': nat, r': nat, w': nat)
    requires IsRun(cfg, h, steps)
    requires RecordedFrom(h, steps, uid, host, bootId, i, r, w)
    requires RecordedFrom(h, steps, uid, host, bootId', i', r', w')
    ensures i == i' && r == r' && w == w' && bootId == bootId'
  {
    WritesOnce(cfg, h, steps, uid, w, w');
    WritesOnce(cfg, h, steps, uid, w', w);
    assert !InHand(h[r], RecordBoot, uid) && !InHand(h[r'], RecordBoot, uid);
  }

  /**
   A Pod whose host has reported no other boot ID since the Node read that was recorded is never up for deletion for a
   reboot, whatever the host reported before.
   */
  lemma NoRebootNoDeletion(cfg: Settings, h: seq<State>, steps: seq<Step>, p: Pod, host: string,
                           i: nat, r: nat, w: nat)
    requires IsRun(cfg, h, steps)
    requires HostOf(p.node) == Some(host) && RecordedFrom(h, steps, p.uid, host, Recorded(p), i, r, w)
    requires forall j :: r < j < |steps| && IsReport(steps[j], host) ==> steps[j].bootId == Recorded(p)
    ensures var c := h[|steps|].control;
            !(c.Busy? && c.stage == RemoveRebooted && c.pod == Some(p))
  {
    RunsAreTraced(cfg, h, steps);
    var c := h[|steps|].control;
    if c.Busy? && c.stage == RemoveRebooted && c.pod == Some(p) {
      var i': nat, r': nat, w': nat, j: nat :|
        && RecordedFrom(h, steps, p.uid, host, Recorded(p), i', r', w')
        && r' < j < |steps| && IsReport(steps[j], host) && steps[j].bootId != Recorded(p);
      RecordedOnce(cfg, h, steps, p.uid, host, Recorded(p), i, r, w, Recorded(p), i', r', w');
      assert false;
    }
  }

  /** From here on every Pod is incarnation `uid` or newer than `n`. */
  ghost predicate OnlyOrNewer(s: State, uid: nat, n: nat) {
    && n <= s.nextUid
    && (s.pod.Some? ==> s.pod.value.uid == uid || n <= s.pod.value.uid)
    && (s.control.Busy? && s.control.pod.Some? ==>
          s.control.pod.value.uid == uid || n <= s.control.pod.value.uid)
  }

  lemma StepKeepsNewer(s: State, s': State, uid: nat, n: nat)
    requires OnlyOrNewer(s, uid, n) && s.nextUid <= s'.nextUid
    requires s'.pod.Some? ==> Comes(s, s'.pod.value)
    requires s'.control.Busy? && s'.control.pod.Some? ==> Comes(s, s'.control.pod.value)
    ensures OnlyOrNewer(s', uid, n)
  {
  }

  lemma RecordingComes(s: State, now: int)
    requires s.control.Busy? && s.control.stage == RecordBoot && s.pod.Some?
    ensures var s' := RecoverStep(s, now);
            && (s'.pod.Some? ==> Comes(s, s'.pod.value))
            && (s'.control.Busy? && s'.control.pod.Some? ==> Comes(s, s'.control.pod.value))
  {
  }

  lemma NextKeepsNewer(cfg: Settings, s: State, step: Step, s': State, uid: nat, n: nat)
    requires RecInv(s) && OnlyOrNewer(s, uid, n) && s' == Next(cfg, s, step)
    ensures OnlyOrNewer(s', uid, n)
  {
    NextMoves(cfg, s, step);
    if Records(s, step) {
      RecordingComes(s, step.now);
    } else {
      NextCarries(cfg, s, step);
    }
    StepKeepsNewer(s, s', uid, n);
  }

  lemma {:induction false} StaysNewer(cfg: Settings, h: seq<State>, steps: seq<Step>, a: nat, b: nat, uid: nat, n: nat)
    requires IsRun(cfg, h, steps) && a <= b <= |steps| && OnlyOrNewer(h[a], uid, n)
    ensures OnlyOrNewer(h[b], uid, n)
  {
    if a < b {
      var m := b - 1;
      StaysNewer(cfg, h, steps, a, m, uid, n);
      RunKeepsRecovery(cfg, h, steps, m);
      assert Stepped(cfg, h, steps, m);
      NextKeepsNewer(cfg, h[m], steps[m], h[b], uid, n);
    }
  }

  lemma {:induction false} UidsGrow(cfg: Settings, h: seq<State>, steps: seq<Step>, a: nat, b: nat)
    requires IsRun(cfg, h, steps) && a <= b <= |steps|
    ensures h[a].nextUid <= h[b].nextUid
  {
    if a < b {
      UidsGrow(cfg, h, steps, a, b - 1);
      assert Stepped(cfg, h, steps, b - 1);
      NextMoves(cfg, h[b - 1], steps[b - 1]);
    }
  }

  /** The Node of a later incarnation is read later. */
  lemma ReadsFollow(cfg: Settings, h: seq<State>, steps: seq<Step>, a: nat, uid: nat, newer: nat, r: nat)
    requires IsRun(cfg, h, steps) && a <= |steps| && r <= |steps| && uid != newer
    requires InHand(h[a], RemoveRebooted, uid) && InHand(h[|steps|], RemoveRebooted, newer)
    requires InHand(h[r], GetNode, newer)
    ensures a < r
  {
    RunKeepsRecovery(cfg, h, steps, a);
    StaysNewer(cfg, h, steps, a, |steps|, uid, h[a].nextUid);
    RunKeepsRecovery(cfg, h, steps, r);
    if r <= a {
      UidsGrow(cfg, h, steps, r, a);
    }
  }

  /**
   Recovery does not loop. When one Pod was up for deletion for a reboot and later another incarnation is, the boot ID
   of the later one was read after that, and its host has reported yet another one since: every further deletion takes
   a further reboot.
   */
  lemma EveryDeletionTakesAReboot(cfg: Settings, h: seq<State>, steps: seq<Step>, a: nat, uid: nat, q: Pod)
    requires IsRun(cfg, h, steps) && a < |steps| && InHand(h[a], RemoveRebooted, uid)
    requires InHand(h[|steps|], RemoveRebooted, q.uid) && h[|steps|].control.pod == Some(q) && q.uid != uid
    ensures RebootedAfter(h, steps, q, a)
  {
    RunsAreTraced(cfg, h, steps);
    var i: nat, r: nat, w: nat, j: nat :|
      && RecordedFrom(h, steps, q.uid, HostOf(q.node).value, Recorded(q), i, r, w)
      && r < j < |steps| && IsReport(steps[j], HostOf(q.node).value) && steps[j].bootId != Recorded(q);
    ReadsFollow(cfg, h, steps, a, uid, q.uid, r);
  }
}
