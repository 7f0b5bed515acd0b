/**
 The reconcile procedure itself, call by call, against a cluster on which others act before every call. Every
 execution is proved to be a run of the protocol, so what holds of all protocol runs holds of the procedure.
 */
module Reconciler {
  import opened Options
  import opened Status = InstanceStatus
  import opened Meta = PodMetadata
  import opened Recovery
  import Protocol
  import Safety = ProtocolSafety
  import Teardown = ProtocolTeardown
  import Rec = ProtocolRecovery

  /** Steps that are not the reconciler's. */
  predicate Theirs(step: Protocol.Step) {
    !step.Read? && !step.Go? && !step.Fail?
  }

  type TheirStep = step: Protocol.Step | Theirs(step) witness Protocol.UserDelete

  /** What happens around one call: what others do before it, whether it fails, and when it is made. */
  datatype Moment = Moment(others: seq<TheirStep>, fails: bool, now: int, touched: bool)

  /** The reconciler's step at that moment. A call that fails ends the reconcile; some stages make no call. */
  predicate IsOwn(step: Protocol.Step, m: Moment) {
    step == Protocol.Go(m.now, m.touched) || (m.fails && step == Protocol.Fail)
  }

  /**
   The trace is what the world and the procedure did, no more and no less: for every call, what others did before it
   and then the reconciler's own step, with the reads that start reconciles in between.
   */
  ghost predicate Faithful(world: nat -> Moment, trace: seq<Protocol.Step>, calls: nat)
    decreases |trace|
  {
    if trace == [] then calls == 0
    else
      var n := |trace| - 1;
      if trace[n].Read? then Faithful(world, trace[..n], calls)
      else
        0 < calls &&
        var m := world(calls - 1);
        && IsOwn(trace[n], m) && |m.others| <= n && trace[n - |m.others|..n] == m.others
        && Faithful(world, trace[..n - |m.others|], calls - 1)
  }

  lemma FaithfulCall(world: nat -> Moment, trace: seq<Protocol.Step>, calls: nat, step: Protocol.Step)
    requires Faithful(world, trace, calls) && IsOwn(step, world(calls))
    ensures Faithful(world, trace + world(calls).others + [step], calls + 1)
  {
    var others := world(calls).others;
    var all := trace + others + [step];
    var n := |all| - 1;
    assert all[n] == step && all[n - |others|..n] == others && all[..n - |others|] == trace;
  }

  /** `trace` leads from `start` to `s`. Said of all equal traces, so that runs are unfolded only where they grow. */
  ghost predicate Leads(cfg: Protocol.Settings, start: Protocol.State, trace: seq<Protocol.Step>, s: Protocol.State) {
    forall t :: t == trace ==> Protocol.RunFrom(cfg, start, t) == s
  }

  /** In the same way for faithful traces. */
  ghost predicate Told(world: nat -> Moment, trace: seq<Protocol.Step>, calls: nat) {
    forall t :: t == trace ==> Faithful(world, t, calls)
  }

  lemma LeadsOn(cfg: Protocol.Settings, start: Protocol.State, trace: seq<Protocol.Step>, s: Protocol.State,
                step: Protocol.Step)
    requires Leads(cfg, start, trace, s)
    ensures Leads(cfg, start, trace + [step], Protocol.Next(cfg, s, step))
  {
    var more := trace + [step];
    assert more[..|more| - 1] == trace;
    assert Protocol.RunFrom(cfg, start, more) == Protocol.Next(cfg, Protocol.RunFrom(cfg, start, trace), step);
  }

  lemma ToldRead(world: nat -> Moment, trace: seq<Protocol.Step>, calls: nat, k: nat)
    requires Told(world, trace, calls)
    ensures Told(world, trace + [Protocol.Read(k)], calls)
  {
    assert (trace + [Protocol.Read(k)])[..|trace|] == trace;
  }

  lemma ToldCall(world: nat -> Moment, trace: seq<Protocol.Step>, calls: nat, step: Protocol.Step)
    requires Told(world, trace, calls) && IsOwn(step, world(calls))
    ensures Told(world, trace + world(calls).others + [step], calls + 1)
  {
    FaithfulCall(world, trace, calls, step);
  }

  /** `b` continues `a` without starting another reconcile. */
  ghost predicate Grew(a: seq<Protocol.Step>, b: seq<Protocol.Step>) {
    a <= b && forall i :: |a| <= i < |b| ==> !b[i].Read?
  }

  predicate OnInstance(step: Protocol.Step) {
    step.UserCreate? || step.UserDelete? || step.InstanceWrite? || step.ComputeWrite?
  }

  function Acted(s: Protocol.State, step: Protocol.Step): Protocol.State {
    if OnInstance(step) then Protocol.InstanceStep(s, step) else Protocol.BackingStep(s, step)
  }

  /** What others do does not depend on where the reconcile stands, and does not move it. */
  lemma OthersIgnoreControl(cfg: Protocol.Settings, s: Protocol.State, step: Protocol.Step, c: Protocol.Control)
    requires Theirs(step) && s.versions != []
    ensures Protocol.Next(cfg, s.(control := c), step) == Acted(s, step).(control := c)
    ensures Acted(s, step).versions != []
  {
  }

  class Cluster {
    const cfg: Protocol.Settings
    const world: nat -> Moment
    var calls: nat
    var versions: seq<Option<Protocol.Instance>>
    var seen: nat
    var nextUid: nat
    var pod: Option<Protocol.Pod>
    var service: Option<Protocol.Service>
    var boots: map<string, string>
    var computeConditions: seq<Condition>
    var computeInterfaces: seq<Interface>

    // where the procedure stands, the protocol run so far, and how far it had got at the last call
    ghost const start: Protocol.State
    ghost var control: Protocol.Control
    ghost var trace: seq<Protocol.Step>
    ghost var mark: seq<Protocol.Step>

    constructor (cfg: Protocol.Settings, world: nat -> Moment, s: Protocol.State)
      requires s.control.Idle? && s.versions != []
      ensures Valid() && start == s && this.cfg == cfg && this.world == world
      ensures trace == [] && calls == 0 && control.Idle? && State() == s
    {
      this.cfg, this.world, calls := cfg, world, 0;
      versions, seen, nextUid, pod, service, boots := s.versions, s.seen, s.nextUid, s.pod, s.service, s.boots;
      computeConditions, computeInterfaces := s.computeConditions, s.computeInterfaces;
      start, control, trace, mark := s, Protocol.Idle, [], [];
    }

    function Objects(): Protocol.State
      reads this
    {
      Protocol.State(versions, seen, nextUid, pod, service, boots, Protocol.Idle, computeConditions, computeInterfaces)
    }

    ghost function State(): Protocol.State
      reads this
    {
      Objects().(control := control)
    }

    /** The cluster is where the protocol run so far leads. */
    ghost predicate OnTrack()
      reads this
    {
      versions != [] && Leads(cfg, start, trace, State())
    }

    /** Between calls: the cluster is where a faithful protocol run leads. */
    ghost predicate Valid()
      reads this
    {
      OnTrack() && Told(world, trace, calls)
    }

    /** During a call: others have had their turn of moment `m`. */
    ghost predicate Turned(m: Moment)
      reads this`calls, this`trace, this`mark
    {
      0 < calls && m == world(calls - 1) && trace == mark + m.others && Told(world, mark, calls - 1)
    }

    /** The cluster has just taken `step` from `before`. */
    ghost method Took(before: Protocol.State, step: Protocol.Step)
      requires versions != [] && Leads(cfg, start, trace, before)
      requires State() == Protocol.Next(cfg, before, step)
      modifies this`trace
      ensures OnTrack() && trace == old(trace) + [step]
    {
      LeadsOn(cfg, start, trace, before, step);
      trace := trace + [step];
    }

    /** The same for the reconciler's own step, which ends the call. */
    ghost method TookOwn(before: Protocol.State, m: Moment, step: Protocol.Step)
      requires versions != [] && Leads(cfg, start, trace, before) && Turned(m) && IsOwn(step, m)
      requires State() == Protocol.Next(cfg, before, step)
      modifies this`trace
      ensures Valid() && trace == mark + m.others + [step] && Grew(mark, trace)
    {
      ToldCall(world, mark, calls - 1, step);
      Took(before, step);
    }

    ghost method TookTeardown(before: Protocol.State, m: Moment)
      requires versions != [] && Leads(cfg, start, trace, before) && Turned(m) && before.control.Busy?
      requires Protocol.TearingDown(before.control.stage) || before.control.stage == Protocol.SuspendPod
      requires before.versions != [] && State() == Protocol.TeardownStep(before)
      modifies this`trace
      ensures Valid() && Grew(mark, trace)
    {
      TookOwn(before, m, Protocol.Go(m.now, m.touched));
    }

    ghost method TookPod(before: Protocol.State, m: Moment)
      requires versions != [] && Leads(cfg, start, trace, before) && Turned(m) && before.control.Busy?
      requires Protocol.PodStage(before.control.stage)
      requires before.versions != [] && State() == Protocol.PodStep(cfg, before, m.now, m.touched)
      modifies this`trace
      ensures Valid() && Grew(mark, trace)
    {
      TookOwn(before, m, Protocol.Go(m.now, m.touched));
    }

    ghost method TookRecovery(before: Protocol.State, m: Moment)
      requires versions != [] && Leads(cfg, start, trace, before) && Turned(m) && before.control.Busy?
      requires Protocol.RecoverStage(before.control.stage)
      requires before.versions != [] && State() == Protocol.RecoverStep(before, m.now)
      modifies this`trace
      ensures Valid() && Grew(mark, trace)
    {
      TookOwn(before, m, Protocol.Go(m.now, m.touched));
    }

    ghost method TookService(before: Protocol.State, m: Moment)
      requires versions != [] && Leads(cfg, start, trace, before) && Turned(m) && before.control.Busy?
      requires before.control.stage.GetService? || before.control.stage.CreateService?
               || before.control.stage.PatchService? || before.control.stage.DropService?
      requires before.versions != [] && State() == Protocol.ServiceStep(before, m.touched)
      modifies this`trace
      ensures Valid() && Grew(mark, trace)
    {
      TookOwn(before, m, Protocol.Go(m.now, m.touched));
    }

    ghost method TookReport(before: Protocol.State, m: Moment, patch: Option<StatusPatch>)
      requires versions != [] && Leads(cfg, start, trace, before) && Turned(m) && before.control.Busy?
      requires before.control.stage == Protocol.PatchInstance && before.control.pod.Some? && before.versions != []
      requires patch == Protocol.StatusPatchOf(cfg, before.control.inst, before.control.pod.value, m.now)
      requires State() == Protocol.Sent(before, patch)
      modifies this`trace
      ensures Valid() && Grew(mark, trace)
    {
      GoReports(cfg, before, m.now, m.touched);
      TookOwn(before, m, Protocol.Go(m.now, m.touched));
    }

    method Act(step: TheirStep)
      requires OnTrack()
      modifies this
      ensures OnTrack() && control == old(control) && calls == old(calls) && mark == old(mark)
      ensures trace == old(trace) + [step]
    {
      ghost var before := State();
      OthersIgnoreControl(cfg, Objects(), step, control);
      Become(Acted(Objects(), step));
      Took(before, step);
    }

    method Become(s: Protocol.State)
      modifies this`versions, this`seen, this`nextUid, this`pod, this`service, this`boots
      modifies this`computeConditions, this`computeInterfaces
      ensures Objects() == s.(control := Protocol.Idle)
    {
      versions, seen, nextUid, pod, service, boots := s.versions, s.seen, s.nextUid, s.pod, s.service, s.boots;
      computeConditions, computeInterfaces := s.computeConditions, s.computeInterfaces;
    }

    /** Others act, then it is the reconciler's turn. */
    method Turn() returns (m: Moment)
      requires Valid()
      modifies this
      ensures OnTrack() && Turned(m) && control == old(control)
      ensures mark == old(trace) && calls == old(calls) + 1
    {
      m := world(calls);
      calls := calls + 1;
      mark := trace;
      for i := 0 to |m.others|
        invariant OnTrack() && control == old(control) && mark == old(trace) && calls == old(calls) + 1
        invariant trace == mark + m.others[..i]
      {
        Act(m.others[i]);
        assert m.others[..i + 1] == m.others[..i] + [m.others[i]];
      }
      assert m.others[..|m.others|] == m.others;
    }

    /** A failed call ends the reconcile. */
    ghost method Abort(m: Moment)
      requires OnTrack() && Turned(m) && m.fails
      modifies this`control, this`trace
      ensures Valid() && control.Idle? && Grew(mark, trace)
    {
      ghost var before := State();
      control := Protocol.Idle;
      TookOwn(before, m, Protocol.Fail);
    }

    // ----- Reconcile -----

    ghost method TookRead(before: Protocol.State, k: nat)
      requires versions != [] && Leads(cfg, start, trace, before) && Told(world, trace, calls)
      requires State() == Protocol.Next(cfg, before, Protocol.Read(k))
      modifies this`trace
      ensures Valid() && trace == old(trace) + [Protocol.Read(k)]
    {
      ToldRead(world, trace, calls, k);
      Took(before, Protocol.Read(k));
    }

    /** One reconcile. `k` is the version of the Instance that the cache returns. */
    method Reconcile(k: nat)
      requires Valid() && control.Idle? && seen <= k < |versions|
      modifies this
      ensures Valid() && control.Idle? && Grew(old(trace) + [Protocol.Read(k)], trace)
    {
      ghost var before := State();
      var v := versions[k];
      seen := k;
      if v.None? {
        TookRead(before, k);
        return;
      }
      var inst := v.value;
      ghost var first := Protocol.FirstStage(inst);
      if first.Some? {
        control := Protocol.Busy(first.value, k, inst, None, "");
      }
      TookRead(before, k);
      if inst.deleting {
        HandleDeletion(k, inst);
        return;
      }
      if !inst.sandbox || inst.gated {
        return;
      }
      if inst.status.suspended {
        var ok := DeletePod();
        return;
      }
      var ver := k;
      if !inst.finalizer {
        var ok := AddFinalizer(ver, inst);
        if !ok {
          return;
        }
        ver, inst := |versions| - 1, inst.(finalizer := true);
      }
      ReconcileSandbox(ver, inst);
    }

    // ----- Teardown -----

    method HandleDeletion(ver: nat, inst: Protocol.Instance)
      requires Valid()
      requires if inst.finalizer then control == Protocol.Busy(Protocol.DeletePod, ver, inst, None, "")
               else control.Idle?
      modifies this
      ensures Valid() && control.Idle? && Grew(old(trace), trace)
    {
      if !inst.finalizer {
        return;
      }
      var ok := DeleteBacking();
      if !ok {
        return;
      }
      var pending := BackingResourcesPending();
      if pending {
        return;
      }
      RemoveFinalizer(ver, inst);
    }

    method DeleteBacking() returns (ok: bool)
      requires Valid() && control.Busy? && control.stage == Protocol.DeletePod
      modifies this
      ensures Valid() && Grew(old(trace), trace)
      ensures control == if ok then old(control).(stage := Protocol.CheckPod) else Protocol.Idle
    {
      ok := DeletePod();
      if ok {
        ok := DeleteService();
      }
    }

    /** Deletes the Pod; one that is not there is as good as deleted. */
    method DeletePod() returns (ok: bool)
      requires Valid() && control.Busy?
      requires control.stage == Protocol.DeletePod || control.stage == Protocol.SuspendPod
      modifies this
      ensures Valid() && calls == old(calls) + 1 && Grew(old(trace), trace)
      ensures control == if ok && old(control).stage == Protocol.DeletePod
                         then old(control).(stage := Protocol.DeleteService) else Protocol.Idle
    {
      var m := Turn();
      if m.fails {
        Abort(m);
        return false;
      }
      ghost var before := State();
      pod := Protocol.MarkPod(pod);
      control := if control.stage == Protocol.DeletePod
                 then control.(stage := Protocol.DeleteService) else Protocol.Idle;
      TookTeardown(before, m);
      ok := true;
    }

    method DeleteService() returns (ok: bool)
      requires Valid() && control.Busy?
      requires control.stage == Protocol.DeleteService || control.stage == Protocol.DropService
      modifies this
      ensures Valid() && calls == old(calls) + 1 && Grew(old(trace), trace)
      ensures control == if !ok then Protocol.Idle
                         else old(control).(stage := if old(control).stage == Protocol.DeleteService
                                                     then Protocol.CheckPod else Protocol.PatchInstance)
    {
      var m := Turn();
      if m.fails {
        Abort(m);
        return false;
      }
      ghost var before := State();
      service := Protocol.MarkService(service);
      control := control.(stage := if control.stage == Protocol.DeleteService
                                   then Protocol.CheckPod else Protocol.PatchInstance);
      TookOwn(before, m, Protocol.Go(m.now, m.touched));
      ok := true;
    }

    /** Whether Pod or Service still exists. A failed check counts as pending: the reconcile ends either way. */
    method BackingResourcesPending() returns (pending: bool)
      requires Valid() && control.Busy? && control.stage == Protocol.CheckPod
      modifies this
      ensures Valid() && Grew(old(trace), trace)
      ensures control == if pending then Protocol.Idle else old(control).(stage := Protocol.Unfinalize)
    {
      pending := PodPending();
      if !pending {
        pending := ServicePending();
      }
    }

    method PodPending() returns (pending: bool)
      requires Valid() && control.Busy? && control.stage == Protocol.CheckPod
      modifies this
      ensures Valid() && calls == old(calls) + 1 && Grew(old(trace), trace)
      ensures control == if pending then Protocol.Idle else old(control).(stage := Protocol.CheckService)
    {
      var m := Turn();
      if m.fails {
        Abort(m);
        return true;
      }
      ghost var before := State();
      pending := pod.Some?;
      control := if pending then Protocol.Idle else control.(stage := Protocol.CheckService);
      TookTeardown(before, m);
    }

    method ServicePending() returns (pending: bool)
      requires Valid() && control.Busy? && control.stage == Protocol.CheckService
      modifies this
      ensures Valid() && calls == old(calls) + 1 && Grew(old(trace), trace)
      ensures control == if pending then Protocol.Idle else old(control).(stage := Protocol.Unfinalize)
    {
      var m := Turn();
      if m.fails {
        Abort(m);
        return true;
      }
      ghost var before := State();
      pending := service.Some?;
      control := if pending then Protocol.Idle else control.(stage := Protocol.Unfinalize);
      TookTeardown(before, m);
    }

    /** Updates carry the version they were computed from; any other version refuses them. */
    method RemoveFinalizer(ver: nat, inst: Protocol.Instance)
      requires Valid() && control == Protocol.Busy(Protocol.Unfinalize, ver, inst, None, "")
      modifies this
      ensures Valid() && control.Idle? && calls == old(calls) + 1 && Grew(old(trace), trace)
    {
      var m := Turn();
      if m.fails {
        Abort(m);
        return;
      }
      ghost var before := State();
      if ver == |versions| - 1 {
        versions := versions + [Protocol.Settle(inst.(finalizer := false))];
      }
      control := Protocol.Idle;
      TookTeardown(before, m);
    }

    method AddFinalizer(ver: nat, inst: Protocol.Instance) returns (ok: bool)
      requires Valid() && control == Protocol.Busy(Protocol.AddFinalizer, ver, inst, None, "")
      modifies this
      ensures Valid() && calls == old(calls) + 1 && Grew(old(trace), trace)
      ensures control == if !ok then Protocol.Idle
                         else Protocol.Busy(Protocol.GetPod, |versions| - 1, inst.(finalizer := true), None, "")
    {
      var m := Turn();
      if m.fails {
        Abort(m);
        return false;
      }
      ghost var before := State();
      ok := WriteFinalizer(ver, inst, m.now, m.touched);
      TookPod(before, m);
    }

    /** The API server's side of an update with a version check. */
    method WriteFinalizer(ver: nat, inst: Protocol.Instance, ghost now: int, ghost touched: bool) returns (ok: bool)
      requires versions != [] && control.Busy? && control.stage == Protocol.AddFinalizer
      requires control.ver == ver && control.inst == inst
      modifies this`versions, this`control
      ensures versions != [] && State() == Protocol.PodStep(cfg, old(State()), now, touched)
      ensures control == if !ok then Protocol.Idle
                         else Protocol.Busy(Protocol.GetPod, |versions| - 1, inst.(finalizer := true), None, "")
    {
      ok := ver == |versions| - 1;
      if ok {
        versions := versions + [Some(inst.(finalizer := true))];
        control := Protocol.Busy(Protocol.GetPod, |versions| - 1, inst.(finalizer := true), None, "");
      } else {
        control := Protocol.Idle;
      }
    }

    // ----- Pod, recovery, Service, status -----

    method ReconcileSandbox(ver: nat, inst: Protocol.Instance)
      requires Valid() && control == Protocol.Busy(Protocol.GetPod, ver, inst, None, "")
      modifies this
      ensures Valid() && control.Idle? && Grew(old(trace), trace)
    {
      var p := CreateOrPatchPod(ver, inst);
      if p.None? {
        return;
      }
      var goOn, seenPod := RecoverPod(ver, inst, p.value);
      if !goOn {
        return;
      }
      var ok := ReconcileService(inst);
      if !ok {
        return;
      }
      SyncStatus(ver, inst, seenPod);
    }

    method CreateOrPatchPod(ver: nat, inst: Protocol.Instance) returns (p: Option<Protocol.Pod>)
      requires Valid() && control == Protocol.Busy(Protocol.GetPod, ver, inst, None, "")
      modifies this
      ensures Valid() && Grew(old(trace), trace)
      ensures control == if p.None? then Protocol.Idle else Protocol.Busy(Protocol.GetNode, ver, inst, p, "")
    {
      var m := Turn();
      if m.fails {
        Abort(m);
        return None;
      }
      ghost var before := State();
      var observed := pod;
      control := Protocol.Busy(if pod.Some? then Protocol.PatchPod else Protocol.CreatePod, ver, inst, observed, "");
      TookPod(before, m);
      if observed.None? {
        p := CreatePod(ver, inst);
      } else {
        p := PatchPod(ver, inst, observed.value);
      }
    }

    method CreatePod(ver: nat, inst: Protocol.Instance) returns (p: Option<Protocol.Pod>)
      requires Valid() && control == Protocol.Busy(Protocol.CreatePod, ver, inst, None, "")
      modifies this
      ensures Valid() && calls == old(calls) + 1 && Grew(old(trace), trace)
      ensures control == if p.None? then Protocol.Idle else Protocol.Busy(Protocol.GetNode, ver, inst, p, "")
    {
      var m := Turn();
      if m.fails {
        Abort(m);
        return None;
      }
      ghost var before := State();
      p := Place(ver, inst, m.now, m.touched);
      TookPod(before, m);
    }

    /** The API server's side of creating the Pod. */
    method Place(ver: nat, inst: Protocol.Instance, now: int, ghost touched: bool) returns (p: Option<Protocol.Pod>)
      requires versions != [] && control == Protocol.Busy(Protocol.CreatePod, ver, inst, None, "")
      modifies this`pod, this`nextUid, this`control
      ensures State() == Protocol.PodStep(cfg, old(State()), now, touched)
      ensures control == if p.None? then Protocol.Idle else Protocol.Busy(Protocol.GetNode, ver, inst, p, "")
    {
      if pod.Some? {
        p, control := None, Protocol.Idle;
      } else {
        p := Some(Protocol.NewPod(cfg, Objects(), inst, now));
        pod, nextUid := p, nextUid + 1;
        control := Protocol.Busy(Protocol.GetNode, ver, inst, p, "");
      }
    }

    method PatchPod(ver: nat, inst: Protocol.Instance, observed: Protocol.Pod) returns (p: Option<Protocol.Pod>)
      requires Valid() && control == Protocol.Busy(Protocol.PatchPod, ver, inst, Some(observed), "")
      modifies this
      ensures Valid() && calls == old(calls) + 1 && Grew(old(trace), trace)
      ensures control == if p.None? then Protocol.Idle else Protocol.Busy(Protocol.GetNode, ver, inst, p, "")
    {
      var m := Turn();
      ghost var before := State();
      var wanted := Mutate(cfg.config, inst.annotations, observed.annotations);
      var sends := observed.owner == inst.uid && (m.touched || wanted != observed.annotations);
      if sends && m.fails {
        Abort(m);
        return None;
      }
      p := SendPod(ver, inst, observed, wanted, sends, m.now, m.touched);
      TookPod(before, m);
    }

    /** The API server's side of patching the Pod. */
    method SendPod(ver: nat, inst: Protocol.Instance, observed: Protocol.Pod, wanted: Annotations, sends: bool,
                   ghost now: int, ghost touched: bool) returns (p: Option<Protocol.Pod>)
      requires versions != [] && control == Protocol.Busy(Protocol.PatchPod, ver, inst, Some(observed), "")
      requires wanted == Mutate(cfg.config, inst.annotations, observed.annotations)
      requires sends <==> observed.owner == inst.uid && (touched || wanted != observed.annotations)
      modifies this`pod, this`control
      ensures State() == Protocol.PodStep(cfg, old(State()), now, touched)
      ensures control == if p.None? then Protocol.Idle else Protocol.Busy(Protocol.GetNode, ver, inst, p, "")
    {
      if !sends {
        p := if observed.owner == inst.uid then Some(observed) else None;
      } else if pod.None? {
        p := None;
      } else {
        p := Some(pod.value.(annotations := PatchMap(pod.value.annotations, DiffMaps(observed.annotations, wanted))));
        pod := p;
      }
      control := if p.None? then Protocol.Idle else Protocol.Busy(Protocol.GetNode, ver, inst, p, "");
    }

    /** Deletes the Pod if its host rebooted or it is stuck. The reconcile goes on only if it did not. */
    method RecoverPod(ver: nat, inst: Protocol.Instance, p: Protocol.Pod) returns (goOn: bool, q: Protocol.Pod)
      requires Valid() && control == Protocol.Busy(Protocol.GetNode, ver, inst, Some(p), "")
      modifies this
      ensures Valid() && Grew(old(trace), trace)
      ensures if goOn
              then control.Busy? && control == Protocol.Busy(Protocol.GetService, ver, inst, Some(q), control.boot)
              else control.Idle?
    {
      var stage, boot := ReadNode(ver, inst, p);
      goOn, q := false, p;
      if stage.GetService? {
        goOn := true;
      } else if stage.RemoveRebooted? {
        DeleteJudged(p);
      } else if !stage.GetNode? {
        var judged := Some(p);
        if stage.RecordBoot? {
          judged := RecordBoot(ver, inst, p, boot);
        }
        if judged.Some? {
          q := judged.value;
          goOn := JudgeStuck(ver, inst, q);
          if !goOn {
            DeleteJudged(q);
          }
        }
      }
    }

    /** The host's boot ID against the recorded one. `GetNode` as a result means that the read failed. */
    method ReadNode(ver: nat, inst: Protocol.Instance, p: Protocol.Pod) returns (next: Protocol.Stage, boot: string)
      requires Valid() && control == Protocol.Busy(Protocol.GetNode, ver, inst, Some(p), "")
      modifies this
      ensures Valid() && calls == old(calls) + 1 && Grew(old(trace), trace)
      ensures next.GetNode? || next.GetService? || next.JudgeStuck? || next.RecordBoot? || next.RemoveRebooted?
      ensures control == if next.GetNode? then Protocol.Idle else Protocol.Busy(next, ver, inst, Some(p), boot)
    {
      var m := Turn();
      ghost var before := State();
      var host := HostOf(p.node);
      next, boot := Protocol.JudgeStuck, "";
      if p.deleting {
        next := Protocol.GetService;
      } else if host.Some? {
        if m.fails {
          Abort(m);
          return Protocol.GetNode, "";
        }
        if host.value in boots && boots[host.value] != "" {
          var reported, recorded := boots[host.value], Protocol.Recorded(p);
          if recorded == reported {
          } else if recorded == "" {
            next, boot := Protocol.RecordBoot, reported;
          } else {
            next := Protocol.RemoveRebooted;
          }
        }
      }
      control := Protocol.Busy(next, ver, inst, Some(p), boot);
      TookRecovery(before, m);
    }

    method RecordBoot(ver: nat, inst: Protocol.Instance, p: Protocol.Pod, boot: string)
      returns (q: Option<Protocol.Pod>)
      requires Valid() && control == Protocol.Busy(Protocol.RecordBoot, ver, inst, Some(p), boot)
      modifies this
      ensures Valid() && calls == old(calls) + 1 && Grew(old(trace), trace)
      ensures control == if q.None? then Protocol.Idle else Protocol.Busy(Protocol.JudgeStuck, ver, inst, q, boot)
    {
      var m := Turn();
      if m.fails {
        Abort(m);
        return None;
      }
      ghost var before := State();
      q := None;
      if pod.Some? {
        q := Some(pod.value.(annotations := pod.value.annotations[HOST_BOOT_ID := boot]));
        pod := q;
      }
      control := if q.None? then Protocol.Idle else Protocol.Busy(Protocol.JudgeStuck, ver, inst, q, boot);
      TookRecovery(before, m);
    }

    /** Whether to leave the Pod alone. */
    method JudgeStuck(ver: nat, inst: Protocol.Instance, q: Protocol.Pod) returns (keep: bool)
      requires Valid() && control.Busy?
      requires control == Protocol.Busy(Protocol.JudgeStuck, ver, inst, Some(q), control.boot)
      modifies this
      ensures Valid() && calls == old(calls) + 1 && Grew(old(trace), trace)
      ensures control == old(control).(stage := if keep then Protocol.GetService else Protocol.RemoveStuck)
    {
      var m := Turn();
      ghost var before := State();
      var wait, stuck := StuckStartRemaining(q.status, q.created, m.now);
      keep := !stuck || wait > 0;
      assert keep == !(Stuck(q.status) && GraceOver(q.status, q.created, m.now));
      control := control.(stage := if keep then Protocol.GetService else Protocol.RemoveStuck);
      TookRecovery(before, m);
    }

    /** Deletion with the judged Pod's UID as precondition. */
    method DeleteJudged(judged: Protocol.Pod)
      requires Valid() && control.Busy? && control.pod == Some(judged)
      requires control.stage == Protocol.RemoveRebooted || control.stage == Protocol.RemoveStuck
      modifies this
      ensures Valid() && control.Idle? && calls == old(calls) + 1 && Grew(old(trace), trace)
    {
      var m := Turn();
      if m.fails {
        Abort(m);
        return;
      }
      ghost var before := State();
      RemoveJudged(judged, m.now);
      TookRecovery(before, m);
    }

    /** The API server's side of it. */
    method RemoveJudged(judged: Protocol.Pod, ghost now: int)
      requires control.Busy? && control.pod == Some(judged)
      requires control.stage == Protocol.RemoveRebooted || control.stage == Protocol.RemoveStuck
      modifies this`pod, this`control
      ensures State() == Protocol.RecoverStep(old(State()), now) && control.Idle?
    {
      if pod.Some? && pod.value.uid == judged.uid {
        pod := Some(pod.value.(deleting := true));
      }
      control := Protocol.Idle;
    }

    method ReconcileService(inst: Protocol.Instance) returns (ok: bool)
      requires Valid() && control.Busy? && control.stage == Protocol.GetService && control.inst == inst
      modifies this
      ensures Valid() && Grew(old(trace), trace)
      ensures control == if ok then old(control).(stage := Protocol.PatchInstance) else Protocol.Idle
    {
      var next := LookUpService(inst);
      match next {
        case None => ok := false;
        case Some(stage) =>
          if stage.DropService? {
            ok := DeleteService();
          } else if stage.CreateService? {
            ok := CreateService(inst);
          } else {
            ok := PatchService();
          }
      }
    }

    /** What to do about the Service: delete it, create it or patch it, or nothing when it is somebody else's. */
    method LookUpService(inst: Protocol.Instance) returns (next: Option<Protocol.Stage>)
      requires Valid() && control.Busy? && control.stage == Protocol.GetService && control.inst == inst
      modifies this
      ensures Valid() && calls == old(calls) + 1 && Grew(old(trace), trace)
      ensures next.Some? ==> next.value.DropService? || next.value.CreateService? || next.value.PatchService?
      ensures control == if next.Some? then old(control).(stage := next.value) else Protocol.Idle
    {
      var m := Turn();
      if inst.hasPorts && m.fails {
        Abort(m);
        return None;
      }
      ghost var before := State();
      next := if !inst.hasPorts then Some(Protocol.DropService)
              else if service.None? then Some(Protocol.CreateService)
              else if service.value.owner != inst.uid then None
              else Some(Protocol.PatchService);
      control := if next.Some? then control.(stage := next.value) else Protocol.Idle;
      TookService(before, m);
    }

    method CreateService(inst: Protocol.Instance) returns (ok: bool)
      requires Valid() && control.Busy? && control.inst == inst && control.stage == Protocol.CreateService
      modifies this
      ensures Valid() && calls == old(calls) + 1 && Grew(old(trace), trace)
      ensures control == if ok then old(control).(stage := Protocol.PatchInstance) else Protocol.Idle
    {
      var m := Turn();
      if m.fails {
        Abort(m);
        return false;
      }
      ghost var before := State();
      ok := service.None?;
      if ok {
        service := Some(Protocol.Service(inst.uid, false));
      }
      control := if ok then control.(stage := Protocol.PatchInstance) else Protocol.Idle;
      TookService(before, m);
    }

    /** Without any difference no patch is sent. */
    method PatchService() returns (ok: bool)
      requires Valid() && control.Busy? && control.stage == Protocol.PatchService
      modifies this
      ensures Valid() && calls == old(calls) + 1 && Grew(old(trace), trace)
      ensures control == if ok then old(control).(stage := Protocol.PatchInstance) else Protocol.Idle
    {
      var m := Turn();
      if m.touched && m.fails {
        Abort(m);
        return false;
      }
      ghost var before := State();
      ok := !(m.touched && service.None?);
      control := if ok then control.(stage := Protocol.PatchInstance) else Protocol.Idle;
      TookService(before, m);
    }

    /** The status patch to send for this Pod, if there is anything to report. */
    method ComputePatch(inst: Protocol.Instance, p: Protocol.Pod, now: int) returns (patch: Option<StatusPatch>)
      ensures patch == Protocol.StatusPatchOf(cfg, inst, p, now)
    {
      var working := new WorkingInstance(inst.spec, inst.deleting, inst.status);
      patch := working.SyncPowerState(cfg.vpc, p.status, now);
    }

    /** A refused or failed patch ends the reconcile like a sent one; a conflict is retried by a later reconcile. */
    method SyncStatus(ver: nat, inst: Protocol.Instance, p: Protocol.Pod)
      requires Valid() && control.Busy?
      requires control == Protocol.Busy(Protocol.PatchInstance, ver, inst, Some(p), control.boot)
      modifies this
      ensures Valid() && control.Idle? && calls == old(calls) + 1 && Grew(old(trace), trace)
    {
      var m := Turn();
      ghost var before := State();
      var patch := ComputePatch(inst, p, m.now);
      if patch.Some? && m.fails {
        Abort(m);
        return;
      }
      Send(ver, patch);
      TookReport(before, m, patch);
    }

    /** The API server's side of a patch with a version check. */
    method Send(ver: nat, patch: Option<StatusPatch>)
      requires versions != [] && control.Busy? && control.ver == ver
      modifies this`versions, this`control
      ensures State() == Protocol.Sent(old(State()), patch)
    {
      ghost var before := State();
      if patch.Some? && ver == |versions| - 1 && versions[ver].Some? {
        versions := versions + [Some(Protocol.WithPatch(versions[ver].value, patch.value))];
      }
      control := Protocol.Idle;
    }
  }

  lemma GoReports(cfg: Protocol.Settings, s: Protocol.State, now: int, touched: bool)
    requires s.versions != [] && s.control.Busy? && s.control.stage == Protocol.PatchInstance
    ensures Protocol.Next(cfg, s, Protocol.Go(now, touched)) == Protocol.ReportStep(cfg, s, now)
  {
  }

  /**
   What the protocol guarantees holds of the cluster at every call of every reconcile: backing objects are guarded
   by the finalizer, compute's status writes are intact, deletion is final, and what recovery does has its cause.
   */
  lemma ReconcilesAreSafe(cluster: Cluster)
    requires cluster.Valid() && cluster.start == Protocol.INITIAL
    ensures Safety.Inv(cluster.State()) && Safety.ComputeIntact(cluster.State())
    ensures Teardown.DeletionIsFinal(cluster.State())
    ensures var h := Rec.States(cluster.cfg, cluster.trace);
            && Rec.IsRun(cluster.cfg, h, cluster.trace) && h[|cluster.trace|] == cluster.State()
            && Rec.RecInv(cluster.State()) && Rec.Traced(h, cluster.trace)
  {
    assert Protocol.Run(cluster.cfg, cluster.trace) == cluster.State();
    Safety.RunKeeps(cluster.cfg, cluster.trace);
    Safety.ComputeWritesSurvive(cluster.cfg, cluster.trace);
    Teardown.RunKeepsFinal(cluster.cfg, cluster.trace);
    Rec.StatesAreRun(cluster.cfg, cluster.trace);
    Rec.RunKeepsRecovery(cluster.cfg, Rec.States(cluster.cfg, cluster.trace), cluster.trace, |cluster.trace|);
    Rec.RunsAreTraced(cluster.cfg, Rec.States(cluster.cfg, cluster.trace), cluster.trace);
  }
}
