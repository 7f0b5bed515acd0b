/**
 The Instance reconcile protocol for one Instance name.

 One step is one API call of the reconciler or one action of somebody else: users, the compute controller, the
 scheduler, kraftlet, hosts. Any API call may also fail, which ends the reconcile. The Instance is read from a cache
 that may lag behind but never goes back; Pods, Services and Nodes are read as they are.
 */
module Protocol {
  import opened Options
  import opened Status = InstanceStatus
  import opened Meta = PodMetadata
  import opened Recovery

  datatype Instance = Instance(uid: nat, deleting: bool, finalizer: bool, otherFinalizers: bool,
                               sandbox: bool, gated: bool, hasPorts: bool, annotations: Annotations,
                               spec: Spec, status: Status.Status)

  /** `owner` is the uid of the Instance in the controller reference. */
  datatype Pod = Pod(uid: nat, owner: nat, deleting: bool, created: int, node: string, annotations: Annotations,
                     status: PodStatus)

  datatype Service = Service(owner: nat, deleting: bool)

  /** Where a reconcile stands: the API call it makes next. */
  datatype Stage =
    | DeletePod | DeleteService | CheckPod | CheckService | Unfinalize
    | SuspendPod
    | AddFinalizer
    | GetPod | CreatePod | PatchPod
    | GetNode | RecordBoot | JudgeStuck | RemoveRebooted | RemoveStuck
    | GetService | CreateService | PatchService | DropService
    | PatchInstance

  /** A reconcile in flight holds the Instance it read, at version `ver`, and the Pod it last saw. */
  datatype Control =
    | Idle
    | Busy(stage: Stage, ver: nat, inst: Instance, pod: Option<Pod>, boot: string)

  /**
   `versions` are all versions of the Instance, None where it does not exist; the last one is current. `seen` is the
   latest version a read has returned. `computeConditions` and `computeInterfaces` remember compute's last write.
   */
  datatype State = State(versions: seq<Option<Instance>>, seen: nat, nextUid: nat,
                         pod: Option<Pod>, service: Option<Service>, boots: map<string, string>, control: Control,
                         computeConditions: seq<Condition>, computeInterfaces: seq<Interface>)

  datatype Settings = Settings(config: Config, vpc: bool)

  /**
   `Go` makes the next call of the reconcile. Its `touched` says whether a Pod or Service about to be patched differs
   from what is wanted in parts that are not modelled, such as labels; without any difference no patch is sent.
   */
  datatype Step =
    // the reconciler
    | Read(version: nat)
    | Go(now: int, touched: bool)
    | Fail
    // users and other controllers
    | UserCreate(inst: Instance)
    | UserDelete
    | InstanceWrite(inst: Instance)
    | ComputeWrite(status: Status.Status)
    // scheduler, kraftlet, hosts
    | PodWrite(node: string, annotations: Annotations, podStatus: PodStatus)
    | PodEvict
    | PodGone
    | ServiceGone
    | HostReports(host: string, bootId: string)
    | HostLeaves(host: string)

  const INITIAL: State := State([None], 0, 0, None, None, map[], Idle, [], [])

  function Last(s: State): nat
    requires s.versions != []
  {
    |s.versions| - 1
  }

  function Current(s: State): Option<Instance> {
    if s.versions == [] then None else s.versions[|s.versions| - 1]
  }

  function Recorded(p: Pod): string {
    if HOST_BOOT_ID in p.annotations then p.annotations[HOST_BOOT_ID] else ""
  }

  function MarkPod(p: Option<Pod>): Option<Pod> {
    if p.Some? then Some(p.value.(deleting := true)) else None
  }

  function MarkService(x: Option<Service>): Option<Service> {
    if x.Some? then Some(x.value.(deleting := true)) else None
  }

  /** A deleting object without finalizers is gone. */
  function Settle(i: Instance): Option<Instance> {
    if i.deleting && !i.finalizer && !i.otherFinalizers then None else Some(i)
  }

  function Write(s: State, v: Option<Instance>): State {
    s.(versions := s.versions + [v])
  }

  /** The decision at the top of `Reconcile`. */
  function FirstStage(i: Instance): Option<Stage> {
    if i.deleting then (if i.finalizer then Some(DeletePod) else None)
    else if !i.sandbox || i.gated then None
    else if i.status.suspended then Some(SuspendPod)
    else if !i.finalizer then Some(AddFinalizer)
    else Some(GetPod)
  }

  function ReadStep(s: State, k: nat): State {
    if s.control.Idle? && s.seen <= k < |s.versions| then
      var v := s.versions[k];
      if v.Some? && FirstStage(v.value).Some?
      then s.(seen := k, control := Busy(FirstStage(v.value).value, k, v.value, None, ""))
      else s.(seen := k)
    else s
  }

  function At(s: State, stage: Stage): State
    requires s.control.Busy?
  {
    s.(control := s.control.(stage := stage))
  }

  function Done(s: State): State {
    s.(control := Idle)
  }

  /** The calls of `handleDeletion` and `reconcileSuspended`. */
  function TeardownStep(s: State): State
    requires s.control.Busy? && s.versions != []
  {
    var c := s.control;
    match c.stage
    case DeletePod => At(s.(pod := MarkPod(s.pod)), DeleteService)
    case DeleteService => At(s.(service := MarkService(s.service)), CheckPod)
    case CheckPod => if s.pod.Some? then Done(s) else At(s, CheckService)
    case CheckService => if s.service.Some? then Done(s) else At(s, Unfinalize)
    case Unfinalize =>
      if c.ver == Last(s) then Done(Write(s, Settle(c.inst.(finalizer := false)))) else Done(s)
    case SuspendPod => Done(s.(pod := MarkPod(s.pod)))
    case _ => s
  }

  function NewPod(cfg: Settings, s: State, i: Instance, now: int): Pod {
    Pod(s.nextUid, i.uid, false, now, "", Mutate(cfg.config, i.annotations, map[]), PodStatus(Pending, "", [], [], []))
  }

  function Patched(cfg: Settings, i: Instance, observed: Pod, p: Pod): Pod {
    p.(annotations := PatchMap(p.annotations,
                               DiffMaps(observed.annotations, Mutate(cfg.config, i.annotations, observed.annotations))))
  }

  /** The calls up to and including `CreateOrPatch` of the Pod. */
  function PodStep(cfg: Settings, s: State, now: int, touched: bool): State
    requires s.control.Busy? && s.versions != []
  {
    var c := s.control;
    match c.stage
    case AddFinalizer =>
      if c.ver == Last(s) then
        var i := c.inst.(finalizer := true);
        Write(s, Some(i)).(control := Busy(GetPod, |s.versions|, i, None, ""))
      else Done(s)
    case GetPod => s.(control := c.(stage := if s.pod.Some? then PatchPod else CreatePod, pod := s.pod))
    case CreatePod =>
      if s.pod.Some? then Done(s)
      else
        var p := NewPod(cfg, s, c.inst, now);
        s.(pod := Some(p), nextUid := s.nextUid + 1, control := c.(stage := GetNode, pod := Some(p)))
    case PatchPod =>
      // an object controlled by somebody else is not adopted
      if c.pod.None? || c.pod.value.owner != c.inst.uid then Done(s)
      else if !touched && Mutate(cfg.config, c.inst.annotations, c.pod.value.annotations) == c.pod.value.annotations
      then At(s, GetNode)
      else if s.pod.None? then Done(s)
      else
        var p := Patched(cfg, c.inst, c.pod.value, s.pod.value);
        s.(pod := Some(p), control := c.(stage := GetNode, pod := Some(p)))
    case _ => s
  }

  /** Where `hostRebootedSince` leads, given what the host reports now. */
  function NodeVerdict(s: State, p: Pod): Option<(string, Verdict)> {
    var host := HostOf(p.node);
    if host.Some? && host.value in s.boots && s.boots[host.value] != ""
    then Some((s.boots[host.value], Judge(Recorded(p), s.boots[host.value])))
    else None
  }

  /** The calls of `recoverInstancePod`. */
  ghost function RecoverStep(s: State, now: int): State
    requires s.control.Busy?
  {
    var c := s.control;
    if c.pod.None? then Done(s)
    else
      var p := c.pod.value;
      match c.stage
      case GetNode =>
        var v := NodeVerdict(s, p);
        if p.deleting then At(s, GetService)
        else if v.None? || v.value.1.Unchanged? then At(s, JudgeStuck)
        else if v.value.1.Unrecorded? then s.(control := c.(stage := RecordBoot, boot := v.value.0))
        else At(s, RemoveRebooted)
      case RecordBoot =>
        if s.pod.None? then Done(s)
        else
          var q := s.pod.value.(annotations := s.pod.value.annotations[HOST_BOOT_ID := c.boot]);
          s.(pod := Some(q), control := c.(stage := JudgeStuck, pod := Some(q)))
      case JudgeStuck =>
        At(s, if Stuck(p.status) && GraceOver(p.status, p.created, now) then RemoveStuck else GetService)
      case RemoveRebooted => Removed(s, p)
      case RemoveStuck => Removed(s, p)
      case _ => s
  }

  /** Deletion with a UID precondition. */
  function Removed(s: State, judged: Pod): State {
    Done(if s.pod.Some? && s.pod.value.uid == judged.uid then s.(pod := MarkPod(s.pod)) else s)
  }

  /** The calls of `reconcileInstanceService`. */
  function ServiceStep(s: State, touched: bool): State
    requires s.control.Busy?
  {
    var c := s.control;
    match c.stage
    case GetService =>
      if !c.inst.hasPorts then At(s, DropService)
      else if s.service.None? then At(s, CreateService)
      else if s.service.value.owner != c.inst.uid then Done(s)
      else At(s, PatchService)
    case CreateService =>
      if s.service.Some? then Done(s) else At(s.(service := Some(Service(c.inst.uid, false))), PatchInstance)
    case PatchService =>
      if touched && s.service.None? then Done(s) else At(s, PatchInstance)
    case DropService => At(s.(service := MarkService(s.service)), PatchInstance)
    case _ => s
  }

  /** The patch that `syncInstancePowerState` sends, if it has anything to report. */
  function StatusPatchOf(cfg: Settings, inst: Instance, pod: Pod, now: int): Option<StatusPatch> {
    var synced := Sync(inst.spec, inst.deleting, cfg.vpc, pod.status, inst.status, now);
    if synced.changed then Some(DiffStatus(inst.status, synced.status)) else None
  }

  function WithPatch(i: Instance, patch: StatusPatch): Instance {
    i.(status := PatchStatus(i.status, patch))
  }

  /** Sending it. The patch carries the version it was computed from, and any other version refuses it. */
  function Sent(s: State, patch: Option<StatusPatch>): State
    requires s.control.Busy? && s.versions != []
  {
    var cur := Current(s);
    if patch.Some? && cur.Some? && s.control.ver == Last(s)
    then Done(Write(s, Some(WithPatch(cur.value, patch.value))))
    else Done(s)
  }

  function ReportStep(cfg: Settings, s: State, now: int): State
    requires s.control.Busy? && s.versions != []
  {
    var c := s.control;
    if c.pod.None? then Done(s) else Sent(s, StatusPatchOf(cfg, c.inst, c.pod.value, now))
  }

  predicate TearingDown(stage: Stage) {
    stage.DeletePod? || stage.DeleteService? || stage.CheckPod? || stage.CheckService? || stage.Unfinalize?
  }

  predicate PodStage(stage: Stage) {
    stage.AddFinalizer? || stage.GetPod? || stage.CreatePod? || stage.PatchPod?
  }

  predicate RecoverStage(stage: Stage) {
    stage.GetNode? || stage.RecordBoot? || stage.JudgeStuck? || stage.RemoveRebooted? || stage.RemoveStuck?
  }

  ghost function GoStep(cfg: Settings, s: State, now: int, touched: bool): State {
    if s.control.Idle? || s.versions == [] then s
    else if TearingDown(s.control.stage) || s.control.stage == SuspendPod then TeardownStep(s)
    else if PodStage(s.control.stage) then PodStep(cfg, s, now, touched)
    else if RecoverStage(s.control.stage) then RecoverStep(s, now)
    else if s.control.stage.PatchInstance? then ReportStep(cfg, s, now)
    else ServiceStep(s, touched)
  }

  /** What users and other controllers do to the Instance. Only the provider writes its finalizer. */
  function InstanceStep(s: State, step: Step): State {
    var cur := Current(s);
    match step
    case UserCreate(i) =>
      if cur.Some? then s
      else
        Write(s, Some(i.(uid := s.nextUid, deleting := false)))
        .(nextUid := s.nextUid + 1, computeConditions := ComputeOwned(i.status.conditions),
          computeInterfaces := i.status.interfaces)
    case UserDelete => if cur.None? then s else Write(s, Settle(cur.value.(deleting := true)))
    case InstanceWrite(i) =>
      if cur.None? then s
      else Write(s, Settle(i.(uid := cur.value.uid, deleting := cur.value.deleting,
                              finalizer := cur.value.finalizer, status := cur.value.status)))
    case ComputeWrite(st) =>
      if cur.None? then s
      else
        Write(s, Some(cur.value.(status := st)))
        .(computeConditions := ComputeOwned(st.conditions), computeInterfaces := st.interfaces)
    case _ => s
  }

  /** What happens to the backing objects from outside. Nobody else writes the boot ID; a binding is final. */
  function BackingStep(s: State, step: Step): State {
    match step
    case PodWrite(node, annotations, status) =>
      if s.pod.None? || Get(annotations, HOST_BOOT_ID) != Get(s.pod.value.annotations, HOST_BOOT_ID)
         || (s.pod.value.node != "" && node != s.pod.value.node) then s
      else s.(pod := Some(s.pod.value.(node := node, annotations := annotations, status := status)))
    case PodEvict => s.(pod := MarkPod(s.pod))
    case PodGone => if s.pod.Some? && s.pod.value.deleting then s.(pod := None) else s
    case ServiceGone => if s.service.Some? && s.service.value.deleting then s.(service := None) else s
    case HostReports(host, bootId) => s.(boots := s.boots[host := bootId])
    case HostLeaves(host) => s.(boots := s.boots - {host})
    case _ => s
  }

  ghost function Next(cfg: Settings, s: State, step: Step): State {
    match step
    case Read(k) => ReadStep(s, k)
    case Go(now, touched) => GoStep(cfg, s, now, touched)
    case Fail => Done(s)
    case UserCreate(_) => InstanceStep(s, step)
    case UserDelete => InstanceStep(s, step)
    case InstanceWrite(_) => InstanceStep(s, step)
    case ComputeWrite(_) => InstanceStep(s, step)
    case _ => BackingStep(s, step)
  }

  ghost function RunFrom(cfg: Settings, s: State, steps: seq<Step>): State {
    if steps == [] then s else Next(cfg, RunFrom(cfg, s, steps[..|steps| - 1]), steps[|steps| - 1])
  }

  ghost function Run(cfg: Settings, steps: seq<Step>): State {
    RunFrom(cfg, INITIAL, steps)
  }
}
