/**
 Status reporting: what the provider derives from a Pod, how it merges it into the Instance's status, and the merge
 patch it sends.
 */
module InstanceStatus {
  import opened Options

  // ----- Conditions -----

  datatype Truth = Yes | No | Unclear

  /** Condition messages, with the values that are formatted into them. */
  datatype Message =
    | Plain(text: string)
    | PullFailed(image: string, container: string, secrets: seq<string>)
    | KeepsExiting(container: string, lastExitCode: Option<int>)
    | Misconfigured(container: string)

  datatype Condition = Condition(kind: string, truth: Truth, reason: string, message: Message, generation: int,
                                 since: int)

  const AVAILABLE: string := "Available"
  const PROGRAMMED: string := "Programmed"

  predicate ProviderOwned(kind: string) {
    kind == AVAILABLE || kind == PROGRAMMED
  }

  /** The first condition of that kind. */
  function Find(conds: seq<Condition>, kind: string): Option<Condition> {
    if conds == [] then None
    else if conds[0].kind == kind then Some(conds[0])
    else Find(conds[1..], kind)
  }

  function Updated(old': Condition, c: Condition, now: int): Condition {
    c.(since := if old'.truth == c.truth then old'.since else now)
  }

  /** Sets a condition in place, or appends it. The transition time moves only when the truth value changes. */
  function SetCondition(conds: seq<Condition>, c: Condition, now: int): seq<Condition> {
    if conds == [] then [c.(since := now)]
    else if conds[0].kind == c.kind then [Updated(conds[0], c, now)] + conds[1..]
    else [conds[0]] + SetCondition(conds[1..], c, now)
  }

  /** Whether setting the condition counts as a change. */
  predicate Differs(conds: seq<Condition>, c: Condition) {
    var f := Find(conds, c.kind);
    f.None? || f.value.(since := c.since) != c
  }

  /** The conditions that belong to the compute controller, in order. */
  function ComputeOwned(conds: seq<Condition>): seq<Condition> {
    if conds == [] then []
    else if ProviderOwned(conds[0].kind) then ComputeOwned(conds[1..])
    else [conds[0]] + ComputeOwned(conds[1..])
  }

  lemma {:induction false} SetConditionFrame(conds: seq<Condition>, c: Condition, now: int)
    requires ProviderOwned(c.kind)
    ensures ComputeOwned(SetCondition(conds, c, now)) == ComputeOwned(conds)
  {
    if conds != [] {
      var set' := SetCondition(conds, c, now);
      if conds[0].kind == c.kind {
        assert set'[1..] == conds[1..];
      } else {
        SetConditionFrame(conds[1..], c, now);
        assert set'[1..] == SetCondition(conds[1..], c, now);
      }
    }
  }

  lemma {:induction false} SetConditionFinds(conds: seq<Condition>, c: Condition, now: int, kind: string)
    ensures var f := Find(SetCondition(conds, c, now), kind);
            if kind == c.kind then f.Some? && f.value.(since := c.since) == c else f == Find(conds, kind)
  {
    if conds != [] {
      var set' := SetCondition(conds, c, now);
      if conds[0].kind == c.kind {
        assert set'[1..] == conds[1..];
      } else {
        SetConditionFinds(conds[1..], c, now, kind);
        assert set'[1..] == SetCondition(conds[1..], c, now);
      }
    }
  }

  /** Setting a condition that does not differ leaves the list as it is. */
  lemma {:induction false} SetConditionSettled(conds: seq<Condition>, c: Condition, now: int)
    requires !Differs(conds, c)
    ensures SetCondition(conds, c, now) == conds
  {
    if conds[0].kind != c.kind {
      SetConditionSettled(conds[1..], c, now);
    }
  }

  // ----- The Pod -----

  datatype Phase = Pending | Running | Succeeded | Failed | OtherPhase

  datatype Termination = Termination(message: string, finishedAt: int)

  datatype ContainerState = ContainerState(name: string, image: string, waiting: Option<string>,
                                           terminated: Option<Termination>, lastExitCode: Option<int>)

  /** The parts of a Pod's status that are read. `fqdns` are the service names extracted from its annotations. */
  datatype PodStatus = PodStatus(phase: Phase, message: string, containers: seq<ContainerState>, ips: seq<string>,
                                 fqdns: seq<string>)

  const PULL_FAILED: string := "image pull failed"

  predicate Contains(s: string, sub: string) {
    |sub| <= |s| && (s[..|sub|] == sub || (s != [] && Contains(s[1..], sub)))
  }

  // ----- The Instance -----

  datatype Interface = Interface(networkIp: Option<string>, externalIp: Option<string>, reference: Option<string>)

  /** `observedHash` is None while the controller status is absent. */
  datatype Status = Status(conditions: seq<Condition>, observedHash: Option<string>, interfaces: seq<Interface>,
                           suspended: bool)

  datatype SandboxContainer = SandboxContainer(name: string, image: string)

  /** The parts of an Instance's spec that status reporting reads; `templateHash` is None without a controller. */
  datatype Spec = Spec(generation: int, templateHash: Option<string>, containers: seq<SandboxContainer>,
                       pullSecrets: seq<string>)

  // ----- Failures -----

  const IMAGE_UNAVAILABLE: string := "ImageUnavailable"
  const CRASHING: string := "InstanceCrashing"
  const CONFIG_ERROR: string := "ConfigurationError"
  const PROVISIONING: string := "Provisioning"

  function TranslateWaiting(k8sReason: string): (string, Message) {
    if k8sReason in ["ImagePullBackOff", "ErrImagePull", "ImageInspectError", "InvalidImageName", "RegistryUnavailable"]
    then (IMAGE_UNAVAILABLE, Plain("The instance image could not be pulled"))
    else if k8sReason == "CrashLoopBackOff" then (CRASHING, Plain("The instance is repeatedly failing to start"))
    else if k8sReason in ["CreateContainerError", "CreateContainerConfigError"]
    then (CONFIG_ERROR, Plain("The instance could not be started due to a configuration error"))
    else (PROVISIONING, Plain("Instance is provisioning"))
  }

  /** The image as the user wrote it; the last container of that name decides. */
  function ImageOf(cs: seq<SandboxContainer>, name: string, reported: string): string {
    if cs == [] then reported
    else if cs[|cs| - 1].name == name then cs[|cs| - 1].image
    else ImageOf(cs[..|cs| - 1], name, reported)
  }

  function PullFailure(spec: Spec, c: ContainerState): (string, Message) {
    (IMAGE_UNAVAILABLE, PullFailed(ImageOf(spec.containers, c.name, c.image), c.name, spec.pullSecrets))
  }

  function Failure(spec: Spec, c: ContainerState): Option<(string, Message)> {
    if c.terminated.Some? && Contains(c.terminated.value.message, PULL_FAILED) then Some(PullFailure(spec, c))
    else if c.waiting.None? then None
    else
      var reason := TranslateWaiting(c.waiting.value).0;
      if reason == IMAGE_UNAVAILABLE then Some(PullFailure(spec, c))
      else if reason == CRASHING then Some((reason, KeepsExiting(c.name, c.lastExitCode)))
      else if reason == CONFIG_ERROR then Some((reason, Misconfigured(c.name)))
      else None
  }

  /** The first container that is failing to start. */
  function StartFailure(spec: Spec, cs: seq<ContainerState>): Option<(string, Message)> {
    if cs == [] then None
    else if Failure(spec, cs[0]).Some? then Failure(spec, cs[0])
    else StartFailure(spec, cs[1..])
  }

  function FirstWaiting(cs: seq<ContainerState>): Option<string> {
    if cs == [] then None
    else if cs[0].waiting.Some? && cs[0].waiting.value != "" then cs[0].waiting
    else FirstWaiting(cs[1..])
  }

  // ----- Sync -----

  /** Truth, reason and message of the two conditions the provider owns. */
  datatype Report = Report(available: (Truth, string, Message), programmed: (Truth, string, Message))

  function ReportOf(spec: Spec, deleting: bool, pod: PodStatus): Report {
    var failure := StartFailure(spec, pod.containers);
    if deleting then Both(No, "Stopping", Plain("Instance is terminating"))
    else if failure.Some? && pod.phase != Succeeded then
      Report((No, failure.value.0, failure.value.1),
             if failure.value.0 == CRASHING then (Yes, "Programmed", Plain("Instance has been programmed"))
             else (No, failure.value.0, failure.value.1))
    else match pod.phase
      case Running => Report((Yes, "Available", Plain("Instance is available")),
                             (Yes, "Programmed", Plain("Instance is available")))
      case Pending =>
        var w := FirstWaiting(pod.containers);
        var (reason, message) := if w.Some? then TranslateWaiting(w.value)
                                 else (PROVISIONING, Plain("Instance is provisioning"));
        Report((Unclear, reason, message), (Unclear, "ProgrammingInProgress", message))
      case Succeeded => Both(No, "Stopping", Plain("Instance has stopped"))
      case Failed =>
        Both(No, "Failed", Plain(if pod.message == "" then "Instance failed" else pod.message))
      case OtherPhase =>
        Report((Unclear, "Unknown", Plain("Instance state is unknown")),
               (Unclear, "ProgrammingInProgress", Plain("Instance state is unknown")))
  }

  function Both(truth: Truth, reason: string, message: Message): Report {
    Report((truth, reason, message), (truth, reason, message))
  }

  function ConditionOf(kind: string, r: (Truth, string, Message), generation: int): Condition {
    Condition(kind, r.0, r.1, r.2, generation, 0)
  }

  /** The rollout hash after a sync: a running Pod was built from the current template. */
  function HashAfter(spec: Spec, deleting: bool, pod: PodStatus, observed: Option<string>): Option<string> {
    if !deleting && pod.phase == Running && spec.templateHash.Some? then Some(spec.templateHash.value) else observed
  }

  function HashText(h: Option<string>): string {
    if h.Some? then h.value else ""
  }

  predicate OwnsInterfaces(vpc: bool, interfaces: seq<Interface>) {
    !vpc && forall i :: 0 <= i < |interfaces| ==> interfaces[i].reference.None?
  }

  function DesiredInterfaces(pod: PodStatus): seq<Interface> {
    var ip := if pod.ips != [] && pod.ips[0] != "" then Some(pod.ips[0]) else None;
    if pod.fqdns == [] then (if ip.None? then [] else [Interface(ip, None, None)])
    else seq(|pod.fqdns|, i requires 0 <= i < |pod.fqdns| => Interface(ip, Some(pod.fqdns[i]), None))
  }

  /** Interfaces are compared by their addresses only. */
  predicate SameAddresses(a: seq<Interface>, b: seq<Interface>) {
    |a| == |b| && forall i :: 0 <= i < |a| ==> a[i].networkIp == b[i].networkIp && a[i].externalIp == b[i].externalIp
  }

  datatype Synced = Synced(status: Status, changed: bool)

  function Sync(spec: Spec, deleting: bool, vpc: bool, pod: PodStatus, st: Status, now: int): Synced {
    var r := ReportOf(spec, deleting, pod);
    var available := ConditionOf(AVAILABLE, r.available, spec.generation);
    var programmed := ConditionOf(PROGRAMMED, r.programmed, spec.generation);
    var hash := HashAfter(spec, deleting, pod, st.observedHash);
    var conds := SetCondition(st.conditions, available, now);
    var owns := OwnsInterfaces(vpc, st.interfaces) && !SameAddresses(st.interfaces, DesiredInterfaces(pod));
    Synced(Status(SetCondition(conds, programmed, now), hash,
                  if owns then DesiredInterfaces(pod) else st.interfaces, st.suspended),
           || HashText(hash) != HashText(st.observedHash)
           || Differs(st.conditions, available) || Differs(conds, programmed)
           || owns)
  }

  /** Sync reads back what it wrote: the conditions it owns say what the Pod says. */
  lemma SyncReports(spec: Spec, deleting: bool, vpc: bool, pod: PodStatus, st: Status, now: int)
    ensures var conds, r := Sync(spec, deleting, vpc, pod, st, now).status.conditions, ReportOf(spec, deleting, pod);
            var a, p := Find(conds, AVAILABLE), Find(conds, PROGRAMMED);
            && a.Some? && (a.value.truth, a.value.reason, a.value.message) == r.available
            && p.Some? && (p.value.truth, p.value.reason, p.value.message) == r.programmed
            && a.value.generation == p.value.generation == spec.generation
            && (a.value.truth == Yes ==> p.value.truth == Yes)
  {
    var r := ReportOf(spec, deleting, pod);
    var available := ConditionOf(AVAILABLE, r.available, spec.generation);
    var programmed := ConditionOf(PROGRAMMED, r.programmed, spec.generation);
    var conds := SetCondition(st.conditions, available, now);
    assert AVAILABLE[0] != PROGRAMMED[0];
    SetConditionFinds(st.conditions, available, now, AVAILABLE);
    SetConditionFinds(conds, programmed, now, AVAILABLE);
    SetConditionFinds(conds, programmed, now, PROGRAMMED);
    AvailableMeansProgrammed(spec, deleting, pod);
  }

  lemma AvailableMeansProgrammed(spec: Spec, deleting: bool, pod: PodStatus)
    ensures ReportOf(spec, deleting, pod).available.0 == Yes ==> ReportOf(spec, deleting, pod).programmed.0 == Yes
  {
  }

  /** A container that is failing to start. */
  ghost predicate SomeFailing(spec: Spec, cs: seq<ContainerState>) {
    exists i :: 0 <= i < |cs| && Failure(spec, cs[i]).Some?
  }

  /** The reported failure is that of container `i`, the first one failing; `i` is past the end when none is. */
  lemma {:induction false} StartFailureIsFirst(spec: Spec, cs: seq<ContainerState>) returns (i: nat)
    ensures i <= |cs| && forall j :: 0 <= j < i ==> Failure(spec, cs[j]).None?
    ensures i < |cs| ==> Failure(spec, cs[i]).Some?
    ensures StartFailure(spec, cs) == if i < |cs| then Failure(spec, cs[i]) else None
  {
    i := 0;
    if cs != [] && Failure(spec, cs[0]).None? {
      var k := StartFailureIsFirst(spec, cs[1..]);
      i := k + 1;
      assert forall j :: 0 < j < |cs| ==> cs[j] == cs[1..][j - 1];
    }
  }

  /**
   When an Instance is reported available and programmed: available exactly while it runs, is not being deleted and
   no container is failing to start; programmed then, and also while it crashes, unless it has finished.
   */
  lemma ReportMeans(spec: Spec, deleting: bool, pod: PodStatus)
    ensures var r, failure := ReportOf(spec, deleting, pod), StartFailure(spec, pod.containers);
            && (r.available.0 == Yes <==> !deleting && pod.phase == Running && !SomeFailing(spec, pod.containers))
            && (r.programmed.0 == Yes <==>
                  && !deleting
                  && (r.available.0 == Yes || (failure.Some? && failure.value.0 == CRASHING && pod.phase != Succeeded)))
  {
    var i := StartFailureIsFirst(spec, pod.containers);
  }

  // ----- What is reported, in the runtime's own words -----

  /** The container stopped because its image could not be pulled. */
  predicate StoppedOverPull(c: ContainerState) {
    c.terminated.Some? && Contains(c.terminated.value.message, "image pull failed")
  }

  predicate WaitsOverPull(c: ContainerState) {
    c.waiting.Some? &&
    c.waiting.value in ["ImagePullBackOff", "ErrImagePull", "ImageInspectError", "InvalidImageName",
                        "RegistryUnavailable"]
  }

  predicate CrashLoops(c: ContainerState) {
    !StoppedOverPull(c) && c.waiting == Some("CrashLoopBackOff")
  }

  predicate CannotBeCreated(c: ContainerState) {
    !StoppedOverPull(c) && c.waiting.Some? && c.waiting.value in ["CreateContainerError", "CreateContainerConfigError"]
  }

  /** Any other waiting reason is no failure. */
  predicate FailsToStart(c: ContainerState) {
    StoppedOverPull(c) || WaitsOverPull(c) || CrashLoops(c) || CannotBeCreated(c)
  }

  lemma FailureMeans(spec: Spec, c: ContainerState)
    ensures Failure(spec, c).Some? <==> FailsToStart(c)
    ensures StoppedOverPull(c) || WaitsOverPull(c) ==>
              Failure(spec, c)
              == Some(("ImageUnavailable",
                       PullFailed(ImageOf(spec.containers, c.name, c.image), c.name, spec.pullSecrets)))
    ensures CrashLoops(c) ==> Failure(spec, c) == Some(("InstanceCrashing", KeepsExiting(c.name, c.lastExitCode)))
    ensures CannotBeCreated(c) ==> Failure(spec, c) == Some(("ConfigurationError", Misconfigured(c.name)))
    ensures c.waiting.Some? && !FailsToStart(c) ==>
              TranslateWaiting(c.waiting.value) == ("Provisioning", Plain("Instance is provisioning"))
  {
    ReasonsDiffer();
    if c.waiting.Some? {
      TranslationMeans(c.waiting.value);
    }
  }

  lemma TranslationMeans(reason: string)
    ensures var r := TranslateWaiting(reason);
            if reason in ["ImagePullBackOff", "ErrImagePull", "ImageInspectError", "InvalidImageName",
                          "RegistryUnavailable"]
            then r.0 == IMAGE_UNAVAILABLE
            else if reason == "CrashLoopBackOff" then r.0 == CRASHING
            else if reason in ["CreateContainerError", "CreateContainerConfigError"] then r.0 == CONFIG_ERROR
            else r == (PROVISIONING, Plain("Instance is provisioning"))
    ensures "CrashLoopBackOff" !in ["ImagePullBackOff", "ErrImagePull", "ImageInspectError", "InvalidImageName",
                                    "RegistryUnavailable", "CreateContainerError", "CreateContainerConfigError"]
    ensures reason in ["CreateContainerError", "CreateContainerConfigError"] ==>
              reason !in ["ImagePullBackOff", "ErrImagePull", "ImageInspectError", "InvalidImageName",
                          "RegistryUnavailable"]
  {
  }

  /** The image is named as the user wrote it: by the last container of that name, and as reported without one. */
  lemma {:induction false} ImageIsTheUsers(cs: seq<SandboxContainer>, name: string, reported: string, i: nat)
    requires i <= |cs| && (i < |cs| ==> cs[i].name == name)
    requires forall j :: i < j < |cs| ==> cs[j].name != name
    requires i == |cs| ==> forall j :: 0 <= j < |cs| ==> cs[j].name != name
    ensures ImageOf(cs, name, reported) == if i < |cs| then cs[i].image else reported
  {
    if cs != [] && cs[|cs| - 1].name != name {
      ImageIsTheUsers(cs[..|cs| - 1], name, reported, if i < |cs| then i else i - 1);
    }
  }

  /** The condition of that kind has this truth value, reason and message. */
  ghost predicate Says(conds: seq<Condition>, kind: string, truth: Truth, reason: string, message: Message) {
    var c := Find(conds, kind);
    c.Some? && c.value.truth == truth && c.value.reason == reason && c.value.message == message
  }

  ghost predicate BothSay(conds: seq<Condition>, truth: Truth, reason: string, message: Message) {
    Says(conds, "Available", truth, reason, message) && Says(conds, "Programmed", truth, reason, message)
  }

  /**
   A start failure, as the conditions after a sync report it. The first container that fails to start decides: a crash
   loop stays programmed, a container that cannot be created is a configuration error, and every failed pull
   names the image and the credentials.
   */
  lemma StartFailureIsReported(spec: Spec, vpc: bool, pod: PodStatus, st: Status, now: int, i: nat)
    requires pod.phase != Succeeded && i < |pod.containers| && FailsToStart(pod.containers[i])
    requires forall j :: 0 <= j < i ==> !FailsToStart(pod.containers[j])
    ensures var conds, c := Sync(spec, false, vpc, pod, st, now).status.conditions, pod.containers[i];
            && (CrashLoops(c) ==>
                  && Says(conds, "Available", No, "InstanceCrashing", KeepsExiting(c.name, c.lastExitCode))
                  && Says(conds, "Programmed", Yes, "Programmed", Plain("Instance has been programmed")))
            && (CannotBeCreated(c) ==> BothSay(conds, No, "ConfigurationError", Misconfigured(c.name)))
            && (StoppedOverPull(c) || WaitsOverPull(c) ==>
                  BothSay(conds, No, "ImageUnavailable",
                          PullFailed(ImageOf(spec.containers, c.name, c.image), c.name, spec.pullSecrets)))
  {
    SyncSays(spec, false, vpc, pod, st, now);
    FirstFailureDecides(spec, pod.containers, i);
    FailureMeans(spec, pod.containers[i]);
    FailureIsReported(spec, pod, Failure(spec, pod.containers[i]).value);
    ReasonsDiffer();
  }

  lemma ReasonsDiffer()
    ensures CRASHING == "InstanceCrashing" && "ImageUnavailable" != CRASHING && "ConfigurationError" != CRASHING
    ensures IMAGE_UNAVAILABLE != CONFIG_ERROR && PROVISIONING !in [IMAGE_UNAVAILABLE, CRASHING, CONFIG_ERROR]
  {
    assert IMAGE_UNAVAILABLE[1] == 'm' && CRASHING[1] == 'n' && CONFIG_ERROR[1] == 'o' && PROVISIONING[1] == 'r';
  }

  lemma SyncSays(spec: Spec, deleting: bool, vpc: bool, pod: PodStatus, st: Status, now: int)
    ensures var conds, r := Sync(spec, deleting, vpc, pod, st, now).status.conditions, ReportOf(spec, deleting, pod);
            && Says(conds, "Available", r.available.0, r.available.1, r.available.2)
            && Says(conds, "Programmed", r.programmed.0, r.programmed.1, r.programmed.2)
  {
    SyncReports(spec, deleting, vpc, pod, st, now);
  }

  lemma FirstFailureDecides(spec: Spec, cs: seq<ContainerState>, i: nat)
    requires i < |cs| && FailsToStart(cs[i]) && forall j :: 0 <= j < i ==> !FailsToStart(cs[j])
    ensures Failure(spec, cs[i]).Some? && StartFailure(spec, cs) == Failure(spec, cs[i])
  {
    var k := StartFailureIsFirst(spec, cs);
    FailuresMean(spec, cs);
    assert k == i;
  }

  lemma FailureIsReported(spec: Spec, pod: PodStatus, failure: (string, Message))
    requires StartFailure(spec, pod.containers) == Some(failure) && pod.phase != Succeeded
    ensures var r := ReportOf(spec, false, pod);
            && r.available == (No, failure.0, failure.1)
            && r.programmed == if failure.0 == CRASHING then (Yes, "Programmed", Plain("Instance has been programmed"))
                               else (No, failure.0, failure.1)
  {
  }

  lemma FailuresMean(spec: Spec, cs: seq<ContainerState>)
    ensures forall j :: 0 <= j < |cs| ==> (Failure(spec, cs[j]).Some? <==> FailsToStart(cs[j]))
  {
    forall j | 0 <= j < |cs| ensures Failure(spec, cs[j]).Some? <==> FailsToStart(cs[j]) {
      FailureMeans(spec, cs[j]);
    }
  }

  /** Everything else a sync reports: deletion, and otherwise the phase of a Pod without a failing container. */
  lemma PhaseIsReported(spec: Spec, deleting: bool, vpc: bool, pod: PodStatus, st: Status, now: int)
    requires deleting || pod.phase == Succeeded
             || forall j :: 0 <= j < |pod.containers| ==> !FailsToStart(pod.containers[j])
    ensures var conds := Sync(spec, deleting, vpc, pod, st, now).status.conditions;
            if deleting then BothSay(conds, No, "Stopping", Plain("Instance is terminating"))
            else match pod.phase
              case Running =>
                && Says(conds, "Available", Yes, "Available", Plain("Instance is available"))
                && Says(conds, "Programmed", Yes, "Programmed", Plain("Instance is available"))
              case Pending =>
                && Says(conds, "Available", Unclear, "Provisioning", Plain("Instance is provisioning"))
                && Says(conds, "Programmed", Unclear, "ProgrammingInProgress", Plain("Instance is provisioning"))
              case Succeeded => BothSay(conds, No, "Stopping", Plain("Instance has stopped"))
              case Failed =>
                BothSay(conds, No, "Failed", Plain(if pod.message == "" then "Instance failed" else pod.message))
              case OtherPhase =>
                && Says(conds, "Available", Unclear, "Unknown", Plain("Instance state is unknown"))
                && Says(conds, "Programmed", Unclear, "ProgrammingInProgress", Plain("Instance state is unknown"))
  {
    SyncSays(spec, deleting, vpc, pod, st, now);
    if !deleting && pod.phase != Succeeded {
      var k := StartFailureIsFirst(spec, pod.containers);
      FailuresMean(spec, pod.containers);
      WaitingIsProvisioning(spec, pod.containers);
    }
  }

  lemma {:induction false} WaitingIsProvisioning(spec: Spec, cs: seq<ContainerState>)
    requires forall j :: 0 <= j < |cs| ==> !FailsToStart(cs[j])
    ensures FirstWaiting(cs).Some? ==>
              TranslateWaiting(FirstWaiting(cs).value) == ("Provisioning", Plain("Instance is provisioning"))
  {
    if cs != [] {
      FailureMeans(spec, cs[0]);
      WaitingIsProvisioning(spec, cs[1..]);
    }
  }

  /** The transition time of a condition moves exactly when its truth value does. */
  lemma {:induction false} TransitionTimeMoves(conds: seq<Condition>, c: Condition, now: int)
    ensures var before, after := Find(conds, c.kind), Find(SetCondition(conds, c, now), c.kind);
            && after.Some?
            && after.value.since == if before.Some? && before.value.truth == c.truth then before.value.since else now
  {
    if conds != [] && conds[0].kind != c.kind {
      TransitionTimeMoves(conds[1..], c, now);
      assert SetCondition(conds, c, now)[1..] == SetCondition(conds[1..], c, now);
    }
  }

  /**
   The addresses after a sync, where the provider owns them: one entry for every service name, each with the first
   Pod address; without service names one entry for the address alone; none without either.
   */
  lemma AddressesAreReported(spec: Spec, deleting: bool, pod: PodStatus, st: Status, now: int)
    requires forall i :: 0 <= i < |st.interfaces| ==> st.interfaces[i].reference.None?
    ensures var entries := Sync(spec, deleting, false, pod, st, now).status.interfaces;
            var known := pod.ips != [] && pod.ips[0] != "";
            && |entries| == (if pod.fqdns != [] then |pod.fqdns| else if known then 1 else 0)
            && forall i :: 0 <= i < |entries| ==>
                 && entries[i].networkIp == (if known then Some(pod.ips[0]) else None)
                 && entries[i].externalIp == (if pod.fqdns != [] then Some(pod.fqdns[i]) else None)
  {
    SyncFrame(spec, deleting, false, pod, st, now);
    var entries := Sync(spec, deleting, false, pod, st, now).status.interfaces;
    assert SameAddresses(entries, DesiredInterfaces(pod));
  }

  /** Where the platform owns the addresses, by VPC networking or by a published reference, they are left alone. */
  lemma PlatformAddressesAreLeft(spec: Spec, deleting: bool, vpc: bool, pod: PodStatus, st: Status, now: int, i: nat)
    requires vpc || (i < |st.interfaces| && st.interfaces[i].reference.Some?)
    ensures Sync(spec, deleting, vpc, pod, st, now).status.interfaces == st.interfaces
  {
  }

  /** A running Pod was built from the current template, also while it crashes; otherwise the hash is left alone. */
  lemma TemplateHashIsTracked(spec: Spec, deleting: bool, vpc: bool, pod: PodStatus, st: Status, now: int)
    ensures Sync(spec, deleting, vpc, pod, st, now).status.observedHash ==
            if !deleting && pod.phase == Running && spec.templateHash.Some? then spec.templateHash else st.observedHash
  {
  }

  /**
   The frame of a sync: compute's conditions keep their place and content, and interface status is untouched
   wherever VPC networking is on or the platform has published a reference.
   */
  lemma SyncFrame(spec: Spec, deleting: bool, vpc: bool, pod: PodStatus, st: Status, now: int)
    ensures var st' := Sync(spec, deleting, vpc, pod, st, now).status;
            && ComputeOwned(st'.conditions) == ComputeOwned(st.conditions)
            && st'.suspended == st.suspended
            && (!OwnsInterfaces(vpc, st.interfaces) ==> st'.interfaces == st.interfaces)
            && (OwnsInterfaces(vpc, st.interfaces) ==> SameAddresses(st'.interfaces, DesiredInterfaces(pod)))
  {
    var r := ReportOf(spec, deleting, pod);
    var available := ConditionOf(AVAILABLE, r.available, spec.generation);
    SetConditionFrame(st.conditions, available, now);
    SetConditionFrame(SetCondition(st.conditions, available, now),
                      ConditionOf(PROGRAMMED, r.programmed, spec.generation), now);
  }

  /** A second sync against the same Pod, at any later time, changes nothing and sends no patch. */
  lemma SyncIsFixedPoint(spec: Spec, deleting: bool, vpc: bool, pod: PodStatus, st: Status, now: int, later: int)
    ensures var st' := Sync(spec, deleting, vpc, pod, st, now).status;
            Sync(spec, deleting, vpc, pod, st', later) == Synced(st', false)
  {
    var r := ReportOf(spec, deleting, pod);
    var available := ConditionOf(AVAILABLE, r.available, spec.generation);
    var programmed := ConditionOf(PROGRAMMED, r.programmed, spec.generation);
    var conds := SetCondition(st.conditions, available, now);
    var st' := Sync(spec, deleting, vpc, pod, st, now).status;
    assert st'.conditions == SetCondition(conds, programmed, now);
    assert AVAILABLE[0] != PROGRAMMED[0];
    SetConditionFinds(st.conditions, available, now, AVAILABLE);
    SetConditionFinds(conds, programmed, now, AVAILABLE);
    SetConditionFinds(conds, programmed, now, PROGRAMMED);
    SetConditionSettled(st'.conditions, available, later);
    SetConditionSettled(st'.conditions, programmed, later);
  }

  /** When nothing is reported as changed, the status is unchanged up to an absent controller status made empty. */
  lemma UnchangedMeansSame(spec: Spec, deleting: bool, vpc: bool, pod: PodStatus, st: Status, now: int)
    requires !Sync(spec, deleting, vpc, pod, st, now).changed
    ensures var st' := Sync(spec, deleting, vpc, pod, st, now).status;
            st' == st.(observedHash := st'.observedHash) && HashText(st'.observedHash) == HashText(st.observedHash)
  {
    var r := ReportOf(spec, deleting, pod);
    var available := ConditionOf(AVAILABLE, r.available, spec.generation);
    SetConditionSettled(st.conditions, available, now);
    SetConditionSettled(st.conditions, ConditionOf(PROGRAMMED, r.programmed, spec.generation), now);
  }

  // ----- The merge patch -----

  /** A JSON merge patch of a status: an array that changed is replaced as a whole (section 2 of RFC 7396). */
  datatype StatusPatch = StatusPatch(conditions: Option<seq<Condition>>, observedHash: Option<Option<string>>,
                                     interfaces: Option<seq<Interface>>, suspended: Option<bool>)

  function DiffStatus(base: Status, modified: Status): StatusPatch {
    StatusPatch(if base.conditions == modified.conditions then None else Some(modified.conditions),
                if base.observedHash == modified.observedHash then None else Some(modified.observedHash),
                if base.interfaces == modified.interfaces then None else Some(modified.interfaces),
                if base.suspended == modified.suspended then None else Some(modified.suspended))
  }

  function PatchStatus(current: Status, p: StatusPatch): Status {
    Status(if p.conditions.Some? then p.conditions.value else current.conditions,
           if p.observedHash.Some? then p.observedHash.value else current.observedHash,
           if p.interfaces.Some? then p.interfaces.value else current.interfaces,
           if p.suspended.Some? then p.suspended.value else current.suspended)
  }

  /** On the version it was computed from, the patch gives exactly the modified status. */
  lemma PatchOnBase(base: Status, modified: Status)
    ensures PatchStatus(base, DiffStatus(base, modified)) == modified
  {
  }

  /**
   Why the patch needs its version check. Applied to a status that compute has written since the base was read,
   it puts back the old conditions and compute's write is lost.
   */
  lemma UncheckedPatchLosesWrite()
    ensures exists base: Status, current: Status, pod: PodStatus, spec: Spec ::
              var synced := Sync(spec, false, false, pod, base, 1);
              var patched := PatchStatus(current, DiffStatus(base, synced.status));
              synced.changed && ComputeOwned(patched.conditions) != ComputeOwned(current.conditions)
  {
    var quota := Condition("QuotaGranted", Yes, "Granted", Plain(""), 1, 0);
    assert quota.kind[0] == 'Q';
    var base, current := Status([], None, [], false), Status([quota], None, [], false);
    var pod, spec := PodStatus(Running, "", [], [], []), Spec(1, None, [], []);
    var synced := Sync(spec, false, false, pod, base, 1);
    var patched := PatchStatus(current, DiffStatus(base, synced.status));
    SyncFrame(spec, false, false, pod, base, 1);
    SyncReports(spec, false, false, pod, base, 1);
    assert patched.conditions == synced.status.conditions;
    assert current.conditions[1..] == [];
    assert ComputeOwned(current.conditions) == [quota];
  }

  // ----- The procedure -----

  /** Names the image as the user wrote it and the pull secrets it was tried with. */
  method ImagePullFailure(spec: Spec, c: ContainerState) returns (message: Message)
    ensures message == PullFailure(spec, c).1
  {
    var image := c.image;
    for i := 0 to |spec.containers|
      invariant image == ImageOf(spec.containers[..i], c.name, c.image)
    {
      assert spec.containers[..i + 1][..i] == spec.containers[..i];
      if spec.containers[i].name == c.name {
        image := spec.containers[i].image;
      }
    }
    assert spec.containers[..|spec.containers|] == spec.containers;
    message := PullFailed(image, c.name, spec.pullSecrets);
  }

  /** The first container the runtime is failing to start. */
  method ContainerStartFailure(spec: Spec, cs: seq<ContainerState>) returns (failure: Option<(string, Message)>)
    ensures failure == StartFailure(spec, cs)
  {
    for i := 0 to |cs|
      invariant StartFailure(spec, cs) == StartFailure(spec, cs[i..])
    {
      var c := cs[i];
      assert cs[i..][1..] == cs[i + 1..];
      if c.terminated.Some? && Contains(c.terminated.value.message, PULL_FAILED) {
        var message := ImagePullFailure(spec, c);
        return Some((IMAGE_UNAVAILABLE, message));
      }
      if c.waiting.Some? {
        var reason := TranslateWaiting(c.waiting.value).0;
        if reason == IMAGE_UNAVAILABLE {
          var message := ImagePullFailure(spec, c);
          return Some((reason, message));
        } else if reason == CRASHING {
          return Some((reason, KeepsExiting(c.name, c.lastExitCode)));
        } else if reason == CONFIG_ERROR {
          return Some((reason, Misconfigured(c.name)));
        }
      }
    }
    failure := None;
  }

  method FirstWaitingReason(cs: seq<ContainerState>) returns (reason: Option<string>)
    ensures reason == FirstWaiting(cs)
  {
    for i := 0 to |cs|
      invariant FirstWaiting(cs) == FirstWaiting(cs[i..])
    {
      assert cs[i..][1..] == cs[i + 1..];
      if cs[i].waiting.Some? && cs[i].waiting.value != "" {
        return cs[i].waiting;
      }
    }
    reason := None;
  }

  /** The Instance object a reconcile works on; its status is updated in place before it is sent. */
  class WorkingInstance {
    const spec: Spec
    const deleting: bool
    var status: Status

    constructor (spec: Spec, deleting: bool, status: Status)
      ensures this.spec == spec && this.deleting == deleting && this.status == status
    {
      this.spec, this.deleting, this.status := spec, deleting, status;
    }

    /** Truth, reason and message of the two conditions, by what the runtime reports. */
    method Derive(pod: PodStatus) returns (available: (Truth, string, Message), programmed: (Truth, string, Message))
      ensures Report(available, programmed) == ReportOf(spec, deleting, pod)
    {
      if deleting {
        available := (No, "Stopping", Plain("Instance is terminating"));
        return available, available;
      }
      var failure := ContainerStartFailure(spec, pod.containers);
      if failure.Some? && pod.phase != Succeeded {
        available := (No, failure.value.0, failure.value.1);
        programmed := available;
        if failure.value.0 == CRASHING {
          programmed := (Yes, "Programmed", Plain("Instance has been programmed"));
        }
        return;
      }
      match pod.phase {
        case Running =>
          available := (Yes, "Available", Plain("Instance is available"));
          programmed := (Yes, "Programmed", Plain("Instance is available"));
        case Pending =>
          available := (Unclear, PROVISIONING, Plain("Instance is provisioning"));
          var waiting := FirstWaitingReason(pod.containers);
          if waiting.Some? {
            available := (Unclear, TranslateWaiting(waiting.value).0, TranslateWaiting(waiting.value).1);
          }
          programmed := (Unclear, "ProgrammingInProgress", available.2);
        case Succeeded =>
          available := (No, "Stopping", Plain("Instance has stopped"));
          programmed := available;
        case Failed =>
          available := (No, "Failed", Plain(pod.message));
          if pod.message == "" {
            available := (No, "Failed", Plain("Instance failed"));
          }
          programmed := available;
        case OtherPhase =>
          available := (Unclear, "Unknown", Plain("Instance state is unknown"));
          programmed := (Unclear, "ProgrammingInProgress", Plain("Instance state is unknown"));
      }
    }

    /** Sets a condition and reports whether that changed anything. */
    method Set(c: Condition, now: int) returns (changed: bool)
      modifies this
      ensures changed == Differs(old(status).conditions, c)
      ensures status == old(status).(conditions := SetCondition(old(status).conditions, c, now))
    {
      changed := Differs(status.conditions, c);
      status := status.(conditions := SetCondition(status.conditions, c, now));
    }

    /** Brings the status in line with the Pod and gives the patch to send, if there is anything to send. */
    method SyncPowerState(vpc: bool, pod: PodStatus, now: int) returns (patch: Option<StatusPatch>)
      modifies this
      ensures var synced := Sync(spec, deleting, vpc, pod, old(status), now);
              && status == synced.status
              && patch == if synced.changed then Some(DiffStatus(old(status), synced.status)) else None
    {
      var base := status;
      var changed := false;
      var available, programmed := Derive(pod);
      if !deleting && pod.phase == Running && spec.templateHash.Some? {
        if status.observedHash.None? {
          status := status.(observedHash := Some(""));
        }
        if status.observedHash.value != spec.templateHash.value {
          status := status.(observedHash := Some(spec.templateHash.value));
          changed := true;
        }
      }
      var c1 := Set(ConditionOf(AVAILABLE, available, spec.generation), now);
      var c2 := Set(ConditionOf(PROGRAMMED, programmed, spec.generation), now);
      changed := c2 || c1 || changed;
      if OwnsInterfaces(vpc, status.interfaces) {
        var desired := DesiredInterfaces(pod);
        if !SameAddresses(status.interfaces, desired) {
          status := status.(interfaces := desired);
          changed := true;
        }
      }
      patch := if changed then Some(DiffStatus(base, status)) else None;
    }
  }
}
