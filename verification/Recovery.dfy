/** When an instance Pod has to be recreated: its host rebooted, or it stopped and nothing starts it again. */
module Recovery {
  import opened Options
  import opened InstanceStatus

  const KRAFTLET: string := "kraftlet-"
  const GRACE: int := 120_000_000_000

  /** The host behind a kraftlet's virtual node, if the node is one. */
  function HostOf(node: string): Option<string> {
    if |KRAFTLET| < |node| && node[..|KRAFTLET|] == KRAFTLET then Some(node[|KRAFTLET|..]) else None
  }

  datatype Verdict = Unchanged | Unrecorded | Rebooted

  /** Compares the recorded boot ID, empty when there is none, with the one the host reports. */
  function Judge(recorded: string, bootId: string): Verdict {
    if recorded == bootId then Unchanged else if recorded == "" then Unrecorded else Rebooted
  }

  // ----- Stuck starts -----

  predicate StoppedForGood(c: ContainerState) {
    c.terminated.Some? && !Contains(c.terminated.value.message, PULL_FAILED)
  }

  /** Pending with every container stopped, none of them over a failed image pull. */
  ghost predicate Stuck(pod: PodStatus) {
    pod.phase == Pending && pod.containers != [] &&
    forall i :: 0 <= i < |pod.containers| ==> StoppedForGood(pod.containers[i])
  }

  /** The grace period is over: it runs from the Pod's creation and from each container's end. */
  ghost predicate GraceOver(pod: PodStatus, created: int, now: int) {
    created + GRACE <= now &&
    forall i :: 0 <= i < |pod.containers| && pod.containers[i].terminated.Some? ==>
      pod.containers[i].terminated.value.finishedAt + GRACE <= now
  }

  /**
   Whether the Pod is stuck, and how long until it may be recreated: `wait` is zero exactly when the grace period
   is over, and otherwise the least delay after which it is.
   */
  method StuckStartRemaining(pod: PodStatus, created: int, now: int) returns (wait: int, stuck: bool)
    ensures stuck <==> Stuck(pod)
    ensures !stuck ==> wait == 0
    ensures stuck ==> 0 <= wait && GraceOver(pod, created, now + wait)
    ensures stuck ==> forall t :: now <= t < now + wait ==> !GraceOver(pod, created, t)
  {
    if pod.phase != Pending || |pod.containers| == 0 {
      return 0, false;
    }
    var finished := created;
    for i := 0 to |pod.containers|
      invariant created <= finished
      invariant forall k :: 0 <= k < i ==>
                              StoppedForGood(pod.containers[k])
                              && pod.containers[k].terminated.value.finishedAt <= finished
      invariant finished == created || exists k :: 0 <= k < i && pod.containers[k].terminated.Some?
                                                   && pod.containers[k].terminated.value.finishedAt == finished
    {
      var c := pod.containers[i];
      if c.terminated.None? || Contains(c.terminated.value.message, PULL_FAILED) {
        assert !StoppedForGood(pod.containers[i]);
        return 0, false;
      }
      if c.terminated.value.finishedAt > finished {
        finished := c.terminated.value.finishedAt;
      }
    }
    wait := if finished + GRACE - now > 0 then finished + GRACE - now else 0;
    stuck := true;
    forall t | t < finished + GRACE ensures !GraceOver(pod, created, t) {
      if finished != created {
        var k :| 0 <= k < |pod.containers| && pod.containers[k].terminated.Some?
                 && pod.containers[k].terminated.value.finishedAt == finished;
      }
    }
  }
}
