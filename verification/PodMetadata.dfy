/**
 The annotations of an instance Pod: which of them come from the tenant's Instance, which from provider
 configuration, and which the provider must leave alone.
 */
module PodMetadata {
  import opened Options

  type Annotations = map<string, string>

  const PREFIX: string := "cloud.unikraft.v1"
  const CNI: string := "cloud.unikraft.v1.instances/cni-enabled"
  const STATEFUL: string := "cloud.unikraft.v1.instances/scale_to_zero.stateful"
  const POLICY: string := "cloud.unikraft.v1.instances/scale_to_zero.policy"
  const COOLDOWN: string := "cloud.unikraft.v1.instances/scale_to_zero.cooldown_time_ms"
  const EXEC: string := "cloud.unikraft.v1.instances/enable-exec"
  const HOST_BOOT_ID: string := "unikraft.datumapis.com/host-boot-id"

  /** The platform settings. No configuration is the same as all of them unset. The cooldown is in decimal. */
  datatype Config = Config(cni: bool, stateful: bool, policy: string, cooldown: Option<string>, execPolicy: string)

  predicate HasPrefix(s: string, p: string) {
    |p| <= |s| && s[..|p|] == p
  }

  predicate PlatformKey(k: string) {
    k == CNI || k == STATEFUL || k == POLICY || k == COOLDOWN
  }

  predicate Copied(k: string) {
    !PlatformKey(k) && HasPrefix(k, PREFIX)
  }

  /** The Pod's annotations after the tenant's have been mirrored onto them. */
  function Mirror(src: Annotations, dst: Annotations): Annotations {
    dst + map k | k in src && Copied(k) :: src[k]
  }

  /** The source's loop over the tenant's annotations, in whatever order the map yields them. */
  method CopyUnikraftAnnotations(src: Annotations, dst: Annotations) returns (out: Annotations)
    ensures out == Mirror(src, dst)
  {
    out := dst;
    var left := src.Keys;
    while left != {}
      invariant left <= src.Keys
      invariant forall k :: Get(out, k) == if k in src && k !in left && Copied(k) then Some(src[k]) else Get(dst, k)
      decreases left
    {
      var k :| k in left;
      left := left - {k};
      if !PlatformKey(k) && HasPrefix(k, PREFIX) {
        out := out[k := src[k]];
      }
    }
    forall k ensures Get(out, k) == Get(Mirror(src, dst), k) {
      MirrorLookup(src, dst, k);
    }
    SameLookups(out, Mirror(src, dst));
  }

  lemma MirrorLookup(src: Annotations, dst: Annotations, k: string)
    ensures Get(Mirror(src, dst), k) == if k in src && Copied(k) then Some(src[k]) else Get(dst, k)
  {
  }

  function Put(a: Annotations, k: string, v: Option<string>): Annotations {
    if v.Some? then a[k := v.value] else a - {k}
  }

  function Flag(on: bool): Option<string> {
    if on then Some("true") else None
  }

  function Text(s: string): Option<string> {
    if s != "" then Some(s) else None
  }

  function PutExec(a: Annotations, execPolicy: string): Annotations {
    if execPolicy == "always" then Put(a, EXEC, Some("true"))
    else if execPolicy == "allowed" then a
    else Put(a, EXEC, None)
  }

  /** The annotations set or removed by configuration alone. */
  function PutConfigured(a: Annotations, config: Config): Annotations {
    Put(Put(Put(Put(a, CNI, Flag(config.cni)), STATEFUL, Flag(config.stateful)), POLICY, Text(config.policy)),
        COOLDOWN, config.cooldown)
  }

  /** What the Pod mutate function makes of a Pod's annotations. */
  function Mutate(config: Config, instance: Annotations, pod: Annotations): Annotations {
    PutExec(PutConfigured(Mirror(instance, pod), config), config.execPolicy)
  }

  function Get(a: Annotations, k: string): Option<string> {
    if k in a then Some(a[k]) else None
  }

  /** What the platform decides about a key: nothing, or whether it is there and with which value. */
  function Decision(config: Config, k: string): Option<Option<string>> {
    if k == EXEC then
      if config.execPolicy == "always" then Some(Some("true"))
      else if config.execPolicy == "allowed" then None
      else Some(None)
    else if k == COOLDOWN then Some(config.cooldown)
    else if k == POLICY then Some(Text(config.policy))
    else if k == STATEFUL then Some(Flag(config.stateful))
    else if k == CNI then Some(Flag(config.cni))
    else None
  }

  /**
   Every annotation of a mutated Pod. What the platform decides follows from configuration alone, so no tenant and
   no earlier Pod can change it; any other key is the tenant's if it is mirrored and the Pod's own otherwise.
   */
  lemma MutateLookup(config: Config, instance: Annotations, pod: Annotations, k: string)
    ensures Get(Mutate(config, instance, pod), k) ==
            if Decision(config, k).Some? then Decision(config, k).value
            else if k in instance && Copied(k) then Some(instance[k])
            else Get(pod, k)
  {
    var a := Mirror(instance, pod);
    MirrorLookup(instance, pod, k);
    ConfiguredLookup(a, config, k);
    ExecLookup(PutConfigured(a, config), config, k);
  }

  lemma ExecLookup(a: Annotations, config: Config, k: string)
    ensures Get(PutExec(a, config.execPolicy), k) ==
            if k == EXEC && Decision(config, k).Some? then Decision(config, k).value else Get(a, k)
  {
  }

  lemma ConfiguredLookup(a: Annotations, config: Config, k: string)
    ensures k != EXEC ==>
              Get(PutConfigured(a, config), k) ==
              if Decision(config, k).Some? then Decision(config, k).value else Get(a, k)
    ensures k == EXEC ==> Get(PutConfigured(a, config), k) == Get(a, k)
  {
    LayersLookup(a, CNI, Flag(config.cni), STATEFUL, Flag(config.stateful), POLICY, Text(config.policy),
                 COOLDOWN, config.cooldown, k);
  }

  /** Later layers win. */
  lemma LayersLookup(a: Annotations, k1: string, v1: Option<string>, k2: string, v2: Option<string>,
                     k3: string, v3: Option<string>, k4: string, v4: Option<string>, k: string)
    ensures Get(Put(Put(Put(Put(a, k1, v1), k2, v2), k3, v3), k4, v4), k) ==
            if k == k4 then v4 else if k == k3 then v3 else if k == k2 then v2 else if k == k1 then v1 else Get(a, k)
  {
  }

  /** The value of a Pod annotation that was off or on by configuration. */
  ghost predicate IsFlag(value: Option<string>, on: bool) {
    value == if on then Some("true") else None
  }

  /** What configuration decides about a mutated Pod, key by key; only allowed exec follows the tenant. */
  lemma PlatformDecides(config: Config, instance: Annotations, pod: Annotations)
    ensures var m := Mutate(config, instance, pod);
            && IsFlag(Get(m, "cloud.unikraft.v1.instances/cni-enabled"), config.cni)
            && IsFlag(Get(m, "cloud.unikraft.v1.instances/scale_to_zero.stateful"), config.stateful)
            && Get(m, "cloud.unikraft.v1.instances/scale_to_zero.policy")
               == (if config.policy == "" then None else Some(config.policy))
            && Get(m, "cloud.unikraft.v1.instances/scale_to_zero.cooldown_time_ms") == config.cooldown
            && (config.execPolicy != "allowed" ==>
                  IsFlag(Get(m, "cloud.unikraft.v1.instances/enable-exec"), config.execPolicy == "always"))
  {
    KeysDiffer();
    MutateLookup(config, instance, pod, CNI);
    MutateLookup(config, instance, pod, STATEFUL);
    MutateLookup(config, instance, pod, POLICY);
    MutateLookup(config, instance, pod, COOLDOWN);
    MutateLookup(config, instance, pod, EXEC);
  }

  lemma KeysDiffer()
    ensures |CNI| == |EXEC| == 39 && |STATEFUL| == 50 && |POLICY| == 48 && |COOLDOWN| == 58 && CNI != EXEC
  {
    assert CNI[28] == 'c' && EXEC[28] == 'e';
  }

  /** Every other key with the prefix is the tenant's if the tenant sets it, and any other is the Pod's own. */
  lemma TenantDecides(config: Config, instance: Annotations, pod: Annotations, k: string)
    requires k !in {CNI, STATEFUL, POLICY, COOLDOWN} && (k == EXEC ==> config.execPolicy == "allowed")
    ensures Get(Mutate(config, instance, pod), k) ==
            if k in instance && |k| >= 17 && k[..17] == "cloud.unikraft.v1" then Some(instance[k]) else Get(pod, k)
  {
    assert |PREFIX| == 17;
    MutateLookup(config, instance, pod, k);
  }

  /** The recorded boot ID survives every reconcile, whatever the tenant puts on the Instance. */
  lemma BootIdIsLeftAlone(config: Config, instance: Annotations, pod: Annotations)
    ensures Get(Mutate(config, instance, pod), HOST_BOOT_ID) == Get(pod, HOST_BOOT_ID)
  {
    MutateLookup(config, instance, pod, HOST_BOOT_ID);
    assert HOST_BOOT_ID[0] == 'u' && PREFIX[0] == 'c';
    assert !HasPrefix(HOST_BOOT_ID, PREFIX) by {
      assert HOST_BOOT_ID[..|PREFIX|][0] == 'u';
    }
    assert CNI[0] == STATEFUL[0] == POLICY[0] == COOLDOWN[0] == EXEC[0] == 'c';
  }

  /** Mutating again changes nothing, so a settled Pod is not patched. */
  lemma MutateIsIdempotent(config: Config, instance: Annotations, pod: Annotations)
    ensures var a := Mutate(config, instance, pod); Mutate(config, instance, a) == a
  {
    var a := Mutate(config, instance, pod);
    var b := Mutate(config, instance, a);
    forall k ensures Get(a, k) == Get(b, k) {
      MutateLookup(config, instance, pod, k);
      MutateLookup(config, instance, a, k);
    }
    SameLookups(a, b);
  }

  lemma SameLookups(a: Annotations, b: Annotations)
    requires forall k :: Get(a, k) == Get(b, k)
    ensures a == b
  {
    assert forall k :: k in a <==> Get(a, k).Some?;
    assert forall k :: k in b <==> Get(b, k).Some?;
    forall k | k in a ensures k in b && a[k] == b[k] {
      assert Get(a, k) == Some(a[k]);
    }
    forall k | k in b ensures k in a {
      assert Get(b, k) == Some(b[k]);
    }
  }

  // ----- Merge patches -----

  /** A merge patch of a map: the keys to set and the keys to remove. */
  datatype MapPatch = MapPatch(put: Annotations, drop: set<string>)

  function DiffMaps(base: Annotations, modified: Annotations): MapPatch {
    MapPatch(map k | k in modified && (k !in base || base[k] != modified[k]) :: modified[k],
             base.Keys - modified.Keys)
  }

  function PatchMap(current: Annotations, p: MapPatch): Annotations {
    (current - p.drop) + p.put
  }

  /** A patch changes a key of the current object only if base and modified disagree on it. */
  lemma PatchTouchesOnlyDifferences(base: Annotations, modified: Annotations, current: Annotations, k: string)
    ensures Get(PatchMap(current, DiffMaps(base, modified)), k)
            == if Get(base, k) == Get(modified, k) then Get(current, k) else Get(modified, k)
  {
  }
}
