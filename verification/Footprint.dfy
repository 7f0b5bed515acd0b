/**
 Container sizing: from the Instance's limits and its instance type to the limits programmed on the Pod, and from
 those to the footprint that is billed.
 */
module Footprint {
  import opened Options

  const INT64_MAX: int := 0x7FFF_FFFF_FFFF_FFFF

  // ----- Arithmetic of the source -----

  /** The 64-bit two's complement value of an integer. */
  function Wrap64(x: int): (r: int)
    ensures -0x8000_0000_0000_0000 <= r <= 0x7FFF_FFFF_FFFF_FFFF
    ensures -0x8000_0000_0000_0000 <= x <= 0x7FFF_FFFF_FFFF_FFFF ==> r == x
  {
    (x + 0x8000_0000_0000_0000) % 0x1_0000_0000_0000_0000 - 0x8000_0000_0000_0000
  }

  /** Division by 2^20 that truncates toward zero. */
  function TruncMiB(x: int): int {
    if x < 0 then -(-x / 1_048_576) else x / 1_048_576
  }

  /** Bytes to MiB, rounding up with 64-bit integers. */
  function BytesToRoundedMiB(bytes: int): int {
    TruncMiB(Wrap64(bytes + 1_048_575))
  }

  /** The least number of MiB that holds `bytes`. */
  ghost predicate IsCeilingMiB(bytes: int, mib: int) {
    bytes <= mib * 1_048_576 < bytes + 1_048_576
  }

  /** Rounding is exact for every non-negative 64-bit size up to 2^63 - 2^20, and wraps for every larger one. */
  lemma RoundingIsExactIff(bytes: int)
    requires 0 <= bytes <= INT64_MAX
    ensures IsCeilingMiB(bytes, BytesToRoundedMiB(bytes)) <==> bytes <= INT64_MAX - 1_048_575
    ensures bytes <= INT64_MAX - 1_048_575 ==>
              0 <= BytesToRoundedMiB(bytes) * 1_048_576 <= INT64_MAX && (0 < bytes ==> 0 < BytesToRoundedMiB(bytes))
  {
  }

  /** A resource quantity in billionths of its unit. Both of its integer readings round away from zero. */
  datatype Quantity = Quantity(nano: int) {
    function MilliValue(): int {
      if nano < 0 then -((-nano + 999_999) / 1_000_000) else (nano + 999_999) / 1_000_000
    }

    function Value(): int {
      if nano < 0 then -((-nano + 999_999_999) / 1_000_000_000) else (nano + 999_999_999) / 1_000_000_000
    }
  }

  function FromValue(v: int): (q: Quantity)
    ensures q.Value() == v && (q.nano == 0 <==> v == 0)
  {
    Quantity(v * 1_000_000_000)
  }

  function FromMilli(m: int): (q: Quantity)
    ensures q.MilliValue() == m && (q.nano == 0 <==> m == 0)
  {
    Quantity(m * 1_000_000)
  }

  // ----- The catalog -----

  const D1_STANDARD_2: string := "datumcloud-d1-standard-2"
  const LEGACY_D1_STANDARD_2: string := "datumcloud/d1-standard-2"
  const DEFAULT_MEMORY_MIB: int := 1024

  datatype Size = Size(cpuMilli: int, memoryMiB: int)

  function CanonicalName(name: string): string {
    if name == LEGACY_D1_STANDARD_2 then D1_STANDARD_2 else name
  }

  function LookupHardcoded(name: string): Option<Size> {
    if CanonicalName(name) == D1_STANDARD_2 then Some(Size(1000, 2048)) else None
  }

  /** What reading the published type of that name gives, if it is read. */
  datatype Reading = NoReader | ReadError | NotPublished | Published(cpu: Quantity, memory: Quantity)

  datatype Sizing = Sized(size: Size) | SizingFailed

  /** The limits a container asks for. An absent limit is a zero quantity. */
  datatype Container = Container(cpuLimit: Quantity, memoryLimit: Quantity, reading: Reading)

  // ----- Sizing -----

  function ExplicitCpu(c: Container): int {
    if c.cpuLimit.nano == 0 then 0 else c.cpuLimit.MilliValue()
  }

  function ExplicitMemory(c: Container): int {
    if c.memoryLimit.nano == 0 then 0 else BytesToRoundedMiB(c.memoryLimit.Value())
  }

  function PublishedSize(r: Reading): Option<Size> {
    if r.Published? then
      var s := Size(r.cpu.MilliValue(), BytesToRoundedMiB(r.memory.Value()));
      if 0 < s.cpuMilli && 0 < s.memoryMiB then Some(s) else None
    else None
  }

  /** The catalog entry an instance type selects: published first, then hardcoded. */
  function CatalogSize(instanceType: string, r: Reading): Option<Size> {
    if instanceType == "" then None
    else if PublishedSize(r).Some? then PublishedSize(r)
    else LookupHardcoded(instanceType)
  }

  /** Sizing, one dimension at a time: explicit limit, then catalog, then the default. */
  function SizeOf(c: Container, instanceType: string): Sizing {
    var cpu, mem, catalog := ExplicitCpu(c), ExplicitMemory(c), CatalogSize(instanceType, c.reading);
    if 0 < cpu && 0 < mem then Sized(Size(cpu, mem))
    else if instanceType != "" && (c.reading.ReadError? || catalog.None?) then SizingFailed
    else Sized(Size(if cpu != 0 then cpu else if catalog.Some? then catalog.value.cpuMilli else 0,
                    if mem != 0 then mem else if catalog.Some? then catalog.value.memoryMiB else DEFAULT_MEMORY_MIB))
  }

  /** The source's procedure, which fills in the two dimensions step by step. */
  method ResolveContainerResources(c: Container, instanceType: string) returns (result: Sizing)
    ensures result == SizeOf(c, instanceType)
  {
    var explicitCpu, explicitMem := 0, 0;
    if c.cpuLimit.nano != 0 {
      explicitCpu := c.cpuLimit.MilliValue();
    }
    if c.memoryLimit.nano != 0 {
      explicitMem := BytesToRoundedMiB(c.memoryLimit.Value());
    }
    if explicitCpu > 0 && explicitMem > 0 {
      return Sized(Size(explicitCpu, explicitMem));
    }
    var catalogCpu, catalogMem, resolved := 0, 0, false;
    if !c.reading.NoReader? && instanceType != "" {
      if c.reading.ReadError? {
        return SizingFailed;
      }
      if c.reading.Published? {
        catalogCpu := c.reading.cpu.MilliValue();
        catalogMem := BytesToRoundedMiB(c.reading.memory.Value());
        resolved := catalogCpu > 0 && catalogMem > 0;
      }
    }
    if !resolved && instanceType != "" {
      var sizing := LookupHardcoded(instanceType);
      if sizing.None? {
        return SizingFailed;
      }
      catalogCpu, catalogMem, resolved := sizing.value.cpuMilli, sizing.value.memoryMiB, true;
    }
    var cpu, mem := explicitCpu, explicitMem;
    if cpu == 0 {
      cpu := catalogCpu;
    }
    if mem == 0 {
      mem := if resolved then catalogMem else DEFAULT_MEMORY_MIB;
    }
    result := Sized(Size(cpu, mem));
  }

  /**
   A transient failure to read the published type never programs a different Pod: sizing either fails, or gives what
   every other outcome of the read would have given.
   */
  lemma ReadErrorNeverMissizes(c: Container, instanceType: string, reading: Reading)
    requires SizeOf(c.(reading := ReadError), instanceType).Sized?
    ensures SizeOf(c.(reading := reading), instanceType) == SizeOf(c.(reading := ReadError), instanceType)
  {
  }

  /** The retired name of a type sizes like its new name, and the read is made under the new name for both. */
  lemma RetiredNameSizesAlike(c: Container)
    ensures SizeOf(c, LEGACY_D1_STANDARD_2) == SizeOf(c, D1_STANDARD_2)
    ensures CanonicalName(LEGACY_D1_STANDARD_2) == CanonicalName(D1_STANDARD_2) == D1_STANDARD_2
  {
  }

  // ----- The Pod's resources and the billed footprint -----

  /** A container's resource list; a resource that is not listed is None. */
  datatype ResourceList = ResourceList(cpu: Option<Quantity>, memory: Option<Quantity>)

  datatype PodContainer = PodContainer(limits: ResourceList, requests: ResourceList)

  /** Requests name the same resources as the limits and ask for none of them. */
  function ZeroRequests(limits: ResourceList): ResourceList {
    ResourceList(if limits.cpu.Some? then Some(Quantity(0)) else None,
                 if limits.memory.Some? then Some(Quantity(0)) else None)
  }

  function Programmed(s: Size): PodContainer {
    var limits := ResourceList(if s.cpuMilli > 0 then Some(FromMilli(s.cpuMilli)) else None,
                               Some(FromValue(Wrap64(s.memoryMiB * 1_048_576))));
    PodContainer(limits, ZeroRequests(limits))
  }

  function Max64(a: int, b: int): int {
    if a > b then a else b
  }

  function MilliCpu(q: Option<Quantity>): int {
    if q.None? || q.value.nano == 0 then 0 else q.value.MilliValue()
  }

  function MemoryBytes(q: Option<Quantity>): int {
    if q.None? then 0 else q.value.Value()
  }

  datatype Billed = Billed(vcpuMilli: int, memoryBytes: int)

  function CpuOf(c: PodContainer): int {
    Max64(MilliCpu(c.limits.cpu), MilliCpu(c.requests.cpu))
  }

  function MemoryOf(c: PodContainer): int {
    Max64(MemoryBytes(c.limits.memory), MemoryBytes(c.requests.memory))
  }

  /** `x` is the largest of the values, or zero when none is above it. */
  ghost predicate IsLargest(containers: seq<PodContainer>, value: PodContainer -> int, x: int) {
    && 0 <= x && (forall i :: 0 <= i < |containers| ==> value(containers[i]) <= x)
    && (x != 0 ==> exists i :: 0 <= i < |containers| && value(containers[i]) == x)
  }

  lemma {:induction false} FootprintIsLargest(containers: seq<PodContainer>)
    ensures IsLargest(containers, CpuOf, FootprintOf(containers).vcpuMilli)
    ensures IsLargest(containers, MemoryOf, FootprintOf(containers).memoryBytes)
  {
    if containers != [] {
      var pre, last := containers[..|containers| - 1], containers[|containers| - 1];
      FootprintIsLargest(pre);
      var b, b' := FootprintOf(pre), FootprintOf(containers);
      assert b'.vcpuMilli == Max64(b.vcpuMilli, CpuOf(last)) && b'.memoryBytes == Max64(b.memoryBytes, MemoryOf(last));
      LargestSnoc(pre, last, CpuOf, b.vcpuMilli);
      LargestSnoc(pre, last, MemoryOf, b.memoryBytes);
      assert containers == pre + [last];
    }
  }

  lemma LargestSnoc(pre: seq<PodContainer>, last: PodContainer, value: PodContainer -> int, x: int)
    requires IsLargest(pre, value, x)
    ensures IsLargest(pre + [last], value, Max64(x, value(last)))
  {
    var all := pre + [last];
    assert all[|pre|] == last;
    if x != 0 && value(last) < x {
      var i :| 0 <= i < |pre| && value(pre[i]) == x;
      assert all[i] == pre[i];
    }
  }

  /** The index's pass over the containers: the largest limit or request of each resource, from zero. */
  method BilledFootprint(containers: seq<PodContainer>) returns (b: Billed)
    ensures b == FootprintOf(containers)
    ensures IsLargest(containers, CpuOf, b.vcpuMilli) && IsLargest(containers, MemoryOf, b.memoryBytes)
  {
    b := Billed(0, 0);
    for i := 0 to |containers|
      invariant b == FootprintOf(containers[..i])
    {
      assert containers[..i + 1][..i] == containers[..i];
      var c := containers[i];
      var cpu, mem := b.vcpuMilli, b.memoryBytes;
      cpu := Max64(cpu, MilliCpu(c.limits.cpu));
      if c.limits.memory.Some? {
        mem := Max64(mem, c.limits.memory.value.Value());
      }
      cpu := Max64(cpu, MilliCpu(c.requests.cpu));
      if c.requests.memory.Some? {
        mem := Max64(mem, c.requests.memory.value.Value());
      }
      assert 0 <= b.memoryBytes;
      b := Billed(cpu, mem);
    }
    assert containers[..|containers|] == containers;
    FootprintIsLargest(containers);
  }

  function FootprintOf(containers: seq<PodContainer>): (b: Billed)
    ensures 0 <= b.vcpuMilli && 0 <= b.memoryBytes
  {
    if containers == [] then Billed(0, 0)
    else
      var b, c := FootprintOf(containers[..|containers| - 1]), containers[|containers| - 1];
      Billed(Max64(Max64(b.vcpuMilli, MilliCpu(c.limits.cpu)), MilliCpu(c.requests.cpu)),
             Max64(Max64(b.memoryBytes, MemoryBytes(c.limits.memory)), MemoryBytes(c.requests.memory)))
  }

  // ----- Billed is what was programmed -----

  /** Quantities are not negative, and memory is small enough that rounding it to MiB stays in 64 bits. */
  ghost predicate InRange(c: Container) {
    && 0 <= c.cpuLimit.nano && 0 <= c.memoryLimit.nano
    && c.memoryLimit.Value() <= INT64_MAX - 1_048_575
    && (c.reading.Published? ==>
          && 0 <= c.reading.cpu.nano && 0 <= c.reading.memory.nano
          && c.reading.memory.Value() <= INT64_MAX - 1_048_575)
  }

  /** Sizing a container in range never wraps, honours its memory limit and rounds it up by less than a MiB. */
  lemma SizingFits(c: Container, instanceType: string)
    requires InRange(c) && SizeOf(c, instanceType).Sized?
    ensures var s := SizeOf(c, instanceType).size;
            && 0 <= s.cpuMilli && 0 < s.memoryMiB && s.memoryMiB * 1_048_576 <= INT64_MAX
            && (c.memoryLimit.nano != 0 ==> IsCeilingMiB(c.memoryLimit.Value(), s.memoryMiB))
            && (c.cpuLimit.nano != 0 ==> s.cpuMilli == c.cpuLimit.MilliValue())
  {
  }

  /** `y` is the least number of units that holds `x`. */
  ghost predicate IsCeiling(x: int, unit: int, y: int) {
    x <= y * unit < x + unit
  }

  /** A published type counts when both its dimensions are positive. */
  ghost predicate UsableType(r: Reading) {
    r.Published? && 0 < r.cpu.nano && 0 < r.memory.nano
  }

  ghost predicate KnownType(instanceType: string) {
    instanceType == "datumcloud-d1-standard-2" || instanceType == "datumcloud/d1-standard-2"
  }

  /** The CPU of a sized container, in thousandths: limit, published type, known type, and none without a type. */
  ghost predicate CpuIsRight(c: Container, instanceType: string, cpuMilli: int) {
    if c.cpuLimit.nano != 0 then IsCeiling(c.cpuLimit.nano, 1_000_000, cpuMilli)
    else if instanceType == "" then cpuMilli == 0
    else if UsableType(c.reading) then IsCeiling(c.reading.cpu.nano, 1_000_000, cpuMilli)
    else cpuMilli == 1000
  }

  /** Its memory in MiB, by the same precedence, with 1024 MiB when there is no type. */
  ghost predicate MemoryIsRight(c: Container, instanceType: string, memoryMiB: int) {
    if c.memoryLimit.nano != 0 then IsCeiling(c.memoryLimit.nano, 1_048_576_000_000_000, memoryMiB)
    else if instanceType == "" then memoryMiB == 1024
    else if UsableType(c.reading) then IsCeiling(c.reading.memory.nano, 1_048_576_000_000_000, memoryMiB)
    else memoryMiB == 2048
  }

  /**
   What sizing gives, from the inputs alone. Each dimension comes from the explicit limit, else from the published
   type, else from the known type under either of its names, else from the default. It fails exactly when a
   dimension is missing and the type cannot be read or is not known.
   */
  lemma SizingMeans(c: Container, instanceType: string)
    requires InRange(c)
    ensures SizeOf(c, instanceType).SizingFailed? <==>
              && (c.cpuLimit.nano == 0 || c.memoryLimit.nano == 0) && instanceType != ""
              && (c.reading.ReadError? || (!UsableType(c.reading) && !KnownType(instanceType)))
    ensures SizeOf(c, instanceType).Sized? ==>
              && CpuIsRight(c, instanceType, SizeOf(c, instanceType).size.cpuMilli)
              && MemoryIsRight(c, instanceType, SizeOf(c, instanceType).size.memoryMiB)
  {
    CpuRoundsUp(c.cpuLimit);
    MemoryRoundsUp(c.memoryLimit);
    if c.reading.Published? {
      CpuRoundsUp(c.reading.cpu);
      MemoryRoundsUp(c.reading.memory);
    }
  }

  lemma CpuRoundsUp(q: Quantity)
    requires 0 <= q.nano
    ensures IsCeiling(q.nano, 1_000_000, q.MilliValue()) && (0 < q.MilliValue() <==> 0 < q.nano)
  {
  }

  lemma MemoryRoundsUp(q: Quantity)
    requires 0 <= q.nano && q.Value() <= INT64_MAX - 1_048_575
    ensures IsCeiling(q.nano, 1_048_576_000_000_000, BytesToRoundedMiB(q.Value()))
    ensures 0 < BytesToRoundedMiB(q.Value()) <==> 0 < q.nano
  {
    var bytes, mib := q.Value(), BytesToRoundedMiB(q.Value());
    assert q.nano <= bytes * 1_000_000_000 < q.nano + 1_000_000_000;
    RoundingIsExactIff(bytes);
    assert bytes <= mib * 1_048_576 < bytes + 1_048_576;
  }

  /** A programmed container asks for exactly the resources it is limited to, and for none of any of them. */
  lemma RequestsAreZero(s: Size)
    ensures var c := Programmed(s);
            && (c.requests.cpu == if c.limits.cpu.Some? then Some(Quantity(0)) else None)
            && (c.requests.memory == if c.limits.memory.Some? then Some(Quantity(0)) else None)
            && (c.limits.cpu.Some? <==> 0 < s.cpuMilli) && c.limits.memory.Some?
  {
  }

  function Largest(xs: seq<int>): int {
    if xs == [] then 0 else Max64(Largest(xs[..|xs| - 1]), xs[|xs| - 1])
  }

  lemma {:induction false} LargestBounds(xs: seq<int>)
    ensures forall i :: 0 <= i < |xs| ==> xs[i] <= Largest(xs)
    ensures Largest(xs) == 0 || exists i :: 0 <= i < |xs| && xs[i] == Largest(xs)
  {
    if xs != [] {
      var pre := xs[..|xs| - 1];
      LargestBounds(pre);
      if Largest(xs) != xs[|xs| - 1] && Largest(pre) != 0 {
        var i :| 0 <= i < |pre| && pre[i] == Largest(pre);
        assert xs[i] == pre[i];
      }
    }
  }

  /** A programmed container reads back as the size it was programmed with. */
  lemma ProgrammedReadsBack(s: Size)
    requires 0 <= s.cpuMilli && 0 < s.memoryMiB && s.memoryMiB * 1_048_576 <= INT64_MAX
    ensures var c := Programmed(s);
            && MilliCpu(c.limits.cpu) == s.cpuMilli && MemoryBytes(c.limits.memory) == s.memoryMiB * 1_048_576
            && MilliCpu(c.requests.cpu) == 0 && MemoryBytes(c.requests.memory) == 0
  {
  }

  /** The sizes of all containers, when every one can be sized. */
  function Sizes(cs: seq<Container>, instanceType: string): seq<Size>
    requires forall i :: 0 <= i < |cs| ==> SizeOf(cs[i], instanceType).Sized?
  {
    seq(|cs|, i requires 0 <= i < |cs| => SizeOf(cs[i], instanceType).size)
  }

  /** The containers that `buildPodSpecFromContainers` writes. */
  function BuildPod(sizes: seq<Size>): seq<PodContainer> {
    seq(|sizes|, i requires 0 <= i < |sizes| => Programmed(sizes[i]))
  }

  function Cpus(sizes: seq<Size>): seq<int> {
    seq(|sizes|, i requires 0 <= i < |sizes| => sizes[i].cpuMilli)
  }

  function Memories(sizes: seq<Size>): seq<int> {
    seq(|sizes|, i requires 0 <= i < |sizes| => sizes[i].memoryMiB * 1_048_576)
  }

  ghost predicate Fits(sizes: seq<Size>) {
    forall i :: 0 <= i < |sizes| ==>
      0 <= sizes[i].cpuMilli && 0 < sizes[i].memoryMiB && sizes[i].memoryMiB * 1_048_576 <= INT64_MAX
  }

  lemma {:induction false} FootprintOfSizes(sizes: seq<Size>)
    requires Fits(sizes)
    ensures FootprintOf(BuildPod(sizes)) == Billed(Largest(Cpus(sizes)), Largest(Memories(sizes)))
  {
    if sizes != [] {
      var pre := sizes[..|sizes| - 1];
      FootprintOfSizes(pre);
      var pod, cpus, mems := BuildPod(sizes), Cpus(sizes), Memories(sizes);
      assert pod[..|pod| - 1] == BuildPod(pre);
      assert cpus[..|cpus| - 1] == Cpus(pre);
      assert mems[..|mems| - 1] == Memories(pre);
      ProgrammedReadsBack(sizes[|sizes| - 1]);
    }
  }

  /**
   End to end: the footprint billed for a Pod is the largest CPU and the largest memory its containers were
   sized at. Nothing wraps on the way, the zero requests never matter, and no container's memory limit exceeds what
   is billed.
   */
  lemma BilledIsProgrammed(cs: seq<Container>, instanceType: string)
    requires forall i :: 0 <= i < |cs| ==> InRange(cs[i]) && SizeOf(cs[i], instanceType).Sized?
    ensures var sizes := Sizes(cs, instanceType);
            var b := FootprintOf(BuildPod(sizes));
            && b == Billed(Largest(Cpus(sizes)), Largest(Memories(sizes)))
            && b.memoryBytes <= INT64_MAX
            && forall i :: 0 <= i < |cs| ==>
                 cs[i].memoryLimit.Value() <= b.memoryBytes && cs[i].cpuLimit.MilliValue() <= b.vcpuMilli
  {
    var sizes := Sizes(cs, instanceType);
    forall i | 0 <= i < |cs|
      ensures 0 <= sizes[i].cpuMilli && 0 < sizes[i].memoryMiB && sizes[i].memoryMiB * 1_048_576 <= INT64_MAX
      ensures cs[i].memoryLimit.Value() <= Memories(sizes)[i] && cs[i].cpuLimit.MilliValue() <= Cpus(sizes)[i]
    {
      SizingFits(cs[i], instanceType);
    }
    FootprintOfSizes(sizes);
    LargestBounds(Cpus(sizes));
    LargestBounds(Memories(sizes));
  }
}
