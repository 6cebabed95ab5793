/** The runtime size policy: the compute and memory quota of each size tag
    (internal/controller/resolvers/runtime.go). Quantities are integers:
    CPU in millicores and memory in mebibytes. */
module Runtime {

  import opened Wrappers
  import opened RuntimeTypes

  /** "1" CPU is a thousand millicores; "1Gi" is 1024 mebibytes. */
  const Cores: int := 1000
  const GiB: int := 1024

  datatype ResourceName = Cpu | Memory

  type ResourceList = map<ResourceName, int>

  /** What a container may use (limits) and is guaranteed (requests). */
  datatype ResourceRequirements = ResourceRequirements(limits: ResourceList, requests: ResourceList)

  /** The zero value of the requirements: nothing limited, nothing requested. */
  const EmptyRequirements: ResourceRequirements := ResourceRequirements(map[], map[])

  /** A compute quota in millicores and a memory quota in mebibytes. */
  datatype CpuAndMemory = CpuAndMemory(cpu: int, memory: int)

  function GetCpuAndMemoryForRuntimeSize(size: RuntimeSize): (r: Result<CpuAndMemory>)
    ensures r.Ok? <==> size in RuntimeSizes
    ensures r.Err? ==> r.error == InvalidRuntimeSize
  {
    if size == BasicMachineType then Ok(CpuAndMemory(256, 256))
    else if size == Basic2xMachineType then Ok(CpuAndMemory(500, 256))
    else if size == StandardMachineType then Ok(CpuAndMemory(500, 512))
    else if size == Standard2xMachineType then Ok(CpuAndMemory(1 * Cores, 1 * GiB))
    else if size == PerformanceMachineType then Ok(CpuAndMemory(2 * Cores, 2 * GiB))
    else Err(InvalidRuntimeSize)
  }

  /** The requirements of a size tag, with the error alongside as Go returns
      them: on an invalid tag the requirements are the empty value. */
  function GetResourcesForRuntimeSize(size: RuntimeSize): (r: (ResourceRequirements, Option<Error>))
    ensures r.1.None? <==> size in RuntimeSizes
    ensures r.1.Some? ==> r.1 == Some(InvalidRuntimeSize) && r.0 == EmptyRequirements
    ensures r.1.None? ==>
              && r.0.limits == r.0.requests
              && r.0.limits.Keys == {Cpu, Memory}
              && r.0.limits[Cpu] == GetCpuAndMemoryForRuntimeSize(size).value.cpu
              && r.0.limits[Memory] == GetCpuAndMemoryForRuntimeSize(size).value.memory
  {
    match GetCpuAndMemoryForRuntimeSize(size)
    case Err(e) => (EmptyRequirements, Some(e))
    case Ok(q) =>
      (ResourceRequirements(
         map[Cpu := q.cpu, Memory := q.memory],
         map[Cpu := q.cpu, Memory := q.memory]),
       None)
  }

  /** The quota table: 256m/256Mi, 500m/256Mi, 500m/512Mi, 1/1Gi and 2/2Gi. */
  lemma SizeTable()
    ensures GetCpuAndMemoryForRuntimeSize("basic") == Ok(CpuAndMemory(256, 256))
    ensures GetCpuAndMemoryForRuntimeSize("basic-2x") == Ok(CpuAndMemory(500, 256))
    ensures GetCpuAndMemoryForRuntimeSize("standard") == Ok(CpuAndMemory(500, 512))
    ensures GetCpuAndMemoryForRuntimeSize("standard-2x") == Ok(CpuAndMemory(1000, 1024))
    ensures GetCpuAndMemoryForRuntimeSize("performance") == Ok(CpuAndMemory(2000, 2048))
  {
  }

  /** Going up the sizes never lowers the CPU or the memory quota. */
  lemma SizesMonotone(i: int, j: int)
    requires 0 <= i <= j < |SizeOrder|
    ensures GetCpuAndMemoryForRuntimeSize(SizeOrder[i]).Ok?
    ensures GetCpuAndMemoryForRuntimeSize(SizeOrder[j]).Ok?
    ensures GetCpuAndMemoryForRuntimeSize(SizeOrder[i]).value.cpu <= GetCpuAndMemoryForRuntimeSize(SizeOrder[j]).value.cpu
    ensures GetCpuAndMemoryForRuntimeSize(SizeOrder[i]).value.memory <= GetCpuAndMemoryForRuntimeSize(SizeOrder[j]).value.memory
  {
  }

  /** The tag used by the resource test that is not a size fails. */
  lemma IncorrectSizeExample()
    ensures GetResourcesForRuntimeSize("incorrect") == (EmptyRequirements, Some(InvalidRuntimeSize))
  {
  }
}
