/**
 * Validation of the CPU affinity list (one comma-separated core list per job)
 * and of the GPU list that may accompany it.
 */
module CpuLists {
  import opened Results
  import opened Fields

  /** The `ValueError`s raised by the two validators. */
  datatype ListError =
    | EmptyAffinityList      // no affinity entry at all
    | MismatchedCoreCount    // some entry lists a different number of cores
    | GpuNeedsSingleJob      // a GPU list with other than one affinity entry

  /**
   * What `parse_cpu_affinity_list` returns: the number of threads per job,
   * which every entry must agree on.
   */
  function ThreadsPerJob(cpuAffinityList: seq<string>): (r: Result<nat, ListError>)
    ensures r.Ok? ==> |cpuAffinityList| > 0 && r.value >= 1
    ensures |cpuAffinityList| == 0 <==> r == Err(EmptyAffinityList)
  {
    if |cpuAffinityList| == 0 then Err(EmptyAffinityList)
    else if forall k :: 1 <= k < |cpuAffinityList| ==> FieldCount(cpuAffinityList[k]) == FieldCount(cpuAffinityList[0])
    then Ok(FieldCount(cpuAffinityList[0]))
    else Err(MismatchedCoreCount)
  }

  /**
   * `parse_cpu_affinity_list`: take the field count of the first entry, then
   * raise at the first later entry that disagrees.
   */
  method ParseCpuAffinityList(cpuAffinityList: seq<string>) returns (r: Result<nat, ListError>)
    ensures r == ThreadsPerJob(cpuAffinityList)
  {
    var njobs := |cpuAffinityList|;
    if njobs == 0 {
      return Err(EmptyAffinityList);
    }
    var nthreads := |Split(cpuAffinityList[0], ',')|;
    for j := 1 to njobs
      invariant forall k :: 1 <= k < j ==> FieldCount(cpuAffinityList[k]) == nthreads
    {
      if |Split(cpuAffinityList[j], ',')| != nthreads {
        return Err(MismatchedCoreCount);
      }
    }
    return Ok(nthreads);
  }

  /**
   * A successful validation returns one more than the number of commas in
   * every entry, and conversely every entry having that many commas succeeds.
   */
  lemma ThreadsPerJobCountsCommas(cpuAffinityList: seq<string>, nthreads: nat)
    ensures ThreadsPerJob(cpuAffinityList) == Ok(nthreads)
        <==> |cpuAffinityList| > 0
             && forall k :: 0 <= k < |cpuAffinityList| ==> nthreads == 1 + Occurrences(cpuAffinityList[k], ',')
  {
    forall k | 0 <= k < |cpuAffinityList| {
      SplitLength(cpuAffinityList[k], ',');
    }
  }

  /** Two entries listing different numbers of cores make validation raise. */
  lemma MismatchRejected(cpuAffinityList: seq<string>, i: nat, j: nat)
    requires i < |cpuAffinityList| && j < |cpuAffinityList|
    requires FieldCount(cpuAffinityList[i]) != FieldCount(cpuAffinityList[j])
    ensures ThreadsPerJob(cpuAffinityList) == Err(MismatchedCoreCount)
  {
  }

  /** A single entry is always consistent with itself. */
  lemma SingleEntryAccepted(entry: string)
    ensures ThreadsPerJob([entry]) == Ok(1 + Occurrences(entry, ','))
  {
  }

  /**
   * `use_gpus`: no GPUs means false; GPUs are allowed only with exactly one
   * CPU affinity entry.
   */
  function UseGpus(gpuList: seq<string>, cpuAffinityList: seq<string>): (r: Result<bool, ListError>)
    ensures r == Ok(false) <==> |gpuList| == 0
    ensures r == Ok(true) <==> |gpuList| > 0 && |cpuAffinityList| == 1
    ensures r.Err? ==> r.error == GpuNeedsSingleJob
  {
    if |gpuList| > 0 then
      if |cpuAffinityList| != 1 then Err(GpuNeedsSingleJob) else Ok(true)
    else Ok(false)
  }

  /**
   * When GPUs are in use, the CPU affinity list also passes its own
   * validation, with one thread per core of its only entry.
   */
  lemma GpuUseImpliesValidCpuList(gpuList: seq<string>, cpuAffinityList: seq<string>)
    requires UseGpus(gpuList, cpuAffinityList) == Ok(true)
    ensures ThreadsPerJob(cpuAffinityList) == Ok(1 + Occurrences(cpuAffinityList[0], ','))
  {
    assert cpuAffinityList == [cpuAffinityList[0]];
    SingleEntryAccepted(cpuAffinityList[0]);
  }
}
