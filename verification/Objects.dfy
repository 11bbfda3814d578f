/**
 The Kubernetes objects that the controllers read by name, and the two questions they ask of the
 lists they get back: is a generation built, and in which phase is the cluster?
 */
module Objects {
  import opened Strings
  import opened Names
  import opened Protocol

  datatype ClaimStatus = Pending | Bound | Lost
  datatype Pvc = Pvc(name: string, status: ClaimStatus)

  datatype JobCondition = JobCondition(kind: string, status: string)
  datatype MapJob = MapJob(name: string, pbfUrl: string, conditions: seq<JobCondition>)

  /** A Deployment with, for each volume of its pod template, the claim behind it if there is one. */
  datatype Deployment = Deployment(name: string, volumes: seq<Option<string>>, file: string,
                                   readyReplicas: int, replicas: int)

  /** What a Go function that reads names can do: return, return an error, or panic. */
  datatype Result<+T> = Ok(value: T) | Error | Panic

  // ---------- status ----------

  predicate IsBound(pvc: Pvc) {
    pvc.status == Bound
  }

  predicate SaysComplete(conditions: seq<JobCondition>) {
    JobCondition("Complete", "True") in conditions
  }

  predicate JobComplete(job: MapJob) {
    SaysComplete(job.conditions)
  }

  method IsJobCompleted(job: MapJob) returns (jobCompleted: bool)
    ensures jobCompleted <==>
      exists i ::
        0 <= i < |job.conditions| && job.conditions[i].kind == "Complete" && job.conditions[i].status == "True"
    ensures jobCompleted <==> JobComplete(job)
  {
    jobCompleted := false;
    for i := 0 to |job.conditions|
      invariant jobCompleted <==> JobCondition("Complete", "True") in job.conditions[..i]
    {
      if job.conditions[i].kind == "Complete" && job.conditions[i].status == "True" {
        jobCompleted := true;
        assert job.conditions[i] == JobCondition("Complete", "True");
        break;
      }
    }
  }

  // ---------- generations ----------

  function Parsed(pvc: Pvc): Option<int> {
    Atoi(ResourceNameSuffix(pvc.name))
  }

  /** n is at least 1 and at least every number the names end in, and is one of them unless it is 1. */
  ghost predicate IsHighest(pvcs: seq<Pvc>, n: int) {
    && n >= 1
    && (forall i :: 0 <= i < |pvcs| ==> Parsed(pvcs[i]).Some? && Parsed(pvcs[i]).value <= n)
    && (n == 1 || exists i :: 0 <= i < |pvcs| && Parsed(pvcs[i]) == Some(n))
  }

  /** The newest generation, from names alone.  An error exactly when some name does not end in an
      integer that Go's int can hold; never dependent on the order of the list. */
  method ComputeFutureMapGeneration(pvcs: seq<Pvc>) returns (r: Result<string>)
    ensures r.Error? <==> exists i :: 0 <= i < |pvcs| && Parsed(pvcs[i]).None?
    ensures !r.Error? ==> exists n: nat :: IsHighest(pvcs, n) && r == Ok(Itoa(n))
  {
    var highest := 1;
    for i := 0 to |pvcs|
      invariant highest >= 1
      invariant forall j :: 0 <= j < i ==> Parsed(pvcs[j]).Some? && Parsed(pvcs[j]).value <= highest
      invariant highest == 1 || exists j :: 0 <= j < i && Parsed(pvcs[j]) == Some(highest)
    {
      var n := Parsed(pvcs[i]);
      if n.None? { return Error; }
      if n.value > highest { highest := n.value; }
    }
    assert IsHighest(pvcs, highest);
    r := Ok(Itoa(highest));
  }

  /** Two lists of the same claims, in whatever order, have the same newest generation. */
  lemma HighestIgnoresOrder(pvcs: seq<Pvc>, other: seq<Pvc>, n: int, m: int)
    requires forall pvc :: pvc in pvcs <==> pvc in other
    requires IsHighest(pvcs, n) && IsHighest(other, m)
    ensures n == m
  {
    forall i | 0 <= i < |pvcs| ensures Parsed(pvcs[i]).value <= m { assert pvcs[i] in other; }
    forall i | 0 <= i < |other| ensures Parsed(other[i]).value <= n { assert other[i] in pvcs; }
  }

  /** Go's int wraps around at its largest value. */
  function NextMapGeneration(gen: string): string {
    match Atoi(gen)
    case None => "1"
    case Some(n) => ItoaSigned(if n == MAX_INT then MIN_INT else n + 1)
  }

  /** For any string: one more than its number, the smallest after the largest, and 1 if it has none. */
  lemma NextIs(gen: string)
    ensures match Atoi(gen)
      case None => NextMapGeneration(gen) == "1"
      case Some(n) =>
        Atoi(NextMapGeneration(gen)) == Some(if n == 0x7FFF_FFFF_FFFF_FFFF then -0x8000_0000_0000_0000 else n + 1)
  {
    AtoiIs(gen);
    match Atoi(gen) {
      case None =>
      case Some(n) => SignedIsParsed(if n == 0x7FFF_FFFF_FFFF_FFFF then -0x8000_0000_0000_0000 else n + 1);
    }
  }

  /** The served generation, read off the first of the spec's workers.  The claim is taken from the
      first volume without a check. */
  method GetActiveMapGeneration(deployments: seq<Deployment>) returns (r: Result<string>)
    ensures r == ActiveGeneration(deployments)
    ensures deployments == [] ==> r == Ok("1")
    ensures deployments != [] ==>
      var volumes := deployments[0].volumes;
      && (r.Panic? <==> volumes == [] || volumes[0].None?)
      && (r.Error? <==> volumes != [] && volumes[0].Some? && Atoi(ResourceNameSuffix(volumes[0].value)).None?)
      && (r.Ok? ==> r.value == ResourceNameSuffix(volumes[0].value))
  {
    var activeMapGeneration := "1";
    if |deployments| > 0 {
      if |deployments[0].volumes| == 0 || deployments[0].volumes[0].None? { return Panic; }
      var suffix := ResourceNameSuffix(deployments[0].volumes[0].value);
      if Atoi(suffix).None? { return Error; }
      activeMapGeneration := suffix;
    }
    return Ok(activeMapGeneration);
  }

  function ActiveGeneration(deployments: seq<Deployment>): Result<string> {
    if deployments == [] then Ok("1")
    else if deployments[0].volumes == [] || deployments[0].volumes[0].None? then Panic
    else
      var suffix := ResourceNameSuffix(deployments[0].volumes[0].value);
      if Atoi(suffix).None? then Error else Ok(suffix)
  }

  // ---------- is a generation built? ----------

  /** Some claim of the list has the name, and every one that has it is bound. */
  ghost predicate ClaimReady(pvcs: seq<Pvc>, name: string) {
    (exists i :: 0 <= i < |pvcs| && pvcs[i].name == name) &&
    (forall i :: 0 <= i < |pvcs| && pvcs[i].name == name ==> IsBound(pvcs[i]))
  }

  ghost predicate JobReady(jobs: seq<MapJob>, name: string) {
    (exists i :: 0 <= i < |jobs| && jobs[i].name == name) &&
    (forall i :: 0 <= i < |jobs| && jobs[i].name == name ==> JobComplete(jobs[i]))
  }

  ghost predicate BuiltLists(owner: string, profiles: seq<string>, pvcs: seq<Pvc>, jobs: seq<MapJob>, gen: string) {
    forall p :: p in profiles ==>
      ClaimReady(pvcs, ChildResourceName(owner, p, gen)) && JobReady(jobs, ChildResourceName(owner, p, gen))
  }

  /** A generation is built when every profile has a claim and a Job of its name, and all that have it are
      bound and complete: a Job with a condition Complete that is True, whatever else it says. */
  lemma BuiltListsAre(owner: string, profiles: seq<string>, pvcs: seq<Pvc>, jobs: seq<MapJob>, gen: string)
    ensures BuiltLists(owner, profiles, pvcs, jobs, gen) <==> forall p :: p in profiles ==>
      var name := ChildResourceName(owner, p, gen);
      && (exists i :: 0 <= i < |pvcs| && pvcs[i].name == name)
      && (forall i :: 0 <= i < |pvcs| && pvcs[i].name == name ==> pvcs[i].status == Bound)
      && (exists i :: 0 <= i < |jobs| && jobs[i].name == name)
      && (forall i :: 0 <= i < |jobs| && jobs[i].name == name ==>
            exists c :: c in jobs[i].conditions && c.kind == "Complete" && c.status == "True")
  {
    hide ChildResourceName;
    forall i | 0 <= i < |jobs|
      ensures JobComplete(jobs[i]) <==>
        exists c :: c in jobs[i].conditions && c.kind == "Complete" && c.status == "True"
    {
      CompleteIs(jobs[i]);
    }
    hide JobComplete;
  }

  lemma CompleteIs(job: MapJob)
    ensures JobComplete(job) <==> exists c :: c in job.conditions && c.kind == "Complete" && c.status == "True"
  {
    if c :| c in job.conditions && c.kind == "Complete" && c.status == "True" {
      assert c == JobCondition("Complete", "True");
    }
  }

  method AreVolumesBound(owner: string, profiles: seq<string>, pvcs: seq<Pvc>, gen: string)
    returns (allVolumesBound: bool)
    ensures allVolumesBound <==> forall p :: p in profiles ==> ClaimReady(pvcs, ChildResourceName(owner, p, gen))
  {
    hide ChildResourceName, IsBound;
    allVolumesBound := true;
    for i := 0 to |profiles|
      invariant allVolumesBound ==>
        forall p :: p in profiles[..i] ==> ClaimReady(pvcs, ChildResourceName(owner, p, gen))
      invariant !allVolumesBound ==> exists p :: p in profiles && !ClaimReady(pvcs, ChildResourceName(owner, p, gen))
    {
      assert profiles[i] in profiles;
      var name := ChildResourceName(owner, profiles[i], gen);
      ghost var before := allVolumesBound;
      var pvcFound := false;
      for j := 0 to |pvcs|
        invariant pvcFound <==> exists m :: 0 <= m < j && pvcs[m].name == name
        invariant forall m :: 0 <= m < j && pvcs[m].name == name ==> IsBound(pvcs[m])
        invariant allVolumesBound == before
      {
        if pvcs[j].name == name {
          pvcFound := true;
          if !IsBound(pvcs[j]) {
            allVolumesBound := false;
            break;
          }
        }
      }
      assert !before || (allVolumesBound && pvcFound <==> ClaimReady(pvcs, name));
      if !pvcFound {
        allVolumesBound := false;
        break;
      }
    }
  }

  method AreMapsBuilt(owner: string, profiles: seq<string>, jobs: seq<MapJob>, gen: string)
    returns (allMapsBuilt: bool)
    ensures allMapsBuilt <==> forall p :: p in profiles ==> JobReady(jobs, ChildResourceName(owner, p, gen))
  {
    hide ChildResourceName, JobComplete;
    allMapsBuilt := true;
    for i := 0 to |profiles|
      invariant allMapsBuilt ==> forall p :: p in profiles[..i] ==> JobReady(jobs, ChildResourceName(owner, p, gen))
      invariant !allMapsBuilt ==> exists p :: p in profiles && !JobReady(jobs, ChildResourceName(owner, p, gen))
    {
      assert profiles[i] in profiles;
      var name := ChildResourceName(owner, profiles[i], gen);
      ghost var before := allMapsBuilt;
      var jobFound := false;
      for j := 0 to |jobs|
        invariant jobFound <==> exists m :: 0 <= m < j && jobs[m].name == name
        invariant forall m :: 0 <= m < j && jobs[m].name == name ==> JobComplete(jobs[m])
        invariant allMapsBuilt == before
      {
        if jobs[j].name == name {
          jobFound := true;
          var completed := IsJobCompleted(jobs[j]);
          if !completed {
            allMapsBuilt := false;
            break;
          }
        }
      }
      assert !before || (allMapsBuilt && jobFound <==> JobReady(jobs, name));
      if !jobFound {
        allMapsBuilt := false;
        break;
      }
    }
  }

  /** Whatever the lists hold, duplicates included. */
  method IsMapBuildingInProgress(owner: string, profiles: seq<string>, pvcs: seq<Pvc>, jobs: seq<MapJob>, gen: string)
    returns (building: bool)
    ensures building <==> !BuiltLists(owner, profiles, pvcs, jobs, gen)
  {
    var allVolumesBound := AreVolumesBound(owner, profiles, pvcs, gen);
    var allMapsBuilt := AreMapsBuilt(owner, profiles, jobs, gen);
    return !allVolumesBound || !allMapsBuilt;
  }

  // ---------- the phase ----------

  ghost predicate WorkerReady(deployments: seq<Deployment>, name: string) {
    exists i :: 0 <= i < |deployments| && deployments[i].name == name &&
      deployments[i].readyReplicas > 0 && deployments[i].readyReplicas == deployments[i].replicas
  }

  function Number(gen: string): int {
    match Atoi(gen) case None => 0 case Some(n) => n
  }

  ghost function PhaseOfLists(owner: string, profiles: seq<string>, url: string, oldUrl: string,
                              active: string, future: string,
                              pvcs: seq<Pvc>, jobs: seq<MapJob>, deployments: seq<Deployment>): Phase
  {
    if profiles == [] then Empty
    else if !BuiltLists(owner, profiles, pvcs, jobs, active) then BuildingMap
    else if url != oldUrl || !BuiltLists(owner, profiles, pvcs, jobs, future) then UpdatingMap
    else if active != future then RedeployingWorkers
    else if exists p :: p in profiles && !WorkerReady(deployments, WorkerName(owner, p)) then
      (if Number(active) > 1 then RedeployingWorkers else DeployingWorkers)
    else if Number(active) > 1 then WorkersRedeployed
    else WorkersDeployed
  }

  method ComputePhase(owner: string, profiles: seq<string>, url: string, oldUrl: string,
                      active: string, future: string,
                      pvcs: seq<Pvc>, jobs: seq<MapJob>, deployments: seq<Deployment>) returns (phase: Phase)
    ensures phase == PhaseOfLists(owner, profiles, url, oldUrl, active, future, pvcs, jobs, deployments)
  {
    if |profiles| == 0 { return Empty; }
    var building := IsMapBuildingInProgress(owner, profiles, pvcs, jobs, active);
    if building { return BuildingMap; }
    if url != oldUrl { return UpdatingMap; }
    building := IsMapBuildingInProgress(owner, profiles, pvcs, jobs, future);
    if building { return UpdatingMap; }
    if active != future { return RedeployingWorkers; }

    var allWorkersDeployed := true;
    for i := 0 to |profiles|
      invariant allWorkersDeployed ==> forall p :: p in profiles[..i] ==> WorkerReady(deployments, WorkerName(owner, p))
      invariant !allWorkersDeployed ==> exists p :: p in profiles && !WorkerReady(deployments, WorkerName(owner, p))
    {
      var deploymentName := ChildResourceName(owner, profiles[i], "");
      assert profiles[i] in profiles;
      var deploymentReady := false;
      for j := 0 to |deployments|
        invariant deploymentReady <==> WorkerReady(deployments[..j], deploymentName)
      {
        if deployments[j].name == deploymentName {
          if deployments[j].readyReplicas > 0 && deployments[j].readyReplicas == deployments[j].replicas {
            deploymentReady := true;
            assert deployments[..j + 1][j] == deployments[j];
            break;
          }
        }
        assert deployments[..j + 1] == deployments[..j] + [deployments[j]];
      }
      assert deploymentReady ==> WorkerReady(deployments, deploymentName);
      assert deployments[..|deployments|] == deployments;
      if !deploymentReady {
        allWorkersDeployed := false;
        break;
      }
    }
    if !allWorkersDeployed {
      if Number(active) > 1 { return RedeployingWorkers; }
      return DeployingWorkers;
    }
    assert profiles[..|profiles|] == profiles;
    if Number(active) > 1 { return WorkersRedeployed; }
    return WorkersDeployed;
  }
}
