/**
 The OSRMInstance controller: one worker, no profiles.  It repeats the cluster controller's code
 for a single anonymous profile, with loops that stop elsewhere; this module shows that it takes
 the protocol's decisions on one profile named "".
 */
module Instance {
  import opened Strings
  import opened Names
  import opened Protocol
  import opened Objects
  import opened Children
  import opened Builders
  import opened Encoding
  import opened Listing

  // ---------- is a generation built? ----------

  /** The first claim of that name is bound. */
  ghost predicate FirstClaimBound(pvcs: seq<Pvc>, name: string) {
    exists i :: 0 <= i < |pvcs| && pvcs[i].name == name && IsBound(pvcs[i])
        && forall j :: 0 <= j < i ==> pvcs[j].name != name
  }

  ghost predicate FirstJobComplete(jobs: seq<MapJob>, name: string) {
    exists i :: 0 <= i < |jobs| && jobs[i].name == name && JobComplete(jobs[i])
        && forall j :: 0 <= j < i ==> jobs[j].name != name
  }

  method IsMapBuildingInProgressForInstance(owner: string, pvcs: seq<Pvc>, jobs: seq<MapJob>, gen: string)
    returns (building: bool)
    ensures building <==>
      !(FirstClaimBound(pvcs, ChildResourceName(owner, "", gen))
          && FirstJobComplete(jobs, ChildResourceName(owner, "", gen)))
  {
    hide ChildResourceName;
    var pvcName := ChildResourceName(owner, "", gen);
    var pvcBound := false;
    for i := 0 to |pvcs|
      invariant !pvcBound && forall j :: 0 <= j < i ==> pvcs[j].name != pvcName
    {
      if pvcs[i].name == pvcName {
        pvcBound := IsBound(pvcs[i]);
        break;
      }
    }
    assert pvcBound <==> FirstClaimBound(pvcs, pvcName);
    var jobCompleted := false;
    for i := 0 to |jobs|
      invariant !jobCompleted && forall j :: 0 <= j < i ==> jobs[j].name != pvcName
    {
      if jobs[i].name == pvcName {
        jobCompleted := IsJobCompleted(jobs[i]);
        break;
      }
    }
    assert jobCompleted <==> FirstJobComplete(jobs, pvcName);
    return !pvcBound || !jobCompleted;
  }

  lemma {:induction false} FirstNamed(pvcs: seq<Pvc>, name: string, n: nat)
    requires n < |pvcs| && pvcs[n].name == name
    ensures exists i :: 0 <= i <= n && pvcs[i].name == name && forall j :: 0 <= j < i ==> pvcs[j].name != name
    decreases n
  {
    if j :| 0 <= j < n && pvcs[j].name == name { FirstNamed(pvcs, name, j); }
  }

  lemma {:induction false} FirstJobNamed(jobs: seq<MapJob>, name: string, n: nat)
    requires n < |jobs| && jobs[n].name == name
    ensures exists i :: 0 <= i <= n && jobs[i].name == name && forall j :: 0 <= j < i ==> jobs[j].name != name
    decreases n
  {
    if j :| 0 <= j < n && jobs[j].name == name { FirstJobNamed(jobs, name, j); }
  }

  ghost predicate InstanceBuilt(owner: string, pvcs: seq<Pvc>, jobs: seq<MapJob>, gen: string) {
    var name := ChildResourceName(owner, "", gen);
    FirstClaimBound(pvcs, name) && FirstJobComplete(jobs, name)
  }

  /** Objects after the first of a name are overlooked here and not by the cluster controller: the
      two agree exactly if all of the name are finished as soon as the first one is. */
  lemma BuiltTheSame(owner: string, pvcs: seq<Pvc>, jobs: seq<MapJob>, gen: string)
    ensures var name := ChildResourceName(owner, "", gen);
      BuiltLists(owner, [""], pvcs, jobs, gen) <==>
        && InstanceBuilt(owner, pvcs, jobs, gen)
        && (forall i :: 0 <= i < |pvcs| && pvcs[i].name == name ==> IsBound(pvcs[i]))
        && (forall i :: 0 <= i < |jobs| && jobs[i].name == name ==> JobComplete(jobs[i]))
  {
    hide ChildResourceName, JobComplete;
    var name := ChildResourceName(owner, "", gen);
    assert [""][0] in [""];
    if BuiltLists(owner, [""], pvcs, jobs, gen) {
      assert ClaimReady(pvcs, name) && JobReady(jobs, name);
      var i :| 0 <= i < |pvcs| && pvcs[i].name == name;
      FirstNamed(pvcs, name, i);
      var j :| 0 <= j < |jobs| && jobs[j].name == name;
      FirstJobNamed(jobs, name, j);
    }
  }

  /** Names are unique in a namespace. */
  ghost predicate UniqueNames(pvcs: seq<Pvc>, jobs: seq<MapJob>) {
    && (forall i, j :: 0 <= i < |pvcs| && 0 <= j < |pvcs| && pvcs[i].name == pvcs[j].name ==> pvcs[i] == pvcs[j])
    && (forall i, j :: 0 <= i < |jobs| && 0 <= j < |jobs| && jobs[i].name == jobs[j].name ==> jobs[i] == jobs[j])
  }

  lemma BuiltWhenUnique(owner: string, pvcs: seq<Pvc>, jobs: seq<MapJob>, gen: string)
    requires UniqueNames(pvcs, jobs)
    ensures BuiltLists(owner, [""], pvcs, jobs, gen) <==> InstanceBuilt(owner, pvcs, jobs, gen)
  {
    hide ChildResourceName, JobComplete;
    BuiltTheSame(owner, pvcs, jobs, gen);
  }

  // ---------- the phase ----------

  predicate DeploymentReady(d: Option<Deployment>) {
    d.Some? && d.value.readyReplicas > 0 && d.value.readyReplicas == d.value.replicas
  }

  ghost function InstancePhase(owner: string, url: string, oldUrl: string, active: string, future: string,
                               pvcs: seq<Pvc>, jobs: seq<MapJob>, deployment: Option<Deployment>): Phase
  {
    if !InstanceBuilt(owner, pvcs, jobs, active) then BuildingMap
    else if url != oldUrl || !InstanceBuilt(owner, pvcs, jobs, future) then UpdatingMap
    else if active != future then RedeployingWorkers
    else if !DeploymentReady(deployment) then (if Number(active) > 1 then RedeployingWorkers else DeployingWorkers)
    else if Number(active) > 1 then WorkersRedeployed
    else WorkersDeployed
  }

  method ComputeInstancePhase(owner: string, url: string, oldUrl: string, active: string, future: string,
                              pvcs: seq<Pvc>, jobs: seq<MapJob>, deployment: Option<Deployment>) returns (phase: Phase)
    ensures phase == InstancePhase(owner, url, oldUrl, active, future, pvcs, jobs, deployment)
  {
    hide ChildResourceName;
    var building := IsMapBuildingInProgressForInstance(owner, pvcs, jobs, active);
    if building { return BuildingMap; }
    if url != oldUrl { return UpdatingMap; }
    building := IsMapBuildingInProgressForInstance(owner, pvcs, jobs, future);
    if building { return UpdatingMap; }
    if active != future { return RedeployingWorkers; }
    var deploymentReady := deployment.Some? && deployment.value.readyReplicas > 0
                           && deployment.value.readyReplicas == deployment.value.replicas;
    if !deploymentReady {
      if Number(active) > 1 { return RedeployingWorkers; }
      return DeployingWorkers;
    }
    if Number(active) > 1 { return WorkersRedeployed; }
    return WorkersDeployed;
  }

  /** What getProfilesDeployments would return. */
  function AsList(d: Option<Deployment>): seq<Deployment> {
    if d.Some? then [d.value] else []
  }

  /** The phase of an instance is the phase of a cluster with one profile named "". */
  lemma SamePhaseAsCluster(owner: string, url: string, oldUrl: string, active: string, future: string,
                           pvcs: seq<Pvc>, jobs: seq<MapJob>, deployment: Option<Deployment>)
    requires UniqueNames(pvcs, jobs) && (deployment.Some? ==> deployment.value.name == WorkerName(owner, ""))
    ensures InstancePhase(owner, url, oldUrl, active, future, pvcs, jobs, deployment)
         == PhaseOfLists(owner, [""], url, oldUrl, active, future, pvcs, jobs, AsList(deployment))
  {
    hide ChildResourceName, WorkerName, BuiltLists, InstanceBuilt;
    BuiltWhenUnique(owner, pvcs, jobs, active);
    BuiltWhenUnique(owner, pvcs, jobs, future);
    assert [""][0] in [""];
    var ds := AsList(deployment);
    assert WorkerReady(ds, WorkerName(owner, "")) <==> DeploymentReady(deployment) by {
      if DeploymentReady(deployment) { assert ds[0].name == WorkerName(owner, ""); }
    }
  }

  // ---------- the served generation ----------

  method GetInstanceMapGeneration(deployment: Option<Deployment>) returns (r: Result<string>)
    ensures r == match ActiveGeneration(AsList(deployment)) case Panic => Ok("1") case other => other
  {
    if deployment.None? { return Ok("1"); }
    var volumes := deployment.value.volumes;
    if |volumes| == 0 { return Ok("1"); }
    var claim := volumes[0];
    if claim.None? { return Ok("1"); }
    var suffix := ResourceNameSuffix(claim.value);
    if Atoi(suffix).None? { return Error; }
    return Ok(suffix);
  }

  // ---------- the builders ----------

  function InstanceBuilders(ph: Phase, p: ProfileSpec, active: string, future: string): seq<Builder> {
    match ph
    case BuildingMap => [PersistentVolumeClaim(p, active), MapBuilder(p, active)]
    case DeployingWorkers => [WorkerDeployment(p, active), Service(p), DisruptionBudget(p), Autoscaler(p)]
    case WorkersDeployed =>
      [Service(p), Autoscaler(p), DisruptionBudget(p), WorkerDeployment(p, active)] + CronOf(p, active)
    case WorkersRedeployed =>
      [Service(p), Autoscaler(p), DisruptionBudget(p), WorkerDeployment(p, active)] + CronOf(p, active)
    case UpdatingMap => [PersistentVolumeClaim(p, NextMapGeneration(active)), MapBuilder(p, NextMapGeneration(active))]
    case RedeployingWorkers => [WorkerDeployment(p, future)]
    case Empty => []
  }

  /** The instance's builders do what the protocol does for one profile named "". */
  lemma InstanceDoes(ph: Phase, p: ProfileSpec, a: nat, f: nat)
    requires p.name == "" && a < MAX_INT && ph != Empty
    ensures var e := PhaseEffects(ph, [""], a, f);
      var bs := InstanceBuilders(ph, p, Itoa(a), Itoa(f));
      && ListEffects(bs, e.gen) == e
      && forall b :: b in bs && (b.PersistentVolumeClaim? || b.MapBuilder? || b.WorkerDeployment?) ==>
           b.gen == Itoa(e.gen)
  {
    hide Itoa, ListEffects;
    NextIsSuccessor(a);
    var bs := InstanceBuilders(ph, p, Itoa(a), Itoa(f));
    assert NamesOf([p]) == [""];
    match ph {
      case BuildingMap => OneMap(p, Itoa(a)); MapBuildersEffects([p], Itoa(a), a);
      case UpdatingMap => OneMap(p, Itoa(a + 1)); MapBuildersEffects([p], Itoa(a + 1), a + 1);
      case DeployingWorkers => OneMount(ph, p, Itoa(a), Itoa(f)); MountBuildersEffects(bs, [p], Itoa(a), a);
      case RedeployingWorkers => OneMount(ph, p, Itoa(a), Itoa(f)); MountBuildersEffects(bs, [p], Itoa(f), f);
      case WorkersDeployed => OneMount(ph, p, Itoa(a), Itoa(f)); MountBuildersEffects(bs, [p], Itoa(a), a);
      case WorkersRedeployed => OneMount(ph, p, Itoa(a), Itoa(f)); MountBuildersEffects(bs, [p], Itoa(a), a);
      case Empty =>
    }
  }

  lemma OneMap(p: ProfileSpec, gen: string)
    ensures MapBuilders([p], gen) == [PersistentVolumeClaim(p, gen), MapBuilder(p, gen)]
  {
    assert [p][..0] == [];
    assert MapBuilders([], gen) == [];
  }

  lemma OneMount(ph: Phase, p: ProfileSpec, active: string, future: string)
    requires ph == DeployingWorkers || ph == RedeployingWorkers || Deployed(ph)
    ensures var bs := InstanceBuilders(ph, p, active, future);
      var gen := if ph == RedeployingWorkers then future else active;
      && (forall b :: b in bs ==> !b.PersistentVolumeClaim? && !b.MapBuilder?)
      && (forall b: Builder :: b.WorkerDeployment? ==> (b in bs <==> b.profile in [p] && b.gen == gen))
  {
    var bs := InstanceBuilders(ph, p, active, future);
    if Deployed(ph) { assert bs[3] in bs; } else { assert bs[0] in bs; }
  }

  /** There is at most one worker to rewrite. */
  lemma InstanceInOrder(ph: Phase, p: ProfileSpec, active: string, future: string)
    requires p.name == ""
    ensures WorkersIn(InstanceBuilders(ph, p, active, future)) <= [""]
  {
    hide WorkersIn;
    var bs := InstanceBuilders(ph, p, active, future);
    match ph {
      case DeployingWorkers => OneWorker(bs, [], p, active, [Service(p), DisruptionBudget(p), Autoscaler(p)]);
      case RedeployingWorkers => OneWorker(bs, [], p, future, []);
      case WorkersDeployed => OneWorker(bs, [Service(p), Autoscaler(p), DisruptionBudget(p)], p, active,
                                        CronOf(p, active));
      case WorkersRedeployed => OneWorker(bs, [Service(p), Autoscaler(p), DisruptionBudget(p)], p, active,
                                          CronOf(p, active));
      case _ => NoWorkersIn(bs);
    }
  }

  /** Which builders an instance gets, one by one: the autoscaler even without minReplicas. */
  lemma InstanceListExactly(ph: Phase, p: ProfileSpec, active: string, future: string, b: Builder)
    ensures b in InstanceBuilders(ph, p, active, future) <==>
      match b
      case PersistentVolumeClaim(q, gen) =>
        q == p && ((ph == BuildingMap && gen == active) || (ph == UpdatingMap && gen == NextMapGeneration(active)))
      case MapBuilder(q, gen) =>
        q == p && ((ph == BuildingMap && gen == active) || (ph == UpdatingMap && gen == NextMapGeneration(active)))
      case WorkerDeployment(q, gen) =>
        q == p && ((ph == RedeployingWorkers && gen == future) ||
          (ph in {DeployingWorkers, WorkersDeployed, WorkersRedeployed} && gen == active))
      case Service(q) => q == p && ph in {DeployingWorkers, WorkersDeployed, WorkersRedeployed}
      case DisruptionBudget(q) => q == p && ph in {DeployingWorkers, WorkersDeployed, WorkersRedeployed}
      case Autoscaler(q) => q == p && ph in {DeployingWorkers, WorkersDeployed, WorkersRedeployed}
      case CronJob(q, gen) =>
        q == p && ph in {WorkersDeployed, WorkersRedeployed} && p.speedUpdates.Some? && gen == active
      case _ => false
  {
    hide NextMapGeneration;
  }

  lemma InstanceBuildsFor(ph: Phase, p: ProfileSpec, active: string, future: string)
    ensures forall b :: b in InstanceBuilders(ph, p, active, future) && b.WorkerDeployment? ==> b.profile == p
    ensures forall b ::
      b in InstanceBuilders(ph, p, active, future) && (b.PersistentVolumeClaim? || b.MapBuilder?) ==> b.profile == p
  {
  }

  /** Without maxReplicas an instance's pass is cut short exactly in the phases that deploy: there it
      never reaches the annotation, and once deployed not even the worker. */
  lemma CutShort(ph: Phase, p: ProfileSpec, active: string, future: string)
    ensures var bs := InstanceBuilders(ph, p, active, future);
      && (Reached(bs) < |bs| <==> p.maxReplicas.None? && (ph == DeployingWorkers || Deployed(ph)))
      && (Reached(bs) < |bs| ==> (WorkerDeployment(p, active) in bs[..Reached(bs)] <==> ph == DeployingWorkers))
  {
    var bs := InstanceBuilders(ph, p, active, future);
    var n := Reached(bs);
    if ph == DeployingWorkers {
      assert Panics(bs[3]) <==> p.maxReplicas.None?;
      assert bs[0] == WorkerDeployment(p, active);
      if n < |bs| { assert bs[..n][0] == bs[0]; }
    } else if Deployed(ph) {
      assert Panics(bs[1]) <==> p.maxReplicas.None?;
      assert n < |bs| ==> n == 1 && bs[..n] == [Service(p)];
    }
  }

  // ---------- the whole decision ----------

  lemma ListedUnique(owner: string, s: Store, w: World, pvcs: seq<Pvc>, jobs: seq<MapJob>)
    requires Encodes(owner, s, w) && ListOf(pvcs, s.pvcs) && ListOf(jobs, s.jobs)
    ensures UniqueNames(pvcs, jobs)
  {
    hide KeysEncode, WorkersEncode;
    forall i | 0 <= i < |pvcs|
      ensures pvcs[i].name in s.pvcs && s.pvcs[pvcs[i].name] == pvcs[i]
    {
      assert pvcs[i] in pvcs;
    }
    forall i | 0 <= i < |jobs|
      ensures jobs[i].name in s.jobs && s.jobs[jobs[i].name] == jobs[i]
    {
      assert jobs[i] in jobs;
    }
  }

  function DeploymentOf(owner: string, s: Store): Option<Deployment> {
    if WorkerName(owner, "") in s.deployments then Some(s.deployments[WorkerName(owner, "")]) else None
  }

  lemma InstanceReads(owner: string, s: Store, w: World, d: Option<Deployment>)
    requires Encodes(owner, s, w) && w.profiles == [""] && InRange(w) && d == DeploymentOf(owner, s)
    ensures ActiveGeneration(AsList(d)) == Ok(Itoa(Act(w)))
  {
    hide ClaimsEncode, WorkersEncode, JobsEncode, WorkerName, ActiveGeneration;
    assert DeploymentsFor(owner, [""], s.deployments) == AsList(d) by { assert [""][1..] == []; }
    SuffixIsActive(owner, [""], s.deployments, w.workers);
  }

  /** On objects that stand for a World with one profile named "", the instance controller reads the
      protocol's generation, decides on the protocol's phase, and expects the protocol's claims. */
  lemma InstanceRefinesProtocol(owner: string, s: Store, w: World, pvcs: seq<Pvc>, jobs: seq<MapJob>)
    requires Encodes(owner, s, w) && w.profiles == [""] && InRange(w)
    requires ListOf(pvcs, s.pvcs) && ListOf(jobs, s.jobs)
    ensures ActiveGeneration(AsList(DeploymentOf(owner, s))) == Ok(Itoa(Act(w)))
    ensures InstancePhase(owner, w.url, w.lastUrl, Itoa(Act(w)), Itoa(Fut(w)), pvcs, jobs, DeploymentOf(owner, s))
         == DeterminePhase(w)
    ensures forall k: Key :: Plain(k.profile) ==>
      (ClaimName(owner, k) in ExpectedClaims(owner, [""], w.phase, Itoa(Act(w)), Itoa(Fut(w))) <==>
       Expected(w, Act(w), Fut(w), k))
  {
    hide ChildResourceName, WorkerName, InstancePhase, PhaseOfLists, DeterminePhase, ExpectedClaims, Act, Fut,
        ActiveGeneration;
    var d := DeploymentOf(owner, s);
    InstanceReads(owner, s, w, d);
    assert DeploymentsFor(owner, [""], s.deployments) == AsList(d) by { assert [""][1..] == []; }
    ListedUnique(owner, s, w, pvcs, jobs);
    DeploymentNamed(owner, s, w);
    SamePhaseAsCluster(owner, w.url, w.lastUrl, Itoa(Act(w)), Itoa(Fut(w)), pvcs, jobs, d);
    ActInRange(w);
    PhaseOfListsIs(owner, s, w, pvcs, jobs);
    forall k: Key | Plain(k.profile) { ExpectedClaim(owner, [""], w.phase, Act(w), Fut(w), k); }
  }

  lemma DeploymentNamed(owner: string, s: Store, w: World)
    requires Encodes(owner, s, w)
    ensures WorkerName(owner, "") in s.deployments ==>
      s.deployments[WorkerName(owner, "")].name == WorkerName(owner, "")
  {
    WorkerEncoded(owner, s.deployments, w.workers, "");
  }
}
