/**
 When each phase is chosen, in terms of claims, Jobs and workers.
 */
module Phases {
  import opened Strings
  import opened Names
  import opened Protocol
  import opened Objects
  import opened Instance

  // ---------- what is read ----------

  /** The first profile of the spec that has a worker mounts generation g; without one g is 1. */
  ghost predicate FirstOn(profiles: seq<string>, workers: map<string, Worker>, g: nat) {
    || (exists i :: 0 <= i < |profiles| && profiles[i] in workers && workers[profiles[i]].gen == g &&
          forall j :: 0 <= j < i ==> profiles[j] !in workers)
    || (g == 1 && forall i :: 0 <= i < |profiles| ==> profiles[i] !in workers)
  }

  /** n is the highest generation of a claim, or 1. */
  ghost predicate NoneNewer(w: World, n: nat) {
    && n >= 1 && (forall k :: k in w.pvcs ==> k.gen <= n)
    && (n == 1 || exists k :: k in w.pvcs && k.gen == n)
  }

  ghost predicate FinishedFor(w: World, g: nat) {
    forall p :: p in w.profiles ==>
      && Key(p, g) in w.pvcs && w.pvcs[Key(p, g)]
      && Key(p, g) in w.jobs && w.jobs[Key(p, g)].complete
  }

  ghost predicate AllUp(w: World) {
    forall p :: p in w.profiles ==>
      p in w.workers && w.workers[p].ready > 0 && w.workers[p].ready == w.workers[p].replicas
  }

  lemma {:induction false} ActiveIsFirst(profiles: seq<string>, workers: map<string, Worker>, g: nat)
    ensures FirstOn(profiles, workers, g) <==> Active(profiles, workers) == g
  {
    if profiles == [] {
    } else if profiles[0] in workers {
      if FirstOn(profiles, workers, g) {
        var i :| 0 <= i < |profiles| && profiles[i] in workers && workers[profiles[i]].gen == g &&
          forall j :: 0 <= j < i ==> profiles[j] !in workers;
        assert i == 0;
      }
    } else {
      ActiveIsFirst(profiles[1..], workers, g);
      LaterFirst(profiles, workers, g);
    }
  }

  lemma LaterFirst(profiles: seq<string>, workers: map<string, Worker>, g: nat)
    requires profiles != [] && profiles[0] !in workers
    ensures FirstOn(profiles, workers, g) <==> FirstOn(profiles[1..], workers, g)
  {
    var rest := profiles[1..];
    if i :|
        && 0 <= i < |profiles| && profiles[i] in workers && workers[profiles[i]].gen == g
        && forall j :: 0 <= j < i ==> profiles[j] !in workers
    {
      assert rest[i - 1] == profiles[i];
    }
    if i :|
        && 0 <= i < |rest| && rest[i] in workers && workers[rest[i]].gen == g
        && forall j :: 0 <= j < i ==> rest[j] !in workers
    {
      assert profiles[i + 1] == rest[i];
      forall j | 0 <= j < i + 1 ensures profiles[j] !in workers { if j > 0 { assert profiles[j] == rest[j - 1]; } }
    }
    if forall i :: 0 <= i < |rest| ==> rest[i] !in workers {
      forall i | 0 <= i < |profiles| ensures profiles[i] !in workers { if i > 0 { assert profiles[i] == rest[i - 1]; } }
    }
  }

  /** Both generations are there to be read, and there is one of each. */
  lemma ReadsAre(w: World, a: nat, n: nat)
    ensures FirstOn(w.profiles, w.workers, a) <==> Act(w) == a
    ensures NoneNewer(w, n) <==> Fut(w) == n
  {
    ActiveIsFirst(w.profiles, w.workers, a);
    assert IsNewest(w.pvcs.Keys, Fut(w));
    assert forall k :: k in w.pvcs <==> k in w.pvcs.Keys;
  }

  // ---------- the phase of a World ----------

  lemma BuiltIs(w: World, g: nat)
    ensures Built(w, g) <==> FinishedFor(w, g)
  {
  }

  lemma ReadyIs(w: World)
    ensures AllReady(w) <==> AllUp(w)
  {
  }

  /** Every phase, with the conditions under which it is chosen. */
  lemma PhaseExactly(w: World, a: nat, n: nat)
    requires FirstOn(w.profiles, w.workers, a) && NoneNewer(w, n)
    ensures var ph := DeterminePhase(w);
      var settled := w.profiles != [] && w.url == w.lastUrl && FinishedFor(w, a) && FinishedFor(w, n);
      && (ph == Empty <==> w.profiles == [])
      && (ph == BuildingMap <==> w.profiles != [] && !FinishedFor(w, a))
      && (ph == UpdatingMap <==>
            w.profiles != [] && FinishedFor(w, a) && (w.url != w.lastUrl || !FinishedFor(w, n)))
      && (ph == RedeployingWorkers <==> settled && (a != n || (a > 1 && !AllUp(w))))
      && (ph == DeployingWorkers <==> settled && a == n == 1 && !AllUp(w))
      && (ph == WorkersRedeployed <==> settled && a == n > 1 && AllUp(w))
      && (ph == WorkersDeployed <==> settled && a == n == 1 && AllUp(w))
  {
    ReadsAre(w, a, n);
    BuiltIs(w, a);
    BuiltIs(w, n);
    ReadyIs(w);
    hide FinishedFor, AllUp, Built, AllReady, FirstOn, Act, Fut;
  }

  /** Everything of the spec is finished and up on generation g, which is the newest. */
  ghost predicate AllOn(w: World, g: nat) {
    && w.profiles != [] && w.url == w.lastUrl && FirstOn(w.profiles, w.workers, g)
    && NoneNewer(w, g) && FinishedFor(w, g) && AllUp(w)
  }

  /** A cluster counts as deployed on its first generation and as redeployed on every later one. */
  lemma DeployedExactly(w: World)
    ensures DeterminePhase(w) == WorkersRedeployed <==> exists g: nat :: g >= 2 && AllOn(w, g)
    ensures DeterminePhase(w) == WorkersDeployed <==> AllOn(w, 1)
  {
    ReadsAre(w, Act(w), Fut(w));
    PhaseExactly(w, Act(w), Fut(w));
    forall g: nat { ReadsAre(w, g, g); }
    hide FinishedFor, AllUp, FirstOn, Act, Fut, DeterminePhase, NoneNewer;
    if DeterminePhase(w) == WorkersRedeployed { assert AllOn(w, Act(w)); }
  }

  // ---------- the phase that the controllers compute ----------

  /** For every profile of the spec a Deployment of its name is up. */
  ghost predicate AllListedUp(owner: string, profiles: seq<string>, deployments: seq<Deployment>) {
    forall p :: p in profiles ==> exists i ::
      0 <= i < |deployments| && deployments[i].name == WorkerName(owner, p) &&
      deployments[i].readyReplicas > 0 && deployments[i].readyReplicas == deployments[i].replicas
  }

  lemma WorkersListed(owner: string, profiles: seq<string>, deployments: seq<Deployment>)
    ensures AllListedUp(owner, profiles, deployments) <==>
      forall p :: p in profiles ==> WorkerReady(deployments, WorkerName(owner, p))
  {
    hide WorkerName;
  }

  /** A generation beyond the first, as the string that it is read as. */
  ghost predicate BeyondFirst(gen: string) {
    exists n :: n > 1 && Atoi(gen) == Some(n)
  }

  /** On any lists, duplicates and foreign objects included. */
  lemma ListedPhaseExactly(owner: string, profiles: seq<string>, url: string, oldUrl: string,
                           active: string, future: string,
                           pvcs: seq<Pvc>, jobs: seq<MapJob>, deployments: seq<Deployment>)
    ensures var ph := PhaseOfLists(owner, profiles, url, oldUrl, active, future, pvcs, jobs, deployments);
      var served := BuiltLists(owner, profiles, pvcs, jobs, active);
      var newest := BuiltLists(owner, profiles, pvcs, jobs, future);
      var settled := profiles != [] && url == oldUrl && served && newest;
      var up := AllListedUp(owner, profiles, deployments);
      && (ph == Empty <==> profiles == [])
      && (ph == BuildingMap <==> profiles != [] && !served)
      && (ph == UpdatingMap <==> profiles != [] && served && (url != oldUrl || !newest))
      && (ph == RedeployingWorkers <==> settled && (active != future || (BeyondFirst(active) && !up)))
      && (ph == DeployingWorkers <==> settled && active == future && !BeyondFirst(active) && !up)
      && (ph == WorkersRedeployed <==> settled && active == future && BeyondFirst(active) && up)
      && (ph == WorkersDeployed <==> settled && active == future && !BeyondFirst(active) && up)
  {
    WorkersListed(owner, profiles, deployments);
    hide BuiltLists, AllListedUp, WorkerReady, WorkerName, Atoi;
  }

  /** A generation of an instance is built when the first claim and the first Job of its name are
      finished, whatever the others are. */
  lemma InstanceBuiltIs(owner: string, pvcs: seq<Pvc>, jobs: seq<MapJob>, gen: string)
    ensures InstanceBuilt(owner, pvcs, jobs, gen) <==>
      var name := ChildResourceName(owner, "", gen);
      && (exists i :: 0 <= i < |pvcs| && pvcs[i].name == name && pvcs[i].status == Bound &&
            forall j :: 0 <= j < i ==> pvcs[j].name != name)
      && (exists i :: 0 <= i < |jobs| && jobs[i].name == name &&
            (exists c :: c in jobs[i].conditions && c.kind == "Complete" && c.status == "True") &&
            forall j :: 0 <= j < i ==> jobs[j].name != name)
  {
    hide ChildResourceName;
    forall i | 0 <= i < |jobs|
      ensures JobComplete(jobs[i]) <==>
        exists c :: c in jobs[i].conditions && c.kind == "Complete" && c.status == "True"
    {
      CompleteIs(jobs[i]);
    }
    hide JobComplete;
  }

  lemma InstancePhaseExactly(owner: string, url: string, oldUrl: string, active: string, future: string,
                             pvcs: seq<Pvc>, jobs: seq<MapJob>, deployment: Option<Deployment>)
    ensures var ph := InstancePhase(owner, url, oldUrl, active, future, pvcs, jobs, deployment);
      var served := InstanceBuilt(owner, pvcs, jobs, active);
      var newest := InstanceBuilt(owner, pvcs, jobs, future);
      var settled := url == oldUrl && served && newest;
      var up := deployment.Some? && deployment.value.readyReplicas > 0 &&
                deployment.value.readyReplicas == deployment.value.replicas;
      && ph != Empty
      && (ph == BuildingMap <==> !served)
      && (ph == UpdatingMap <==> served && (url != oldUrl || !newest))
      && (ph == RedeployingWorkers <==> settled && (active != future || (BeyondFirst(active) && !up)))
      && (ph == DeployingWorkers <==> settled && active == future && !BeyondFirst(active) && !up)
      && (ph == WorkersRedeployed <==> settled && active == future && BeyondFirst(active) && up)
      && (ph == WorkersDeployed <==> settled && active == future && !BeyondFirst(active) && up)
  {
    hide InstanceBuilt, Atoi;
  }
}
