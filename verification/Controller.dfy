/**
 The OSRMCluster and OSRMInstance controllers as they run: loops over named objects, one API request
 at a time, any of which may fail.  The two repeat each other; where they differ, a branch on
 `anonymous` tells them apart.  A ghost World is kept in step with the objects, so that a pass that
 completes is the protocol's pass and a pass that does not is one of its interruptions.
 */
module Controller {
  import opened Strings
  import opened FileNames
  import opened Names
  import opened Protocol
  import opened Objects
  import opened Children
  import opened Builders
  import opened Encoding
  import opened Listing
  import opened Deletions
  import opened Instance
  import opened Passes

  class Reconciler {
    const owner: string
    const anonymous: bool                      // an OSRMInstance: one profile, named ""
    var gate: Gate
    var spec: ClusterSpec
    var lastApplied: Option<string>        // pbfUrl of the last-applied-spec annotation
    var phase: Phase
    var pvcs: map<string, Pvc>
    var jobs: map<string, MapJob>
    var deployments: map<string, Deployment>   // of workers
    var children: map<Ref, Child>              // everything else, the gateway's Deployment included
    var requests: nat                          // API requests that will still succeed
    ghost var model: World

    ghost predicate Valid()
      reads this
    {
      && WellNamed(owner)
      && Encodes(owner, Store(pvcs, jobs, deployments), model)
      && Fits(anonymous, model.profiles, model.workers.Keys)
      && model.url == spec.url && model.profiles == NamesOf(spec.profiles) && model.traffic == TrafficOf(spec.profiles)
      && model.lastUrl == OldUrl() && model.phase == phase
    }

    function OldUrl(): string
      reads this`lastApplied
    {
      match lastApplied case Some(url) => url case None => ""
    }

    constructor (owner: string, anonymous: bool, spec: ClusterSpec)
      requires WellNamed(owner) && forall p :: p in spec.profiles ==> Plain(p.name)
      requires Fits(anonymous, NamesOf(spec.profiles), {})
      ensures Valid() && model == Init(spec.url, NamesOf(spec.profiles), TrafficOf(spec.profiles)) && children == map[]
      ensures model.lastUrl == "" && model.phase == Empty && model.pvcs == map[] && model.jobs == map[]
      ensures pvcs == map[] && jobs == map[] && deployments == map[] && lastApplied == None
      ensures this.owner == owner && this.anonymous == anonymous && this.spec == spec && gate == Uninitialized
    {
      this.owner, this.anonymous, this.spec := owner, anonymous, spec;
      gate, lastApplied, phase := Uninitialized, None, Empty;
      pvcs, jobs, deployments, children := map[], map[], map[], map[];
      requests := 0;
      model := Init(spec.url, NamesOf(spec.profiles), TrafficOf(spec.profiles));
      new;
      forall n | n in NamesOf(spec.profiles) ensures Plain(n) { NamedProfile(spec.profiles, n); }
    }

    method Request() returns (ok: bool)
      modifies this`requests
      ensures ok == (old(requests) > 0) && requests == old(requests) - if ok then 1 else 0
    {
      ok := requests > 0;
      if ok { requests := requests - 1; }
    }

    lemma ValidProfiles()
      requires Valid()
      ensures forall p :: p in spec.profiles ==> Plain(p.name) && (p.name == "") == anonymous
    {
      PlainProfiles(spec.profiles);
    }

    lemma ValidWorkers()
      requires Valid()
      ensures WellNamed(owner) && model.url == spec.url && model.profiles == NamesOf(spec.profiles)
          && model.traffic == TrafficOf(spec.profiles)
      ensures (forall n :: n in model.profiles ==> Plain(n)) && (forall p :: p in model.workers ==> Plain(p))
      ensures Fits(anonymous, model.profiles, model.workers.Keys) && WorkersEncode(owner, deployments, model.workers)
      ensures anonymous ==> |spec.profiles| == 1 && spec.profiles[0].name == ""
    {
      hide ClaimsEncode, JobsEncode, WorkerEncodes;
      assert |NamesOf(spec.profiles)| == |spec.profiles|;
    }

    /** How many objects there are. */
    function Size(): nat
      reads this`pvcs, this`jobs, this`deployments, this`children
    {
      |pvcs| + |jobs| + |deployments| + |children|
    }

    lemma SizeIs()
      ensures 6 * Size() >= |pvcs| + |jobs| + |deployments| + 6 * |children|
    {
    }

    predicate Writable(b: Builder, g: nat) {
      OnGeneration(b, g) && (b.WorkerDeployment? ==> (b.profile.name == "") == anonymous)
    }

    // ---------- builders ----------

    method EnsureClaim(p: ProfileSpec, gen: string, ghost g: nat)
      requires Valid() && gen == Itoa(g) && Plain(p.name)
      modifies this`pvcs, this`model
      ensures Valid() && model == Apply(old(model), Effects({Key(p.name, g)}, {}, {}, g))
      ensures |pvcs| <= |old(pvcs)| + 1
    {
      hide ClaimsEncode, JobsEncode, WorkersEncode, ChildResourceName, OsrmFileName, Apply;
      ApplyClaim(model, Key(p.name, g), g);
      ClaimAdded(owner, pvcs, model.pvcs, Key(p.name, g));
      pvcs := WithClaim(pvcs, ChildResourceName(owner, p.name, gen));
      model := Apply(model, Effects({Key(p.name, g)}, {}, {}, g));
    }

    /** The Job's URL is fixed when it is created. */
    method EnsureJob(p: ProfileSpec, gen: string, ghost g: nat)
      requires Valid() && gen == Itoa(g) && Plain(p.name)
      modifies this`jobs, this`model
      ensures Valid() && model == Apply(old(model), Effects({}, {Key(p.name, g)}, {}, g))
      ensures |jobs| <= |old(jobs)| + 1
    {
      hide ClaimsEncode, JobsEncode, WorkersEncode, ChildResourceName, OsrmFileName, Apply;
      ApplyMap(model, Key(p.name, g), g);
      JobAdded(owner, jobs, model.jobs, Key(p.name, g), spec.url);
      jobs := WithJob(jobs, ChildResourceName(owner, p.name, gen), spec.url);
      model := Apply(model, Effects({}, {Key(p.name, g)}, {}, g));
    }

    method RewriteWorker(p: ProfileSpec, gen: string, ghost g: nat)
      requires Valid() && gen == Itoa(g) && Plain(p.name) && (p.name == "") == anonymous
      modifies this`deployments, this`model
      ensures Valid() && model == Apply(old(model), Effects({}, {}, {p.name}, g))
      ensures |deployments| <= |old(deployments)| + 1
    {
      hide ClaimsEncode, JobsEncode, WorkersEncode, ChildResourceName, OsrmFileName, Apply;
      ApplyMount(model, p.name, g);
      WorkerRewritten(owner, deployments, model.workers, p.name, g, spec.url);
      var name := WorkerName(owner, p.name);
      var claim := ChildResourceName(owner, p.name, gen);
      deployments := deployments[name := Rewritten(deployments, name, claim, OsrmFileName(spec.url))];
      model := Apply(model, Effects({}, {}, {p.name}, g));
    }

    method CreateOrUpdate(b: Builder, siblings: map<Ref, Child>, ghost g: nat) returns (ok: bool)
      requires Valid() && Writable(b, g)
      modifies this`requests, this`pvcs, this`jobs, this`deployments, this`children, this`model
      ensures Valid()
      ensures ok ==>
        model == Apply(old(model), ListEffects([b], g)) && children == old(children) + Out(owner, spec, siblings, b)
      ensures !ok ==> requests == 0 && model == old(model) && children == old(children)
      ensures var n := if ok then 1 else 0; requests == old(requests) - n && Size() <= old(Size()) + n
    {
      hide Apply, Encodes, Out;
      ok := Request();
      if !ok { return; }
      OneBuilder(model, b, g);
      match b {
        case PersistentVolumeClaim(p, gen) => EnsureClaim(p, gen, g);
        case MapBuilder(p, gen) => EnsureJob(p, gen, g);
        case WorkerDeployment(p, gen) => RewriteWorker(p, gen, g);
        case _ =>
      }
      OneOut(owner, spec, children, siblings, b);
      children := children + Out(owner, spec, siblings, b);
    }

    /** The builders in turn, until one of them panics or a request fails. */
    method RunBuilders(bs: seq<Builder>, siblings: map<Ref, Child>, ghost g: nat)
      returns (ok: bool, panicked: bool, ghost n: nat)
      requires Valid() && forall b :: b in bs ==> Writable(b, g)
      modifies this`requests, this`pvcs, this`jobs, this`deployments, this`children, this`model
      ensures Valid() && n <= |bs| && (ok ==> n == |bs| == Reached(bs)) && (panicked ==> !ok && n == Reached(bs) < |bs|)
      ensures (!ok && !panicked ==> requests == 0) && requests == old(requests) - n && Size() <= old(Size()) + n
      ensures model == Apply(old(model), ListEffects(bs[..n], g))
      ensures children == old(children) + OutAll(owner, spec, siblings, bs[..n])
    {
      hide *;
      n, panicked := 0, false;
      NoBuilder(owner, spec, siblings, model, g);
      assert bs[..0] == [];
      for i := 0 to |bs|
        invariant Valid() && n == i && !panicked && requests == old(requests) - i && Size() <= old(Size()) + i
        invariant forall j :: 0 <= j < i ==> !Panics(bs[j])
        invariant model == Apply(old(model), ListEffects(bs[..i], g))
        invariant children == old(children) + OutAll(owner, spec, siblings, bs[..i])
      {
        assert bs[i] in bs;
        if Panics(bs[i]) {
          ok, panicked := false, true;
          return;
        }
        ok := CreateOrUpdate(bs[i], siblings, g);
        if !ok { return; }
        OneMoreEffect(old(model), bs[..i], bs[i], g);
        OutOneMore(owner, spec, siblings, bs[..i], bs[i]);
        assert bs[..i + 1] == bs[..i] + [bs[i]];
        n := i + 1;
      }
      ok := true;
    }

    // ---------- garbage collection ----------

    method DeleteKind(kind: Kind, expected: set<string>) returns (ok: bool)
      requires Valid()
      modifies this`requests, this`children
      ensures Valid() && (!ok ==> requests == 0) && Spared(old(children), children, expected)
      ensures ok ==> children == KeptKind(old(children), kind, expected)
      ensures requests >= old(requests) - 1 - |old(children)|
    {
      hide Encodes, Sweeping, Spared, KeptKind, NamesOfKind;
      ghost var c0 := children;
      SweepStarts(c0, kind, expected);
      SweepSpares(c0, c0, kind, expected, [], "");
      ok := Request();
      if !ok { return; }
      FewNames(c0, kind, {});
      var names := Enumerate(NamesOfKind(children, kind));
      for i := 0 to |names|
        invariant requests >= old(requests) - 1 - i
        invariant Valid() && Sweeping(c0, children, kind, expected, names[..i])
      {
        SweepSpares(c0, children, kind, expected, names[..i], names[i]);
        if names[i] !in expected {
          ok := Request();
          if !ok { return; }
          children := children - {Ref(kind, names[i])};
        }
        assert names[..i + 1] == names[..i] + [names[i]];
      }
      assert names[..|names|] == names;
      SweepEnds(c0, children, kind, expected, names);
      ok := true;
    }

    method DeleteDeployment(n: string) returns (ok: bool, ghost gone: set<string>)
      requires Valid()
      modifies this`requests, this`deployments, this`children, this`model
      ensures Valid() && (!ok ==> requests == 0 && gone == {} && children == old(children))
      ensures ok ==> children == old(children) - {Ref(Deployments, n)} && n !in deployments
      ensures deployments.Keys <= old(deployments).Keys
      ensures model == old(model).(workers := old(model).workers - gone)
      ensures forall p :: p in gone ==> p in old(model).workers && WorkerName(owner, p) == n
      ensures requests == old(requests) - if ok then 1 else 0
    {
      hide ClaimsEncode, JobsEncode, WorkersEncode, ClaimName, WorkerName, KeyOf, ProfileOf;
      gone := {};
      ok := Request();
      if !ok { return; }
      children := children - {Ref(Deployments, n)};
      if n in deployments {
        WorkerDropped(owner, deployments, model.workers, n);
        gone := {ProfileOf(owner, n)};
        deployments, model := deployments - {n}, model.(workers := model.workers - gone);
      }
    }

    /** Workers and the gateway are listed together. */
    method DeleteListed(names: seq<string>, expected: set<string>) returns (ok: bool, ghost gone: set<string>)
      requires Valid() && (forall n :: n in NamesOfKind(children, Deployments) ==> n in names)
      requires forall n :: n in deployments ==> n in names
      modifies this`requests, this`deployments, this`children, this`model
      ensures Valid() && (!ok ==> requests == 0) && requests >= old(requests) - |names|
      ensures Spared(old(children), children, expected)
      ensures ok ==> children == KeptKind(old(children), Deployments, expected)
      ensures model == old(model).(workers := old(model).workers - gone)
      ensures forall p :: p in gone ==> p in old(model).workers && WorkerName(owner, p) !in expected
      ensures ok ==> forall n :: n in deployments ==> n in expected
    {
      hide Encodes, WorkerName, Sweeping, Spared, KeptKind, NamesOfKind;
      ghost var c0 := children;
      SweepStarts(c0, Deployments, expected);
      SweepSpares(c0, c0, Deployments, expected, [], "");
      gone := {};
      for i := 0 to |names|
        invariant requests >= old(requests) - i
        invariant Valid() && Sweeping(c0, children, Deployments, expected, names[..i])
        invariant deployments.Keys <= old(deployments).Keys
        invariant forall n :: n in deployments && n in names[..i] ==> n in expected
        invariant model == old(model).(workers := old(model).workers - gone)
        invariant forall p :: p in gone ==> p in old(model).workers && WorkerName(owner, p) !in expected
      {
        SweepSpares(c0, children, Deployments, expected, names[..i], names[i]);
        if names[i] !in expected {
          ghost var d;
          ok, d := DeleteDeployment(names[i]);
          gone := gone + d;
          if !ok { return; }
        }
        assert names[..i + 1] == names[..i] + [names[i]];
      }
      assert names[..|names|] == names;
      SweepEnds(c0, children, Deployments, expected, names);
      ok := true;
    }

    method DeleteDeployments(expected: set<string>) returns (ok: bool, ghost gone: set<string>)
      requires Valid()
      modifies this`requests, this`deployments, this`children, this`model
      ensures Valid() && (!ok ==> requests == 0) && Spared(old(children), children, expected)
      ensures ok ==> children == KeptKind(old(children), Deployments, expected)
      ensures model == old(model).(workers := old(model).workers - gone)
      ensures forall p :: p in gone ==> p in old(model).workers && WorkerName(owner, p) !in expected
      ensures ok ==> forall n :: n in deployments ==> n in expected
      ensures requests >= old(requests) - 1 - |old(deployments)| - |old(children)|
    {
      hide Encodes, WorkerName, Sweeping, Spared, KeptKind, NamesOfKind;
      ghost var c0 := children;
      SweepStarts(c0, Deployments, expected);
      SweepSpares(c0, c0, Deployments, expected, [], "");
      gone := {};
      NothingGone(model.workers);
      ok := Request();
      if !ok { return; }
      FewNames(c0, Deployments, deployments.Keys);
      var names := Enumerate(deployments.Keys + NamesOfKind(children, Deployments));
      ok, gone := DeleteListed(names, expected);
    }

    method DeleteClaim(n: string) returns (ok: bool, ghost gone: set<Key>)
      requires Valid()
      modifies this`requests, this`pvcs, this`model
      ensures Valid() && (!ok ==> requests == 0) && (ok ==> n !in pvcs)
      ensures pvcs.Keys <= old(pvcs).Keys
      ensures model == old(model).(pvcs := old(model).pvcs - gone)
      ensures forall k :: k in gone ==> k in old(model).pvcs && ClaimName(owner, k) == n
      ensures requests == old(requests) - if ok then 1 else 0
    {
      hide ClaimsEncode, JobsEncode, WorkersEncode, ClaimName, WorkerName, KeyOf, ProfileOf;
      gone := {};
      ok := Request();
      if ok && n in pvcs {
        ClaimDropped(owner, pvcs, model.pvcs, n);
        gone := {KeyOf(owner, n)};
        pvcs, model := pvcs - {n}, model.(pvcs := model.pvcs - gone);
      }
    }

    method DeleteClaims(items: seq<Pvc>, expected: set<string>) returns (ok: bool, ghost gone: set<Key>)
      requires Valid() && ListOf(items, pvcs)
      modifies this`requests, this`pvcs, this`model
      ensures Valid() && (!ok ==> requests == 0) && requests >= old(requests) - |items|
      ensures model == old(model).(pvcs := old(model).pvcs - gone)
      ensures forall k :: k in gone ==> k in old(model).pvcs && ClaimName(owner, k) !in expected
      ensures ok ==> forall pvc :: pvc in items && pvc.name in pvcs ==> pvc.name in expected
    {
      hide Encodes, ClaimName, ListOf;
      gone := {};
      for i := 0 to |items|
        invariant Valid() && pvcs.Keys <= old(pvcs).Keys && requests >= old(requests) - i
        invariant forall j :: 0 <= j < i && items[j].name in pvcs ==> items[j].name in expected
        invariant model == old(model).(pvcs := old(model).pvcs - gone)
        invariant forall k :: k in gone ==> k in old(model).pvcs && ClaimName(owner, k) !in expected
      {
        if items[i].name !in expected {
          ghost var d;
          ok, d := DeleteClaim(items[i].name);
          gone := gone + d;
          if !ok { return; }
        }
      }
      ok := true;
    }

    method DeleteJob(n: string) returns (ok: bool, ghost gone: set<Key>)
      requires Valid()
      modifies this`requests, this`jobs, this`model
      ensures Valid() && (!ok ==> requests == 0) && (ok ==> n !in jobs)
      ensures jobs.Keys <= old(jobs).Keys
      ensures model == old(model).(jobs := old(model).jobs - gone)
      ensures forall k :: k in gone ==> k in old(model).jobs && ClaimName(owner, k) == n
      ensures requests == old(requests) - if ok then 1 else 0
    {
      hide ClaimsEncode, JobsEncode, WorkersEncode, ClaimName, WorkerName, KeyOf, ProfileOf;
      gone := {};
      ok := Request();
      if ok && n in jobs {
        JobDropped(owner, jobs, model.jobs, n);
        gone := {KeyOf(owner, n)};
        jobs, model := jobs - {n}, model.(jobs := model.jobs - gone);
      }
    }

    method DeleteJobs(items: seq<MapJob>, expected: set<string>) returns (ok: bool, ghost gone: set<Key>)
      requires Valid() && ListOf(items, jobs)
      modifies this`requests, this`jobs, this`model
      ensures Valid() && (!ok ==> requests == 0) && requests >= old(requests) - |items|
      ensures model == old(model).(jobs := old(model).jobs - gone)
      ensures forall k :: k in gone ==> k in old(model).jobs && ClaimName(owner, k) !in expected
      ensures ok ==> forall job :: job in items && job.name in jobs ==> job.name in expected
    {
      hide Encodes, ClaimName, ListOf;
      gone := {};
      for i := 0 to |items|
        invariant Valid() && jobs.Keys <= old(jobs).Keys && requests >= old(requests) - i
        invariant forall j :: 0 <= j < i && items[j].name in jobs ==> items[j].name in expected
        invariant model == old(model).(jobs := old(model).jobs - gone)
        invariant forall k :: k in gone ==> k in old(model).jobs && ClaimName(owner, k) !in expected
      {
        if items[i].name !in expected {
          ghost var d;
          ok, d := DeleteJob(items[i].name);
          gone := gone + d;
          if !ok { return; }
        }
      }
      ok := true;
    }

    /** Children without a generation, kind by kind in the source's order. */
    method CollectNamed(expected: set<string>) returns (ok: bool, ghost ws: set<string>)
      requires Valid()
      modifies this`requests, this`deployments, this`children, this`model
      ensures Valid() && (!ok ==> requests == 0) && Spared(old(children), children, expected)
      ensures ok ==> children == KeptKinds(old(children), KindsOf(anonymous), expected)
      ensures model == old(model).(workers := old(model).workers - ws)
      ensures forall p :: p in ws ==> p in old(model).workers && WorkerName(owner, p) !in expected
      ensures ok ==> forall n :: n in deployments ==> n in expected
      ensures requests >= old(requests) - 6 - |old(deployments)| - 6 * |old(children)|
    {
      hide *;
      ghost var c0 := children;
      ws := {};
      NothingGone(model.workers);
      ok := DeleteKind(CronJobs, expected);
      ghost var c1 := children;
      if !ok { return; }
      ok, ws := DeleteDeployments(expected);
      ghost var c2 := children;
      SparedTwice(c0, c1, c2, expected);
      if !ok { return; }
      ok := DeleteKind(Autoscalers, expected);
      ghost var c3 := children;
      SparedTwice(c0, c2, c3, expected);
      if !ok { return; }
      ok := DeleteKind(DisruptionBudgets, expected);
      ghost var c4 := children;
      SparedTwice(c0, c3, c4, expected);
      if !ok { return; }
      ok := DeleteKind(Services, expected);
      ghost var c5 := children;
      SparedTwice(c0, c4, c5, expected);
      if !ok { return; }
      EveryKind(c0, expected);
      EitherKinds(anonymous);
      if !anonymous {
        ok := DeleteKind(ConfigMaps, expected);
        SparedTwice(c0, c5, children, expected);
        OneMoreKind(c0, KINDS, ConfigMaps, expected);
      }
    }

    /** Claims and then Jobs, after a second look at what is served and what is newest. */
    method CollectGenerations() returns (ok: bool, ghost ps: set<Key>, ghost js: set<Key>)
      requires Valid() && InRange(model)
      modifies this`requests, this`pvcs, this`jobs, this`model
      ensures Valid() && (!ok ==> requests == 0)
      ensures model == old(model).(pvcs := old(model).pvcs - ps, jobs := old(model).jobs - js)
      ensures forall k :: k in ps + js ==> Stray(old(model), k)
      ensures js != {} || ok ==> model.pvcs == Collect(old(model)).pvcs
      ensures ok ==> model.jobs == Collect(old(model)).jobs
      ensures requests >= old(requests) - 3 - |old(pvcs)| - |old(jobs)|
    {
      hide WorkersEncode, ClaimsEncode, JobsEncode, IsExpected, ExpectedClaims, ListOf, Itoa, WellNamed, TrafficOf,
           Act, Fut;
      ghost var v, claims, maps := model, pvcs, jobs;
      ps, js := {}, {};
      assert v.pvcs - {} == v.pvcs && v.jobs - {} == v.jobs;
      ok := Request();
      if !ok { return; }
      var claimList := Items(pvcs);
      ok := Request();
      if !ok { return; }
      var jobList := Items(jobs);
      ok := Request();
      if !ok { return; }
      var names := ProfileNames(spec.profiles);
      var active, future, _, _ := Generations(Store(pvcs, jobs, deployments), model, names, claimList, deployments);
      var expected;
      if anonymous {
        expected := ExpectedGenerationsOfInstance(owner, phase, active, future);
      } else {
        expected := ExpectedGenerations(owner, names, phase, active, future);
      }
      ok, ps := DeleteClaims(claimList, expected);
      StrayClaims(owner, v, claims, ps, expected);
      if !ok { return; }
      ClaimsCollected(owner, v, claims, pvcs, model.pvcs, claimList, expected);
      ok, js := DeleteJobs(jobList, expected);
      StrayJobs(owner, v, maps, js, expected);
      if !ok { return; }
      JobsCollected(owner, v, maps, jobs, model.jobs, jobList, expected);
    }

    method GarbageCollection() returns (ok: bool, ghost ws: set<string>, ghost ps: set<Key>, ghost js: set<Key>)
      requires Valid() && InRange(model)
      modifies this`requests, this`pvcs, this`jobs, this`deployments, this`children, this`model
      ensures Valid() && (!ok ==> requests == 0)
      ensures Deletable(old(model), ws, ps, js) && model == Deleted(old(model), ws, ps, js)
      ensures ok ==> model == Collect(old(model))
      ensures ok ==> children == KeptKinds(old(children), KindsOf(anonymous), ExpectedNames(owner, spec.profiles))
      ensures Spared(old(children), children, ExpectedNames(owner, spec.profiles))
      ensures requests >= old(requests) - 9 - |old(pvcs)| - |old(jobs)| - |old(deployments)| - 6 * |old(children)|
    {
      hide *;
      ghost var v := model;
      ps, js := {}, {};
      ValidWorkers();
      var expected;
      if anonymous {
        expected := ExpectedResourcesOfInstance(owner, spec.profiles);
      } else {
        expected := ExpectedResources(owner, spec.profiles);
      }
      ok, ws := CollectNamed(expected);
      OnlyStrayWorkers(owner, anonymous, v, spec.profiles, ws);
      WorkersGone(v, ws);
      if !ok { return; }
      ValidWorkers();
      WorkersCollected(owner, anonymous, v, spec.profiles, ws, deployments, model.workers);
      ghost var u := model;
      ok, ps, js := CollectGenerations();
      CollectedInTwo(v, u, model, ok, ws, ps, js);
    }

    // ---------- the pass ----------

    /** The served and the newest generation, and the Deployments they were read from: a list of the
        profiles' workers for a cluster, at most one for an instance. */
    method Generations(ghost s: Store, ghost w: World, names: seq<string>, claimList: seq<Pvc>,
                       found: map<string, Deployment>)
      returns (active: string, future: string, ds: seq<Deployment>, d: Option<Deployment>)
      requires Encodes(owner, s, w) && InRange(w) && w.profiles == names && Fits(anonymous, names, {})
      requires ListOf(claimList, s.pvcs) && found == s.deployments
      ensures active == Itoa(Act(w)) && future == Itoa(Fut(w))
      ensures anonymous ==> d == DeploymentOf(owner, s)
      ensures !anonymous ==> ds == DeploymentsFor(owner, names, s.deployments)
    {
      hide Encodes, InRange, ListOf, ActiveGeneration;
      ds, d := [], None;
      var a;
      if anonymous {
        var name := WorkerName(owner, "");
        if name in found { d := Some(found[name]); }
        InstanceReads(owner, s, w, d);
        a := GetInstanceMapGeneration(d);
      } else {
        ds := GetProfilesDeployments(owner, names, found);
        ClusterReads(owner, s, w, ds);
        a := GetActiveMapGeneration(ds);
      }
      active := a.value;
      future := ReadFuture(owner, s, w, claimList);
    }

    /** What the pass reads first.  A read that fails counts as an empty list. */
    method Decide(read: Reads) returns (active: string, future: string, ph: Phase)
      requires Valid() && InRange(model)
      ensures active == Itoa(Act(Seen(model, read))) && future == Itoa(Fut(Seen(model, read)))
      ensures ph == DeterminePhase(Seen(model, read))
    {
      hide ClaimsEncode, JobsEncode, WorkersEncode, DeterminePhase, PhaseOfLists, InstancePhase, Act, Fut,
          DeploymentsFor;
      ghost var s, w := Store(pvcs, jobs, deployments), Seen(model, read);
      ghost var seen := SeenStore(s, read);
      SeenEncodes(owner, s, model, read);
      var claimList, jobList := [], [];
      var names := ProfileNames(spec.profiles);
      if read.claims { claimList := Items(pvcs); }
      if read.jobs { jobList := Items(jobs); }
      var found := if read.workers then deployments else map[];
      var ds, d;
      active, future, ds, d := Generations(seen, w, names, claimList, found);
      ActInRange(w);
      if anonymous {
        ph := ComputeInstancePhase(owner, spec.url, OldUrl(), active, future, claimList, jobList, d);
        InstanceRefinesProtocol(owner, seen, w, claimList, jobList);
      } else {
        ph := ComputePhase(owner, names, spec.url, OldUrl(), active, future, claimList, jobList, ds);
        PhaseOfListsIs(owner, seen, w, claimList, jobList);
      }
    }

    method BuildersForPhase(ph: Phase, active: string, future: string) returns (builders: seq<Builder>)
      requires Valid()
      ensures builders == BuildersOf(anonymous, ph, spec.profiles, active, future)
    {
      hide Encodes;
      if anonymous {
        assert |spec.profiles| == |NamesOf(spec.profiles)|;
        builders := InstanceBuilders(ph, spec.profiles[0], active, future);
      } else {
        builders := ResourceBuildersForPhase(ph, spec.profiles, active, future);
      }
    }

    lemma ValidWork(w: World, read: Reads, bs: seq<Builder>)
      requires Valid() && Room(w) && w.profiles == model.profiles && bs == Work(anonymous, w, read, spec.profiles)
      ensures var e := EffectsOf(Seen(w, read));
        ListEffects(bs, e.gen) == e && WorkersIn(bs) <= w.profiles && forall b :: b in bs ==> Writable(b, e.gen)
      ensures !anonymous ==> Reached(bs) == |bs|
    {
      hide Encodes, Work, EffectsOf, Seen, Reached, ListEffects, OnGeneration, WorkersIn;
      ValidProfiles();
      WorkDoes(anonymous, w, read, spec.profiles);
    }

    method UpdatePhase(ph: Phase) returns (ok: bool)
      requires Valid()
      modifies this`requests, this`phase, this`model
      ensures Valid() && ok == (old(requests) > 0) && requests == old(requests) - if ok then 1 else 0
      ensures model == if ok then old(model).(phase := ph) else old(model)
    {
      hide ClaimsEncode, JobsEncode, WorkersEncode;
      ok := Request();
      if ok { phase, model := ph, model.(phase := ph); }
    }

    /** Writes the last-applied-spec annotation. */
    method RecordSpec() returns (ok: bool)
      requires Valid()
      modifies this`requests, this`lastApplied, this`model
      ensures Valid() && ok == (old(requests) > 0) && requests == old(requests) - if ok then 1 else 0
      ensures model == if ok then old(model).(lastUrl := spec.url) else old(model)
    {
      hide ClaimsEncode, JobsEncode, WorkersEncode;
      ok := Request();
      if ok { lastApplied, model := Some(spec.url), model.(lastUrl := spec.url); }
    }

    /** The pass from its first builder on; w is the World in which it began. */
    method CarryOut(builders: seq<Builder>, read: Reads, ghost w: World) returns (out: Outcome)
      requires Valid() && Room(w)
      requires model == w.(phase := DeterminePhase(Seen(w, read)))
          && builders == Work(anonymous, w, read, spec.profiles)
      modifies this`requests, this`pvcs, this`jobs, this`deployments, this`children, this`lastApplied, this`model
      ensures Valid() && out != Skipped && out != Unchanged
      ensures out == Stopped || out == Collecting ==> requests == 0
      ensures out == Panicked ==> anonymous && Reached(builders) < |builders|
      ensures out == Collecting || out == Done ==> Reached(builders) == |builders|
      ensures out == Stopped ==> old(requests) <= |builders|
      ensures requests >= old(requests) - 10 - 7 * |builders| - 6 * old(Size())
      ensures Ends(w, read, out, model)
      ensures ChildrenEnd(owner, anonymous, spec, old(children), builders, out, children)
    {
      hide *;
      ghost var c0, e := children, EffectsOf(Seen(w, read));
      ValidWork(w, read, builders);
      var ok, panicked;
      ghost var n;
      ok, panicked, n := RunBuilders(builders, children, e.gen);
      ghost var d := ListEffects(builders[..n], e.gen);
      SomeBuilders(builders, n, e.gen, w.profiles);
      BuildersRan(w, read, d, model);
      ValidWorkers();
      assert builders[..|builders|] == builders;
      StopEnds(owner, anonymous, spec, w, read, d, model, c0, builders, n, children);
      if !ok { return if panicked then Panicked else Stopped; }
      ok := RecordSpec();
      if !ok { return Stopped; }
      WrittenInRoom(w, read);
      assert model == WrittenSeeing(w, read);
      assert 6 * Size() >= |pvcs| + |jobs| + |deployments| + 6 * |children| by { SizeIs(); }
      ghost var ws, ps, js;
      ok, ws, ps, js := GarbageCollection();
      CollectEnds(owner, anonymous, spec, w, read, ws, ps, js, model, c0, builders, children);
      if !ok { return Collecting; }
      DoneEnds(owner, anonymous, spec, w, read, model, c0, builders, children);
      return Done;
    }

    method Reconcile(read: Reads) returns (out: Outcome)
      requires Valid() && Room(model)
      modifies this`gate, this`requests, this`phase, this`pvcs, this`jobs, this`deployments, this`children,
               this`lastApplied, this`model
      ensures Valid()
      ensures out == Skipped <==> old(gate) != Running
      ensures gate == if old(gate) == Uninitialized && old(requests) > 0 then Running else old(gate)
      ensures out == Unchanged || out == Stopped || out == Collecting ==> requests == 0
      ensures out == Panicked ==> anonymous
      ensures out == Unchanged ==> old(requests) == 0
      ensures var bs := Work(anonymous, old(model), read, spec.profiles);
        && (out == Stopped ==> old(requests) <= 1 + |bs|)
        && (out == Collecting || out == Done ==> Reached(bs) == |bs|)
        && requests >= old(requests) - Need(|bs|, old(Size()))
        && (old(gate) == Running && old(requests) > Need(|bs|, old(Size())) ==>
              out == if Reached(bs) == |bs| then Done else Panicked)
      ensures Ends(old(model), read, out, model)
      ensures var bs := Work(anonymous, old(model), read, spec.profiles);
        ChildrenEnd(owner, anonymous, spec, old(children), bs, out, children)
    {
      hide Encodes, NamesOf, TrafficOf, DeterminePhase, BuildersOf, Fits, Reached, Ends, ChildrenEnd,
           Act, Fut, InRange, Room, Seen, Itoa, WellNamed, Size;
      ghost var w := model;
      SameEnds(owner, anonymous, spec, w, read, children, Work(anonymous, w, read, spec.profiles));
      if gate != Running {
        if gate == Uninitialized {
          var added := Request();
          if added { gate := Running; }
        }
        return Skipped;
      }
      InRoom(w, read);
      var active, future, ph := Decide(read);
      if phase != ph {
        var ok := UpdatePhase(ph);
        if !ok { return Unchanged; }
      }
      var builders := BuildersForPhase(ph, active, future);
      out := CarryOut(builders, read, w);
    }

    // ---------- the environment ----------

    /** A user edits the spec. */
    method Edit(edited: ClusterSpec)
      requires Valid() && (forall p :: p in edited.profiles ==> Plain(p.name))
          && Fits(anonymous, NamesOf(edited.profiles), {})
      modifies this`spec, this`model
      ensures Valid() && spec == edited
      ensures model == Do(old(model), Step.Edit(edited.url, NamesOf(edited.profiles), TrafficOf(edited.profiles)))
    {
      hide ClaimsEncode, JobsEncode, WorkersEncode;
      forall n | n in NamesOf(edited.profiles) ensures Plain(n) { NamedProfile(edited.profiles, n); }
      spec := edited;
      model := model.(url := edited.url, profiles := NamesOf(edited.profiles), traffic := TrafficOf(edited.profiles));
    }

    /** Kubernetes reports the status of claims, Jobs and Deployments. */
    method Report(news: News)
      requires Valid()
      modifies this`pvcs, this`jobs, this`deployments, this`model
      ensures Valid() && model == Do(old(model), StatusOf(owner, old(model), news))
      ensures pvcs == ReportedClaims(old(pvcs), news.claims) && jobs == ReportedJobs(old(jobs), news.conditions)
      ensures deployments == ReportedWorkers(old(deployments), news.replicas)
    {
      hide Encodes, ReportedClaims, ReportedJobs, ReportedWorkers, Fits, BoundAfter, CompleteAfter, WorkerName, NamesOf,
           TrafficOf, WellNamed;
      EncodesReport(owner, Store(pvcs, jobs, deployments), model, news);
      assert Do(model, StatusOf(owner, model, news)).workers.Keys == model.workers.Keys;
      pvcs, jobs := ReportedClaims(pvcs, news.claims), ReportedJobs(jobs, news.conditions);
      deployments := ReportedWorkers(deployments, news.replicas);
      model := Do(model, StatusOf(owner, model, news));
    }
  }
}
