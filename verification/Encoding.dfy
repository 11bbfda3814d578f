/**
 Named objects and the protocol's World: when a set of Kubernetes objects stands for a World, and
 why everything the controller reads off names is what the protocol reads off generations.
 */
module Encoding {
  import opened Strings
  import opened FileNames
  import opened Names
  import opened Protocol
  import opened Objects

  // ---------- names and keys ----------

  ghost predicate KeysEncode(owner: string, names: set<string>, keys: set<Key>) {
    && (forall k :: k in keys ==> Plain(k.profile) && ClaimName(owner, k) in names)
    && (forall n :: n in names ==> KeyOf(owner, n) in keys && ClaimName(owner, KeyOf(owner, n)) == n)
  }

  lemma KeyEncoded(owner: string, names: set<string>, keys: set<Key>, k: Key)
    requires KeysEncode(owner, names, keys) && Plain(k.profile)
    ensures ClaimName(owner, k) in names <==> k in keys
    ensures KeyOf(owner, ClaimName(owner, k)) == k
  {
    KeyOfClaim(owner, k);
  }

  lemma KeysAdd(owner: string, names: set<string>, keys: set<Key>, k: Key)
    requires KeysEncode(owner, names, keys) && Plain(k.profile)
    ensures KeysEncode(owner, names + {ClaimName(owner, k)}, keys + {k})
  {
    KeyOfClaim(owner, k);
  }

  lemma KeysDrop(owner: string, names: set<string>, keys: set<Key>, n: string)
    requires KeysEncode(owner, names, keys) && n in names
    ensures KeysEncode(owner, names - {n}, keys - {KeyOf(owner, n)})
  {
    forall k | k in keys - {KeyOf(owner, n)} ensures ClaimName(owner, k) in names - {n} {
      KeyOfClaim(owner, k);
    }
  }

  ghost predicate WorkersNamed(owner: string, names: set<string>, profiles: set<string>) {
    && (forall p :: p in profiles ==> Plain(p) && WorkerName(owner, p) in names)
    && (forall n :: n in names ==> ProfileOf(owner, n) in profiles && WorkerName(owner, ProfileOf(owner, n)) == n)
  }

  // ---------- objects ----------

  ghost predicate ClaimsEncode(owner: string, pvcs: map<string, Pvc>, model: map<Key, bool>) {
    && KeysEncode(owner, pvcs.Keys, model.Keys)
    && (forall n :: n in pvcs ==> pvcs[n].name == n)
    && (forall k :: k in model ==> IsBound(pvcs[ClaimName(owner, k)]) == model[k])
  }

  ghost predicate JobsEncode(owner: string, jobs: map<string, MapJob>, model: map<Key, Job>) {
    && KeysEncode(owner, jobs.Keys, model.Keys)
    && (forall n :: n in jobs ==> jobs[n].name == n)
    && (forall k :: k in model ==>
          var j := jobs[ClaimName(owner, k)];
          j.pbfUrl == model[k].url && (JobComplete(j) <==> model[k].complete))
  }

  ghost predicate WorkerEncodes(owner: string, p: string, d: Deployment, model: Worker) {
    d == Deployment(WorkerName(owner, p), [Some(ClaimName(owner, Key(p, model.gen)))], OsrmFileName(model.opens),
                    model.ready, model.replicas)
  }

  ghost predicate WorkersEncode(owner: string, deployments: map<string, Deployment>, model: map<string, Worker>) {
    && WorkersNamed(owner, deployments.Keys, model.Keys)
    && (forall p :: p in model ==> WorkerEncodes(owner, p, deployments[WorkerName(owner, p)], model[p]))
  }

  /** Every generation, and the one after it, fits Go's int. */
  ghost predicate InRange(w: World) {
    && (forall k :: k in w.pvcs ==> k.gen < MAX_INT)
    && (forall p :: p in w.workers ==> w.workers[p].gen < MAX_INT)
  }

  // ---------- lists ----------

  /** A List call returns every object once, in some order. */
  ghost predicate ListOf<V>(items: seq<V>, objects: map<string, V>) {
    && (forall x :: x in items ==> exists n :: n in objects && objects[n] == x)
    && (forall n :: n in objects ==> objects[n] in items)
  }

  /** Get for each profile of the spec in turn, skipping those that are not found. */
  function DeploymentsFor(owner: string, profiles: seq<string>, deployments: map<string, Deployment>): seq<Deployment> {
    if profiles == [] then []
    else
      var n := WorkerName(owner, profiles[0]);
      (if n in deployments then [deployments[n]] else []) + DeploymentsFor(owner, profiles[1..], deployments)
  }

  lemma HighestIsNewest(owner: string, pvcs: map<string, Pvc>, model: map<Key, bool>, items: seq<Pvc>, n: nat)
    requires ClaimsEncode(owner, pvcs, model) && ListOf(items, pvcs)
    requires forall k :: k in model ==> k.gen < MAX_INT
    requires IsHighest(items, n)
    ensures n == Newest(model.Keys)
  {
    forall k | k in model.Keys ensures k.gen <= n {
      var pvc := pvcs[ClaimName(owner, k)];
      SuffixOfClaim(owner, k);
      assert pvc in items;
      assert Parsed(pvc) == Some(k.gen);
    }
    if n != 1 {
      var i :| 0 <= i < |items| && Parsed(items[i]) == Some(n);
      assert items[i] in items;
      var name :| name in pvcs && pvcs[name] == items[i];
      SuffixOfClaim(owner, KeyOf(owner, name));
      assert KeyOf(owner, name) in model.Keys;
    }
  }

  lemma ParsesAll(owner: string, pvcs: map<string, Pvc>, model: map<Key, bool>, items: seq<Pvc>)
    requires ClaimsEncode(owner, pvcs, model) && ListOf(items, pvcs)
    requires forall k :: k in model ==> k.gen < MAX_INT
    ensures forall i :: 0 <= i < |items| ==> Parsed(items[i]).Some?
  {
    forall i | 0 <= i < |items| ensures Parsed(items[i]).Some? {
      assert items[i] in items;
      var name :| name in pvcs && pvcs[name] == items[i];
      SuffixOfClaim(owner, KeyOf(owner, name));
    }
  }

  lemma WorkerEncoded(owner: string, deployments: map<string, Deployment>, model: map<string, Worker>, p: string)
    requires WorkersEncode(owner, deployments, model) && Plain(p)
    ensures WorkerName(owner, p) in deployments <==> p in model
    ensures p in model ==> WorkerEncodes(owner, p, deployments[WorkerName(owner, p)], model[p])
  {
    ProfileOfWorker(owner, p);
  }

  /** The first Deployment of the list is that of the first deployed profile. */
  lemma {:induction false} FirstDeployment(owner: string, profiles: seq<string>, deployments: map<string, Deployment>,
                                           model: map<string, Worker>)
    requires WorkersEncode(owner, deployments, model)
    requires forall p :: p in profiles ==> Plain(p)
    ensures var ds := DeploymentsFor(owner, profiles, deployments);
      (ds == [] && Active(profiles, model) == 1) ||
      (ds != [] && exists p ::
         p in model && WorkerEncodes(owner, p, ds[0], model[p]) && Active(profiles, model) == model[p].gen)
  {
    if profiles != [] {
      var p := profiles[0];
      WorkerEncoded(owner, deployments, model, p);
      if p !in model { FirstDeployment(owner, profiles[1..], deployments, model); }
    }
  }

  lemma ActiveFromClaim(deployments: seq<Deployment>, claim: string, suffix: string)
    requires deployments != [] && deployments[0].volumes == [Some(claim)]
    requires ResourceNameSuffix(claim) == suffix && Atoi(suffix).Some?
    ensures ActiveGeneration(deployments) == Ok(suffix)
  {
  }

  lemma ActiveFromWorker(owner: string, deployments: seq<Deployment>, p: string, d: Worker)
    requires deployments != [] && WorkerEncodes(owner, p, deployments[0], d) && d.gen < MAX_INT
    ensures ActiveGeneration(deployments) == Ok(Itoa(d.gen))
  {
    var k := Key(p, d.gen);
    SuffixOfClaim(owner, k);
    ActiveFromClaim(deployments, ClaimName(owner, k), Itoa(d.gen));
  }

  /** The suffix of the first worker's claim is the served generation. */
  lemma SuffixIsActive(owner: string, profiles: seq<string>, deployments: map<string, Deployment>,
                       model: map<string, Worker>)
    requires WorkersEncode(owner, deployments, model)
    requires forall p :: p in profiles ==> Plain(p)
    requires forall p :: p in model ==> model[p].gen < MAX_INT
    ensures ActiveGeneration(DeploymentsFor(owner, profiles, deployments)) == Ok(Itoa(Active(profiles, model)))
  {
    var ds := DeploymentsFor(owner, profiles, deployments);
    FirstDeployment(owner, profiles, deployments, model);
    if ds != [] {
      var p :| p in model && WorkerEncodes(owner, p, ds[0], model[p]) && Active(profiles, model) == model[p].gen;
      ActiveFromWorker(owner, ds, p, model[p]);
    } else {
      assert Itoa(1) == "1";
    }
  }

  lemma ClaimReadyIs(owner: string, pvcs: map<string, Pvc>, model: map<Key, bool>, items: seq<Pvc>, k: Key)
    requires ClaimsEncode(owner, pvcs, model) && ListOf(items, pvcs) && Plain(k.profile)
    ensures ClaimReady(items, ClaimName(owner, k)) <==> k in model && model[k]
  {
    KeyEncoded(owner, pvcs.Keys, model.Keys, k);
    var n := ClaimName(owner, k);
    forall i | 0 <= i < |items| ensures items[i].name == n ==> n in pvcs && pvcs[n] == items[i] {
      assert items[i] in items;
    }
    if n in pvcs {
      var i :| 0 <= i < |items| && items[i] == pvcs[n];
      assert items[i].name == n;
    }
  }

  lemma JobReadyIs(owner: string, jobs: map<string, MapJob>, model: map<Key, Job>, items: seq<MapJob>, k: Key)
    requires JobsEncode(owner, jobs, model) && ListOf(items, jobs) && Plain(k.profile)
    ensures JobReady(items, ClaimName(owner, k)) <==> k in model && model[k].complete
  {
    KeyEncoded(owner, jobs.Keys, model.Keys, k);
    var n := ClaimName(owner, k);
    forall i | 0 <= i < |items| ensures items[i].name == n ==> n in jobs && jobs[n] == items[i] {
      assert items[i] in items;
    }
    if n in jobs {
      var i :| 0 <= i < |items| && items[i] == jobs[n];
      assert items[i].name == n;
    }
  }

  /** The claims, Jobs and worker Deployments of one owner. */
  datatype Store = Store(pvcs: map<string, Pvc>, jobs: map<string, MapJob>, deployments: map<string, Deployment>)

  ghost predicate Encodes(owner: string, s: Store, w: World) {
    && ClaimsEncode(owner, s.pvcs, w.pvcs)
    && JobsEncode(owner, s.jobs, w.jobs)
    && WorkersEncode(owner, s.deployments, w.workers)
    && (forall p :: p in w.profiles ==> Plain(p))
  }

  lemma BuiltListsIs(owner: string, s: Store, w: World, pvcs: seq<Pvc>, jobs: seq<MapJob>, g: nat)
    requires Encodes(owner, s, w) && ListOf(pvcs, s.pvcs) && ListOf(jobs, s.jobs)
    ensures BuiltLists(owner, w.profiles, pvcs, jobs, Itoa(g)) <==> Built(w, g)
  {
    forall p | p in w.profiles
      ensures
        ClaimReady(pvcs, ChildResourceName(owner, p, Itoa(g))) && JobReady(jobs, ChildResourceName(owner, p, Itoa(g)))
        <==> var k := Key(p, g); k in w.pvcs && w.pvcs[k] && k in w.jobs && w.jobs[k].complete
    {
      ClaimReadyIs(owner, s.pvcs, w.pvcs, pvcs, Key(p, g));
      JobReadyIs(owner, s.jobs, w.jobs, jobs, Key(p, g));
    }
  }

  lemma {:induction false} InDeploymentsFor(owner: string, profiles: seq<string>, deployments: map<string, Deployment>,
                                            d: Deployment)
    ensures d in DeploymentsFor(owner, profiles, deployments) <==>
      exists p :: p in profiles && WorkerName(owner, p) in deployments && deployments[WorkerName(owner, p)] == d
  {
    if profiles != [] {
      InDeploymentsFor(owner, profiles[1..], deployments, d);
      assert profiles == [profiles[0]] + profiles[1..];
    }
  }

  lemma WorkerListed(owner: string, s: Store, w: World, d: Deployment, p: string)
    requires Encodes(owner, s, w) && p in w.profiles
    ensures d in DeploymentsFor(owner, w.profiles, s.deployments) && d.name == WorkerName(owner, p) ==>
      p in w.workers && s.deployments[WorkerName(owner, p)] == d
    ensures p in w.workers ==>
      && WorkerName(owner, p) in s.deployments
      && s.deployments[WorkerName(owner, p)] in DeploymentsFor(owner, w.profiles, s.deployments)
  {
    WorkerEncoded(owner, s.deployments, w.workers, p);
    InDeploymentsFor(owner, w.profiles, s.deployments, d);
    if d in DeploymentsFor(owner, w.profiles, s.deployments) && d.name == WorkerName(owner, p) {
      var q :| q in w.profiles && WorkerName(owner, q) in s.deployments && s.deployments[WorkerName(owner, q)] == d;
      WorkerEncoded(owner, s.deployments, w.workers, q);
      assert d.name == WorkerName(owner, q);
    }
    if p in w.workers { InDeploymentsFor(owner, w.profiles, s.deployments, s.deployments[WorkerName(owner, p)]); }
  }

  lemma ReadyInModel(owner: string, s: Store, w: World, p: string)
    requires Encodes(owner, s, w) && p in w.profiles
    requires WorkerReady(DeploymentsFor(owner, w.profiles, s.deployments), WorkerName(owner, p))
    ensures p in w.workers && Ready(w.workers[p])
  {
    var ds := DeploymentsFor(owner, w.profiles, s.deployments);
    var n := WorkerName(owner, p);
    var i :| 0 <= i < |ds| && ds[i].name == n && ds[i].readyReplicas > 0 && ds[i].readyReplicas == ds[i].replicas;
    WorkerListed(owner, s, w, ds[i], p);
    WorkerEncoded(owner, s.deployments, w.workers, p);
  }

  lemma ReadyInLists(owner: string, s: Store, w: World, p: string)
    requires Encodes(owner, s, w) && p in w.profiles
    requires p in w.workers && Ready(w.workers[p])
    ensures WorkerReady(DeploymentsFor(owner, w.profiles, s.deployments), WorkerName(owner, p))
  {
    var ds := DeploymentsFor(owner, w.profiles, s.deployments);
    WorkerEncoded(owner, s.deployments, w.workers, p);
    var d := s.deployments[WorkerName(owner, p)];
    WorkerListed(owner, s, w, d, p);
    var i :| 0 <= i < |ds| && ds[i] == d;
  }

  lemma WorkerReadyIs(owner: string, s: Store, w: World, p: string)
    requires Encodes(owner, s, w) && p in w.profiles
    ensures WorkerReady(DeploymentsFor(owner, w.profiles, s.deployments), WorkerName(owner, p)) <==>
      p in w.workers && Ready(w.workers[p])
  {
    if p in w.workers && Ready(w.workers[p]) {
      ReadyInLists(owner, s, w, p);
    } else if WorkerReady(DeploymentsFor(owner, w.profiles, s.deployments), WorkerName(owner, p)) {
      ReadyInModel(owner, s, w, p);
    }
  }

  lemma SamePhase(owner: string, w: World, a: string, f: string, pvcs: seq<Pvc>, jobs: seq<MapJob>, ds: seq<Deployment>)
    requires BuiltLists(owner, w.profiles, pvcs, jobs, a) <==> Built(w, Act(w))
    requires BuiltLists(owner, w.profiles, pvcs, jobs, f) <==> Built(w, Fut(w))
    requires (a == f <==> Act(w) == Fut(w)) && Number(a) == Act(w)
    requires forall p :: p in w.profiles ==>
      (WorkerReady(ds, WorkerName(owner, p)) <==> p in w.workers && Ready(w.workers[p]))
    ensures PhaseOfLists(owner, w.profiles, w.url, w.lastUrl, a, f, pvcs, jobs, ds) == DeterminePhase(w)
  {
  }

  /** From the lists it reads, the controller determines the protocol's phase. */
  lemma PhaseOfListsIs(owner: string, s: Store, w: World, pvcs: seq<Pvc>, jobs: seq<MapJob>)
    requires Encodes(owner, s, w) && ListOf(pvcs, s.pvcs) && ListOf(jobs, s.jobs)
    requires Act(w) <= MAX_INT
    ensures PhaseOfLists(owner, w.profiles, w.url, w.lastUrl, Itoa(Act(w)), Itoa(Fut(w)), pvcs, jobs,
                         DeploymentsFor(owner, w.profiles, s.deployments)) == DeterminePhase(w)
  {
    BuiltListsIs(owner, s, w, pvcs, jobs, Act(w));
    BuiltListsIs(owner, s, w, pvcs, jobs, Fut(w));
    ItoaInjective(Act(w), Fut(w));
    AtoiItoa(Act(w));
    forall p | p in w.profiles { WorkerReadyIs(owner, s, w, p); }
    SamePhase(owner, w, Itoa(Act(w)), Itoa(Fut(w)), pvcs, jobs, DeploymentsFor(owner, w.profiles, s.deployments));
  }

  // ---------- one object at a time ----------

  /** CreateOrUpdate of a claim. */
  function WithClaim(pvcs: map<string, Pvc>, n: string): map<string, Pvc> {
    if n in pvcs then pvcs else pvcs[n := Pvc(n, Pending)]
  }

  lemma ClaimAdded(owner: string, pvcs: map<string, Pvc>, model: map<Key, bool>, k: Key)
    requires ClaimsEncode(owner, pvcs, model) && Plain(k.profile)
    ensures ClaimsEncode(owner, WithClaim(pvcs, ClaimName(owner, k)), Ensured(model, {k}, false))
  {
    hide ClaimName, KeyOf;
    var n := ClaimName(owner, k);
    KeysAdd(owner, pvcs.Keys, model.Keys, k);
    KeyEncoded(owner, pvcs.Keys, model.Keys, k);
    assert WithClaim(pvcs, n).Keys == pvcs.Keys + {n};
    assert Ensured(model, {k}, false).Keys == model.Keys + {k};
    forall m | m in model.Keys
      ensures ClaimName(owner, m) == n ==> m == k
    {
      KeyEncoded(owner, pvcs.Keys, model.Keys, m);
    }
  }

  function WithJob(jobs: map<string, MapJob>, n: string, url: string): map<string, MapJob> {
    if n in jobs then jobs else jobs[n := MapJob(n, url, [])]
  }

  lemma JobAdded(owner: string, jobs: map<string, MapJob>, model: map<Key, Job>, k: Key, url: string)
    requires JobsEncode(owner, jobs, model) && Plain(k.profile)
    ensures JobsEncode(owner, WithJob(jobs, ClaimName(owner, k), url), Ensured(model, {k}, Job(url, false)))
  {
    hide ClaimName, KeyOf;
    var n := ClaimName(owner, k);
    KeysAdd(owner, jobs.Keys, model.Keys, k);
    KeyEncoded(owner, jobs.Keys, model.Keys, k);
    assert WithJob(jobs, n, url).Keys == jobs.Keys + {n};
    assert Ensured(model, {k}, Job(url, false)).Keys == model.Keys + {k};
    forall m | m in model.Keys
      ensures ClaimName(owner, m) == n ==> m == k
    {
      KeyEncoded(owner, jobs.Keys, model.Keys, m);
    }
  }

  /** A worker Deployment whose template has been rewritten; its status is its own. */
  function Rewritten(deployments: map<string, Deployment>, n: string, claim: string, file: string): Deployment {
    if n in deployments then deployments[n].(volumes := [Some(claim)], file := file)
    else Deployment(n, [Some(claim)], file, 0, 0)
  }

  lemma WorkerRewritten(owner: string, deployments: map<string, Deployment>, model: map<string, Worker>, p: string,
                        g: nat, url: string)
    requires WorkersEncode(owner, deployments, model) && Plain(p)
    ensures var n := WorkerName(owner, p);
      WorkersEncode(owner, deployments[n := Rewritten(deployments, n, ClaimName(owner, Key(p, g)), OsrmFileName(url))],
                    PointedAll(model, {p}, g, url))
  {
    hide ClaimName, WorkerName, ProfileOf, OsrmFileName;
    var n := WorkerName(owner, p);
    WorkerEncoded(owner, deployments, model, p);
    ProfileOfWorker(owner, p);
    forall q | q in model ensures WorkerName(owner, q) == n ==> q == p { ProfileOfWorker(owner, q); }
  }

  lemma ClaimDropped(owner: string, pvcs: map<string, Pvc>, model: map<Key, bool>, n: string)
    requires ClaimsEncode(owner, pvcs, model) && n in pvcs
    ensures KeyOf(owner, n) in model && ClaimName(owner, KeyOf(owner, n)) == n
    ensures ClaimsEncode(owner, pvcs - {n}, model - {KeyOf(owner, n)})
  {
    hide ClaimName, KeyOf;
    KeysDrop(owner, pvcs.Keys, model.Keys, n);
    assert (pvcs - {n}).Keys == pvcs.Keys - {n};
    assert (model - {KeyOf(owner, n)}).Keys == model.Keys - {KeyOf(owner, n)};
  }

  lemma JobDropped(owner: string, jobs: map<string, MapJob>, model: map<Key, Job>, n: string)
    requires JobsEncode(owner, jobs, model) && n in jobs
    ensures KeyOf(owner, n) in model && ClaimName(owner, KeyOf(owner, n)) == n
    ensures JobsEncode(owner, jobs - {n}, model - {KeyOf(owner, n)})
  {
    hide ClaimName, KeyOf;
    KeysDrop(owner, jobs.Keys, model.Keys, n);
    assert (jobs - {n}).Keys == jobs.Keys - {n};
    assert (model - {KeyOf(owner, n)}).Keys == model.Keys - {KeyOf(owner, n)};
  }

  lemma WorkerDropped(owner: string, deployments: map<string, Deployment>, model: map<string, Worker>, n: string)
    requires WorkersEncode(owner, deployments, model) && n in deployments
    ensures ProfileOf(owner, n) in model && WorkerName(owner, ProfileOf(owner, n)) == n
    ensures WorkersEncode(owner, deployments - {n}, model - {ProfileOf(owner, n)})
  {
    hide WorkerName, ClaimName, ProfileOf, OsrmFileName;
    var p := ProfileOf(owner, n);
    forall q | q in model - {p} ensures WorkerName(owner, q) in deployments - {n} { ProfileOfWorker(owner, q); }
  }

  // ---------- reports of status ----------

  /** What Kubernetes reports of named objects: the status of claims, all the conditions of Jobs, whatever
      they say, and ready and wanted replicas.  Objects that are not mentioned keep their status. */
  datatype News = News(claims: map<string, ClaimStatus>, conditions: map<string, seq<JobCondition>>,
                       replicas: map<string, (nat, nat)>)

  function BoundAfter(owner: string, model: map<Key, bool>, claims: map<string, ClaimStatus>): set<Key> {
    set k | k in model &&
      if ClaimName(owner, k) in claims then claims[ClaimName(owner, k)] == Bound else model[k]
  }

  function CompleteAfter(owner: string, model: map<Key, Job>, conditions: map<string, seq<JobCondition>>): set<Key> {
    set k | k in model &&
      if ClaimName(owner, k) in conditions then SaysComplete(conditions[ClaimName(owner, k)]) else model[k].complete
  }

  /** What a report about named objects tells the World. */
  function StatusOf(owner: string, w: World, news: News): Step {
    Status(BoundAfter(owner, w.pvcs, news.claims), CompleteAfter(owner, w.jobs, news.conditions),
           map p | p in w.workers && WorkerName(owner, p) in news.replicas :: news.replicas[WorkerName(owner, p)])
  }

  /** A claim is bound if its status says so, and a map is finished if its Job has a condition Complete that
      is True; a Job that has failed, or whose Complete is False, is an unfinished one. */
  lemma NewsIs(owner: string, w: World, news: News, k: Key)
    ensures k in StatusOf(owner, w, news).bound <==>
      k in w.pvcs && if ClaimName(owner, k) in news.claims then news.claims[ClaimName(owner, k)] == Bound else w.pvcs[k]
    ensures k in StatusOf(owner, w, news).complete <==>
      k in w.jobs &&
        if ClaimName(owner, k) in news.conditions
        then exists c :: c in news.conditions[ClaimName(owner, k)] && c.kind == "Complete" && c.status == "True"
        else w.jobs[k].complete
  {
    hide ClaimName, WorkerName;
    if ClaimName(owner, k) in news.conditions { CompleteIs(MapJob("", "", news.conditions[ClaimName(owner, k)])); }
  }

  function ReportedClaims(pvcs: map<string, Pvc>, claims: map<string, ClaimStatus>): map<string, Pvc> {
    map n | n in pvcs :: if n in claims then pvcs[n].(status := claims[n]) else pvcs[n]
  }

  function ReportedJobs(jobs: map<string, MapJob>, conditions: map<string, seq<JobCondition>>): map<string, MapJob> {
    map n | n in jobs :: if n in conditions then jobs[n].(conditions := conditions[n]) else jobs[n]
  }

  function ReportedWorkers(deployments: map<string, Deployment>, replicas: map<string, (nat, nat)>)
    : map<string, Deployment>
  {
    map n | n in deployments ::
      if n in replicas then deployments[n].(readyReplicas := replicas[n].0, replicas := replicas[n].1)
      else deployments[n]
  }

  lemma ClaimsReported(owner: string, pvcs: map<string, Pvc>, model: map<Key, bool>, claims: map<string, ClaimStatus>)
    requires ClaimsEncode(owner, pvcs, model)
    ensures ClaimsEncode(owner, ReportedClaims(pvcs, claims),
                         map k | k in model :: k in BoundAfter(owner, model, claims))
  {
    hide KeysEncode, ClaimName;
    SameNames(owner, pvcs.Keys, model.Keys);
    assert ReportedClaims(pvcs, claims).Keys == pvcs.Keys;
    assert (map k | k in model :: k in BoundAfter(owner, model, claims)).Keys == model.Keys;
  }

  /** Objects take over what is reported of them, all of it, and are otherwise as they were. */
  lemma ObjectsReported(pvcs: map<string, Pvc>, jobs: map<string, MapJob>, deployments: map<string, Deployment>,
                        news: News, n: string)
    ensures var ps, js := ReportedClaims(pvcs, news.claims), ReportedJobs(jobs, news.conditions);
      var ds := ReportedWorkers(deployments, news.replicas);
      && (n in ps <==> n in pvcs) && (n in js <==> n in jobs) && (n in ds <==> n in deployments)
      && (n in pvcs ==>
            ps[n] == Pvc(pvcs[n].name, if n in news.claims then news.claims[n] else pvcs[n].status))
      && (n in jobs ==>
            js[n] == MapJob(jobs[n].name, jobs[n].pbfUrl,
                            if n in news.conditions then news.conditions[n] else jobs[n].conditions))
      && (n in deployments ==>
            var d := deployments[n];
            var (ready, replicas) := if n in news.replicas then news.replicas[n] else (d.readyReplicas, d.replicas);
            ds[n] == Deployment(d.name, d.volumes, d.file, ready, replicas))
  {
  }

  lemma SameNames(owner: string, names: set<string>, keys: set<Key>)
    requires KeysEncode(owner, names, keys)
    ensures forall k :: k in keys ==> ClaimName(owner, k) in names
  {
  }

  lemma JobsReported(owner: string, jobs: map<string, MapJob>, model: map<Key, Job>,
                     conditions: map<string, seq<JobCondition>>)
    requires JobsEncode(owner, jobs, model)
    ensures JobsEncode(owner, ReportedJobs(jobs, conditions),
                       map k | k in model :: Job(model[k].url, k in CompleteAfter(owner, model, conditions)))
  {
    hide KeysEncode, ClaimName, SaysComplete;
    SameNames(owner, jobs.Keys, model.Keys);
    assert ReportedJobs(jobs, conditions).Keys == jobs.Keys;
    var reported := map k | k in model :: Job(model[k].url, k in CompleteAfter(owner, model, conditions));
    assert reported.Keys == model.Keys;
  }

  lemma WorkersReported(owner: string, deployments: map<string, Deployment>, model: map<string, Worker>,
                        replicas: map<string, (nat, nat)>)
    requires WorkersEncode(owner, deployments, model)
    ensures var named := map p | p in model && WorkerName(owner, p) in replicas :: replicas[WorkerName(owner, p)];
      WorkersEncode(owner, ReportedWorkers(deployments, replicas),
                    map p | p in model ::
                      if p in named then model[p].(ready := named[p].0, replicas := named[p].1) else model[p])
  {
    hide WorkersNamed, WorkerName, ClaimName, OsrmFileName;
    SameWorkerNames(owner, deployments.Keys, model.Keys);
    var named := map p | p in model && WorkerName(owner, p) in replicas :: replicas[WorkerName(owner, p)];
    var reported := map p | p in model ::
      if p in named then model[p].(ready := named[p].0, replicas := named[p].1) else model[p];
    assert ReportedWorkers(deployments, replicas).Keys == deployments.Keys;
    assert reported.Keys == model.Keys;
  }

  lemma SameWorkerNames(owner: string, names: set<string>, profiles: set<string>)
    requires WorkersNamed(owner, names, profiles)
    ensures forall p :: p in profiles ==> WorkerName(owner, p) in names
  {
  }

  /** Objects that stand for a World still do after a report. */
  lemma EncodesReport(owner: string, s: Store, w: World, news: News)
    requires Encodes(owner, s, w)
    ensures Encodes(owner,
                    Store(ReportedClaims(s.pvcs, news.claims), ReportedJobs(s.jobs, news.conditions),
                          ReportedWorkers(s.deployments, news.replicas)),
                    Do(w, StatusOf(owner, w, news)))
  {
    hide ClaimsEncode, JobsEncode, WorkersEncode, BoundAfter, CompleteAfter, ReportedClaims, ReportedJobs,
         ReportedWorkers, WorkerName;
    ClaimsReported(owner, s.pvcs, w.pvcs, news.claims);
    JobsReported(owner, s.jobs, w.jobs, news.conditions);
    WorkersReported(owner, s.deployments, w.workers, news.replicas);
  }
}
