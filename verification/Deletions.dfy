/**
 Single builders and deletions, and what they amount to in the protocol.
 */
module Deletions {
  import opened Strings
  import opened Names
  import opened Protocol
  import opened Safety
  import opened Objects
  import opened Children
  import opened Builders
  import opened Encoding
  import opened Interruptions
  import opened Listing

  // ---------- single builders ----------

  lemma ApplyClaim(w: World, k: Key, g: nat)
    ensures Apply(w, Effects({k}, {}, {}, g)) == w.(pvcs := Ensured(w.pvcs, {k}, false))
  {
    assert Ensured(w.jobs, {}, Job(w.url, false)) == w.jobs;
    assert PointedAll(w.workers, {}, g, w.url) == w.workers;
  }

  lemma ApplyMap(w: World, k: Key, g: nat)
    ensures Apply(w, Effects({}, {k}, {}, g)) == w.(jobs := Ensured(w.jobs, {k}, Job(w.url, false)))
  {
    assert Ensured(w.pvcs, {}, false) == w.pvcs;
    assert PointedAll(w.workers, {}, g, w.url) == w.workers;
  }

  lemma ApplyMount(w: World, p: string, g: nat)
    ensures Apply(w, Effects({}, {}, {p}, g)) == w.(workers := PointedAll(w.workers, {p}, g, w.url))
  {
    assert Ensured(w.pvcs, {}, false) == w.pvcs;
    assert Ensured(w.jobs, {}, Job(w.url, false)) == w.jobs;
  }

  function Effect(b: Builder, g: nat): Effects {
    match b
    case PersistentVolumeClaim(p, _) => Effects({Key(p.name, g)}, {}, {}, g)
    case MapBuilder(p, _) => Effects({}, {Key(p.name, g)}, {}, g)
    case WorkerDeployment(p, _) => Effects({}, {}, {p.name}, g)
    case _ => Effects({}, {}, {}, g)
  }

  lemma OneBuilder(w: World, b: Builder, g: nat)
    ensures ListEffects([b], g) == Effect(b, g)
    ensures !b.PersistentVolumeClaim? && !b.MapBuilder? && !b.WorkerDeployment? ==> Apply(w, ListEffects([b], g)) == w
  {
    assert [b][0] in [b];
    ApplyNothing(w, g);
  }

  // ---------- what the deletions amount to ----------

  lemma StrayClaims(owner: string, v: World, pvcs: map<string, Pvc>, ps: set<Key>, expected: set<string>)
    requires ClaimsEncode(owner, pvcs, v.pvcs) && forall p :: p in v.profiles ==> Plain(p)
    requires expected == ExpectedClaims(owner, v.profiles, v.phase, Itoa(Act(v)), Itoa(Fut(v)))
    requires forall k :: k in ps ==> k in v.pvcs && ClaimName(owner, k) !in expected
    ensures forall k :: k in ps ==> Stray(v, k)
  {
    forall k | k in ps ensures Stray(v, k) { ExpectedClaim(owner, v.profiles, v.phase, Act(v), Fut(v), k); }
  }

  lemma StrayJobs(owner: string, v: World, jobs: map<string, MapJob>, js: set<Key>, expected: set<string>)
    requires JobsEncode(owner, jobs, v.jobs) && forall p :: p in v.profiles ==> Plain(p)
    requires expected == ExpectedClaims(owner, v.profiles, v.phase, Itoa(Act(v)), Itoa(Fut(v)))
    requires forall k :: k in js ==> k in v.jobs && ClaimName(owner, k) !in expected
    ensures forall k :: k in js ==> Stray(v, k)
  {
    forall k | k in js ensures Stray(v, k) { ExpectedClaim(owner, v.profiles, v.phase, Act(v), Fut(v), k); }
  }

  lemma ClaimsCollected(owner: string, v: World, pvcs: map<string, Pvc>, left: map<string, Pvc>, model: map<Key, bool>,
                        items: seq<Pvc>, expected: set<string>)
    requires ClaimsEncode(owner, pvcs, v.pvcs) && ListOf(items, pvcs) && forall p :: p in v.profiles ==> Plain(p)
    requires expected == ExpectedClaims(owner, v.profiles, v.phase, Itoa(Act(v)), Itoa(Fut(v)))
    requires ClaimsEncode(owner, left, model) && forall pvc :: pvc in items && pvc.name in left ==> pvc.name in expected
    requires forall k :: k in model ==> k in v.pvcs && model[k] == v.pvcs[k]
    requires forall k :: k in v.pvcs && !Stray(v, k) ==> k in model
    ensures model == Collect(v).pvcs
  {
    hide ChildResourceName, ClaimName, KeyOf, ExpectedClaims, IsBound;
    forall k | k in model ensures Expected(v, Act(v), Fut(v), k) {
      var n := ClaimName(owner, k);
      assert pvcs[n] in items && n in left;
      ExpectedClaim(owner, v.profiles, v.phase, Act(v), Fut(v), k);
    }
  }

  lemma JobsCollected(owner: string, v: World, jobs: map<string, MapJob>, left: map<string, MapJob>,
                      model: map<Key, Job>,
                      items: seq<MapJob>, expected: set<string>)
    requires JobsEncode(owner, jobs, v.jobs) && ListOf(items, jobs) && forall p :: p in v.profiles ==> Plain(p)
    requires expected == ExpectedClaims(owner, v.profiles, v.phase, Itoa(Act(v)), Itoa(Fut(v)))
    requires JobsEncode(owner, left, model) && forall job :: job in items && job.name in left ==> job.name in expected
    requires forall k :: k in model ==> k in v.jobs && model[k] == v.jobs[k]
    requires forall k :: k in v.jobs && !Stray(v, k) ==> k in model
    ensures model == Collect(v).jobs
  {
    hide ChildResourceName, ClaimName, KeyOf, ExpectedClaims, JobComplete;
    forall k | k in model ensures Expected(v, Act(v), Fut(v), k) {
      var n := ClaimName(owner, k);
      assert jobs[n] in items && n in left;
      ExpectedClaim(owner, v.profiles, v.phase, Act(v), Fut(v), k);
    }
  }

  /** The empty name is that of an instance's only worker, and of a cluster's gateway. */
  predicate Fits(anonymous: bool, profiles: seq<string>, workers: set<string>) {
    if anonymous then profiles == [""] && workers <= {""} else "" !in profiles && "" !in workers
  }

  lemma PlainProfiles(profiles: seq<ProfileSpec>)
    requires forall n :: n in NamesOf(profiles) ==> Plain(n)
    ensures forall p :: p in profiles ==> Plain(p.name) && p.name in NamesOf(profiles)
  {
    forall p | p in profiles ensures Plain(p.name) && p.name in NamesOf(profiles) { NamedProfile(profiles, p.name); }
  }

  /** What garbage collection keeps of the workers, on names and in the protocol. */
  lemma ExpectedWorker(owner: string, anonymous: bool, profiles: seq<ProfileSpec>, workers: map<string, Worker>,
                       p: string)
    requires WellNamed(owner) && Plain(p) && (forall q :: q in profiles ==> Plain(q.name)) && p in workers
    requires Fits(anonymous, NamesOf(profiles), workers.Keys)
        && forall q :: q in profiles ==> q.name in NamesOf(profiles)
    ensures WorkerName(owner, p) in ExpectedNames(owner, profiles) <==>
      p in NamesOf(profiles) || LooksLikeCron(TrafficOf(profiles), p)
  {
    hide WorkerName, ExpectedNames, NamesOf, TrafficOf, LooksLikeCron;
    if anonymous {
      AnonymousExpected(owner, profiles);
    } else {
      WorkerSurvives(owner, profiles, p);
    }
  }

  lemma AnonymousExpected(owner: string, profiles: seq<ProfileSpec>)
    requires NamesOf(profiles) == [""]
    ensures WorkerName(owner, "") in ExpectedNames(owner, profiles)
  {
    assert |profiles| == |NamesOf(profiles)|;
  }

  /** A worker that garbage collection deletes. */
  predicate StrayWorker(v: World, p: string) {
    p !in v.profiles && !LooksLikeCron(v.traffic, p)
  }

  lemma OnlyStrayWorkers(owner: string, anonymous: bool, v: World, profiles: seq<ProfileSpec>, ws: set<string>)
    requires WellNamed(owner) && v.profiles == NamesOf(profiles) && v.traffic == TrafficOf(profiles)
    requires forall n :: n in v.profiles ==> Plain(n)
    requires Fits(anonymous, v.profiles, v.workers.Keys) && forall p :: p in v.workers ==> Plain(p)
    requires forall p :: p in ws ==> p in v.workers && WorkerName(owner, p) !in ExpectedNames(owner, profiles)
    ensures forall p :: p in ws ==> StrayWorker(v, p)
  {
    hide WorkerName, ExpectedNames, NamesOf, TrafficOf, LooksLikeCron;
    PlainProfiles(profiles);
    forall p | p in ws ensures StrayWorker(v, p) { ExpectedWorker(owner, anonymous, profiles, v.workers, p); }
  }

  lemma WorkersCollected(owner: string, anonymous: bool, v: World, profiles: seq<ProfileSpec>, ws: set<string>,
                         left: map<string, Deployment>, model: map<string, Worker>)
    requires WellNamed(owner) && v.profiles == NamesOf(profiles) && v.traffic == TrafficOf(profiles)
    requires forall n :: n in v.profiles ==> Plain(n)
    requires Fits(anonymous, v.profiles, v.workers.Keys)
    requires model == v.workers - ws && forall p :: p in ws ==> StrayWorker(v, p)
    requires WorkersEncode(owner, left, model) && forall n :: n in left ==> n in ExpectedNames(owner, profiles)
    ensures model == KeptWorkers(v.workers, v.profiles, v.traffic)
    ensures forall p :: p in v.workers && StrayWorker(v, p) ==> p in ws
  {
    hide WorkerName, ExpectedNames, ProfileOf, NamesOf, TrafficOf, LooksLikeCron, WorkerEncodes;
    PlainProfiles(profiles);
    forall p | p in model ensures !StrayWorker(v, p) { ExpectedWorker(owner, anonymous, profiles, v.workers, p); }
  }

  /** Collection stopped among the workers. */
  lemma WorkersGone(v: World, ws: set<string>)
    requires forall p :: p in ws ==> StrayWorker(v, p)
    ensures Deletable(v, ws, {}, {}) && v.(workers := v.workers - ws) == Deleted(v, ws, {}, {})
    ensures InRange(v) ==> InRange(v.(workers := v.workers - ws))
  {
    hide LooksLikeCron;
    assert v.pvcs - {} == v.pvcs && v.jobs - {} == v.jobs;
  }

  lemma SameGenerations(v: World, u: World)
    requires u == v.(workers := KeptWorkers(v.workers, v.profiles, v.traffic))
    ensures Act(u) == Act(v) && Fut(u) == Fut(v)
    ensures forall k :: Stray(u, k) <==> Stray(v, k)
    ensures Collect(u).pvcs == Collect(v).pvcs && Collect(u).jobs == Collect(v).jobs
  {
    hide LooksLikeCron;
    ActiveSame(v.profiles, v.workers, u.workers);
  }

  /** Workers first, then claims, then Jobs: what has been deleted when collection ends or fails. */
  lemma CollectedInTwo(v: World, u: World, x: World, ok: bool, ws: set<string>, ps: set<Key>, js: set<Key>)
    requires u == v.(workers := v.workers - ws) && u.workers == KeptWorkers(v.workers, v.profiles, v.traffic)
    requires (forall p :: p in ws ==> StrayWorker(v, p)) && forall p :: p in v.workers && StrayWorker(v, p) ==> p in ws
    requires forall k :: k in ps + js ==> Stray(u, k)
    requires x == u.(pvcs := u.pvcs - ps, jobs := u.jobs - js)
    requires js != {} || ok ==> x.pvcs == Collect(u).pvcs
    requires ok ==> x.jobs == Collect(u).jobs
    ensures Deletable(v, ws, ps, js) && x == Deleted(v, ws, ps, js)
    ensures ok ==> x == Collect(v)
  {
    hide LooksLikeCron, Act, Fut;
    SameGenerations(v, u);
    if js != {} {
      forall k | k in v.pvcs && Stray(v, k) ensures k in ps { assert k !in Collect(u).pvcs; }
    }
  }

  // ---------- how many there are ----------

  lemma FewerElements<T>(a: set<T>, b: set<T>)
    requires a <= b
    ensures |a| <= |b|
  {
    assert b == a + (b - a);
  }

  lemma FewerKeys<K, V, U>(a: map<K, V>, b: map<K, U>)
    requires a.Keys <= b.Keys
    ensures |a| <= |b|
  {
    FewerElements(a.Keys, b.Keys);
  }

  lemma MoreKeys<K, V>(a: map<K, V>, b: map<K, V>)
    ensures |a + b| <= |a| + |b|
  {
    assert (a + b).Keys == a.Keys + b.Keys;
    assert |a.Keys + b.Keys| <= |a.Keys| + |b.Keys|;
  }

  lemma OneOut(owner: string, spec: ClusterSpec, c: map<Ref, Child>, siblings: map<Ref, Child>, b: Builder)
    ensures |c + Out(owner, spec, siblings, b)| <= |c| + 1
    ensures b.PersistentVolumeClaim? || b.MapBuilder? || b.WorkerDeployment? ==> c + Out(owner, spec, siblings, b) == c
  {
    MoreKeys(c, Out(owner, spec, siblings, b));
  }

  function NamesOfKind(c: map<Ref, Child>, kind: Kind): set<string> {
    set r | r in c && r.kind == kind :: r.name
  }

  lemma FewNames(c: map<Ref, Child>, kind: Kind, others: set<string>)
    ensures |NamesOfKind(c, kind)| <= |c| && |others + NamesOfKind(c, kind)| <= |others| + |c|
  {
    var names := NamesOfKind(c, kind);
    Referred(kind, names);
    FewerElements(set n | n in names :: Ref(kind, n), c.Keys);
    assert |others + names| <= |others| + |names|;
  }

  lemma {:induction false} Referred(kind: Kind, names: set<string>)
    ensures |set n | n in names :: Ref(kind, n)| == |names|
  {
    if names != {} {
      var m :| m in names;
      Referred(kind, names - {m});
      var rest := set n | n in names - {m} :: Ref(kind, n);
      assert (set n | n in names :: Ref(kind, n)) == rest + {Ref(kind, m)};
    }
  }

  // ---------- children ----------

  ghost predicate Spared(before: map<Ref, Child>, after: map<Ref, Child>, expected: set<string>) {
    && (forall r :: r in after ==> r in before && after[r] == before[r])
    && (forall r :: r in before && r.name in expected ==> r in after)
  }

  /** Of one kind, the unexpected among the names seen so far are gone. */
  ghost predicate Sweeping(before: map<Ref, Child>, after: map<Ref, Child>, kind: Kind, expected: set<string>,
                           seen: seq<string>)
  {
    && Spared(before, after, expected)
    && (forall r :: r in before && r !in after ==> r.kind == kind)
    && (forall r :: r in after && r.kind == kind && r.name in seen ==> r.name in expected)
  }

  lemma SweepStarts(c: map<Ref, Child>, kind: Kind, expected: set<string>)
    ensures Sweeping(c, c, kind, expected, [])
  {
  }

  lemma SweepSpares(before: map<Ref, Child>, after: map<Ref, Child>, kind: Kind, expected: set<string>,
                    seen: seq<string>, n: string)
    requires Sweeping(before, after, kind, expected, seen)
    ensures Spared(before, after, expected)
    ensures n in expected ==> Sweeping(before, after, kind, expected, seen + [n])
    ensures n !in expected ==> Sweeping(before, after - {Ref(kind, n)}, kind, expected, seen + [n])
  {
  }

  lemma SweepEnds(before: map<Ref, Child>, after: map<Ref, Child>, kind: Kind, expected: set<string>, seen: seq<string>)
    requires Sweeping(before, after, kind, expected, seen) && forall n :: n in NamesOfKind(before, kind) ==> n in seen
    ensures Spared(before, after, expected) && after == KeptKind(before, kind, expected)
  {
  }

  lemma SparedTwice(a: map<Ref, Child>, b: map<Ref, Child>, c: map<Ref, Child>, expected: set<string>)
    requires Spared(a, b, expected) && Spared(b, c, expected)
    ensures Spared(a, c, expected) && |b| <= |a| && |c| <= |a|
  {
    FewerKeys(b, a);
    FewerKeys(c, a);
  }

  lemma NothingGone(workers: map<string, Worker>)
    ensures workers - {} == workers
  {
  }

  function KeptKind(children: map<Ref, Child>, kind: Kind, expected: set<string>): map<Ref, Child> {
    map r | r in children && (r.kind == kind ==> r.name in expected) :: children[r]
  }

  /** The kinds that garbage collection lists; an OSRMInstance has no ConfigMap. */
  const KINDS: set<Kind> := {CronJobs, Deployments, Autoscalers, DisruptionBudgets, Services}

  function KindsOf(anonymous: bool): set<Kind> {
    if anonymous then KINDS else KINDS + {ConfigMaps}
  }

  lemma OneMoreKind(c: map<Ref, Child>, kinds: set<Kind>, kind: Kind, expected: set<string>)
    ensures KeptKind(KeptKinds(c, kinds, expected), kind, expected) == KeptKinds(c, kinds + {kind}, expected)
  {
  }

  lemma EitherKinds(anonymous: bool)
    ensures KindsOf(anonymous) == if anonymous then KINDS else KINDS + {ConfigMaps}
  {
  }

  lemma NoKind(c: map<Ref, Child>, expected: set<string>)
    ensures KeptKinds(c, {}, expected) == c
  {
  }

  /** For a cluster nothing is overlooked. */
  lemma AllKinds(c: map<Ref, Child>, expected: set<string>)
    ensures KeptKinds(c, KindsOf(false), expected) == KeptChildren(c, expected)
  {
    forall k: Kind ensures k in KindsOf(false) {
      match k {
        case CronJobs => case Deployments => case Autoscalers =>
        case DisruptionBudgets => case Services => case ConfigMaps =>
      }
    }
  }

  lemma FiveKinds()
    ensures {} + {CronJobs} + {Deployments} + {Autoscalers} + {DisruptionBudgets} + {Services} == KINDS
  {
  }

  lemma EveryKind(c0: map<Ref, Child>, expected: set<string>)
    ensures var c1 := KeptKind(c0, CronJobs, expected);
      var c2 := KeptKind(c1, Deployments, expected);
      var c3 := KeptKind(c2, Autoscalers, expected);
      var c4 := KeptKind(c3, DisruptionBudgets, expected);
      KeptKind(c4, Services, expected) == KeptKinds(c0, KINDS, expected)
  {
    hide *;
    NoKind(c0, expected);
    OneMoreKind(c0, {}, CronJobs, expected);
    OneMoreKind(c0, {} + {CronJobs}, Deployments, expected);
    OneMoreKind(c0, {} + {CronJobs} + {Deployments}, Autoscalers, expected);
    OneMoreKind(c0, {} + {CronJobs} + {Deployments} + {Autoscalers}, DisruptionBudgets, expected);
    OneMoreKind(c0, {} + {CronJobs} + {Deployments} + {Autoscalers} + {DisruptionBudgets}, Services, expected);
    FiveKinds();
  }

  lemma NoBuilder(owner: string, spec: ClusterSpec, siblings: map<Ref, Child>, w: World, g: nat)
    ensures Apply(w, ListEffects([], g)) == w
    ensures OutAll(owner, spec, siblings, []) == map[]
  {
    ApplyNothing(w, g);
  }

  lemma OneMoreEffect(w: World, bs: seq<Builder>, b: Builder, g: nat)
    ensures Apply(Apply(w, ListEffects(bs, g)), ListEffects([b], g)) == Apply(w, ListEffects(bs + [b], g))
  {
    ApplyTwice(w, ListEffects(bs, g), ListEffects([b], g));
    var e := Both(ListEffects(bs, g), ListEffects([b], g));
    assert e.claims == ListEffects(bs + [b], g).claims;
    assert e.maps == ListEffects(bs + [b], g).maps;
    assert e.mounts == ListEffects(bs + [b], g).mounts;
  }
}
