/**
 The map-generation protocol of one OSRMCluster, on objects keyed by profile and generation.

 A generation is one PersistentVolumeClaim and one map-builder Job per profile.  No counter is
 stored: the served ("active") generation is read from a worker Deployment's claim, the newest
 ("future") one from the claims that exist.  `Pass` is one complete reconciliation; the module
 Controller proves that the loops over named Kubernetes objects compute it.
 */
module Protocol {
  datatype Phase =
    | Empty
    | BuildingMap
    | UpdatingMap
    | RedeployingWorkers
    | DeployingWorkers
    | WorkersDeployed
    | WorkersRedeployed

  datatype Key = Key(profile: string, gen: nat)

  /** A map-builder Job: the PBF_URL fixed when it was created, and whether it has completed. */
  datatype Job = Job(url: string, complete: bool)

  /** A worker Deployment: the generation of the claim it mounts, the URL that names the file it
      opens, and its status. */
  datatype Worker = Worker(gen: nat, opens: string, ready: nat, replicas: nat)

  datatype World = World(
    url: string,                    // spec.pbfUrl
    profiles: seq<string>,          // the names in spec.profiles, in order
    traffic: set<string>,           // those of them with speed updates, and so with a CronJob
    lastUrl: string,                // pbfUrl in the last-applied-spec annotation; "" without one
    phase: Phase,                   // status.phase
    pvcs: map<Key, bool>,           // is the claim bound?
    jobs: map<Key, Job>,
    workers: map<string, Worker>)   // by profile name

  function Init(url: string, profiles: seq<string>, traffic: set<string>): World {
    World(url, profiles, traffic, "", Empty, map[], map[], map[])
  }

  // ---------- what a pass reads ----------

  /** The generation mounted by the first profile of the spec that has a worker; 1 if none has. */
  function Active(profiles: seq<string>, workers: map<string, Worker>): nat {
    if profiles == [] then 1
    else if profiles[0] in workers then workers[profiles[0]].gen
    else Active(profiles[1..], workers)
  }

  ghost predicate IsNewest(keys: set<Key>, r: nat) {
    && r >= 1
    && (forall k :: k in keys ==> k.gen <= r)
    && (r == 1 || exists k :: k in keys && k.gen == r)
  }

  lemma NewestExists(keys: set<Key>)
    ensures exists r :: IsNewest(keys, r)
  {
    if keys == {} {
      assert IsNewest(keys, 1);
    } else {
      var k :| k in keys;
      NewestExists(keys - {k});
      var r :| IsNewest(keys - {k}, r);
      assert IsNewest(keys, if k.gen > r then k.gen else r);
    }
  }

  /** The highest generation of any claim, and at least 1. */
  ghost function Newest(keys: set<Key>): (r: nat)
    ensures IsNewest(keys, r)
  {
    NewestExists(keys);
    var r :| IsNewest(keys, r);
    r
  }

  /** A bound claim and a complete Job for every profile of the spec. */
  predicate Built(w: World, g: nat) {
    forall p :: p in w.profiles ==>
      var k := Key(p, g);
      k in w.pvcs && w.pvcs[k] && k in w.jobs && w.jobs[k].complete
  }

  predicate Ready(d: Worker) {
    d.ready > 0 && d.ready == d.replicas
  }

  predicate AllReady(w: World) {
    forall p :: p in w.profiles ==> p in w.workers && Ready(w.workers[p])
  }

  function Act(w: World): nat {
    Active(w.profiles, w.workers)
  }

  ghost function Fut(w: World): nat {
    Newest(w.pvcs.Keys)
  }

  ghost function DeterminePhase(w: World): Phase {
    if w.profiles == [] then Empty
    else if !Built(w, Act(w)) then BuildingMap
    else if w.url != w.lastUrl || !Built(w, Fut(w)) then UpdatingMap
    else if Act(w) != Fut(w) then RedeployingWorkers
    else if !AllReady(w) then (if Act(w) > 1 then RedeployingWorkers else DeployingWorkers)
    else if Act(w) > 1 then WorkersRedeployed
    else WorkersDeployed
  }

  predicate Deployed(ph: Phase) {
    ph == WorkersDeployed || ph == WorkersRedeployed
  }

  // ---------- what a pass writes ----------

  /** What a list of builders does: claims and Jobs to ensure, workers to point at one generation. */
  datatype Effects = Effects(claims: set<Key>, maps: set<Key>, mounts: set<string>, gen: nat)

  function Generation(profiles: seq<string>, g: nat): set<Key> {
    set p | p in profiles :: Key(p, g)
  }

  function BuildEffects(profiles: seq<string>, g: nat): Effects {
    Effects(Generation(profiles, g), Generation(profiles, g), {}, g)
  }

  function MountEffects(profiles: seq<string>, g: nat): Effects {
    Effects({}, {}, (set p | p in profiles), g)
  }

  function PhaseEffects(ph: Phase, profiles: seq<string>, active: nat, future: nat): Effects {
    match ph
    case Empty => Effects({}, {}, {}, active)
    case BuildingMap => BuildEffects(profiles, active)
    case UpdatingMap => BuildEffects(profiles, active + 1)
    case RedeployingWorkers => MountEffects(profiles, future)
    case DeployingWorkers => MountEffects(profiles, active)
    case WorkersDeployed => MountEffects(profiles, active)
    case WorkersRedeployed => MountEffects(profiles, active)
  }

  ghost function EffectsOf(w: World): Effects {
    PhaseEffects(DeterminePhase(w), w.profiles, Act(w), Fut(w))
  }

  /** A part of the work: whichever builders ran before the pass stopped. */
  predicate Part(e: Effects, whole: Effects) {
    e.gen == whole.gen && e.claims <= whole.claims && e.maps <= whole.maps && e.mounts <= whole.mounts
  }

  /** CreateOrUpdate of claims and Jobs: those that exist are left as they are. */
  function Ensured<V>(m: map<Key, V>, keys: set<Key>, created: V): map<Key, V> {
    map k | k in m.Keys + keys :: if k in m then m[k] else created
  }

  /** A rewritten Deployment keeps its status; a new one has none. */
  function Pointed(workers: map<string, Worker>, p: string, g: nat, url: string): Worker {
    if p in workers then workers[p].(gen := g, opens := url) else Worker(g, url, 0, 0)
  }

  /** CreateOrUpdate of Deployments: mounted claim and file name are rewritten. */
  function PointedAll(workers: map<string, Worker>, mounts: set<string>, g: nat, url: string): map<string, Worker> {
    map p | p in workers.Keys + mounts :: if p in mounts then Pointed(workers, p, g, url) else workers[p]
  }

  function Mounted(w: World, p: string, g: nat): Worker {
    Pointed(w.workers, p, g, w.url)
  }

  function Apply(w: World, e: Effects): World {
    w.(pvcs := Ensured(w.pvcs, e.claims, false),
       jobs := Ensured(w.jobs, e.maps, Job(w.url, false)),
       workers := PointedAll(w.workers, e.mounts, e.gen, w.url))
  }

  // ---------- garbage collection ----------

  predicate KeepsFuture(ph: Phase) {
    ph == UpdatingMap || ph == RedeployingWorkers || ph == DeployingWorkers
  }

  predicate IsExpected(profiles: seq<string>, ph: Phase, active: nat, future: nat, k: Key) {
    k.profile in profiles &&
    (k.gen == active || (active != future && KeepsFuture(ph) && k.gen == future))
  }

  predicate Expected(w: World, active: nat, future: nat, k: Key) {
    IsExpected(w.profiles, w.phase, active, future, k)
  }

  function Kept<V>(m: map<Key, V>, profiles: seq<string>, ph: Phase, active: nat, future: nat): map<Key, V> {
    map k | k in m && IsExpected(profiles, ph, active, future, k) :: m[k]
  }

  /** Expected names are not told apart by kind: the worker of profile p has the name of a CronJob. */
  predicate LooksLikeCron(traffic: set<string>, p: string) {
    exists q :: q in traffic && p == q + "-speed-updates"
  }

  function KeptWorkers(workers: map<string, Worker>, profiles: seq<string>, traffic: set<string>): map<string, Worker> {
    map p | p in workers && (p in profiles || LooksLikeCron(traffic, p)) :: workers[p]
  }

  /** No worker of a removed profile is taken for a CronJob of the spec. */
  predicate NoClash(w: World) {
    forall p :: p in w.workers && p !in w.profiles ==> !LooksLikeCron(w.traffic, p)
  }

  /** Garbage collection that has observed the given active and future generations. */
  function CollectSeen(w: World, active: nat, future: nat): World {
    w.(pvcs := Kept(w.pvcs, w.profiles, w.phase, active, future),
       jobs := Kept(w.jobs, w.profiles, w.phase, active, future),
       workers := KeptWorkers(w.workers, w.profiles, w.traffic))
  }

  ghost function Collect(w: World): World {
    CollectSeen(w, Act(w), Fut(w))
  }

  // ---------- a pass and a run ----------

  /** The builders have run and the annotation is written; garbage collection is still to come. */
  ghost function Written(w: World): World {
    Apply(w, EffectsOf(w)).(phase := DeterminePhase(w), lastUrl := w.url)
  }

  ghost function Pass(w: World): World {
    Collect(Written(w))
  }

  /** Which of the first three reads of a pass succeed; the code ignores their errors, and a list that
      could not be read counts as empty.  Garbage collection reads again and insists on success. */
  datatype Reads = Reads(claims: bool, jobs: bool, workers: bool)

  const ALL_READ := Reads(true, true, true)

  /** The world as the pass sees it when it determines the phase. */
  function Seen(w: World, r: Reads): World {
    w.(pvcs := if r.claims then w.pvcs else map[],
       jobs := if r.jobs then w.jobs else map[],
       workers := if r.workers then w.workers else map[])
  }

  ghost function WrittenSeeing(w: World, r: Reads): World {
    Apply(w, EffectsOf(Seen(w, r))).(phase := DeterminePhase(Seen(w, r)), lastUrl := w.url)
  }

  ghost function PassSeeing(w: World, r: Reads): World {
    Collect(WrittenSeeing(w, r))
  }

  /** The environment: a user edits the spec, or Kubernetes reports new status of the objects. */
  datatype Step =
    | Edit(url: string, profiles: seq<string>, traffic: set<string>)
    | Status(bound: set<Key>, complete: set<Key>, replicas: map<string, (nat, nat)>)
    | Reconcile

  function Report(w: World, bound: set<Key>, complete: set<Key>, replicas: map<string, (nat, nat)>): World {
    w.(pvcs := map k | k in w.pvcs :: k in bound,
       jobs := map k | k in w.jobs :: Job(w.jobs[k].url, k in complete),
       workers := map p | p in w.workers ::
         if p in replicas then w.workers[p].(ready := replicas[p].0, replicas := replicas[p].1)
         else w.workers[p])
  }

  ghost function Do(w: World, s: Step): World {
    match s
    case Edit(url, profiles, traffic) => w.(url := url, profiles := profiles, traffic := traffic)
    case Status(bound, complete, replicas) => Report(w, bound, complete, replicas)
    case Reconcile => Pass(w)
  }

  ghost function Run(w: World, steps: seq<Step>): World
    decreases |steps|
  {
    if steps == [] then w else Run(Do(w, steps[0]), steps[1..])
  }

  /** Status only moves forward: bound claims stay bound and complete Jobs stay complete. */
  ghost predicate Forward(w: World, s: Step)
    requires s.Status?
  {
    (forall k :: k in w.pvcs && w.pvcs[k] ==> k in s.bound) &&
    (forall k :: k in w.jobs && w.jobs[k].complete ==> k in s.complete)
  }

  // ---------- passes that stop half way ----------

  /** The pass ran some of its builders and stopped before the annotation. */
  ghost function StoppedSeeing(w: World, r: Reads, e: Effects): World {
    Apply(w, e).(phase := DeterminePhase(Seen(w, r)))
  }

  ghost predicate Stray(v: World, k: Key) {
    !Expected(v, Act(v), Fut(v), k)
  }

  /** What garbage collection may have deleted when it stops: stray workers first, then stray claims,
      then stray Jobs. */
  ghost predicate Deletable(v: World, workers: set<string>, pvcs: set<Key>, jobs: set<Key>) {
    && (forall p :: p in workers ==> p !in v.profiles && !LooksLikeCron(v.traffic, p))
    && (forall k :: k in pvcs + jobs ==> Stray(v, k))
    && (pvcs + jobs != {} ==>
          forall p :: p in v.workers && p !in v.profiles && !LooksLikeCron(v.traffic, p) ==> p in workers)
    && (jobs != {} ==> forall k :: k in v.pvcs && Stray(v, k) ==> k in pvcs)
  }

  function Deleted(v: World, workers: set<string>, pvcs: set<Key>, jobs: set<Key>): World {
    v.(workers := v.workers - workers, pvcs := v.pvcs - pvcs, jobs := v.jobs - jobs)
  }

  /** Everything that can happen to the objects of a cluster. */
  datatype Event =
    | Env(step: Step)                                                       // Edit or Status
    | Stop(read: Reads, e: Effects)                                         // before the annotation
    | StopCollecting(read: Reads, workers: set<string>, pvcs: set<Key>, jobs: set<Key>)  // with these deleted
    | Complete(read: Reads)

  ghost function Happen(w: World, ev: Event): World {
    match ev
    case Env(s) => Do(w, s)
    case Stop(r, e) => StoppedSeeing(w, r, e)
    case StopCollecting(r, ws, ps, js) => Deleted(WrittenSeeing(w, r), ws, ps, js)
    case Complete(r) => PassSeeing(w, r)
  }

  /** Workers are rewritten in the order of the spec. */
  predicate InOrder(mounts: set<string>, profiles: seq<string>) {
    exists n :: 0 <= n <= |profiles| && mounts == FirstOf(profiles, n)
  }

  function FirstOf(profiles: seq<string>, n: nat): set<string>
    requires n <= |profiles|
  {
    set p | p in profiles[..n]
  }

  /** What the controller and its environment can do in w. */
  ghost predicate Possible(w: World, ev: Event) {
    match ev
    case Env(s) => !s.Reconcile?
    case Stop(r, e) => Part(e, EffectsOf(Seen(w, r))) && InOrder(e.mounts, w.profiles)
    case StopCollecting(r, ws, ps, js) => Deletable(WrittenSeeing(w, r), ws, ps, js)
    case Complete(_) => true
  }

  ghost function History(w: World, evs: seq<Event>): World
    decreases |evs|
  {
    if evs == [] then w else History(Happen(w, evs[0]), evs[1..])
  }
}
