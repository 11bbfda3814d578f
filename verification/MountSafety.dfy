/**
 No worker Deployment ever mounts a claim that does not exist, even when passes stop half way, or
 cannot read what is there.
 */
module MountSafety {
  import opened Protocol
  import opened Safety
  import opened Interruptions

  // ---------- one complete pass, from any state at all ----------

  ghost predicate OnGen(w: World, g: nat) {
    forall p :: p in w.profiles && p in w.workers ==> w.workers[p].gen == g
  }

  /** What garbage collection spares when the pass has only built maps.  It reads the generation that
      is served and the newest one, whatever the pass itself has read. */
  ghost predicate Spares(w: World, r: Reads) {
    match DeterminePhase(Seen(w, r))
    case BuildingMap => OnGen(w, Act(w))
    case UpdatingMap =>
      var next := Act(Seen(w, r)) + 1;
      forall p :: p in w.profiles && p in w.workers ==>
        w.workers[p].gen == Act(w) || w.workers[p].gen == (if Fut(w) > next then Fut(w) else next)
    case _ => true
  }

  /** What the pass sees once it gets beyond building the served map. */
  lemma SeenClaims(w: World, r: Reads)
    requires DeterminePhase(Seen(w, r)) != BuildingMap && DeterminePhase(Seen(w, r)) != Empty
    ensures r.claims && r.jobs && Fut(Seen(w, r)) == Fut(w)
    ensures forall h :: Built(Seen(w, r), h) <==> Built(w, h)
  {
    var s := Seen(w, r);
    assert w.profiles[0] in w.profiles;
    assert Built(s, Act(s));
  }

  /** The workers of the spec after the builders. */
  lemma SeenWorkers(w: World, r: Reads)
    ensures var v, s := WrittenSeeing(w, r), Seen(w, r);
      && (Mounts(DeterminePhase(s)) ==> forall p :: p in w.profiles ==>
            p in v.workers && v.workers[p] == Pointed(w.workers, p, ServedAfter(s), w.url))
      && (!Mounts(DeterminePhase(s)) ==> v.workers == w.workers)
      && (forall p :: p in v.workers && p !in w.profiles ==> p in w.workers && v.workers[p] == w.workers[p])
      && v.workers.Keys <= w.workers.Keys + (set p | p in w.profiles)
      && w.workers.Keys <= v.workers.Keys
  {
    hide Act, Fut, DeterminePhase;
  }

  lemma SeenActive(w: World, r: Reads)
    ensures var v, s := WrittenSeeing(w, r), Seen(w, r);
      Act(v) == if Mounts(DeterminePhase(s)) then ServedAfter(s) else Act(w)
  {
    var v, s := WrittenSeeing(w, r), Seen(w, r);
    SeenWorkers(w, r);
    if Mounts(DeterminePhase(s)) {
      EmptyPhase(s);
      assert w.profiles[0] in w.profiles;
    }
  }

  lemma SeenFuture(w: World, r: Reads)
    requires DeterminePhase(Seen(w, r)) == UpdatingMap
    ensures Fut(WrittenSeeing(w, r)) == var next := Act(Seen(w, r)) + 1; if Fut(w) > next then Fut(w) else next
  {
    var v, e := WrittenSeeing(w, r), EffectsOf(Seen(w, r));
    assert v.pvcs.Keys == w.pvcs.Keys + e.claims;
    EmptyPhase(Seen(w, r));
    assert w.profiles[0] in w.profiles;
    assert Key(w.profiles[0], e.gen) in v.pvcs.Keys;
  }

  /** A generation that is mounted is finished, as the pass saw it. */
  lemma SeenFinished(w: World, r: Reads)
    requires Mounts(DeterminePhase(Seen(w, r)))
    ensures Built(w, ServedAfter(Seen(w, r))) && Built(w, Fut(w)) && w.url == w.lastUrl && w.profiles != []
  {
    SeenClaims(w, r);
  }

  /** Whatever the state and whatever could be read, a worker that a pass creates or rewrites mounts a
      generation that was finished for every profile of the spec when the pass began, under the URL
      last recorded. */
  lemma RewrittenWorkersAreBuilt(w: World, r: Reads, p: string)
    requires p in WrittenSeeing(w, r).workers
    requires p in w.workers ==> WrittenSeeing(w, r).workers[p] != w.workers[p]
    ensures p in w.profiles && Built(w, WrittenSeeing(w, r).workers[p].gen) && w.url == w.lastUrl
  {
    hide DeterminePhase, Act, Fut, Built;
    SeenWorkers(w, r);
    if Mounts(DeterminePhase(Seen(w, r))) { SeenFinished(w, r); }
  }

  /** The claim of a worker of the spec is there after the builders, and what garbage collection makes
      of it. */
  lemma SparedWorker(w: World, r: Reads, p: string)
    requires ClaimsExist(w) && p in w.profiles && p in WrittenSeeing(w, r).workers
    ensures var v := WrittenSeeing(w, r);
      var k := Key(p, v.workers[p].gen);
      && k in v.pvcs
      && (Stray(v, k) <==> match DeterminePhase(Seen(w, r))
            case BuildingMap => k.gen != Act(w)
            case UpdatingMap => k.gen != Act(w) && k.gen != Fut(v)
            case _ => false)
  {
    SeenWorkers(w, r);
    SeenActive(w, r);
    EmptyPhase(Seen(w, r));
    if Mounts(DeterminePhase(Seen(w, r))) { SeenFinished(w, r); }
  }

  lemma SparesEach(w: World, r: Reads)
    requires ClaimsExist(w)
    ensures Spares(w, r) <==> var v := WrittenSeeing(w, r);
      forall p :: p in w.profiles && p in v.workers ==> !Stray(v, Key(p, v.workers[p].gen))
  {
    SeenWorkers(w, r);
    var ph := DeterminePhase(Seen(w, r));
    if ph == UpdatingMap { SeenFuture(w, r); }
    hide WrittenSeeing, Act, Fut, DeterminePhase, Stray;
    forall p | p in w.profiles && p in WrittenSeeing(w, r).workers { SparedWorker(w, r, p); }
  }

  /** A complete pass, whatever it could read, spares every mounted claim if and only if no worker of a
      removed profile looks like a CronJob, and its build phases find the spec's workers on the
      generations that garbage collection keeps. */
  lemma PassSparesMounts(w: World, r: Reads)
    requires ClaimsExist(w)
    ensures ClaimsExist(PassSeeing(w, r)) <==> NoClash(w) && Spares(w, r)
  {
    hide LooksLikeCron, Act, Fut, DeterminePhase;
    SparesEach(w, r);
    SeenWorkers(w, r);
    hide EffectsOf, Spares, Apply;
    var v, x := WrittenSeeing(w, r), PassSeeing(w, r);
    forall p | p in w.profiles && p in v.workers { SparedWorker(w, r, p); }
    if !NoClash(w) {
      var p :| p in w.workers && p !in w.profiles && LooksLikeCron(w.traffic, p);
      assert p in x.workers && Key(p, x.workers[p].gen) !in x.pvcs;
    } else if !Spares(w, r) {
      var p :| p in w.profiles && p in v.workers && Stray(v, Key(p, v.workers[p].gen));
      assert p in x.workers && Key(p, x.workers[p].gen) !in x.pvcs;
    }
  }

  // ---------- runs with passes that stop half way ----------

  /** All worker Deployments mount one generation. */
  ghost predicate Uniform(w: World) {
    forall p, q :: p in w.workers && q in w.workers ==> w.workers[p].gen == w.workers[q].gen
  }

  ghost predicate SpecUniform(w: World) {
    forall p, q :: p in w.profiles && q in w.profiles && p in w.workers && q in w.workers ==>
      w.workers[p].gen == w.workers[q].gen
  }

  /** While the workers are on different generations, the spec is not edited, status does not go back,
      and the first reads of a pass succeed. */
  ghost predicate Patient(w: World, ev: Event) {
    Possible(w, ev) &&
    match ev
    case Env(s) => if s.Edit? then Uniform(w) && NoClash(Do(w, s)) else SpecUniform(w) || Forward(w, s)
    case Stop(r, _) => Sighted(w, r)
    case StopCollecting(r, _, _, _) => Sighted(w, r)
    case Complete(r) => Sighted(w, r)
  }

  /** The pass reads what it must. */
  ghost predicate Sighted(w: World, r: Reads) {
    r == ALL_READ || SpecUniform(w)
  }

  ghost predicate PatientRun(w: World, evs: seq<Event>)
    decreases |evs|
  {
    evs != [] ==> Patient(w, evs[0]) && PatientRun(Happen(w, evs[0]), evs[1..])
  }

  /** A redeployment is under way: the generation read as active and the newest are finished. */
  ghost predicate Underway(w: World) {
    w.url == w.lastUrl && w.profiles != [] && Built(w, Act(w)) && Built(w, Fut(w))
  }

  /** Generations start from 1. */
  ghost predicate Positive(w: World) {
    forall k :: k in w.pvcs ==> k.gen >= 1
  }

  ghost predicate Safe(w: World) {
    ClaimsExist(w) && NoClash(w) && Positive(w) && (SpecUniform(w) || Underway(w))
  }

  lemma ActPositive(w: World)
    requires ClaimsExist(w) && Positive(w)
    ensures Act(w) >= 1
  {
    ActiveIs(w.profiles, w.workers);
  }

  lemma UniformOnAct(w: World)
    requires SpecUniform(w)
    ensures OnGen(w, Act(w))
  {
    ActiveIs(w.profiles, w.workers);
  }

  /** A pass that reads everything builds only while the workers agree. */
  lemma BuildsOnlyUniform(w: World)
    requires Safe(w) && !Mounts(DeterminePhase(w))
    ensures SpecUniform(w)
  {
    hide LooksLikeCron, Act, Fut, Built;
  }

  lemma StatusKeepsReads(w: World, s: Step)
    requires s.Status?
    ensures var x := Do(w, s);
      && x.workers.Keys == w.workers.Keys && x.pvcs.Keys == w.pvcs.Keys && Act(x) == Act(w) && Fut(x) == Fut(w)
      && x.url == w.url && x.lastUrl == w.lastUrl && x.profiles == w.profiles && x.traffic == w.traffic
      && (forall p :: p in w.workers ==> x.workers[p].gen == w.workers[p].gen)
      && (Forward(w, s) ==> forall h :: Built(w, h) ==> Built(x, h))
  {
    var x := Do(w, s);
    assert x.workers.Keys == w.workers.Keys && x.pvcs.Keys == w.pvcs.Keys;
    ActiveSame(w.profiles, w.workers, x.workers);
  }

  lemma EnvKeepsSafe(w: World, s: Step)
    requires Safe(w) && Patient(w, Env(s))
    ensures Safe(Do(w, s))
  {
    hide LooksLikeCron, Act, Fut, Built;
    if s.Status? {
      StatusKeepsReads(w, s);
      hide Do, Forward;
      assert SpecUniform(w) ==> SpecUniform(Do(w, s));
    }
  }

  lemma SightedBuilds(w: World, r: Reads)
    requires Safe(w) && Sighted(w, r) && !Mounts(DeterminePhase(Seen(w, r)))
    ensures SpecUniform(w) && OnGen(w, Act(w))
  {
    hide DeterminePhase, Act;
    if r == ALL_READ { AllReadIsPass(w); BuildsOnlyUniform(w); }
    UniformOnAct(w);
  }

  lemma SightedSpares(w: World, r: Reads)
    requires Safe(w) && Sighted(w, r)
    ensures Spares(w, r)
  {
    if !Mounts(DeterminePhase(Seen(w, r))) { SightedBuilds(w, r); }
  }

  // ---------- stopped before the annotation ----------

  lemma StoppedWorker(w: World, r: Reads, e: Effects, p: string)
    requires Part(e, EffectsOf(Seen(w, r))) && p in Apply(w, e).workers
    ensures Apply(w, e).workers[p] == if p in e.mounts then Mounted(w, p, e.gen) else w.workers[p]
    ensures p in e.mounts ==> Mounts(DeterminePhase(Seen(w, r))) && e.gen == ServedAfter(Seen(w, r)) && p in w.profiles
    ensures p !in e.mounts ==> p in w.workers
  {
    hide DeterminePhase, Act, Fut;
  }

  lemma StopKeepsClaims(w: World, r: Reads, e: Effects)
    requires ClaimsExist(w) && Part(e, EffectsOf(Seen(w, r)))
    ensures ClaimsExist(Apply(w, e)) && (NoClash(w) ==> NoClash(Apply(w, e)))
  {
    hide DeterminePhase, Act, Fut, LooksLikeCron;
    var x := Apply(w, e);
    BuildersKeep(w, e);
    if Mounts(DeterminePhase(Seen(w, r))) { SeenFinished(w, r); }
    hide EffectsOf, Part, Apply;
    forall p | p in x.workers ensures Key(p, x.workers[p].gen) in x.pvcs { StoppedWorker(w, r, e, p); }
    forall p | p in x.workers && p !in w.profiles ensures p in w.workers { StoppedWorker(w, r, e, p); }
    assert x.profiles == w.profiles && x.traffic == w.traffic by { SameSpec(w, e); }
  }

  lemma SameSpec(w: World, e: Effects)
    ensures var x := Apply(w, e);
      x.profiles == w.profiles && x.traffic == w.traffic && x.url == w.url && x.lastUrl == w.lastUrl
  {
  }

  lemma PartPositive(w: World, r: Reads, e: Effects)
    requires ClaimsExist(w) && Positive(w) && Part(e, EffectsOf(Seen(w, r)))
    ensures Positive(Apply(w, e))
  {
    hide DeterminePhase, Fut;
    var s := Seen(w, r);
    ActiveIs(s.profiles, s.workers);
  }

  /** The workers moved first are those read first. */
  lemma StoppedActive(w: World, r: Reads, e: Effects)
    requires Part(e, EffectsOf(Seen(w, r))) && InOrder(e.mounts, w.profiles)
    ensures var x := Apply(w, e);
      if e.mounts == {} then x.workers == w.workers && Act(x) == Act(w)
      else Act(x) == ServedAfter(Seen(w, r)) && Mounts(DeterminePhase(Seen(w, r)))
  {
    hide DeterminePhase, ServedAfter, Fut;
    var x := Apply(w, e);
    if e.mounts == {} {
      assert x.workers == w.workers;
    } else {
      var n :| 0 <= n <= |w.profiles| && e.mounts == FirstOf(w.profiles, n);
      var p := w.profiles[0];
      assert p in w.profiles[..n];
      StoppedWorker(w, r, e, p);
    }
  }

  lemma StopKeepsUnderway(w: World, r: Reads, e: Effects)
    requires ClaimsExist(w) && Part(e, EffectsOf(Seen(w, r))) && InOrder(e.mounts, w.profiles)
    requires Mounts(DeterminePhase(Seen(w, r))) && (e.mounts == {} ==> Built(w, Act(w)))
    ensures Underway(Apply(w, e))
  {
    var x := Apply(w, e);
    SeenFinished(w, r);
    StoppedActive(w, r, e);
    BuildersKeep(w, e);
    SameSpec(w, e);
    hide DeterminePhase, Act;
    assert x.pvcs == w.pvcs;
    BuiltUnmoved(w, e, Fut(w));
    BuiltUnmoved(w, e, Act(x));
  }

  lemma StopKeepsSafe(w: World, r: Reads, e: Effects)
    requires Safe(w) && Patient(w, Stop(r, e))
    ensures Safe(StoppedSeeing(w, r, e))
  {
    hide DeterminePhase, Act, Fut, LooksLikeCron, Built, Apply, EffectsOf;
    var x := Apply(w, e);
    StopKeepsClaims(w, r, e);
    PartPositive(w, r, e);
    StoppedActive(w, r, e);
    SameSpec(w, e);
    if e.mounts == {} {
      if !SpecUniform(w) { StillUnderway(w, e); }
      assert SpecUniform(w) ==> SpecUniform(x);
    } else {
      StopKeepsUnderway(w, r, e);
    }
    SafePhase(x, StoppedSeeing(w, r, e));
  }

  /** A pass that reads everything while workers differ mounts, and changes no claim. */
  lemma StillUnderway(w: World, e: Effects)
    requires Underway(w) && Part(e, EffectsOf(Seen(w, ALL_READ))) && e.mounts == {}
    ensures Underway(Apply(w, e))
  {
    AllReadIsPass(w);
    BuildersKeep(w, e);
    SameSpec(w, e);
    var x := Apply(w, e);
    assert x.workers == w.workers;
    assert Mounts(DeterminePhase(w));
    assert x.pvcs == w.pvcs;
    BuiltUnmoved(w, e, Fut(w));
    BuiltUnmoved(w, e, Act(w));
  }

  lemma SafePhase(x: World, y: World)
    requires SameObjects(x, y) && ClaimsExist(x) && NoClash(x) && Positive(x) && (SpecUniform(x) || Underway(x))
    ensures Safe(y)
  {
    hide LooksLikeCron;
    assert Underway(x) ==> Underway(y);
  }

  // ---------- stopped during garbage collection, and complete ----------

  /** Once the builders are done, the spec's workers agree. */
  lemma WrittenUniform(w: World, r: Reads)
    requires Safe(w) && Sighted(w, r)
    ensures SpecUniform(WrittenSeeing(w, r))
  {
    hide Act, Fut, DeterminePhase;
    SeenWorkers(w, r);
    if !Mounts(DeterminePhase(Seen(w, r))) { SightedBuilds(w, r); }
  }

  lemma WrittenSpares(w: World, r: Reads, p: string)
    requires Safe(w) && Sighted(w, r) && p in WrittenSeeing(w, r).workers
    ensures var v := WrittenSeeing(w, r);
      Key(p, v.workers[p].gen) in v.pvcs && (p in w.profiles ==> !Stray(v, Key(p, v.workers[p].gen)))
  {
    hide Act, Fut, DeterminePhase, Stray;
    SightedSpares(w, r);
    SparesEach(w, r);
    SeenWorkers(w, r);
    if p in w.profiles { SparedWorker(w, r, p); }
  }

  lemma WrittenUnclashed(w: World, r: Reads)
    ensures NoClash(WrittenSeeing(w, r)) <==> NoClash(w)
  {
    hide Act, Fut, DeterminePhase, LooksLikeCron;
    SeenWorkers(w, r);
  }

  lemma WrittenPositive(w: World, r: Reads)
    requires Safe(w)
    ensures Positive(WrittenSeeing(w, r))
  {
    hide Act, Fut, DeterminePhase, LooksLikeCron;
    PartPositive(w, r, EffectsOf(Seen(w, r)));
  }

  lemma CollectingKeepsSafe(w: World, r: Reads, ws: set<string>, ps: set<Key>, js: set<Key>)
    requires Safe(w) && Sighted(w, r) && Deletable(WrittenSeeing(w, r), ws, ps, js)
    ensures Safe(Deleted(WrittenSeeing(w, r), ws, ps, js))
  {
    hide Act, Fut, DeterminePhase, LooksLikeCron, Stray;
    var v := WrittenSeeing(w, r);
    var x := Deleted(v, ws, ps, js);
    WrittenUniform(w, r);
    WrittenUnclashed(w, r);
    assert v.profiles == w.profiles && v.traffic == w.traffic;
    hide WrittenSeeing, Safe, Sighted;
    forall p | p in x.workers ensures Key(p, x.workers[p].gen) in x.pvcs { WrittenSpares(w, r, p); }
    WrittenPositive(w, r);
    assert SpecUniform(x) && NoClash(x) && Positive(x);
    SafePhase(x, x);
  }

  lemma CompleteKeepsSafe(w: World, r: Reads)
    requires Safe(w) && Sighted(w, r)
    ensures Safe(PassSeeing(w, r)) && Uniform(PassSeeing(w, r))
  {
    hide Act, Fut, DeterminePhase, LooksLikeCron;
    PassSparesMounts(w, r);
    SightedSpares(w, r);
    WrittenUniform(w, r);
    WrittenUnclashed(w, r);
    var v, x := WrittenSeeing(w, r), PassSeeing(w, r);
    assert v.profiles == w.profiles && v.traffic == w.traffic;
    hide WrittenSeeing, Spares;
    assert x.workers == KeptWorkers(v.workers, v.profiles, v.traffic);
    WrittenPositive(w, r);
    assert SpecUniform(x) && NoClash(x) && Uniform(x) && Positive(x);
    SafePhase(x, x);
  }

  /** A collection that stops has deleted no Job but those whose claims are gone, and no claim or Job before
      all stray workers. */
  lemma DeletedInOrder(w: World, r: Reads, ws: set<string>, ps: set<Key>, js: set<Key>)
    requires Possible(w, StopCollecting(r, ws, ps, js))
    ensures var v, x := WrittenSeeing(w, r), Happen(w, StopCollecting(r, ws, ps, js));
      && (forall k :: k in v.jobs && k !in x.jobs ==> k !in x.pvcs)
      && (x.pvcs != v.pvcs || x.jobs != v.jobs ==>
            forall p :: p in x.workers && p !in x.profiles ==> exists q :: q in x.traffic && p == q + "-speed-updates")
  {
    hide WrittenSeeing, Stray;
    var v := WrittenSeeing(w, r);
    assert forall k :: k in js ==> k in ps + js;
    assert ps + js == {} ==> v.pvcs - ps == v.pvcs && v.jobs - js == v.jobs;
  }

  /** A user who is patient never loses a mounted claim, wherever and however often passes stop, and
      whatever they cannot read while the workers agree. */
  lemma {:induction false} PatientRunIsSafe(w: World, evs: seq<Event>)
    requires Safe(w) && PatientRun(w, evs)
    ensures Safe(History(w, evs)) && ClaimsExist(History(w, evs))
    decreases |evs|
  {
    if evs != [] {
      hide Safe;
      SafeStep(w, evs[0]);
      PatientRunIsSafe(Happen(w, evs[0]), evs[1..]);
    }
    SafeClaims(History(w, evs));
  }

  lemma SafeClaims(w: World)
    requires Safe(w)
    ensures ClaimsExist(w)
  {
  }

  lemma SafeStep(w: World, ev: Event)
    requires Safe(w) && Patient(w, ev)
    ensures Safe(Happen(w, ev))
  {
    match ev {
      case Env(s) => EnvKeepsSafe(w, s);
      case Stop(r, e) => StopKeepsSafe(w, r, e);
      case StopCollecting(r, ws, ps, js) => CollectingKeepsSafe(w, r, ws, ps, js);
      case Complete(r) => CompleteKeepsSafe(w, r);
    }
  }

  lemma PatientFromCreation(url: string, profiles: seq<string>, traffic: set<string>, evs: seq<Event>)
    requires PatientRun(Init(url, profiles, traffic), evs)
    ensures ClaimsExist(History(Init(url, profiles, traffic), evs))
  {
    PatientRunIsSafe(Init(url, profiles, traffic), evs);
  }

  // ---------- the patience is needed ----------

  /** Workers p and q serve generation 1; generation 2 is finished and about to be rolled out. */
  ghost predicate RolloutDue(w: World, p: string, q: string) {
    && p != q && w.profiles == [p, q] && w.url == w.lastUrl
    && w.workers.Keys == {p, q} && w.workers[p].gen == w.workers[q].gen == 1
    && InvAt(w, 1) && Built(w, 1) && Built(w, 2)
  }

  /** Such a state, for any two profiles. */
  lemma RolloutHappens(p: string, q: string, url: string) returns (w: World)
    requires p != q
    ensures RolloutDue(w, p, q) && w.url == url
    ensures forall k :: k in w.pvcs ==> k.profile == p || k.profile == q
  {
    var keys := {Key(p, 1), Key(q, 1), Key(p, 2), Key(q, 2)};
    var d := Worker(1, url, 1, 1);
    w := World(url, [p, q], {}, url, UpdatingMap, map k | k in keys :: true, map k | k in keys :: Job(url, true),
               map[p := d, q := d]);
    assert w.jobs.Keys == w.pvcs.Keys == keys;
  }

  lemma RolloutPhase(w: World, p: string, q: string)
    requires RolloutDue(w, p, q)
    ensures DeterminePhase(w) == RedeployingWorkers && Act(w) == 1 && Fut(w) == 2
  {
    ActiveIs(w.profiles, w.workers);
    assert p in w.profiles;
    BuiltHasClaims(w, 2);
    NewestIs(w, 1);
  }

  lemma MovedOne(w: World, p: string, q: string, e: Effects)
    requires RolloutDue(w, p, q) && e == Effects({}, {}, {p}, 2)
    ensures var x := Apply(w, e);
      && x.workers.Keys == {p, q} && x.workers[p].gen == 2 && x.workers[q].gen == 1
      && x.pvcs == w.pvcs && x.jobs == w.jobs
      && x.url == w.url && x.lastUrl == w.lastUrl && x.profiles == w.profiles && x.traffic == w.traffic
  {
    hide InvAt, Built;
    BuildersKeep(w, e);
  }

  lemma PartOfRollout(w: World, p: string, q: string, e: Effects)
    requires w.profiles == [p, q] && DeterminePhase(w) == RedeployingWorkers && Fut(w) == 2
        && e == Effects({}, {}, {p}, 2)
    ensures Part(e, EffectsOf(w)) && InOrder(e.mounts, w.profiles)
  {
    hide DeterminePhase, Act, Fut;
    assert p in w.profiles;
    assert w.profiles[..1] == [p] && p in [p];
    assert FirstOf(w.profiles, 1) == {p};
  }

  lemma HalfRolledOut(w: World, p: string, q: string, e: Effects)
    requires RolloutDue(w, p, q) && e == Effects({}, {}, {p}, 2)
    ensures Patient(w, Stop(ALL_READ, e))
    ensures var x := Happen(w, Stop(ALL_READ, e));
      && x == Apply(w, e).(phase := DeterminePhase(w))
      && x.workers.Keys == {p, q} && x.workers[p].gen == 2 && x.workers[q].gen == 1
      && x.pvcs == w.pvcs && x.jobs == w.jobs
      && x.url == w.url && x.lastUrl == w.lastUrl && x.profiles == w.profiles && x.traffic == w.traffic
      && ClaimsExist(x) && Act(x) == 2
  {
    assert p in w.profiles && q in w.profiles;
    assert Key(p, 2) in w.pvcs && Key(q, 1) in w.pvcs;
    hide Apply, DeterminePhase, Fut, InvAt, Built, EffectsOf, Part, Seen, LooksLikeCron, InOrder;
    AllReadIsPass(w);
    RolloutPhase(w, p, q);
    MovedOne(w, p, q, e);
    PartOfRollout(w, p, q, e);
  }

  /** The pass stops after moving p, the user adds profile r, and the next complete pass deletes
      the claim that q still mounts. */
  lemma ImpatientEdit(w: World, p: string, q: string, r: string, e: Effects)
    requires RolloutDue(w, p, q) && e == Effects({}, {}, {p}, 2)
    requires forall g: nat :: Key(r, g) !in w.pvcs
    ensures Patient(w, Stop(ALL_READ, e))
    ensures !ClaimsExist(Pass(Do(Happen(w, Stop(ALL_READ, e)), Edit(w.url, [p, q, r], {}))))
  {
    HalfRolledOut(w, p, q, e);
    var x := Do(Happen(w, Stop(ALL_READ, e)), Edit(w.url, [p, q, r], {}));
    assert p in x.profiles && q in x.profiles && r in x.profiles;
    assert Act(x) == 2 && !Built(x, 2) && !OnGen(x, 2);
    AllReadIsPass(x);
    PassSparesMounts(x, ALL_READ);
  }

  /** The pass stops after moving p, and the next one cannot list the Jobs: it takes generation 2 for
      unbuilt, completes, and deletes the claim that q still mounts.  Nobody has edited anything. */
  lemma BlindPass(w: World, p: string, q: string, e: Effects)
    requires RolloutDue(w, p, q) && e == Effects({}, {}, {p}, 2)
    ensures Patient(w, Stop(ALL_READ, e))
    ensures !ClaimsExist(PassSeeing(Happen(w, Stop(ALL_READ, e)), Reads(true, false, true)))
  {
    HalfRolledOut(w, p, q, e);
    var x, r := Happen(w, Stop(ALL_READ, e)), Reads(true, false, true);
    assert p in x.profiles && q in x.profiles;
    assert Key(p, 2) !in Seen(x, r).jobs;
    assert !Built(Seen(x, r), Act(Seen(x, r)));
    assert !OnGen(x, 2);
    PassSparesMounts(x, r);
  }

  /** The pass stops after moving p, the claim of p's new generation is lost to its volume, and the next
      complete pass deletes the claim that q still mounts. */
  lemma RegressingStatus(w: World, p: string, q: string, e: Effects)
    requires RolloutDue(w, p, q) && e == Effects({}, {}, {p}, 2)
    ensures Patient(w, Stop(ALL_READ, e))
    ensures !ClaimsExist(Pass(Do(Happen(w, Stop(ALL_READ, e)), Status(w.pvcs.Keys - {Key(p, 2)}, w.jobs.Keys, map[]))))
  {
    hide Patient, LooksLikeCron, Apply, EffectsOf, CollectSeen, Forward, ServedAfter, PassSeeing;
    HalfRolledOut(w, p, q, e);
    var y, s := Happen(w, Stop(ALL_READ, e)), Status(w.pvcs.Keys - {Key(p, 2)}, w.jobs.Keys, map[]);
    var x := Do(y, s);
    StatusKeepsReads(y, s);
    hide Happen;
    assert p in x.profiles && q in x.profiles;
    assert !x.pvcs[Key(p, 2)];
    assert !Built(x, 2) && !OnGen(x, 2);
    AllReadIsPass(x);
    PassSparesMounts(x, ALL_READ);
  }
}
