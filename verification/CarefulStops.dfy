/**
 Which URL the served map was built from, when passes may stop anywhere.
 */
module CarefulStops {
  import opened Protocol
  import opened Safety
  import opened Interruptions
  import opened MountSafety
  import opened UrlConsistency

  /** At rest, with nothing left over: every claim and Job is one of the served generation and of a
      profile of the spec. */
  ghost predicate Rested(w: World) {
    Settled(w) && forall k :: k in w.pvcs || k in w.jobs ==> k.profile in w.profiles && k.gen == Act(w)
  }

  /** Edits come one kind at a time and only at rest, status moves forward, and reads succeed. */
  ghost predicate CarefulEvent(w: World, ev: Event) {
    Patient(w, ev) &&
    match ev
    case Env(s) =>
      if s.Edit? then Rested(w) && (s.url == w.url || s.profiles == w.profiles) else Forward(w, s)
    case _ => ev.read == ALL_READ
  }

  ghost predicate CarefulHistory(w: World, evs: seq<Event>)
    decreases |evs|
  {
    evs != [] ==> CarefulEvent(w, evs[0]) && CarefulHistory(Happen(w, evs[0]), evs[1..])
  }

  // ---------- the invariant ----------

  ghost predicate JobsExist(w: World) {
    forall p :: p in w.workers ==> Key(p, w.workers[p].gen) in w.jobs
  }

  /** Only the URL of the spec is in use. */
  ghost predicate Steady(w: World) {
    && (forall k :: k in w.jobs ==> w.jobs[k].url == w.url)
    && (forall p :: p in w.workers ==> w.workers[p].opens == w.url)
  }

  /** Generation g, built from URL a, is being replaced by g + 1, from the URL of the spec. */
  ghost predicate Moving(w: World, g: nat, a: string) {
    && g >= 1 && w.profiles != []
    && (forall k :: k in w.pvcs ==> k.gen == g || k.gen == g + 1)
    && (forall k :: k in w.jobs ==> (k.gen == g && w.jobs[k].url == a) || (k.gen == g + 1 && w.jobs[k].url == w.url))
    && (forall p :: p in w.workers ==>
          || (w.workers[p].gen == g && w.workers[p].opens == a)
          || (w.workers[p].gen == g + 1 && w.workers[p].opens == w.url))
    && Built(w, Act(w))
    && (Act(w) == g || (Act(w) == g + 1 && w.url == w.lastUrl))
    && (Act(w) == g && w.url == w.lastUrl ==> NextMade(w, g))
  }

  ghost predicate NextMade(w: World, g: nat) {
    forall p :: p in w.profiles ==> Key(p, g + 1) in w.pvcs && Key(p, g + 1) in w.jobs
  }

  ghost predicate UrlSafe(w: World) {
    Safe(w) && JobsExist(w) && (Steady(w) || exists g: nat, a: string :: Moving(w, g, a))
  }

  // ---------- builders ----------

  lemma BuildersKeepJobs(w: World, e: Effects)
    requires JobsExist(w) && Part(e, EffectsOf(w))
    ensures JobsExist(Apply(w, e))
  {
    hide DeterminePhase, Act, Fut;
    BuildersKeep(w, e);
    AllReadIsPass(w);
    if Mounts(DeterminePhase(w)) { SeenFinished(w, ALL_READ); }
    hide EffectsOf, Part, Apply;
    forall p | p in Apply(w, e).workers ensures Key(p, Apply(w, e).workers[p].gen) in Apply(w, e).jobs {
      StoppedWorker(w, ALL_READ, e, p);
    }
  }

  lemma BuildersKeepSteady(w: World, e: Effects)
    requires Steady(w)
    ensures Steady(Apply(w, e))
  {
  }

  /** What a pass does to an update: it builds the next generation, or moves workers to it. */
  lemma MovingWork(w: World, g: nat, a: string)
    requires Moving(w, g, a)
    ensures if Mounts(DeterminePhase(w)) then ServedAfter(w) == g + 1 && w.url == w.lastUrl && Built(w, g + 1)
            else DeterminePhase(w) == UpdatingMap && Act(w) == g
    ensures EffectsOf(w).gen == g + 1
  {
    BuiltHasClaims(w, Act(w));
    if Act(w) == g && w.url == w.lastUrl {
      assert w.profiles[0] in w.profiles;
      assert Key(w.profiles[0], g + 1) in w.pvcs.Keys;
    }
    assert Fut(w) <= g + 1;
  }

  lemma WorkersMoving(w: World, g: nat, a: string, e: Effects, p: string)
    requires Moving(w, g, a) && e.gen == g + 1 && p in Apply(w, e).workers
    ensures var d := Apply(w, e).workers[p]; (d.gen == g && d.opens == a) || (d.gen == g + 1 && d.opens == w.url)
  {
    hide Act, Built, NextMade;
  }

  lemma KeysMoving(w: World, g: nat, a: string, e: Effects)
    requires Moving(w, g, a) && forall k :: k in e.claims || k in e.maps ==> k.gen == g + 1
    ensures var x := Apply(w, e);
      && (forall k :: k in x.pvcs ==> k.gen == g || k.gen == g + 1)
      && (forall k :: k in x.jobs ==> (k.gen == g && x.jobs[k].url == a) || (k.gen == g + 1 && x.jobs[k].url == w.url))
      && (NextMade(w, g) ==> NextMade(x, g))
  {
    hide Act, Built;
    forall k | k in Apply(w, e).jobs && k !in w.jobs ensures Apply(w, e).jobs[k] == Job(w.url, false) { }
  }

  lemma ActiveMoving(w: World, g: nat, a: string, e: Effects)
    requires Moving(w, g, a) && Part(e, EffectsOf(w)) && InOrder(e.mounts, w.profiles)
    ensures var x := Apply(w, e);
      && Built(x, Act(x)) && (Act(x) == Act(w) || (Act(x) == g + 1 && x.url == x.lastUrl))
      && x.profiles == w.profiles && x.url == w.url && x.lastUrl == w.lastUrl
  {
    MovingWork(w, g, a);
    AllReadIsPass(w);
    StoppedActive(w, ALL_READ, e);
    SameSpec(w, e);
    BuiltUnmoved(w, e, Act(w));
    BuiltUnmoved(w, e, g + 1);
    hide DeterminePhase, Act, Fut, EffectsOf, Built, InOrder, Apply, NextMade, ServedAfter;
  }

  lemma BuildersKeepMoving(w: World, g: nat, a: string, e: Effects)
    requires Moving(w, g, a) && Part(e, EffectsOf(w)) && InOrder(e.mounts, w.profiles)
    ensures Moving(Apply(w, e), g, a)
  {
    hide DeterminePhase, Act, Fut, EffectsOf, Built, InOrder, Apply, NextMade, ServedAfter;
    ActiveMoving(w, g, a, e);
    MovingWork(w, g, a);
    PartClaims(w, e);
    KeysMoving(w, g, a, e);
    forall p | p in Apply(w, e).workers { WorkersMoving(w, g, a, e, p); }
  }

  lemma PartClaims(w: World, e: Effects)
    requires Part(e, EffectsOf(w))
    ensures forall k :: k in e.claims || k in e.maps ==> k.gen == EffectsOf(w).gen
  {
    hide DeterminePhase, Act, Fut;
  }

  // ---------- garbage collection ----------

  lemma DeletingKeepsJobs(v: World, ws: set<string>, ps: set<Key>, js: set<Key>)
    requires JobsExist(v) && NoClash(v) && Deletable(v, ws, ps, js)
    requires forall p :: p in v.profiles && p in v.workers ==> !Stray(v, Key(p, v.workers[p].gen))
    ensures JobsExist(Deleted(v, ws, ps, js))
  {
    hide Stray, LooksLikeCron;
  }

  lemma DeletingKeepsSteady(v: World, ws: set<string>, ps: set<Key>, js: set<Key>)
    requires Steady(v)
    ensures Steady(Deleted(v, ws, ps, js))
  {
  }

  lemma DeletedActive(v: World, ws: set<string>, ps: set<Key>, js: set<Key>)
    requires Deletable(v, ws, ps, js)
    ensures Act(Deleted(v, ws, ps, js)) == Act(v)
  {
    hide Stray, LooksLikeCron;
    ActiveSame(v.profiles, v.workers, Deleted(v, ws, ps, js).workers);
  }

  /** The generations of an update that garbage collection leaves alone. */
  lemma NeededStays(v: World, g: nat, a: string, ws: set<string>, ps: set<Key>, js: set<Key>, p: string)
    requires Moving(v, g, a) && Deletable(v, ws, ps, js) && p in v.profiles
    requires Act(v) == g ==> v.phase == UpdatingMap && NextMade(v, g)
    ensures Key(p, Act(v)) !in ps && Key(p, Act(v)) !in js
    ensures Act(v) == g ==> Key(p, g + 1) !in ps && Key(p, g + 1) !in js
  {
    hide LooksLikeCron, Act, Built;
    assert !Stray(v, Key(p, Act(v)));
    assert Key(p, Act(v)) !in ps + js;
    if Act(v) == g {
      assert Key(p, g + 1) in v.pvcs.Keys;
      assert Fut(v) == g + 1;
      assert !Stray(v, Key(p, g + 1));
      assert Key(p, g + 1) !in ps + js;
    }
  }

  lemma DeletingKeepsMoving(v: World, g: nat, a: string, ws: set<string>, ps: set<Key>, js: set<Key>)
    requires Moving(v, g, a) && Deletable(v, ws, ps, js)
    requires Act(v) == g ==> v.phase == UpdatingMap && NextMade(v, g)
    ensures Moving(Deleted(v, ws, ps, js), g, a)
  {
    var x := Deleted(v, ws, ps, js);
    DeletedActive(v, ws, ps, js);
    forall p | p in v.profiles { NeededStays(v, g, a, ws, ps, js, p); }
    hide Deletable, Act, Fut;
    assert Built(x, Act(v));
  }

  /** Complete garbage collection deletes all that it may. */
  lemma CollectDeletes(v: World) returns (ws: set<string>, ps: set<Key>, js: set<Key>)
    ensures Deletable(v, ws, ps, js) && Collect(v) == Deleted(v, ws, ps, js)
  {
    hide LooksLikeCron, Act, Fut;
    ws := set p | p in v.workers && p !in v.profiles && !LooksLikeCron(v.traffic, p);
    ps := set k | k in v.pvcs && Stray(v, k);
    js := set k | k in v.jobs && Stray(v, k);
    assert Collect(v).pvcs == v.pvcs - ps;
    assert Collect(v).jobs == v.jobs - js;
    assert Collect(v).workers == v.workers - ws;
  }

  // ---------- events ----------

  lemma StopKeepsUrls(w: World, e: Effects)
    requires UrlSafe(w) && CarefulEvent(w, Stop(ALL_READ, e))
    ensures UrlSafe(Happen(w, Stop(ALL_READ, e)))
  {
    hide Safe, Moving, Steady, JobsExist, DeterminePhase, EffectsOf, Apply, Part, InOrder;
    var x := Apply(w, e);
    AllReadIsPass(w);
    StopKeepsSafe(w, ALL_READ, e);
    BuildersKeepJobs(w, e);
    if Steady(w) {
      BuildersKeepSteady(w, e);
    } else {
      var g: nat, a: string :| Moving(w, g, a);
      BuildersKeepMoving(w, g, a, e);
    }
    OtherPhase(x, DeterminePhase(w));
  }

  lemma OtherPhase(x: World, ph: Phase)
    ensures var y := x.(phase := ph);
      && (JobsExist(x) ==> JobsExist(y)) && (Steady(x) ==> Steady(y))
      && forall g: nat, a: string :: Moving(x, g, a) ==> Moving(y, g, a)
  {
    forall g: nat, a: string | Moving(x, g, a) ensures Moving(x.(phase := ph), g, a) { MovingPhase(x, g, a, ph); }
  }

  lemma MovingPhase(x: World, g: nat, a: string, ph: Phase)
    requires Moving(x, g, a)
    ensures Moving(x.(phase := ph), g, a)
  {
  }

  lemma WrittenMoving(w: World, g: nat, a: string)
    requires Moving(w, g, a)
    ensures var v := Written(w); Moving(v, g, a) && (Act(v) == g ==> v.phase == UpdatingMap && NextMade(v, g))
  {
    hide Act, Fut, Built, ServedAfter;
    WholeWork(w);
    BuildersKeepMoving(w, g, a, EffectsOf(w));
    MovingWork(w, g, a);
    ActAfter(w);
    if DeterminePhase(w) == UpdatingMap { WrittenNext(w, g); }
    var x := Apply(w, EffectsOf(w));
    SameSpec(w, EffectsOf(w));
    SameNext(w, g);
    Recorded(x, g, a, DeterminePhase(w));
  }

  lemma Recorded(x: World, g: nat, a: string, ph: Phase)
    requires Moving(x, g, a) && (Act(x) == g ==> NextMade(x, g))
    ensures Moving(x.(phase := ph, lastUrl := x.url), g, a)
  {
  }

  lemma SameNext(w: World, g: nat)
    ensures var x := Apply(w, EffectsOf(w));
      && Written(w) == x.(phase := DeterminePhase(w), lastUrl := w.url)
      && (NextMade(x, g) <==> NextMade(Written(w), g)) && Act(x) == Act(Written(w))
  {
    hide DeterminePhase, EffectsOf;
  }

  lemma WrittenNext(w: World, g: nat)
    requires DeterminePhase(w) == UpdatingMap && Act(w) == g
    ensures NextMade(Written(w), g)
  {
    hide Act, Fut, DeterminePhase;
  }

  lemma WholeWork(w: World)
    ensures Part(EffectsOf(w), EffectsOf(w)) && InOrder(EffectsOf(w).mounts, w.profiles)
  {
    hide DeterminePhase, Act, Fut;
    assert w.profiles[..|w.profiles|] == w.profiles;
    assert FirstOf(w.profiles, |w.profiles|) == set p | p in w.profiles;
    assert FirstOf(w.profiles, 0) == {};
  }

  lemma CollectingKeepsUrls(w: World, ws: set<string>, ps: set<Key>, js: set<Key>)
    requires UrlSafe(w) && Deletable(Written(w), ws, ps, js)
    ensures UrlSafe(Deleted(Written(w), ws, ps, js))
  {
    hide Safe, Moving, Steady, JobsExist, DeterminePhase, EffectsOf, Apply, Part, InOrder, Deletable, Deleted, Stray,
        NextMade;
    var v := Written(w);
    AllReadIsPass(w);
    CollectingKeepsSafe(w, ALL_READ, ws, ps, js);
    WholeWork(w);
    BuildersKeepJobs(w, EffectsOf(w));
    WrittenJobs(w);
    SafeParts(w);
    WrittenUnclashed(w, ALL_READ);
    forall p | p in v.profiles && p in v.workers
      ensures !Stray(v, Key(p, v.workers[p].gen))
    {
      WrittenSpares(w, ALL_READ, p);
    }
    DeletingKeepsJobs(v, ws, ps, js);
    if Steady(w) {
      BuildersKeepSteady(w, EffectsOf(w));
      DeletingKeepsSteady(v, ws, ps, js);
    } else {
      var g: nat, a: string :| Moving(w, g, a);
      WrittenMoving(w, g, a);
      DeletingKeepsMoving(v, g, a, ws, ps, js);
    }
  }

  lemma WrittenJobs(w: World)
    ensures JobsExist(Apply(w, EffectsOf(w))) ==> JobsExist(Written(w))
    ensures Steady(Apply(w, EffectsOf(w))) ==> Steady(Written(w))
    ensures Written(w).profiles == w.profiles
  {
    hide EffectsOf, DeterminePhase;
  }

  lemma SafeParts(w: World)
    requires Safe(w)
    ensures NoClash(w)
  {
  }

  lemma StatusKeepsFiles(w: World, s: Step)
    requires s.Status?
    ensures var x := Do(w, s);
      && x.jobs.Keys == w.jobs.Keys && (forall k :: k in w.jobs ==> x.jobs[k].url == w.jobs[k].url)
      && (forall p :: p in w.workers ==> p in x.workers && x.workers[p].opens == w.workers[p].opens)
  {
    assert Do(w, s).jobs.Keys == w.jobs.Keys;
  }

  lemma StatusKeepsMoving(w: World, s: Step, g: nat, a: string)
    requires Moving(w, g, a) && s.Status? && Forward(w, s)
    ensures Moving(Do(w, s), g, a)
  {
    hide Do, Act, Fut, Built, Forward;
    StatusKeepsReads(w, s);
    StatusKeepsFiles(w, s);
    var x := Do(w, s);
    assert forall k :: (k in x.pvcs <==> k in w.pvcs) && (k in x.jobs <==> k in w.jobs);
    forall p | p in x.workers ensures p in w.workers { assert p in x.workers.Keys; }
  }

  lemma StatusKeepsUrls(w: World, s: Step)
    requires UrlSafe(w) && CarefulEvent(w, Env(s)) && s.Status?
    ensures UrlSafe(Do(w, s))
  {
    hide Safe, Act, Fut, Moving, Do, Forward, SpecUniform;
    EnvKeepsSafe(w, s);
    StatusKeepsReads(w, s);
    StatusKeepsFiles(w, s);
    var x := Do(w, s);
    forall p | p in x.workers ensures p in w.workers { assert p in x.workers.Keys; }
    if !Steady(w) {
      var g: nat, a: string :| Moving(w, g, a);
      StatusKeepsMoving(w, s, g, a);
    }
  }

  lemma RestedIsSteady(w: World)
    requires UrlSafe(w) && Rested(w) && Uniform(w)
    ensures Steady(w)
  {
    hide LooksLikeCron, Fut;
    if g: nat, a: string :| Moving(w, g, a) {
      var p := w.profiles[0];
      assert p in w.profiles;
      assert Act(w) == g + 1;
      ActiveIs(w.profiles, w.workers);
      assert forall q :: q in w.workers ==> w.workers[q].gen == g + 1;
    }
  }

  lemma EditKeepsUrls(w: World, s: Step)
    requires UrlSafe(w) && CarefulEvent(w, Env(s)) && s.Edit?
    ensures UrlSafe(Do(w, s))
  {
    hide LooksLikeCron, Fut;
    EnvKeepsSafe(w, s);
    RestedIsSteady(w);
    ActPositive(w);
    var x := Do(w, s);
    if s.url == w.url || w.profiles == [] {
      assert Steady(x);
    } else {
      hide Safe;
      forall p | p in w.workers ensures w.workers[p].gen == Act(w) { assert Key(p, w.workers[p].gen) in w.jobs; }
      assert Moving(x, Act(w), w.url);
    }
  }

  lemma EventKeepsUrls(w: World, ev: Event)
    requires UrlSafe(w) && CarefulEvent(w, ev)
    ensures UrlSafe(Happen(w, ev))
  {
    hide UrlSafe, Safe, Do, Forward, Rested, Deletable, Deleted, DeterminePhase, Part, EffectsOf, InOrder, SpecUniform,
        Collect, Written;
    match ev {
      case Env(s) => if s.Edit? { EditKeepsUrls(w, s); } else { StatusKeepsUrls(w, s); }
      case Stop(_, e) => StopKeepsUrls(w, e);
      case StopCollecting(_, ws, ps, js) =>
        AllReadIsPass(w);
        CollectingKeepsUrls(w, ws, ps, js);
      case Complete(_) =>
        AllReadIsPass(w);
        var ws, ps, js := CollectDeletes(Written(w));
        CollectingKeepsUrls(w, ws, ps, js);
    }
  }

  lemma {:induction false} CarefulHistoryKeepsUrls(w: World, evs: seq<Event>)
    requires UrlSafe(w) && CarefulHistory(w, evs)
    ensures UrlSafe(History(w, evs))
    decreases |evs|
  {
    if evs != [] {
      hide UrlSafe, CarefulEvent, Happen;
      EventKeepsUrls(w, evs[0]);
      CarefulHistoryKeepsUrls(Happen(w, evs[0]), evs[1..]);
    }
  }

  // ---------- what it means ----------

  lemma UrlSafeMatches(w: World)
    requires UrlSafe(w)
    ensures FilesMatch(w)
  {
    hide Safe, Act, Fut, Built;
  }

  /** Once the rollout is over: every profile is served from the spec's URL. */
  lemma UrlSafeDeployed(w: World, p: string)
    requires UrlSafe(w) && Deployed(DeterminePhase(w)) && SpecUniform(w) && p in w.profiles
    ensures p in w.workers && Key(p, w.workers[p].gen) in w.jobs && w.jobs[Key(p, w.workers[p].gen)].url == w.url
  {
    hide Safe, LooksLikeCron;
    UniformOnAct(w);
    assert p in w.workers;
    if !Steady(w) {
      var g: nat, a: string :| Moving(w, g, a);
      MovingWork(w, g, a);
    }
  }

  /** Along every careful history from the creation of a cluster, with passes stopped anywhere, each
      worker opens the file of the URL that the Job on its claim was given, and that is the URL of the
      spec once a rollout is over. */
  lemma CarefulHistoryIsConsistent(url: string, profiles: seq<string>, traffic: set<string>, evs: seq<Event>)
    requires CarefulHistory(Init(url, profiles, traffic), evs)
    ensures var x := History(Init(url, profiles, traffic), evs);
      FilesMatch(x) && (SpecUniform(x) ==> Consistent(x))
  {
    var w := Init(url, profiles, traffic);
    assert UrlSafe(w);
    CarefulHistoryKeepsUrls(w, evs);
    var x := History(w, evs);
    hide UrlSafe, CarefulHistory, History, DeterminePhase, SpecUniform;
    UrlSafeMatches(x);
    FilesOpen(x);
    if SpecUniform(x) && Deployed(DeterminePhase(x)) {
      forall p | p in x.profiles { UrlSafeDeployed(x, p); }
    }
  }

  // ---------- nothing must be left over ----------

  /** Generation 1 is finished and served for p and q; the spec may name fewer. */
  function Served(p: string, q: string, u: string, profiles: seq<string>): World {
    var d := Worker(1, u, 1, 1);
    World(u, profiles, {}, u, WorkersDeployed, map[Key(p, 1) := true, Key(q, 1) := true],
          map[Key(p, 1) := Job(u, true), Key(q, 1) := Job(u, true)], map[p := d, q := d])
  }

  /** q's worker is gone, and its claim is gone or made again, but its Job is still there. */
  function WithoutJobRun(p: string, q: string, u: string, profiles: seq<string>, ph: Phase,
                         claims: map<Key, bool>): World
  {
    Served(p, q, u, profiles).(phase := ph, pvcs := claims, workers := map[p := Worker(1, u, 1, 1)])
  }

  lemma ServedReads(w: World, p: string)
    requires w.profiles != [] && w.profiles[0] == p && p in w.workers && w.workers[p].gen == 1
    requires Key(p, 1) in w.pvcs && forall k :: k in w.pvcs ==> k.gen == 1
    ensures Act(w) == 1 && Fut(w) == 1
  {
    assert Key(p, 1) in w.pvcs.Keys;
  }

  lemma ServedPhase(p: string, q: string, u: string)
    requires p != q
    ensures var w := Served(p, q, u, [p]); Act(w) == 1 && Fut(w) == 1 && Written(w) == w
  {
    var w := Served(p, q, u, [p]);
    ServedReads(w, p);
    assert p in w.profiles;
    assert DeterminePhase(w) == WorkersDeployed;
    hide Act, Fut, DeterminePhase;
    assert EffectsOf(w) == MountEffects([p], 1);
    assert (set r | r in [p]) == {p};
    assert Written(w).workers == w.workers;
    assert Written(w).pvcs == w.pvcs && Written(w).jobs == w.jobs;
  }

  lemma MayDelete(p: string, q: string, u: string)
    requires p != q
    ensures Deletable(Served(p, q, u, [p]), {q}, {Key(q, 1)}, {})
  {
    hide Act, Fut;
    var w := Served(p, q, u, [p]);
    assert q !in w.profiles;
    assert forall k :: k in {Key(q, 1)} + {} ==> k == Key(q, 1);
  }

  lemma StoppedWithJob(p: string, q: string, u: string)
    requires p != q
    ensures var w := Served(p, q, u, [p]);
      var ev := StopCollecting(ALL_READ, {q}, {Key(q, 1)}, {});
      && CarefulEvent(w, ev) && Happen(w, ev) == WithoutJobRun(p, q, u, [p], WorkersDeployed, map[Key(p, 1) := true])
  {
    hide Act, Fut, DeterminePhase, Written, WrittenSeeing, SpecUniform, Deletable;
    var w := Served(p, q, u, [p]);
    AllReadIsPass(w);
    ServedPhase(p, q, u);
    MayDelete(p, q, u);
    assert w.pvcs - {Key(q, 1)} == map[Key(p, 1) := true];
    assert w.workers - {q} == map[p := Worker(1, u, 1, 1)];
    assert w.jobs - {} == w.jobs;
  }

  lemma ClaimMissing(p: string, q: string, u: string)
    requires p != q
    ensures var w := WithoutJobRun(p, q, u, [p, q], WorkersDeployed, map[Key(p, 1) := true]);
      DeterminePhase(w) == BuildingMap && EffectsOf(w) == Effects({Key(p, 1), Key(q, 1)}, {Key(p, 1), Key(q, 1)}, {}, 1)
  {
    var w := WithoutJobRun(p, q, u, [p, q], WorkersDeployed, map[Key(p, 1) := true]);
    ServedReads(w, p);
    assert q in w.profiles && Key(q, 1) !in w.pvcs;
    assert DeterminePhase(w) == BuildingMap;
    hide Act, Fut, DeterminePhase;
    assert Generation([p, q], 1) == {Key(p, 1), Key(q, 1)};
  }

  lemma ClaimMade(p: string, q: string, u: string)
    requires p != q
    ensures Written(WithoutJobRun(p, q, u, [p, q], WorkersDeployed, map[Key(p, 1) := true]))
         == WithoutJobRun(p, q, u, [p, q], BuildingMap, map[Key(p, 1) := true, Key(q, 1) := false])
  {
    hide DeterminePhase, EffectsOf, Act, Fut;
    var w := WithoutJobRun(p, q, u, [p, q], WorkersDeployed, map[Key(p, 1) := true]);
    var x := WithoutJobRun(p, q, u, [p, q], BuildingMap, map[Key(p, 1) := true, Key(q, 1) := false]);
    ClaimMissing(p, q, u);
    assert Written(w).pvcs == x.pvcs;
    assert Written(w).jobs == x.jobs;
    assert Written(w).workers == x.workers;
  }

  lemma ClaimMadeAgain(p: string, q: string, u: string)
    requires p != q
    ensures Pass(WithoutJobRun(p, q, u, [p, q], WorkersDeployed, map[Key(p, 1) := true]))
         == WithoutJobRun(p, q, u, [p, q], BuildingMap, map[Key(p, 1) := true, Key(q, 1) := false])
  {
    hide Written, Act, Fut;
    var x := WithoutJobRun(p, q, u, [p, q], BuildingMap, map[Key(p, 1) := true, Key(q, 1) := false]);
    ClaimMade(p, q, u);
    ServedReads(x, p);
    assert Kept(x.pvcs, x.profiles, x.phase, 1, 1) == x.pvcs;
    assert Kept(x.jobs, x.profiles, x.phase, 1, 1) == x.jobs;
    assert KeptWorkers(x.workers, x.profiles, x.traffic) == x.workers;
  }

  lemma BoundAgain(p: string, q: string, u: string)
    requires p != q
    ensures var keys := {Key(p, 1), Key(q, 1)};
      var claims := map[Key(p, 1) := true, Key(q, 1) := false];
      var x := Report(WithoutJobRun(p, q, u, [p, q], BuildingMap, claims), keys, keys, map[]);
      Built(x, 1) && DeterminePhase(x) == DeployingWorkers && q in EffectsOf(x).mounts
  {
    var keys := {Key(p, 1), Key(q, 1)};
    var claims := map[Key(p, 1) := true, Key(q, 1) := false];
    var x := Report(WithoutJobRun(p, q, u, [p, q], BuildingMap, claims), keys, keys, map[]);
    ServedReads(x, p);
    assert q in x.profiles && q !in x.workers;
    assert Built(x, 1) && !AllReady(x);
  }

  lemma SettledNotRested(p: string, q: string, u: string)
    requires p != q
    ensures Rested(Served(p, q, u, [p, q]))
    ensures var x := WithoutJobRun(p, q, u, [p], WorkersDeployed, map[Key(p, 1) := true]); Settled(x) && !Rested(x)
  {
    var w := Served(p, q, u, [p, q]);
    var x := WithoutJobRun(p, q, u, [p], WorkersDeployed, map[Key(p, 1) := true]);
    ServedReads(w, p);
    ServedReads(x, p);
    assert p in w.profiles && q in w.profiles && p in x.profiles && q !in x.profiles;
    assert Key(q, 1) in x.jobs;
  }

  /** Profile q is removed, garbage collection stops between q's claim and its Job, and q is put back.
      Its claim is made again and bound; no Job has run since, and yet the map counts as built and q is
      about to be deployed on an empty volume.  All was settled when q was put back, but not at rest. */
  lemma EmptyClaim(p: string, q: string, u: string)
    requires p != q
    ensures var w := Served(p, q, u, [p, q]);
      var w1 := Do(w, Edit(u, [p], {}));
      var ev := StopCollecting(ALL_READ, {q}, {Key(q, 1)}, {});
      var w2 := Happen(w1, ev);
      var w3 := Pass(Do(w2, Edit(u, [p, q], {})));
      var w4 := Do(w3, Status({Key(p, 1), Key(q, 1)}, {Key(p, 1), Key(q, 1)}, map[]));
      && Rested(w) && Settled(w2) && !Rested(w2) && CarefulEvent(w1, ev)
      && Key(q, 1) !in w2.pvcs && Key(q, 1) in w3.pvcs && w3.jobs == w2.jobs
      && DeterminePhase(w4) == DeployingWorkers && q in EffectsOf(w4).mounts
  {
    hide Happen, Pass, CarefulEvent, DeterminePhase, EffectsOf, Act, Fut, Report, Settled, Rested;
    StoppedWithJob(p, q, u);
    ClaimMadeAgain(p, q, u);
    BoundAgain(p, q, u);
    SettledNotRested(p, q, u);
  }
}
