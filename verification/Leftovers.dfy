/**
 Two runs in which a stopped pass leaves something behind that later passes never get over, although
 every read and every later pass succeeds.
 */
module Leftovers {
  import opened Protocol
  import opened Safety
  import opened Interruptions
  import opened MountSafety
  import opened Recovery
  import opened Convergence

  /** Profile p is served at generation 3; claims and Jobs of other profiles as given. */
  function Served(p: string, profiles: seq<string>, a: string, b: string, pvcs: map<Key, bool>, jobs: map<Key, Job>,
                  ph: Phase): World
  {
    World(b, profiles, {}, a, ph, pvcs, jobs, map[p := Worker(3, a, 1, 1)])
  }

  function Start(p: string, a: string): World {
    Served(p, [p], a, a, map[Key(p, 3) := true], map[Key(p, 3) := Job(a, true)], WorkersRedeployed)
  }

  lemma StartIsReachable(p: string, a: string)
    ensures InvAt(Start(p, a), 3)
  {
    assert p in Start(p, a).workers;
  }

  // ---------- single events ----------

  lemma Respecified(w: World, url: string, profiles: seq<string>)
    requires w.traffic == {} && Uniform(w)
    ensures Patient(w, Env(Edit(url, profiles, {})))
    ensures Happen(w, Env(Edit(url, profiles, {}))) == w.(url := url, profiles := profiles)
  {
  }

  /** A pass that builds the first generation of profile s, or, where that is served, another one, and
      stops after some of its builders. */
  lemma StoppedBuilding(w: World, e: Effects, pvcs: map<Key, bool>, jobs: map<Key, Job>)
    requires w.profiles != [] && !Built(w, Act(w)) && SpecUniform(w)
    requires e.claims <= Generation(w.profiles, Act(w)) && e.maps <= Generation(w.profiles, Act(w)) && e.mounts == {}
        && e.gen == Act(w)
    requires pvcs == Ensured(w.pvcs, e.claims, false) && jobs == Ensured(w.jobs, e.maps, Job(w.url, false))
    ensures Patient(w, Stop(ALL_READ, e))
    ensures Happen(w, Stop(ALL_READ, e)) == w.(pvcs := pvcs, jobs := jobs, phase := BuildingMap)
  {
    AllReadIsPass(w);
    assert FirstOf(w.profiles, 0) == {};
    assert Apply(w, e).workers == w.workers;
  }

  lemma Reported(w: World, pvcs: map<Key, bool>, jobs: map<Key, Job>)
    requires pvcs == map k | k in w.pvcs :: true
    requires jobs == map k | k in w.jobs :: Job(w.jobs[k].url, true)
    ensures Patient(w, Env(Status(w.pvcs.Keys, w.jobs.Keys, map[])))
    ensures Happen(w, Env(Status(w.pvcs.Keys, w.jobs.Keys, map[]))) == w.(pvcs := pvcs, jobs := jobs)
  {
    var x := Do(w, Status(w.pvcs.Keys, w.jobs.Keys, map[]));
    assert x.pvcs == pvcs && x.jobs == jobs && x.workers == w.workers;
  }

  ghost predicate Leads(w: World, evs: seq<Event>, x: World) {
    PatientRun(w, evs) && History(w, evs) == x
  }

  lemma LeadsNowhere(w: World)
    ensures Leads(w, [], w)
  {
  }

  lemma Then(w: World, ev: Event, x: World, evs: seq<Event>, y: World)
    requires Patient(w, ev) && Happen(w, ev) == x && Leads(x, evs, y)
    ensures Leads(w, [ev] + evs, y)
  {
    hide Patient, Happen;
    assert ([ev] + evs)[1..] == evs;
  }

  // ---------- an update that the pass deletes as soon as it has started it ----------

  /** The spec goes from p to r; a pass builds r and stops before its annotation. */
  function Replaced(p: string, r: string, a: string, b: string, done: bool): World {
    Served(p, [r], a, b, map[Key(p, 3) := true, Key(r, 1) := done],
           map[Key(p, 3) := Job(a, true), Key(r, 1) := Job(a, done)], BuildingMap)
  }

  function FirstBuilt(r: string): Effects {
    Effects({Key(r, 1)}, {Key(r, 1)}, {}, 1)
  }

  function EverythingUp(keys: set<Key>): Event {
    Env(Status(keys, keys, map[]))
  }

  function ReplaceEvents(p: string, r: string, a: string, b: string): seq<Event> {
    [Env(Edit(a, [r], {}))]
    + ([Stop(ALL_READ, FirstBuilt(r))] + ([EverythingUp({Key(p, 3), Key(r, 1)})] + ([Env(Edit(b, [r], {}))] + [])))
  }

  lemma FirstOfR(w: World, p: string, r: string)
    requires p != r && w.profiles == [r] && w.workers.Keys == {p}
    ensures Act(w) == 1 && Generation(w.profiles, 1) == {Key(r, 1)} && SpecUniform(w) && Uniform(w)
  {
    ActiveIs(w.profiles, w.workers);
  }

  lemma BuildsFirst(p: string, r: string, a: string)
    requires p != r
    ensures var w := Start(p, a).(profiles := [r]);
      && Patient(w, Stop(ALL_READ, FirstBuilt(r)))
      && Happen(w, Stop(ALL_READ, FirstBuilt(r))) == Replaced(p, r, a, a, false)
  {
    var w, x := Start(p, a).(profiles := [r]), Replaced(p, r, a, a, false);
    FirstOfR(w, p, r);
    assert r in w.profiles && Key(r, 1) !in w.pvcs;
    assert Ensured(w.pvcs, {Key(r, 1)}, false) == x.pvcs && Ensured(w.jobs, {Key(r, 1)}, Job(a, false)) == x.jobs;
    hide Patient, Happen, Act;
    StoppedBuilding(w, FirstBuilt(r), x.pvcs, x.jobs);
  }

  lemma FinishesFirst(p: string, r: string, a: string)
    requires p != r
    ensures var w, ev := Replaced(p, r, a, a, false), EverythingUp({Key(p, 3), Key(r, 1)});
      Patient(w, ev) && Happen(w, ev) == Replaced(p, r, a, a, true)
  {
    var w, x := Replaced(p, r, a, a, false), Replaced(p, r, a, a, true);
    hide Patient, Happen;
    assert w.pvcs.Keys == {Key(p, 3), Key(r, 1)};
    assert w.jobs.Keys == {Key(p, 3), Key(r, 1)};
    assert x.pvcs == map k | k in w.pvcs :: true;
    assert x.jobs == map k | k in w.jobs :: Job(w.jobs[k].url, true);
    Reported(w, x.pvcs, x.jobs);
  }

  lemma Replaces(p: string, r: string, a: string, b: string)
    requires p != r
    ensures var w, ev := Start(p, a), Env(Edit(a, [r], {}));
      Patient(w, ev) && Happen(w, ev) == Start(p, a).(profiles := [r])
    ensures var w, ev := Replaced(p, r, a, a, true), Env(Edit(b, [r], {}));
      Patient(w, ev) && Happen(w, ev) == Replaced(p, r, a, b, true)
  {
    hide Patient, Happen, Act;
    Respecified(Start(p, a), a, [r]);
    FirstOfR(Replaced(p, r, a, a, true), p, r);
    Respecified(Replaced(p, r, a, a, true), b, [r]);
  }

  lemma ReplaceRun(p: string, r: string, a: string, b: string)
    requires p != r
    ensures Leads(Start(p, a), ReplaceEvents(p, r, a, b), Replaced(p, r, a, b, true))
  {
    var w0, w1 := Start(p, a), Start(p, a).(profiles := [r]);
    var w2, w3, w4 := Replaced(p, r, a, a, false), Replaced(p, r, a, a, true), Replaced(p, r, a, b, true);
    Replaces(p, r, a, b);
    BuildsFirst(p, r, a);
    FinishesFirst(p, r, a);
    hide Patient, Happen, Leads, EverythingUp, FirstBuilt, Start, Replaced;
    LeadsNowhere(w4);
    Then(w3, Env(Edit(b, [r], {})), w4, [], w4);
    Then(w2, EverythingUp({Key(p, 3), Key(r, 1)}), w3, [Env(Edit(b, [r], {}))] + [], w4);
    Then(w1, Stop(ALL_READ, FirstBuilt(r)), w2,
         [EverythingUp({Key(p, 3), Key(r, 1)})] + ([Env(Edit(b, [r], {}))] + []), w4);
    Then(w0, Env(Edit(a, [r], {})), w1,
         [Stop(ALL_READ, FirstBuilt(r))] + ([EverythingUp({Key(p, 3), Key(r, 1)})] + ([Env(Edit(b, [r], {}))] + [])),
         w4);
  }

  lemma ReplacedReads(p: string, r: string, a: string, b: string)
    requires p != r && a != b
    ensures var w := Replaced(p, r, a, b, true);
      Act(w) == 1 && Fut(w) == 3 && Built(w, 1) && DeterminePhase(w) == UpdatingMap && r in w.profiles
  {
    var w := Replaced(p, r, a, b, true);
    FirstOfR(w, p, r);
    assert r in w.profiles && w.pvcs.Keys == {Key(p, 3), Key(r, 1)} && Key(p, 3) in w.pvcs.Keys;
  }

  lemma PassFields(w: World)
    ensures var x := Pass(w);
      x.url == x.lastUrl == w.url && x.profiles == w.profiles && x.traffic == w.traffic && x.phase == DeterminePhase(w)
  {
    hide Act, Fut, DeterminePhase;
  }

  lemma ReplacedStarts(p: string, r: string, a: string, b: string)
    requires p != r && a != b
    ensures var w := Replaced(p, r, a, b, true); Overtaken(w) && Key(r, 2) in EffectsOf(w).maps
  {
    var w := Replaced(p, r, a, b, true);
    ReplacedReads(p, r, a, b);
    hide Act, Fut, DeterminePhase, Built;
    assert EffectsOf(w).maps == Generation([r], 2);
  }

  /** Garbage collection leaves the first generation of r and nothing else. */
  lemma OnlyFirst(w: World, r: string, k: Key)
    requires w.profiles == [r] && DeterminePhase(w) == UpdatingMap && Overtaken(w) && Act(w) == 1 && Fut(w) == 3
    requires Key(r, 3) !in w.jobs
    ensures k in Pass(w).jobs <==> k == Key(r, 1)
  {
    hide Act, Fut, DeterminePhase, Pass, Overtaken;
    ServedWhileUpdating(w);
    OnlySpec(w, k);
    assert r in w.profiles;
    if k.profile == r { PassKeys(w, r, k.gen); }
  }

  lemma ReplacedLeaves(p: string, r: string, a: string, b: string)
    requires p != r && a != b
    ensures var x := Pass(Replaced(p, r, a, b, true));
      x.lastUrl == b && x.jobs.Keys == {Key(r, 1)} && x.jobs[Key(r, 1)].url == a
  {
    hide Act, Fut, DeterminePhase, Built, EffectsOf, Pass, Overtaken;
    var w := Replaced(p, r, a, b, true);
    ReplacedReads(p, r, a, b);
    ReplacedStarts(p, r, a, b);
    PassFields(w);
    forall k { OnlyFirst(w, r, k); }
    KeptJob(w, Key(r, 1));
  }

  /** A stopped pass, and then nothing but success: the next complete pass starts the update to URL b,
      deletes it again, and records b as applied; the only Job left is of URL a. */
  lemma StartedAndDeleted(p: string, r: string, a: string, b: string)
    requires p != r && a != b
    ensures var w := Replaced(p, r, a, b, true);
      && InvAt(Start(p, a), 3) && Leads(Start(p, a), ReplaceEvents(p, r, a, b), w)
      && Built(w, Act(w)) && Overtaken(w) && Key(r, 2) in EffectsOf(w).maps
      && Pass(w).lastUrl == b && Pass(w).jobs.Keys == {Key(r, 1)} && Pass(w).jobs[Key(r, 1)].url == a
  {
    hide *;
    StartIsReachable(p, a);
    ReplaceRun(p, r, a, b);
    ReplacedReads(p, r, a, b);
    ReplacedStarts(p, r, a, b);
    ReplacedLeaves(p, r, a, b);
  }

  lemma KeptJob(w: World, k: Key)
    requires k in w.jobs && k in Pass(w).jobs
    ensures Pass(w).jobs[k] == w.jobs[k]
  {
  }

  // ---------- a cluster that never deploys ----------

  /** Profile s has joined p; a pass has made its claim for generation 3, but not its Job; then p left,
      and a pass has built generation 1 of s and stopped before its annotation. */
  function Joined(p: string, s: string, a: string, profiles: seq<string>): World {
    Served(p, profiles, a, a, map[Key(p, 3) := true, Key(s, 3) := false], map[Key(p, 3) := Job(a, true)], BuildingMap)
  }

  function Left(p: string, s: string, a: string, done: bool): World {
    Served(p, [s], a, a, map[Key(p, 3) := true, Key(s, 3) := done, Key(s, 1) := done],
           map[Key(p, 3) := Job(a, true), Key(s, 1) := Job(a, done)], BuildingMap)
  }

  function Stuck(s: string, a: string): World {
    World(a, [s], {}, a, UpdatingMap, map[Key(s, 3) := true, Key(s, 1) := true], map[Key(s, 1) := Job(a, true)], map[])
  }

  function ClaimOnly(s: string): Effects {
    Effects({Key(s, 3)}, {}, {}, 3)
  }

  function Report(p: string, s: string): Event {
    Env(Status({Key(p, 3), Key(s, 3), Key(s, 1)}, {Key(p, 3), Key(s, 1)}, map[]))
  }

  lemma JoinsHalf(p: string, s: string, a: string)
    requires p != s
    ensures var w := Start(p, a).(profiles := [p, s]);
      Patient(w, Stop(ALL_READ, ClaimOnly(s))) && Happen(w, Stop(ALL_READ, ClaimOnly(s))) == Joined(p, s, a, [p, s])
  {
    var w, x := Start(p, a).(profiles := [p, s]), Joined(p, s, a, [p, s]);
    assert Act(w) == 3 && s in w.profiles && p in w.profiles && Key(s, 3) !in w.pvcs && !Built(w, 3);
    assert Key(s, 3) in Generation(w.profiles, 3);
    assert Ensured(w.pvcs, {Key(s, 3)}, false) == x.pvcs && Ensured(w.jobs, {}, Job(a, false)) == x.jobs;
    hide Patient, Happen, Act, Built;
    StoppedBuilding(w, ClaimOnly(s), x.pvcs, x.jobs);
  }

  lemma LeavesFirst(p: string, s: string, a: string)
    requires p != s
    ensures var w := Joined(p, s, a, [s]);
      Patient(w, Stop(ALL_READ, FirstBuilt(s))) && Happen(w, Stop(ALL_READ, FirstBuilt(s))) == Left(p, s, a, false)
  {
    var w, x := Joined(p, s, a, [s]), Left(p, s, a, false);
    FirstOfR(w, p, s);
    assert s in w.profiles && Key(s, 1) !in w.pvcs && !Built(w, 1);
    assert Ensured(w.pvcs, {Key(s, 1)}, false) == x.pvcs && Ensured(w.jobs, {Key(s, 1)}, Job(a, false)) == x.jobs;
    hide Patient, Happen, Act, Built;
    StoppedBuilding(w, FirstBuilt(s), x.pvcs, x.jobs);
  }

  lemma ReportsLeft(p: string, s: string, a: string)
    requires p != s
    ensures Patient(Left(p, s, a, false), Report(p, s))
    ensures Happen(Left(p, s, a, false), Report(p, s)) == Left(p, s, a, true)
  {
    var w, x := Left(p, s, a, false), Left(p, s, a, true);
    hide Patient, Happen;
    assert w.pvcs.Keys == {Key(p, 3), Key(s, 3), Key(s, 1)};
    assert w.jobs.Keys == {Key(p, 3), Key(s, 1)};
    assert x.pvcs == map k | k in w.pvcs :: true;
    assert x.jobs == map k | k in w.jobs :: Job(w.jobs[k].url, true);
    Reported(w, x.pvcs, x.jobs);
  }

  /** The world in which all passes go round in a circle. */
  lemma Circles(w: World, s: string)
    requires w.profiles == [s] && s !in w.workers && w.url == w.lastUrl && w.traffic == {}
    requires Key(s, 1) in w.pvcs && w.pvcs[Key(s, 1)] && Key(s, 1) in w.jobs && w.jobs[Key(s, 1)].complete
    requires Key(s, 3) in w.pvcs && Key(s, 3) !in w.jobs && forall k :: k in w.pvcs ==> k.gen <= 3
    ensures DeterminePhase(w) == UpdatingMap && Act(w) == 1 && Fut(w) == 3 && Overtaken(w) && !Restorable(w)
  {
    ActiveIs(w.profiles, w.workers);
    assert s in w.profiles && Key(s, 3) in w.pvcs.Keys;
  }

  lemma NoWorkers(w: World, s: string)
    requires w.profiles == [s] && s !in w.workers && w.traffic == {} && DeterminePhase(w) == UpdatingMap
    ensures Pass(w).workers == map[]
  {
    hide Act, Fut, DeterminePhase;
    WrittenWorkers(w);
    PassWorkers(w);
  }

  lemma StuckKeys(w: World, s: string, k: Key)
    requires w.profiles == [s] && DeterminePhase(w) == UpdatingMap && Act(w) == 1 && Fut(w) == 3
    requires Key(s, 3) in w.pvcs && Key(s, 3) !in w.jobs
    ensures k in Pass(w).pvcs <==> k == Key(s, 1) || k == Key(s, 3)
    ensures k in Pass(w).jobs <==> k == Key(s, 1)
  {
    hide Pass, Written, DeterminePhase, Act, Fut;
    ServedWhileUpdating(w);
    OnlySpec(w, k);
    assert s in w.profiles;
    if k.profile == s { PassKeys(w, s, k.gen); }
  }

  lemma StuckPass(w: World, s: string, a: string)
    requires w.profiles == [s] && s !in w.workers && w.url == w.lastUrl == a && w.traffic == {}
    requires w.pvcs.Keys >= {Key(s, 1), Key(s, 3)} && w.pvcs[Key(s, 1)] && w.pvcs[Key(s, 3)]
    requires Key(s, 1) in w.jobs && w.jobs[Key(s, 1)] == Job(a, true) && Key(s, 3) !in w.jobs
    requires forall k :: k in w.pvcs ==> k.gen <= 3
    ensures Pass(w) == Stuck(s, a)
  {
    Circles(w, s);
    hide Act, Fut, DeterminePhase, Pass, Overtaken, Restorable;
    PassFields(w);
    NoWorkers(w, s);
    forall k { StuckKeys(w, s, k); }
    SameClaim(w, Key(s, 1));
    SameClaim(w, Key(s, 3));
    KeptJob(w, Key(s, 1));
    assert Pass(w).pvcs == Stuck(s, a).pvcs;
    assert Pass(w).jobs == Stuck(s, a).jobs;
  }

  lemma SameClaim(w: World, k: Key)
    requires k in w.pvcs && k in Pass(w).pvcs
    ensures Pass(w).pvcs[k] == w.pvcs[k]
  {
  }

  function StuckEvents(p: string, s: string, a: string): seq<Event> {
    [Env(Edit(a, [p, s], {}))]
    + ([Stop(ALL_READ, ClaimOnly(s))] + ([Env(Edit(a, [s], {}))] + ([Stop(ALL_READ, FirstBuilt(s))]
    + ([Report(p, s)] + ([Complete(ALL_READ)] + [])))))
  }

  lemma Joins(p: string, s: string, a: string)
    requires p != s
    ensures var w, ev := Start(p, a), Env(Edit(a, [p, s], {}));
      Patient(w, ev) && Happen(w, ev) == Start(p, a).(profiles := [p, s])
    ensures var w, ev := Joined(p, s, a, [p, s]), Env(Edit(a, [s], {}));
      Patient(w, ev) && Happen(w, ev) == Joined(p, s, a, [s])
  {
    hide Patient, Happen;
    Respecified(Start(p, a), a, [p, s]);
    Respecified(Joined(p, s, a, [p, s]), a, [s]);
  }

  lemma Completed(w: World)
    ensures Patient(w, Complete(ALL_READ)) && Happen(w, Complete(ALL_READ)) == Pass(w)
  {
    hide Pass, PassSeeing, SpecUniform;
    AllReadIsPass(w);
  }

  lemma LeftIsStuck(p: string, s: string, a: string)
    requires p != s
    ensures Pass(Left(p, s, a, true)) == Stuck(s, a)
  {
    hide Pass, Stuck;
    StuckPass(Left(p, s, a, true), s, a);
  }

  lemma CompletesStuck(p: string, s: string, a: string)
    requires p != s
    ensures Patient(Left(p, s, a, true), Complete(ALL_READ))
    ensures Happen(Left(p, s, a, true), Complete(ALL_READ)) == Stuck(s, a)
  {
    hide *;
    LeftIsStuck(p, s, a);
    Completed(Left(p, s, a, true));
  }

  /** Two passes are stopped, and the complete pass that follows makes the next generation's claim and Job
      and deletes them again, for the sake of a claim that has no Job. */
  lemma StuckRun(p: string, s: string, a: string)
    requires p != s
    ensures Leads(Start(p, a), StuckEvents(p, s, a), Stuck(s, a))
  {
    var w1 := Start(p, a).(profiles := [p, s]);
    var w2, w3, w4, w5 := Joined(p, s, a, [p, s]), Joined(p, s, a, [s]), Left(p, s, a, false), Left(p, s, a, true);
    Joins(p, s, a);
    JoinsHalf(p, s, a);
    LeavesFirst(p, s, a);
    ReportsLeft(p, s, a);
    CompletesStuck(p, s, a);
    hide Patient, Happen, Leads, Report, FirstBuilt, ClaimOnly, Start, Joined, Left, Stuck;
    var e6: seq<Event> := [Complete(ALL_READ)] + [];
    var e5 := [Report(p, s)] + e6;
    var e4 := [Stop(ALL_READ, FirstBuilt(s))] + e5;
    var e3 := [Env(Edit(a, [s], {}))] + e4;
    var e2 := [Stop(ALL_READ, ClaimOnly(s))] + e3;
    LeadsNowhere(Stuck(s, a));
    Then(w5, Complete(ALL_READ), Stuck(s, a), [], Stuck(s, a));
    Then(w4, Report(p, s), w5, e6, Stuck(s, a));
    Then(w3, Stop(ALL_READ, FirstBuilt(s)), w4, e5, Stuck(s, a));
    Then(w2, Env(Edit(a, [s], {})), w3, e4, Stuck(s, a));
    Then(w1, Stop(ALL_READ, ClaimOnly(s)), w2, e3, Stuck(s, a));
    Then(Start(p, a), Env(Edit(a, [p, s], {})), w1, e2, Stuck(s, a));
  }

  /** Whatever undisturbed run follows, with every pass complete and everything up, it leads back to the
      same world: an update is due, and no worker is ever deployed. */
  lemma {:induction false} StuckForGood(s: string, a: string, steps: seq<Step>)
    requires Undisturbed(Stuck(s, a), steps)
    ensures Run(Stuck(s, a), steps) == Stuck(s, a)
    ensures MapsUp(Stuck(s, a)) && WorkersUp(Stuck(s, a))
    ensures DeterminePhase(Stuck(s, a)) == UpdatingMap && !Restorable(Stuck(s, a))
    decreases |steps|
  {
    var w := Stuck(s, a);
    Circles(w, s);
    if steps != [] {
      if steps[0].Reconcile? { StuckPass(w, s, a); } else { NothingMoves(w, steps[0]); }
      hide Pass, Forward;
      StuckForGood(s, a, steps[1..]);
    }
  }

  lemma NothingMoves(w: World, s: Step)
    requires s.Status? && Forward(w, s) && MapsUp(w) && w.workers == map[]
    ensures Do(w, s) == w
  {
    var x := Do(w, s);
    assert x.pvcs == w.pvcs && x.jobs == w.jobs && x.workers == w.workers;
  }
}
