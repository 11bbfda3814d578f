/**
 Which URL the served map was built from.

 The annotation remembers the URL of the last pass, and a Job keeps the URL it was created with.
 Nothing else ties a worker's file name to the Job that filled its claim, so consistency depends
 on when the user edits the spec.
 */
module UrlConsistency {
  import opened FileNames
  import opened Protocol
  import opened Safety

  /** The cluster is at rest: one generation, built for the whole spec, under the recorded URL. */
  ghost predicate Settled(w: World) {
    Act(w) == Fut(w) && Built(w, Act(w)) && w.url == w.lastUrl
  }

  /** Edits come one kind at a time, only while the cluster is at rest, and never make the worker of
      a removed profile look like a CronJob. */
  ghost predicate Careful(w: World, s: Step) {
    match s
    case Edit(url, profiles, _) => Settled(w) && (url == w.url || profiles == w.profiles) && NoClash(Do(w, s))
    case Status(_, _, _) => Forward(w, s)
    case Reconcile => true
  }

  ghost predicate CarefulRun(w: World, steps: seq<Step>)
    decreases |steps|
  {
    steps != [] ==> Careful(w, steps[0]) && CarefulRun(Do(w, steps[0]), steps[1..])
  }

  /** A worker opens the file named by the URL of the Job that filled its claim. */
  ghost predicate FilesMatch(w: World) {
    forall p :: p in w.workers ==>
      var k := Key(p, w.workers[p].gen);
      k in w.jobs && w.workers[p].opens == w.jobs[k].url
  }

  ghost predicate HasFuture(w: World, g: nat) {
    exists k :: k in w.jobs && k.gen == g + 1
  }

  ghost predicate UrlInvAt(w: World, g: nat) {
    && InvAt(w, g)
    && FilesMatch(w)
    // without a second generation, every Job was created under the recorded URL
    && (!HasFuture(w, g) ==> forall k :: k in w.jobs ==> w.jobs[k].url == w.lastUrl)
    // a changed URL waits on a finished map, or on an empty cluster
    && (w.url != w.lastUrl ==>
          !HasFuture(w, g) && ((Built(w, g) && Act(w) == g) || (w.jobs == map[] && w.workers == map[])))
    // a second generation is being built from the recorded URL, which is the spec's
    && (HasFuture(w, g) ==>
          && Built(w, g) && Act(w) == g
          && (forall k :: k in w.jobs && k.gen == g + 1 ==> w.jobs[k].url == w.lastUrl))
  }

  ghost predicate UrlInv(w: World) {
    exists g :: UrlInvAt(w, g)
  }

  lemma HasFutureIsNewest(w: World, g: nat)
    requires InvAt(w, g)
    ensures HasFuture(w, g) <==> Fut(w) == g + 1
  {
    NewestIs(w, g);
    if HasFuture(w, g) {
      var k :| k in w.jobs && k.gen == g + 1;
      assert k in w.jobs.Keys;
      assert k in w.pvcs.Keys;
    }
    if Fut(w) == g + 1 {
      assert g + 1 != 1;
      var k :| k in w.pvcs.Keys && k.gen == g + 1;
      assert k in w.jobs.Keys;
    }
  }

  lemma SettledServes(w: World, g: nat)
    requires InvAt(w, g) && Settled(w)
    ensures !HasFuture(w, g) && Act(w) == g
  {
    HasFutureIsNewest(w, g);
    ActiveServes(w, g);
    NewestIs(w, g);
    if w.profiles != [] { ActIsServed(w, g); }
  }

  lemma PassJob(w: World, k: Key)
    requires k in Pass(w).jobs
    ensures k in w.jobs ==> Pass(w).jobs[k] == w.jobs[k]
    ensures k !in w.jobs ==> Pass(w).jobs[k] == Job(w.url, false) && k in EffectsOf(w).maps
  {
  }

  /** The URL of the Jobs that a pass serves or has under construction, before the pass. */
  lemma OldJobUrl(w: World, g: nat, k: Key)
    requires UrlInvAt(w, g) && k in w.jobs && w.profiles != []
    requires k.gen == (if DeterminePhase(w) == UpdatingMap then g + 1 else ServedAfter(w))
    ensures w.jobs[k].url == w.url
  {
    HasFutureIsNewest(w, g);
    ActiveServes(w, g);
    if Built(w, Act(w)) { ActIsServed(w, g); }
    if k.gen == g + 1 { assert HasFuture(w, g); }
  }

  lemma KeptJobUrl(w: World, g: nat, k: Key)
    requires UrlInvAt(w, g) && k in Pass(w).jobs && w.profiles != []
    requires k.gen == (if DeterminePhase(w) == UpdatingMap then g + 1 else ServedAfter(w))
    ensures Pass(w).jobs[k].url == w.url
  {
    PassJob(w, k);
    if k in w.jobs { OldJobUrl(w, g, k); }
  }

  lemma UpdatingServes(w: World, g: nat)
    requires InvAt(w, g) && DeterminePhase(w) == UpdatingMap
    ensures ServedAfter(w) == Act(w) == g && Built(w, g)
  {
    ActIsServed(w, g);
  }

  lemma UnmountedFile(w: World, g: nat, p: string)
    requires InvAt(w, g) && p in Pass(w).workers && !Mounts(DeterminePhase(w))
    ensures p in w.workers && Pass(w).workers[p] == w.workers[p] && w.workers[p].gen == g
  {
    PassWorkers(w);
    WrittenWorkers(w);
  }

  lemma MountedFile(w: World, g: nat, p: string)
    requires InvAt(w, g) && p in Pass(w).workers && Mounts(DeterminePhase(w))
    ensures Pass(w).workers[p].opens == w.url
  {
    PassWorkers(w);
    WrittenWorkers(w);
  }

  lemma PassFilesMatch(w: World, g: nat, p: string)
    requires UrlInvAt(w, g) && p in Pass(w).workers
    ensures var k := Key(p, Pass(w).workers[p].gen);
      k in Pass(w).jobs && Pass(w).workers[p].opens == Pass(w).jobs[k].url
  {
    WorkerGens(w, g, p);
    var k := Key(p, ServedAfter(w));
    ObjectGens(w, g, k);
    if Mounts(DeterminePhase(w)) {
      MountedFile(w, g, p);
      KeptJobUrl(w, g, k);
    } else {
      UnmountedFile(w, g, p);
      PassJob(w, k);
    }
  }

  lemma AfterUpdating(w: World, g: nat)
    requires UrlInvAt(w, g) && DeterminePhase(w) == UpdatingMap
    ensures Built(Pass(w), g) && Act(Pass(w)) == g
  {
    var x := Pass(w);
    UpdatingServes(w, g);
    ActAfter(w);
    FutAfter(w, g);
    forall p | p in x.profiles
      ensures var k := Key(p, g); k in x.pvcs && x.pvcs[k] && k in x.jobs && x.jobs[k].complete
    {
      PassClaims(w, Key(p, g));
    }
  }

  lemma PassKeepsUrlInv(w: World, g: nat)
    requires UrlInvAt(w, g)
    ensures UrlInvAt(Pass(w), ServedAfter(w))
  {
    var x, h := Pass(w), ServedAfter(w);
    PassKeepsInv(w, g);
    forall p | p in x.workers { PassFilesMatch(w, g, p); }
    if w.profiles == [] {
      assert x.jobs == map[];
    } else if DeterminePhase(w) == UpdatingMap {
      UpdatingServes(w, g);
      AfterUpdating(w, g);
      forall k | k in x.jobs && k.gen == g + 1 ensures x.jobs[k].url == x.lastUrl { KeptJobUrl(w, g, k); }
      assert HasFuture(x, h) by { AppliedFuture(w, g); }
    } else {
      forall k | k in x.jobs ensures k.gen == h && x.jobs[k].url == x.lastUrl {
        ObjectGens(w, g, k);
        KeptJobUrl(w, g, k);
      }
      assert !HasFuture(x, h);
    }
  }

  lemma AppliedFuture(w: World, g: nat)
    requires InvAt(w, g) && DeterminePhase(w) == UpdatingMap
    ensures HasFuture(Pass(w), g)
  {
    UpdatingServes(w, g);
    FutAfter(w, g);
    var k := Key(w.profiles[0], g + 1);
    assert k.profile in w.profiles;
    WrittenClaims(w);
    PassClaims(w, k);
    assert k in Pass(w).jobs;
  }

  lemma StatusKeepsFacts(w: World, g: nat, s: Step)
    requires ServesAt(w, g) && s.Status? && Forward(w, s)
    ensures var x := Do(w, s);
      && ServesAt(x, g) && (NoClash(x) <==> NoClash(w)) && Act(x) == Act(w) && (Built(w, g) ==> Built(x, g))
      && x.url == w.url && x.lastUrl == w.lastUrl && x.jobs.Keys == w.jobs.Keys && x.workers.Keys == w.workers.Keys
      && (forall k :: k in w.jobs ==> x.jobs[k].url == w.jobs[k].url)
      && (forall p :: p in w.workers ==>
            x.workers[p].gen == w.workers[p].gen && x.workers[p].opens == w.workers[p].opens)
  {
    hide LooksLikeCron;
    var x := Do(w, s);
    assert x.workers.Keys == w.workers.Keys && x.pvcs.Keys == w.pvcs.Keys && x.jobs.Keys == w.jobs.Keys;
    ActiveSame(w.profiles, w.workers, x.workers);
  }

  lemma StatusKeepsUrlInv(w: World, g: nat, s: Step)
    requires UrlInvAt(w, g) && s.Status? && Forward(w, s)
    ensures UrlInvAt(Do(w, s), g)
  {
    hide ServesAt, NoClash, Act, Built, Do, Forward;
    var x := Do(w, s);
    StatusKeepsFacts(w, g, s);
    assert HasFuture(x, g) <==> HasFuture(w, g) by {
      if HasFuture(w, g) { var k :| k in w.jobs && k.gen == g + 1; assert k in x.jobs.Keys; }
      if HasFuture(x, g) { var k :| k in x.jobs && k.gen == g + 1; assert k in w.jobs.Keys; }
    }
    assert w.jobs == map[] ==> x.jobs.Keys == {};
    assert w.workers == map[] ==> x.workers.Keys == {};
  }

  lemma EditKeepsUrlInv(w: World, g: nat, s: Step)
    requires UrlInvAt(w, g) && s.Edit? && Careful(w, s)
    ensures UrlInvAt(Do(w, s), g)
  {
    SettledServes(w, g);
    var x := Do(w, s);
    assert HasFuture(x, g) <==> HasFuture(w, g);
    if s.url != w.url { assert Built(x, g) && Act(x) == g; }
  }

  lemma {:induction false} CarefulRunKeepsUrlInv(w: World, steps: seq<Step>)
    requires UrlInv(w) && CarefulRun(w, steps)
    ensures UrlInv(Run(w, steps))
    decreases |steps|
  {
    if steps != [] {
      var g :| UrlInvAt(w, g);
      match steps[0] {
        case Edit(_, _, _) => EditKeepsUrlInv(w, g, steps[0]);
        case Status(_, _, _) => StatusKeepsUrlInv(w, g, steps[0]);
        case Reconcile => PassKeepsUrlInv(w, g);
      }
      assert UrlInv(Do(w, steps[0]));
      CarefulRunKeepsUrlInv(Do(w, steps[0]), steps[1..]);
    }
  }

  /** A worker opens the very file that the Job of its generation wrote, if the URL names one. */
  ghost predicate OpensBuiltFile(w: World, p: string)
    requires p in w.workers
  {
    var k := Key(p, w.workers[p].gen);
    k in w.jobs &&
    (w.jobs[k].url != [] && OneWord(w.jobs[k].url) && NamesOneFile(w.jobs[k].url) ==>
       OsrmFileName(w.workers[p].opens) == BuiltFileName(w.jobs[k].url))
  }

  ghost predicate Consistent(w: World) {
    && FilesMatch(w)
    && (forall p :: p in w.workers ==> OpensBuiltFile(w, p))
    && (Deployed(DeterminePhase(w)) ==>
          forall p :: p in w.profiles ==>
            p in w.workers && Key(p, w.workers[p].gen) in w.jobs && w.jobs[Key(p, w.workers[p].gen)].url == w.url)
  }

  lemma DeployedUrl(w: World, g: nat, p: string)
    requires UrlInvAt(w, g) && Deployed(DeterminePhase(w)) && p in w.profiles
    ensures p in w.workers && Key(p, w.workers[p].gen) in w.jobs && w.jobs[Key(p, w.workers[p].gen)].url == w.url
  {
    ActIsServed(w, g);
    HasFutureIsNewest(w, g);
    assert AllReady(w);
  }

  lemma FilesOpen(w: World)
    requires FilesMatch(w)
    ensures forall p :: p in w.workers ==> OpensBuiltFile(w, p)
  {
    forall p | p in w.workers ensures OpensBuiltFile(w, p) {
      var u := w.jobs[Key(p, w.workers[p].gen)].url;
      if u != [] && OneWord(u) { WorkerOpensBuiltFile(u); }
    }
  }

  lemma UrlInvMeans(w: World)
    requires UrlInv(w)
    ensures Consistent(w)
  {
    var g: nat :| UrlInvAt(w, g);
    FilesOpen(w);
    if Deployed(DeterminePhase(w)) {
      forall p | p in w.profiles { DeployedUrl(w, g, p); }
    }
  }

  /** Along every careful run from the creation of a cluster, each worker opens the file that the
      Job on its claim wrote; and in a deployed phase that Job was given the URL of the spec. */
  lemma CarefulRunIsConsistent(url: string, profiles: seq<string>, traffic: set<string>, steps: seq<Step>)
    requires CarefulRun(Init(url, profiles, traffic), steps)
    ensures Consistent(Run(Init(url, profiles, traffic), steps))
  {
    var w := Init(url, profiles, traffic);
    assert UrlInvAt(w, 1);
    CarefulRunKeepsUrlInv(w, steps);
    UrlInvMeans(Run(w, steps));
  }

  // ---------- exactly when a pass leaves every worker on its file ----------

  /** The Jobs of the generation that the workers will mount were told to build the file that the
      workers will open. */
  ghost predicate FilesAgree(w: World, g: nat) {
    if Mounts(DeterminePhase(w)) then
      forall p :: p in w.profiles ==> var k := Key(p, ServedAfter(w)); k in w.jobs && w.jobs[k].url == w.url
    else
      forall p :: p in w.profiles && p in w.workers ==>
        var k := Key(p, g);
        k in w.jobs && w.jobs[k].url == w.workers[p].opens
  }

  /** The worker of a profile of the spec, after the pass. */
  lemma WorkerFile(w: World, g: nat, p: string)
    requires InvAt(w, g) && p in Pass(w).workers
    ensures var k := Key(p, Pass(w).workers[p].gen);
      && p in w.profiles && k in w.jobs && k in Pass(w).jobs && Pass(w).jobs[k] == w.jobs[k]
      && Pass(w).workers[p].gen == ServedAfter(w)
      && (if Mounts(DeterminePhase(w)) then Pass(w).workers[p].opens == w.url
          else p in w.workers && k.gen == g && Pass(w).workers[p].opens == w.workers[p].opens)
  {
    WorkerGens(w, g, p);
    PassWorkers(w);
    var k := Key(p, ServedAfter(w));
    ObjectGens(w, g, k);
    if Mounts(DeterminePhase(w)) {
      MountedFile(w, g, p);
      FutAfter(w, g);
      assert Built(w, ServedAfter(w));
    } else {
      UnmountedFile(w, g, p);
      assert k in w.jobs.Keys;
    }
    PassJob(w, k);
  }

  lemma WorkerStays(w: World, p: string)
    requires p in w.profiles && (Mounts(DeterminePhase(w)) || p in w.workers)
    ensures p in Pass(w).workers
  {
    PassWorkers(w);
    WrittenWorkers(w);
  }

  /** Whatever edits went before: after a pass every worker opens the file of the URL that the Job on
      its claim was given, if and only if those Jobs already had the URL that the workers are given
      or keep, and no worker of a removed profile looks like a CronJob. */
  lemma FilesMatchExactly(w: World, g: nat)
    requires ServesAt(w, g)
    ensures FilesMatch(Pass(w)) <==> NoClash(w) && FilesAgree(w, g)
  {
    hide LooksLikeCron, Pass, ServedAfter, DeterminePhase;
    if !NoClash(w) {
      var p :| p in w.workers && p !in w.profiles && LooksLikeCron(w.traffic, p);
      StrayKept(w, p);
    } else {
      forall p | p in Pass(w).workers { WorkerFile(w, g, p); }
      forall p | p in w.profiles && (Mounts(DeterminePhase(w)) || p in w.workers)
        ensures p in Pass(w).workers
      {
        WorkerStays(w, p);
      }
    }
  }

  // ---------- the care is needed ----------

  /** One profile p whose first map is being built, or has been, from URL `built`. */
  function FirstMap(p: string, url: string, built: string, done: bool): World {
    var k := Key(p, 1);
    World(url, [p], {}, url, BuildingMap, map[k := done], map[k := Job(built, done)], map[])
  }

  lemma CarelessBuild(p: string, a: string)
    ensures Pass(Init(a, [p], {})) == FirstMap(p, a, a, false)
  {
    var w := Init(a, [p], {});
    ActiveIs(w.profiles, w.workers);
    assert p in w.profiles;
    assert DeterminePhase(w) == BuildingMap;
    assert Generation(w.profiles, 1) == {Key(p, 1)};
    assert Written(w).pvcs == map[Key(p, 1) := false];
  }

  lemma CarelessRecord(p: string, a: string, b: string)
    ensures Pass(FirstMap(p, a, a, false).(url := b)) == FirstMap(p, b, a, false)
  {
    var w := FirstMap(p, a, a, false).(url := b);
    ActiveIs(w.profiles, w.workers);
    assert p in w.profiles;
    assert DeterminePhase(w) == BuildingMap;
    assert Generation(w.profiles, 1) == {Key(p, 1)};
    assert Written(w).pvcs == w.pvcs;
    assert Written(w).jobs == w.jobs;
  }

  lemma CarelessDone(p: string, a: string, b: string)
    ensures Report(FirstMap(p, b, a, false), {Key(p, 1)}, {Key(p, 1)}, map[]) == FirstMap(p, b, a, true)
  {
    var x := Report(FirstMap(p, b, a, false), {Key(p, 1)}, {Key(p, 1)}, map[]);
    assert x.pvcs == map[Key(p, 1) := true];
    assert x.jobs == map[Key(p, 1) := Job(a, true)];
  }

  /** A worker opens a file of another name than the one its Job was told to build. */
  ghost predicate Mismatched(w: World, p: string, opens: string, built: string) {
    && p in w.workers && w.workers[p].opens == opens
    && Key(p, w.workers[p].gen) in w.jobs && w.jobs[Key(p, w.workers[p].gen)].url == built
  }

  lemma CarelessDeploy(p: string, a: string, b: string)
    ensures Mismatched(Pass(FirstMap(p, b, a, true)), p, b, a)
  {
    var w, k := FirstMap(p, b, a, true), Key(p, 1);
    ActiveIs(w.profiles, w.workers);
    assert p in w.profiles && k in w.pvcs.Keys;
    assert Act(w) == Fut(w) == 1;
    assert Built(w, 1) && !AllReady(w);
    assert DeterminePhase(w) == DeployingWorkers;
    WrittenWorkers(w);
    PassWorkers(w);
    WrittenClaims(w);
    PassClaims(w, k);
    PassJob(w, k);
    assert Pass(w).workers[p] == Worker(1, b, 0, 0);
  }

  /** A second URL while the first map is being built; only that edit is careless. */
  function CarelessSteps(p: string, b: string): seq<Step> {
    [Reconcile, Edit(b, [p], {}), Reconcile, Status({Key(p, 1)}, {Key(p, 1)}, map[]), Reconcile]
  }

  /** After it the worker opens the file named by the second URL on a map built from the first,
      whatever the two URLs are; the files differ whenever their names do. */
  lemma OneCarelessEdit(p: string, a: string, b: string)
    ensures Mismatched(Run(Init(a, [p], {}), CarelessSteps(p, b)), p, b, a)
  {
    var w1, w3, w4 := FirstMap(p, a, a, false), FirstMap(p, b, a, false), FirstMap(p, b, a, true);
    var w2, s4 := w1.(url := b), Status({Key(p, 1)}, {Key(p, 1)}, map[]);
    assert Do(Init(a, [p], {}), Reconcile) == w1 by { CarelessBuild(p, a); }
    assert Do(w1, Edit(b, [p], {})) == w2;
    assert Do(w2, Reconcile) == w3 by { CarelessRecord(p, a, b); }
    assert Do(w3, s4) == w4 by { CarelessDone(p, a, b); }
    RunFive(Init(a, [p], {}), Reconcile, Edit(b, [p], {}), Reconcile, s4, Reconcile, w1, w2, w3, w4);
    CarelessDeploy(p, a, b);
  }

  lemma RunFive(w: World, s1: Step, s2: Step, s3: Step, s4: Step, s5: Step, w1: World, w2: World, w3: World, w4: World)
    requires w1 == Do(w, s1) && w2 == Do(w1, s2) && w3 == Do(w2, s3) && w4 == Do(w3, s4)
    ensures Run(w, [s1, s2, s3, s4, s5]) == Do(w4, s5)
  {
    assert [s1, s2, s3, s4, s5][1..] == [s2, s3, s4, s5];
    assert [s2, s3, s4, s5][1..] == [s3, s4, s5];
    assert [s3, s4, s5][1..] == [s4, s5];
    assert [s4, s5][1..] == [s5];
    assert Run(w3, [s4, s5]) == Run(w4, [s5]);
    assert Run(w2, [s3, s4, s5]) == Run(w3, [s4, s5]);
    assert Run(w1, [s2, s3, s4, s5]) == Run(w2, [s3, s4, s5]);
    assert Run(w4, [s5]) == Run(Do(w4, s5), []);
  }
}
