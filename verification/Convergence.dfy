/**
 With the spec left alone and Kubernetes making progress, the cluster is deployed after two rounds.
 */
module Convergence {
  import opened Protocol
  import opened Safety
  import opened Service
  import opened Interruptions
  import opened MountSafety
  import opened Recovery

  /** Every claim is bound and every Job complete. */
  ghost predicate MapsUp(w: World) {
    (forall k :: k in w.pvcs ==> w.pvcs[k]) && (forall k :: k in w.jobs ==> w.jobs[k].complete)
  }

  ghost predicate WorkersUp(w: World) {
    forall p :: p in w.workers ==> Ready(w.workers[p])
  }

  /** Passes and forward status changes in any order; workers' readiness may come and go. */
  ghost predicate Undisturbed(w: World, steps: seq<Step>)
    decreases |steps|
  {
    steps != [] ==>
      && (steps[0].Reconcile? || (steps[0].Status? && Forward(w, steps[0])))
      && Undisturbed(Do(w, steps[0]), steps[1..])
  }

  /** A round: at least one pass, and in the end every map that exists is finished. */
  ghost predicate MapRound(w: World, steps: seq<Step>) {
    Undisturbed(w, steps) && Reconcile in steps && MapsUp(Run(w, steps))
  }

  /** Likewise, but it is the workers that are up in the end. */
  ghost predicate WorkerRound(w: World, steps: seq<Step>) {
    Undisturbed(w, steps) && Reconcile in steps && WorkersUp(Run(w, steps))
  }

  // ---------- three stages, each kept by every step ----------

  /** A pass has been made: the URL is recorded and every generation in play exists in full. */
  ghost predicate Started(w: World, g: nat) {
    && InvAt(w, g) && w.profiles != [] && w.url == w.lastUrl && Act(w) == g
    && (forall p :: p in w.profiles ==> Key(p, g) in w.pvcs && Key(p, Fut(w)) in w.pvcs)
  }

  /** The maps in play are finished. */
  ghost predicate Finished(w: World, g: nat) {
    Started(w, g) && Built(w, g) && Built(w, Fut(w))
  }

  /** The newest map is mounted everywhere. */
  ghost predicate Rolled(w: World, g: nat) {
    && Finished(w, g) && Fut(w) == g
    && (forall p :: p in w.profiles ==> p in w.workers)
    && (forall p :: p in w.workers ==> p in w.profiles)
  }

  /** After a pass that leaves no leftovers, the newest generation is the next one of an update, or the
      served one. */
  lemma FutOfPass(w: World)
    requires Safe(w) && Restorable(w) && w.profiles != []
    ensures Fut(Pass(w)) ==
      if DeterminePhase(w) == UpdatingMap && !Overtaken(w) then ServedAfter(w) + 1 else ServedAfter(w)
  {
    var p := w.profiles[0];
    assert p in w.profiles;
    ServedPositive(w);
    ServedWhileUpdating(w);
    hide Pass, Written, ServedAfter, DeterminePhase, Act;
    var h := ServedAfter(w);
    PassKeys(w, p, h);
    PassKeys(w, p, h + 1);
    assert Key(p, h) in Pass(w).pvcs.Keys;
    assert Key(p, h + 1) in Pass(w).pvcs ==> Key(p, h + 1) in Pass(w).pvcs.Keys;
    forall k | k in Pass(w).pvcs
      ensures k.gen == h || (k.gen == h + 1 && DeterminePhase(w) == UpdatingMap && !Overtaken(w))
    {
      OnlySpec(w, k);
      PassKeys(w, k.profile, k.gen);
    }
  }

  lemma PassStarts(w: World)
    requires Safe(w) && Restorable(w) && w.profiles != []
    ensures Started(Pass(w), ServedAfter(w))
  {
    RestoresInv(w);
    ActAfter(w);
    FutOfPass(w);
    ServedWhileUpdating(w);
    SameSpecAfter(w);
    hide Pass, Written, ServedAfter, DeterminePhase, Act, Fut, InvAt;
    forall p | p in w.profiles ensures Key(p, ServedAfter(w)) in Pass(w).pvcs && Key(p, Fut(Pass(w))) in Pass(w).pvcs {
      PassKeys(w, p, ServedAfter(w));
      PassKeys(w, p, Fut(Pass(w)));
    }
  }

  lemma SameSpecAfter(w: World)
    ensures Pass(w).profiles == w.profiles && Pass(w).url == Pass(w).lastUrl == w.url
  {
  }

  lemma InvStarts(w: World, g: nat)
    requires InvAt(w, g) && w.profiles != []
    ensures Started(Pass(w), ServedAfter(w))
    ensures Fut(Pass(w)) == if DeterminePhase(w) == UpdatingMap then ServedAfter(w) + 1 else ServedAfter(w)
  {
    InvIsRestorable(w);
    PassStarts(w);
    FutOfPass(w);
    NewestIs(w, g);
    if DeterminePhase(w) == UpdatingMap { ActIsServed(w, g); }
  }

  lemma RollPhase(w: World, g: nat)
    requires Finished(w, g)
    ensures Mounts(DeterminePhase(w)) && ServedAfter(w) == Fut(w) == Fut(Written(w)) == Act(Written(w))
  {
    NewestIs(w, g);
    FutAfter(w, g);
    ActAfter(w);
  }

  lemma PassKeepsKey(w: World, g: nat, k: Key)
    requires Finished(w, g) && k.profile in w.profiles && k.gen == Fut(w)
    ensures k in w.pvcs <==> k in Pass(w).pvcs
    ensures k in w.jobs <==> k in Pass(w).jobs
    ensures k in w.pvcs ==> Pass(w).pvcs[k] == w.pvcs[k]
    ensures k in w.jobs ==> Pass(w).jobs[k] == w.jobs[k]
  {
    RollPhase(w, g);
    WrittenClaims(w);
    PassClaims(w, k);
  }

  lemma PassRolls(w: World, g: nat)
    requires Finished(w, g)
    ensures Rolled(Pass(w), Fut(w)) && ServedAfter(w) == Fut(w)
  {
    RollPhase(w, g);
    InvStarts(w, g);
    forall p | p in w.profiles { PassKeepsKey(w, g, Key(p, Fut(w))); }
    assert Built(Pass(w), Fut(w));
    WrittenWorkers(w);
    PassWorkers(w);
  }

  lemma AllUpFinishes(w: World, g: nat)
    requires Started(w, g) && MapsUp(w)
    ensures Finished(w, g)
  {
    assert forall k :: k in w.pvcs <==> k in w.jobs by {
      assert w.pvcs.Keys == w.jobs.Keys;
    }
  }

  /** With everything up on the newest map, the cluster is reported deployed. */
  lemma RolledIsDeployed(w: World, g: nat)
    requires Rolled(w, g) && WorkersUp(w)
    ensures Deployed(DeterminePhase(w))
    ensures forall p :: p in w.profiles ==> p in w.workers && w.workers[p].gen == Fut(w)
  {
  }

  lemma StatusKeepsBuilt(w: World, s: Step, h: nat)
    requires s.Status? && Forward(w, s) && Built(w, h)
    ensures Built(Do(w, s), h)
  {
  }

  lemma StatusKeepsNames(w: World, s: Step)
    requires s.Status?
    ensures var x := Do(w, s);
      && x.workers.Keys == w.workers.Keys && x.pvcs.Keys == w.pvcs.Keys && x.jobs.Keys == w.jobs.Keys
      && x.url == w.url && x.lastUrl == w.lastUrl && x.profiles == w.profiles && x.traffic == w.traffic
      && (forall p :: p in w.workers ==> x.workers[p].gen == w.workers[p].gen)
  {
  }

  lemma StatusKeepsStarted(w: World, g: nat, s: Step)
    requires s.Status? && Started(w, g)
    ensures Started(Do(w, s), g)
  {
    hide Act, Do, LooksLikeCron;
    StatusKeepsAct(w, s);
    StatusKeepsNames(w, s);
  }

  lemma StatusKeepsFinished(w: World, g: nat, s: Step)
    requires s.Status? && Forward(w, s) && Finished(w, g)
    ensures Finished(Do(w, s), g)
  {
    hide Started, Built, Do, Forward;
    StatusKeepsStarted(w, g, s);
    StatusKeepsNames(w, s);
    StatusKeepsBuilt(w, s, g);
    StatusKeepsBuilt(w, s, Fut(w));
  }

  lemma StatusKeepsRolled(w: World, g: nat, s: Step)
    requires s.Status? && Forward(w, s) && Rolled(w, g)
    ensures Rolled(Do(w, s), g)
  {
    hide Finished, Do, Forward;
    StatusKeepsFinished(w, g, s);
    StatusKeepsNames(w, s);
  }

  // ---------- the stages along a run ----------

  ghost predicate StartedSome(w: World) { exists g :: Started(w, g) }
  ghost predicate FinishedSome(w: World) { exists g :: Finished(w, g) }
  ghost predicate RolledSome(w: World) { exists g :: Rolled(w, g) }

  lemma StepKeepsStarted(w: World, g: nat, s: Step)
    requires (s.Reconcile? || (s.Status? && Forward(w, s))) && Started(w, g)
    ensures StartedSome(Do(w, s))
  {
    if s.Status? { StatusKeepsStarted(w, g, s); } else { StartedInv(w, g); InvStarts(w, g); }
  }

  lemma StartedInv(w: World, g: nat)
    requires Started(w, g)
    ensures InvAt(w, g) && w.profiles != []
  {
  }

  lemma StepKeepsFinished(w: World, g: nat, s: Step)
    requires (s.Reconcile? || (s.Status? && Forward(w, s))) && Finished(w, g)
    ensures FinishedSome(Do(w, s)) && (s.Reconcile? ==> RolledSome(Do(w, s)))
  {
    hide Started, Built;
    if s.Status? { StatusKeepsFinished(w, g, s); } else { PassRolls(w, g); }
  }

  lemma StepKeepsRolled(w: World, g: nat, s: Step)
    requires (s.Reconcile? || (s.Status? && Forward(w, s))) && Rolled(w, g)
    ensures RolledSome(Do(w, s))
  {
    hide Started, Built;
    if s.Status? { StatusKeepsRolled(w, g, s); } else { PassRolls(w, g); }
  }

  lemma StepKeepsStages(w: World, s: Step)
    requires s.Reconcile? || (s.Status? && Forward(w, s))
    ensures StartedSome(w) ==> StartedSome(Do(w, s))
    ensures FinishedSome(w) ==> FinishedSome(Do(w, s)) && (s.Reconcile? ==> RolledSome(Do(w, s)))
    ensures RolledSome(w) ==> RolledSome(Do(w, s))
  {
    hide Started, Finished, Rolled, Do, Forward;
    if StartedSome(w) {
      var g: nat :| Started(w, g);
      StepKeepsStarted(w, g, s);
    }
    if FinishedSome(w) {
      var g: nat :| Finished(w, g);
      StepKeepsFinished(w, g, s);
    }
    if RolledSome(w) {
      var g: nat :| Rolled(w, g);
      StepKeepsRolled(w, g, s);
    }
  }

  lemma {:induction false} RunKeepsStages(w: World, steps: seq<Step>)
    requires Undisturbed(w, steps)
    ensures StartedSome(w) ==> StartedSome(Run(w, steps))
    ensures FinishedSome(w) ==> FinishedSome(Run(w, steps))
    ensures RolledSome(w) ==> RolledSome(Run(w, steps))
    decreases |steps|
  {
    if steps != [] {
      StepKeepsStages(w, steps[0]);
      RunKeepsStages(Do(w, steps[0]), steps[1..]);
    }
  }

  /** The first pass of the run finds no update overtaken by leftovers of the spec's profiles. */
  ghost predicate Recovers(w: World, steps: seq<Step>)
    decreases |steps|
  {
    steps != [] ==> if steps[0].Reconcile? then Restorable(w) else Recovers(Do(w, steps[0]), steps[1..])
  }

  lemma StatusKeepsSafe(w: World, s: Step)
    requires s.Status? && Forward(w, s) && Safe(w)
    ensures Safe(Do(w, s)) && Do(w, s).profiles == w.profiles
  {
    hide Safe;
    EnvKeepsSafe(w, s);
  }

  lemma {:induction false} RoundAdvances(w: World, steps: seq<Step>)
    requires Undisturbed(w, steps) && Reconcile in steps
    ensures Safe(w) && Recovers(w, steps) && w.profiles != [] ==> StartedSome(Run(w, steps))
    ensures FinishedSome(w) ==> RolledSome(Run(w, steps))
    decreases |steps|
  {
    hide Safe, Restorable, Started, Finished, Rolled, Forward;
    var x := Do(w, steps[0]);
    StepKeepsStages(w, steps[0]);
    if steps[0].Reconcile? {
      if Safe(w) && Recovers(w, steps) && w.profiles != [] { PassStarts(w); }
      RunKeepsStages(x, steps[1..]);
    } else {
      assert steps == [steps[0]] + steps[1..];
      if Safe(w) { StatusKeepsSafe(w, steps[0]); }
      RoundAdvances(x, steps[1..]);
    }
  }

  lemma RoundFinishes(w: World, steps: seq<Step>)
    requires MapRound(w, steps) && Safe(w) && Recovers(w, steps) && w.profiles != []
    ensures FinishedSome(Run(w, steps))
  {
    hide Safe, Recovers, Started, Finished;
    RoundAdvances(w, steps);
    var g: nat :| Started(Run(w, steps), g);
    AllUpFinishes(Run(w, steps), g);
  }

  /** From any state that a patient run leads to, with profiles, two rounds are enough: one whose first
      pass recovers and that finishes the maps, and one that brings the workers up.  Then the cluster
      is deployed, every profile on the newest map. */
  lemma TwoRoundsDeploy(w: World, first: seq<Step>, second: seq<Step>)
    requires Safe(w) && w.profiles != []
    requires MapRound(w, first) && Recovers(w, first) && WorkerRound(Run(w, first), second)
    ensures var x := Run(Run(w, first), second);
      && Deployed(DeterminePhase(x)) && RolledSome(x)
      && (forall p :: p in x.profiles ==> p in x.workers && x.workers[p].gen == Fut(x))
  {
    hide Safe, Recovers, Rolled, Finished, DeterminePhase;
    RoundFinishes(w, first);
    RoundAdvances(Run(w, first), second);
    var x := Run(Run(w, first), second);
    var g: nat :| Rolled(x, g);
    RolledIsDeployed(x, g);
  }

  /** Where the invariant of complete passes holds, every undisturbed run recovers. */
  lemma {:induction false} InvRecovers(w: World, steps: seq<Step>)
    requires Inv(w) && Undisturbed(w, steps)
    ensures Safe(w) && Recovers(w, steps)
    decreases |steps|
  {
    hide Safe, Restorable, Inv, Forward;
    InvIsRestorable(w);
    if steps != [] && !steps[0].Reconcile? {
      StepKeepsInv(w, steps[0]);
      InvRecovers(Do(w, steps[0]), steps[1..]);
    }
  }

  /** Such rounds exist from everywhere: a pass, and a report that everything has come up. */
  lemma RoundExists(w: World) returns (steps: seq<Step>)
    ensures MapRound(w, steps) && WorkerRound(w, steps)
  {
    hide Pass, Report, MapsUp, WorkersUp, Forward;
    var x := Pass(w);
    var up := Status(x.pvcs.Keys, x.jobs.Keys, map p | p in x.workers :: (1, 1));
    steps := [Reconcile, up];
    AllReported(x, up);
    assert steps[1..] == [up] && [up][1..] == [];
    assert Do(w, Reconcile) == x;
    assert Run(x, [up]) == Run(Do(x, up), []);
    assert Run(w, steps) == Do(x, up);
    assert Undisturbed(x, [up]);
  }

  lemma AllReported(x: World, up: Step)
    requires up.Status? && up.bound == x.pvcs.Keys && up.complete == x.jobs.Keys
    requires up.replicas == map p | p in x.workers :: (1, 1)
    ensures Forward(x, up) && MapsUp(Do(x, up)) && WorkersUp(Do(x, up))
  {
  }

  /** And it stays deployed for as long as nobody edits the spec, whenever its workers are up. */
  lemma StaysDeployed(w: World, steps: seq<Step>)
    requires RolledSome(w) && Undisturbed(w, steps) && WorkersUp(Run(w, steps))
    ensures Deployed(DeterminePhase(Run(w, steps)))
  {
    hide Rolled, DeterminePhase;
    RunKeepsStages(w, steps);
    var g: nat :| Rolled(Run(w, steps), g);
    RolledIsDeployed(Run(w, steps), g);
  }

  // ---------- what is not started in the first pass is not started later ----------

  ghost predicate NoNewJobs(w: World, x: World) {
    x.jobs.Keys <= w.jobs.Keys && forall k :: k in x.jobs ==> x.jobs[k].url == w.jobs[k].url
  }

  lemma StartedCreatesNothing(w: World, g: nat)
    requires Started(w, g)
    ensures NoNewJobs(w, Pass(w))
  {
    NewestIs(w, g);
    assert EffectsOf(w).maps <= w.jobs.Keys by {
      if DeterminePhase(w) == UpdatingMap { assert Fut(w) == g + 1; }
      assert w.jobs.Keys == w.pvcs.Keys;
    }
  }

  lemma {:induction false} StartedStartsNothing(w: World, steps: seq<Step>)
    requires StartedSome(w) && Undisturbed(w, steps)
    ensures NoNewJobs(w, Run(w, steps))
    decreases |steps|
  {
    if steps != [] {
      hide Started;
      var g: nat :| Started(w, g);
      if steps[0].Reconcile? { StartedCreatesNothing(w, g); }
      StepKeepsStages(w, steps[0]);
      StartedStartsNothing(Do(w, steps[0]), steps[1..]);
    }
  }

  /** A pass records the URL of the spec whether it has honoured it or not: until the next edit, no
      later pass creates a Job or changes the URL of one. */
  lemma NotRetried(w: World, steps: seq<Step>)
    requires Inv(w) && w.profiles != [] && Undisturbed(Pass(w), steps)
    ensures NoNewJobs(Pass(w), Run(Pass(w), steps))
  {
    InvIsRestorable(w);
    PassStarts(w);
    StartedStartsNothing(Pass(w), steps);
  }

  // ---------- at rest ----------

  lemma RestingWorker(w: World, g: nat, p: string)
    requires Rolled(w, g) && (p in w.workers || p in Pass(w).workers)
    ensures p in w.workers && p in Pass(w).workers && Pass(w).workers[p] == Mounted(w, p, g)
  {
    PassRolls(w, g);
    WrittenWorkers(w);
    PassWorkers(w);
  }

  lemma RestingKey(w: World, g: nat, k: Key)
    requires Rolled(w, g)
    ensures k in Pass(w).pvcs <==> k in w.pvcs && k.profile in w.profiles
    ensures k in Pass(w).jobs <==> k in w.jobs && k.profile in w.profiles
    ensures k in Pass(w).pvcs ==> Pass(w).pvcs[k] == w.pvcs[k]
    ensures k in Pass(w).jobs ==> Pass(w).jobs[k] == w.jobs[k]
  {
    RollPhase(w, g);
    if k in w.pvcs { assert k in w.pvcs.Keys; }
    if k in w.jobs { assert k in w.jobs.Keys; assert k in w.pvcs.Keys; }
    WrittenClaims(w);
    PassClaims(w, k);
    if k.gen == g && k.profile in w.profiles { PassKeepsKey(w, g, k); }
  }

  /** A world whose workers and claims are what a pass leaves is left alone by the next one. */
  ghost predicate Tidy(x: World, g: nat) {
    && Rolled(x, g)
    && (forall p :: p in x.workers ==> x.workers[p].gen == g && x.workers[p].opens == x.url)
    && (forall k :: k in x.pvcs || k in x.jobs ==> k.profile in x.profiles)
  }

  lemma PassTidies(w: World, g: nat)
    requires Rolled(w, g)
    ensures Tidy(Pass(w), g)
  {
    PassRolls(w, g);
    forall p | p in Pass(w).workers { RestingWorker(w, g, p); }
    forall k { RestingKey(w, g, k); }
  }

  lemma TidyWorkers(x: World, g: nat)
    requires Tidy(x, g)
    ensures Pass(x).workers == x.workers
  {
    forall p ensures p in Pass(x).workers <==> p in x.workers
      ensures p in x.workers ==> Pass(x).workers[p] == x.workers[p]
    {
      if p in x.workers || p in Pass(x).workers { RestingWorker(x, g, p); }
    }
  }

  lemma TidyKey(x: World, g: nat, k: Key)
    requires Tidy(x, g)
    ensures (k in Pass(x).pvcs <==> k in x.pvcs) && (k in x.pvcs ==> Pass(x).pvcs[k] == x.pvcs[k])
    ensures (k in Pass(x).jobs <==> k in x.jobs) && (k in x.jobs ==> Pass(x).jobs[k] == x.jobs[k])
  {
    RestingKey(x, g, k);
  }

  lemma SameMaps<K, V>(m: map<K, V>, n: map<K, V>)
    requires forall k :: (k in m <==> k in n) && (k in n ==> m[k] == n[k])
    ensures m == n
  {
  }

  lemma TidyKeys(x: World, g: nat)
    requires Tidy(x, g)
    ensures Pass(x).pvcs == x.pvcs && Pass(x).jobs == x.jobs
  {
    var y := Pass(x);
    forall k ensures (k in y.pvcs <==> k in x.pvcs) && (k in x.pvcs ==> y.pvcs[k] == x.pvcs[k])
      ensures (k in y.jobs <==> k in x.jobs) && (k in x.jobs ==> y.jobs[k] == x.jobs[k])
    {
      TidyKey(x, g, k);
    }
    SameMaps(y.pvcs, x.pvcs);
    SameMaps(y.jobs, x.jobs);
  }

  /** Once rolled out, a pass changes at most the file names in the workers and the leftovers of
      removed profiles; the next pass changes nothing in the claims, Jobs and workers. */
  lemma RolledIsFixed(w: World, g: nat)
    requires Rolled(w, g)
    ensures SameObjects(Pass(Pass(w)), Pass(w))
  {
    PassTidies(w, g);
    TidyWorkers(Pass(w), g);
    TidyKeys(Pass(w), g);
  }
}
