/**
 What the invariant means for the users of the cluster: the served map never goes back, and garbage
 collection spares what is in use.
 */
module Service {
  import opened Protocol
  import opened Safety

  // ---------- the served generation ----------

  lemma PassMonotone(w: World)
    requires Inv(w)
    ensures Act(w) <= Act(Pass(w)) <= Act(w) + 1
  {
    var g :| InvAt(w, g);
    ActAfter(w);
    NewestIs(w, g);
    if w.profiles != [] && Built(w, Act(w)) { ActIsServed(w, g); }
  }

  lemma StatusKeepsAct(w: World, s: Step)
    requires s.Status?
    ensures Act(Do(w, s)) == Act(w)
  {
    ActiveSame(w.profiles, w.workers, Do(w, s).workers);
  }

  lemma EditMovesAct(w: World, s: Step)
    requires s.Edit? && Inv(w)
    ensures Act(Do(w, s)) == Act(w) || (Act(w) == 1 && !Serving(w)) || (Act(Do(w, s)) == 1 && !Serving(Do(w, s)))
    ensures Act(Do(w, s)) >= 1
  {
    var g :| InvAt(w, g);
    ActiveServes(w, g);
    ActiveServes(Do(w, s), g);
  }

  /** While a deployed profile stays in the spec, the served generation is unmoved by edits and
      status changes, and rises by at most one in a pass. */
  lemma StepMonotone(w: World, s: Step)
    requires Inv(w) && Serving(w) && Serving(Do(w, s))
    ensures Act(w) <= Act(Do(w, s)) <= Act(w) + (if s.Reconcile? then 1 else 0)
  {
    match s {
      case Edit(_, _, _) => EditMovesAct(w, s);
      case Status(_, _, _) => StatusKeepsAct(w, s);
      case Reconcile => PassMonotone(w);
    }
  }

  /** The served generation falls only when an edit leaves no deployed profile in the spec. */
  lemma FallsOnlyWithoutWorkers(w: World, s: Step)
    requires Inv(w) && Act(Do(w, s)) < Act(w)
    ensures s.Edit? && !Serving(Do(w, s)) && Act(Do(w, s)) == 1
  {
    match s {
      case Edit(_, _, _) =>
        var g :| InvAt(w, g);
        ActiveServes(w, g);
        EditMovesAct(w, s);
      case Status(_, _, _) => StatusKeepsAct(w, s);
      case Reconcile => PassMonotone(w);
    }
  }

  /** At every point of the run some deployed profile is in the spec. */
  ghost predicate StaysServed(w: World, steps: seq<Step>)
    decreases |steps|
  {
    Serving(w) && (steps != [] ==> StaysServed(Do(w, steps[0]), steps[1..]))
  }

  function Passes(steps: seq<Step>): nat {
    if steps == [] then 0 else (if steps[0].Reconcile? then 1 else 0) + Passes(steps[1..])
  }

  lemma {:induction false} RunMonotone(w: World, steps: seq<Step>)
    requires Inv(w) && Unclashing(w, steps) && StaysServed(w, steps)
    ensures Act(w) <= Act(Run(w, steps)) <= Act(w) + Passes(steps)
    decreases |steps|
  {
    if steps != [] {
      StepKeepsInv(w, steps[0]);
      StepMonotone(w, steps[0]);
      RunMonotone(Do(w, steps[0]), steps[1..]);
    }
  }

  // ---------- what garbage collection spares ----------

  /** While workers are moved, garbage collection does not depend on which generation it reads as the
      active one: from any state, every mounted claim is kept if and only if no worker of a removed
      profile looks like a CronJob. */
  lemma AnyActiveWillDo(w: World, active: nat)
    requires DeterminePhase(w) == RedeployingWorkers || DeterminePhase(w) == DeployingWorkers
    ensures ClaimsExist(CollectSeen(Written(w), active, Fut(Written(w)))) <==> NoClash(w)
  {
    var v := Written(w);
    var x := CollectSeen(v, active, Fut(v));
    WrittenClaims(w);
    WrittenWorkers(w);
    WrittenNames(w);
    WrittenClash(w);
    assert Built(w, Fut(w)) && ServedAfter(w) == Fut(w) == Fut(v);
    hide LooksLikeCron, DeterminePhase, Fut, Act;
    forall p | p in w.profiles ensures p in v.workers && Key(p, v.workers[p].gen) in x.pvcs {
      assert v.workers[p].gen == Fut(v) && Key(p, Fut(v)) in w.pvcs;
    }
    if !NoClash(w) {
      var p :| p in w.workers && p !in w.profiles && LooksLikeCron(w.traffic, p);
      assert p in x.workers && Key(p, x.workers[p].gen) !in x.pvcs;
    }
  }

  /** A read of the Deployments during garbage collection that returns each of the spec's workers
      either as it was before this pass or as the pass has left it. */
  ghost predicate Lagging(w: World, seen: map<string, Worker>) {
    forall p :: p in w.profiles ==>
      (p in seen ==> (p in w.workers && seen[p] == w.workers[p]) ||
                     (p in Written(w).workers && seen[p] == Written(w).workers[p])) &&
      (p !in seen ==> p !in w.workers || p !in Written(w).workers)
  }

  lemma LaggingActive(w: World, g: nat, seen: map<string, Worker>)
    requires InvAt(w, g) && Lagging(w, seen)
    ensures Active(w.profiles, seen) == Act(w) || Active(w.profiles, seen) == ServedAfter(w)
  {
    ActiveIs(w.profiles, seen);
    ActiveServes(w, g);
    WrittenWorkers(w);
  }

  /** Between complete passes, in every phase, the claim of every worker is kept whatever mixture the
      lagging read returns. */
  lemma LaggingCollectionIsSafe(w: World, seen: map<string, Worker>)
    requires Inv(w) && Lagging(w, seen)
    ensures ClaimsExist(CollectSeen(Written(w), Active(w.profiles, seen), Fut(Written(w))))
  {
    var g :| InvAt(w, g);
    var a := Active(w.profiles, seen);
    var x := CollectSeen(Written(w), a, Fut(Written(w)));
    LaggingActive(w, g, seen);
    WrittenClaims(w);
    WrittenWorkers(w);
    PassWorkers(w);
    forall p | p in x.workers ensures Key(p, x.workers[p].gen) in x.pvcs {
      WorkerGens(w, g, p);
      FutAfter(w, g);
    }
  }

  lemma CollectedStaysExpected(w: World, k: Key)
    requires w.jobs.Keys <= w.pvcs.Keys
    requires k in Collect(w).jobs || k in Collect(w).pvcs
    ensures Expected(Collect(w), Act(Collect(w)), Fut(Collect(w)), k)
  {
    var x := Collect(w);
    ActiveSame(w.profiles, w.workers, x.workers);
    assert k in w.pvcs.Keys && Expected(w, Act(w), Fut(w), k);
    assert k in x.pvcs.Keys;
    assert x.pvcs.Keys <= w.pvcs.Keys;
  }

  lemma CollectIdempotent(w: World)
    requires w.jobs.Keys <= w.pvcs.Keys
    ensures Collect(Collect(w)) == Collect(w)
  {
    var x := Collect(w);
    forall k | k in x.pvcs || k in x.jobs { CollectedStaysExpected(w, k); }
    assert Collect(x).pvcs == x.pvcs;
    assert Collect(x).jobs == x.jobs;
    assert Collect(x).workers == x.workers;
  }

  /** After a pass from any reachable state a second garbage collection deletes nothing. */
  lemma PassCollectsAll(w: World)
    requires Inv(w)
    ensures Collect(Pass(w)) == Pass(w)
  {
    var v := Written(w);
    assert v.jobs.Keys == v.pvcs.Keys by { WrittenClaims(w); }
    CollectIdempotent(v);
  }

  lemma EditedUpdate(w: World, g: nat, x: World)
    requires ServesAt(w, g) && DeterminePhase(w) == UpdatingMap && x.profiles != []
    requires x == w.(url := x.url, profiles := x.profiles, traffic := x.traffic)
    ensures ServesAt(x, g) && Act(w) == g && (Built(x, Act(x)) ==> Act(x) == g)
  {
    ActIsServed(w, g);
    if Built(x, Act(x)) { ActIsServed(x, g); }
  }

  lemma UpdateContinues(x: World, g: nat, k: Key)
    requires ServesAt(x, g) && x.profiles != [] && Built(x, Act(x)) && Act(x) == g
    requires k in x.jobs && k.profile in x.profiles && k.gen == g + 1
    ensures k in Pass(x).jobs
  {
    assert k in x.pvcs.Keys;
    NewestIs(x, g);
    assert Fut(x) == g + 1;
    FutAfter(x, g);
    PassClaims(x, k);
  }

  lemma UpdateAbandoned(x: World, g: nat, k: Key)
    requires ServesAt(x, g) && DeterminePhase(x) == BuildingMap && k in Pass(x).jobs
    ensures k.gen == Act(x) && k.gen != g + 1
  {
    ObjectGens(x, g, k);
    ActiveServes(x, g);
  }

  lemma SameJob(x: World, k: Key)
    requires k in x.jobs && k in Pass(x).jobs
    ensures Pass(x).jobs[k] == x.jobs[k]
  {
  }

  /** Any edit while a map update is under way.  What the update has made for the profiles of the new
      spec survives the next pass if and only if the served generation is finished for all of them;
      otherwise the pass goes back to building and leaves no Job but those of the active generation,
      and the URL counts as applied. */
  lemma EditDuringUpdate(w: World, url: string, profiles: seq<string>, traffic: set<string>, k: Key)
    requires Inv(w) && DeterminePhase(w) == UpdatingMap && profiles != []
    ensures var x := Do(w, Edit(url, profiles, traffic));
      && (k in w.jobs && k.profile in profiles && k.gen == Act(w) + 1 ==> (k in Pass(x).jobs <==> Built(x, Act(x))))
      && (k in w.jobs && k in Pass(x).jobs ==> Pass(x).jobs[k] == w.jobs[k])
      && (!Built(x, Act(x)) ==>
            DeterminePhase(x) == BuildingMap && Pass(x).lastUrl == url && (k in Pass(x).jobs ==> k.gen == Act(x)))
  {
    var g: nat :| InvAt(w, g);
    var x := Do(w, Edit(url, profiles, traffic));
    EditedUpdate(w, g, x);
    if k in w.jobs && k in Pass(x).jobs { SameJob(x, k); }
    if !Built(x, Act(x)) {
      if k in Pass(x).jobs { UpdateAbandoned(x, g, k); }
    } else if k in w.jobs && k.profile in profiles && k.gen == g + 1 {
      UpdateContinues(x, g, k);
    }
  }
}
