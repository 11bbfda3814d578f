/**
 What every run of complete passes keeps, whatever the user edits and Kubernetes reports.
 */
module Safety {
  import opened Protocol

  /** Generation g is the one being served. */
  ghost predicate ServesAt(w: World, g: nat) {
    && g >= 1
    && (w.workers == map[] ==> g == 1)
    && (forall p :: p in w.workers ==> w.workers[p].gen == g && Key(p, g) in w.pvcs)
    && (forall k :: k in w.pvcs ==> k.gen == g || k.gen == g + 1)
    && w.jobs.Keys == w.pvcs.Keys
  }

  ghost predicate InvAt(w: World, g: nat) {
    ServesAt(w, g) && NoClash(w)
  }

  ghost predicate Inv(w: World) {
    exists g :: InvAt(w, g)
  }

  ghost predicate ClaimsExist(w: World) {
    forall p :: p in w.workers ==> Key(p, w.workers[p].gen) in w.pvcs
  }

  /** Some profile of the spec has a worker. */
  ghost predicate Serving(w: World) {
    exists p :: p in w.profiles && p in w.workers
  }

  lemma {:induction false} ActiveIs(ps: seq<string>, ws: map<string, Worker>)
    ensures (exists p :: p in ps && p in ws && Active(ps, ws) == ws[p].gen)
         || ((forall p :: p in ps ==> p !in ws) && Active(ps, ws) == 1)
  {
    if ps == [] {
    } else if ps[0] in ws {
      assert ps[0] in ps;
    } else {
      ActiveIs(ps[1..], ws);
      assert ps == [ps[0]] + ps[1..];
    }
  }

  /** The pass finds the served generation, or 1 once no deployed profile is left in the spec. */
  lemma ActiveServes(w: World, g: nat)
    requires ServesAt(w, g)
    ensures Act(w) == if Serving(w) then g else 1
  {
    ActiveIs(w.profiles, w.workers);
  }

  /** Reading a list with the same elements in another order gives the same answer. */
  lemma ActiveIgnoresOrder(w: World, other: seq<string>)
    requires Inv(w)
    requires forall p :: p in other <==> p in w.profiles
    ensures Active(other, w.workers) == Act(w)
  {
    ActiveIs(w.profiles, w.workers);
    ActiveIs(other, w.workers);
  }

  lemma NewestIs(w: World, g: nat)
    requires ServesAt(w, g)
    ensures Fut(w) == g + 1 || Fut(w) == g || (Fut(w) == 1 && w.pvcs == map[])
    ensures w.workers != map[] ==> Fut(w) >= g
    ensures Fut(w) >= Act(w)
  {
    ActiveIs(w.profiles, w.workers);
    if w.workers != map[] {
      var p :| p in w.workers;
      assert Key(p, g) in w.pvcs.Keys;
    }
    if w.pvcs != map[] {
      var k :| k in w.pvcs;
      assert k in w.pvcs.Keys;
    }
  }

  /** Built generations are made of existing claims. */
  lemma BuiltHasClaims(w: World, g: nat)
    requires Built(w, g) && w.profiles != []
    ensures Generation(w.profiles, g) <= w.pvcs.Keys && Generation(w.profiles, g) <= w.jobs.Keys
    ensures Key(w.profiles[0], g) in w.pvcs
    ensures Fut(w) >= g
  {
    assert w.profiles[0] in w.profiles;
    assert Key(w.profiles[0], g) in w.pvcs.Keys;
  }

  /** The generation that is served once the pass is over. */
  ghost function ServedAfter(w: World): nat {
    match DeterminePhase(w)
    case Empty => 1
    case BuildingMap => Act(w)
    case UpdatingMap => Act(w)
    case RedeployingWorkers => Fut(w)
    case DeployingWorkers => Act(w)
    case WorkersDeployed => Act(w)
    case WorkersRedeployed => Act(w)
  }

  lemma {:induction false} ActiveSame(ps: seq<string>, ws: map<string, Worker>, vs: map<string, Worker>)
    requires forall p :: p in ps ==> (p in ws <==> p in vs) && (p in ws ==> ws[p].gen == vs[p].gen)
    ensures Active(ps, ws) == Active(ps, vs)
  {
    if ps != [] { ActiveSame(ps[1..], ws, vs); }
  }

  predicate Mounts(ph: Phase) {
    ph != Empty && ph != BuildingMap && ph != UpdatingMap
  }

  /** The workers after the builders: all of the spec's on one generation, or none touched. */
  lemma WrittenWorkers(w: World)
    ensures Mounts(DeterminePhase(w)) ==>
      forall p :: p in w.profiles ==> p in Written(w).workers && Written(w).workers[p] == Mounted(w, p, ServedAfter(w))
    ensures !Mounts(DeterminePhase(w)) ==> Written(w).workers == w.workers
  {
  }

  lemma WrittenNames(w: World)
    ensures forall p :: p in Written(w).workers ==> p in w.workers || p in w.profiles
  {
    hide DeterminePhase, Act, Fut;
  }

  /** Builders touch only workers of the spec. */
  lemma WrittenClash(w: World)
    ensures NoClash(Written(w)) <==> NoClash(w)
  {
    hide LooksLikeCron;
    assert forall p :: p in Written(w).workers && p !in w.profiles <==> p in w.workers && p !in w.profiles;
  }

  lemma PassWorkers(w: World)
    ensures forall p :: p in Pass(w).workers <==>
      (p in w.profiles || LooksLikeCron(w.traffic, p)) && p in Written(w).workers
    ensures forall p :: p in Pass(w).workers ==> Pass(w).workers[p] == Written(w).workers[p]
    ensures NoClash(w) ==> forall p :: p in Pass(w).workers ==> p in w.profiles
  {
    hide LooksLikeCron;
    WrittenClash(w);
  }

  /** After its builders a pass re-reads the generation that it was about to serve. */
  lemma ActAfter(w: World)
    ensures Act(Written(w)) == ServedAfter(w)
    ensures Act(Pass(w)) == ServedAfter(w)
  {
    WrittenWorkers(w);
    PassWorkers(w);
    ActiveSame(w.profiles, Written(w).workers, Pass(w).workers);
    if !Mounts(DeterminePhase(w)) {
      if w.profiles != [] { ActiveSame(w.profiles, w.workers, Written(w).workers); }
    } else {
      assert w.profiles[0] in w.profiles;
    }
  }

  /** Unless the pass builds, the generation it starts from is served or is the first one. */
  lemma ActIsServed(w: World, g: nat)
    requires ServesAt(w, g)
    requires w.profiles != [] && Built(w, Act(w))
    ensures Act(w) == g
  {
    ActiveServes(w, g);
    BuiltHasClaims(w, Act(w));
  }

  lemma WrittenClaims(w: World)
    ensures Mounts(DeterminePhase(w)) ==> Written(w).pvcs == w.pvcs && Written(w).jobs == w.jobs
    ensures Written(w).pvcs.Keys == w.pvcs.Keys + EffectsOf(w).claims
    ensures Written(w).jobs.Keys == w.jobs.Keys + EffectsOf(w).maps
  {
  }

  lemma FutAfterUpdating(w: World, g: nat)
    requires ServesAt(w, g) && DeterminePhase(w) == UpdatingMap
    ensures Fut(Written(w)) == g + 1 && ServedAfter(w) == g
  {
    WrittenClaims(w);
    NewestIs(w, g);
    ActIsServed(w, g);
    assert w.profiles[0] in w.profiles;
    assert Key(w.profiles[0], g + 1) in EffectsOf(w).claims;
    assert Key(w.profiles[0], g + 1) in Written(w).pvcs.Keys;
  }

  /** What garbage collection calls the future generation. */
  lemma FutAfter(w: World, g: nat)
    requires ServesAt(w, g) && w.profiles != []
    ensures Mounts(DeterminePhase(w)) ==> Fut(Written(w)) == Fut(w) == ServedAfter(w)
    ensures DeterminePhase(w) == UpdatingMap ==> Fut(Written(w)) == ServedAfter(w) + 1
  {
    if DeterminePhase(w) == UpdatingMap {
      FutAfterUpdating(w, g);
    } else if Mounts(DeterminePhase(w)) {
      WrittenClaims(w);
    }
  }

  lemma PassClaims(w: World, k: Key)
    ensures k in Pass(w).pvcs <==> k in Written(w).pvcs && Expected(Written(w), ServedAfter(w), Fut(Written(w)), k)
    ensures k in Pass(w).jobs <==> k in Written(w).jobs && Expected(Written(w), ServedAfter(w), Fut(Written(w)), k)
  {
    ActAfter(w);
  }

  lemma WorkerGens(w: World, g: nat, p: string)
    requires InvAt(w, g) && p in Pass(w).workers
    ensures Pass(w).workers[p].gen == ServedAfter(w)
    ensures Key(p, ServedAfter(w)) in Pass(w).pvcs
  {
    PassWorkers(w);
    WrittenWorkers(w);
    WrittenClaims(w);
    PassClaims(w, Key(p, ServedAfter(w)));
    if Mounts(DeterminePhase(w)) {
      assert Built(w, ServedAfter(w)) by { FutAfter(w, g); }
    } else {
      ActiveServes(w, g);
    }
  }

  lemma KeptGens(w: World, g: nat, k: Key)
    requires ServesAt(w, g) && w.profiles != []
    requires Expected(Written(w), ServedAfter(w), Fut(Written(w)), k)
    ensures k.gen == ServedAfter(w) || k.gen == ServedAfter(w) + 1
    ensures DeterminePhase(w) != UpdatingMap ==> k.gen == ServedAfter(w)
  {
    FutAfter(w, g);
    assert Written(w).phase == DeterminePhase(w);
  }

  /** Claims and Jobs are made in pairs. */
  lemma EffectKeys(w: World)
    ensures EffectsOf(w).claims == EffectsOf(w).maps
  {
    hide Act, Fut, DeterminePhase;
  }

  lemma ObjectGens(w: World, g: nat, k: Key)
    requires ServesAt(w, g)
    ensures k in Pass(w).pvcs <==> k in Pass(w).jobs
    ensures k in Pass(w).pvcs ==> k.gen == ServedAfter(w) || k.gen == ServedAfter(w) + 1
    ensures k in Pass(w).pvcs && DeterminePhase(w) != UpdatingMap ==> k.gen == ServedAfter(w)
  {
    PassClaims(w, k);
    WrittenClaims(w);
    assert Written(w).profiles == w.profiles;
    hide Pass, Written, ServedAfter, Fut, DeterminePhase;
    if k in Pass(w).pvcs { KeptGens(w, g, k); }
    EffectKeys(w);
  }

  lemma ServedAfterBounds(w: World, g: nat)
    requires InvAt(w, g)
    ensures 1 <= ServedAfter(w)
    ensures Pass(w).workers == map[] ==> ServedAfter(w) == 1
  {
    ActiveServes(w, g);
    NewestIs(w, g);
    if Pass(w).workers == map[] {
      ActAfter(w);
      ActiveIs(Pass(w).profiles, Pass(w).workers);
    }
  }

  lemma PassServes(w: World, g: nat)
    requires InvAt(w, g)
    ensures ServesAt(Pass(w), ServedAfter(w))
  {
    hide LooksLikeCron, Pass, ServedAfter, NoClash;
    ServedAfterBounds(w, g);
    forall p | p in Pass(w).workers { WorkerGens(w, g, p); }
    forall k { ObjectGens(w, g, k); }
    assert Pass(w).jobs.Keys == Pass(w).pvcs.Keys;
  }

  lemma PassKeepsInv(w: World, g: nat)
    requires InvAt(w, g)
    ensures InvAt(Pass(w), ServedAfter(w))
  {
    hide LooksLikeCron, ServesAt, ServedAfter, EffectsOf, DeterminePhase, Act, Fut;
    PassServes(w, g);
    PassWorkers(w);
  }

  lemma StepKeepsInv(w: World, s: Step)
    requires Inv(w) && (s.Edit? ==> NoClash(Do(w, s)))
    ensures Inv(Do(w, s))
  {
    hide LooksLikeCron;
    var g: nat :| InvAt(w, g);
    match s {
      case Reconcile => PassKeepsInv(w, g);
      case Edit(_, _, _) => assert InvAt(Do(w, s), g);
      case Status(_, _, _) =>
        var x := Do(w, s);
        assert x.workers.Keys == w.workers.Keys;
        assert x.pvcs.Keys == w.pvcs.Keys && x.jobs.Keys == w.jobs.Keys;
        assert InvAt(x, g);
    }
  }

  /** The hypothesis is exact: a pass keeps the rest of the invariant if and only if no worker of a
      removed profile looks like a CronJob of the spec.  Such a worker is kept, and its claim is not. */
  lemma PassKeepsInvExactly(w: World, g: nat)
    requires ServesAt(w, g)
    ensures (exists h: nat :: ServesAt(Pass(w), h)) <==> NoClash(w)
  {
    hide LooksLikeCron;
    if NoClash(w) {
      PassKeepsInv(w, g);
    } else {
      var p :| p in w.workers && p !in w.profiles && LooksLikeCron(w.traffic, p);
      StrayKept(w, p);
      assert p in Pass(w).workers && Key(p, Pass(w).workers[p].gen) !in Pass(w).pvcs;
    }
  }

  /** The worker of a removed profile that looks like a CronJob: the pass keeps it as it is and
      deletes every claim of its profile. */
  lemma StrayKept(w: World, p: string)
    requires p in w.workers && p !in w.profiles && LooksLikeCron(w.traffic, p)
    ensures p in Pass(w).workers && Pass(w).workers[p] == w.workers[p]
    ensures forall g: nat :: Key(p, g) !in Pass(w).pvcs && Key(p, g) !in Pass(w).jobs
  {
    hide LooksLikeCron, DeterminePhase, Act, Fut;
    PassWorkers(w);
  }

  // ---------- runs ----------

  /** No edit of the run makes the worker of a removed profile look like a CronJob. */
  ghost predicate Unclashing(w: World, steps: seq<Step>)
    decreases |steps|
  {
    steps != [] ==> (steps[0].Edit? ==> NoClash(Do(w, steps[0]))) && Unclashing(Do(w, steps[0]), steps[1..])
  }

  /** Any interleaving of complete passes with edits of the spec and changes of status: all workers
      mount one generation g, which is 1 if there are none, every claim and Job is of generation g
      or g + 1, and every mounted claim exists. */
  lemma {:induction false} RunKeepsInv(w: World, steps: seq<Step>)
    requires Inv(w) && Unclashing(w, steps)
    ensures Inv(Run(w, steps)) && ClaimsExist(Run(w, steps))
    decreases |steps|
  {
    if steps != [] {
      StepKeepsInv(w, steps[0]);
      RunKeepsInv(Do(w, steps[0]), steps[1..]);
    }
  }

  /** A name that no profile's CronJob has as long as no profile ends like one. */
  predicate EndsLikeCron(p: string) {
    |p| >= 14 && p[|p| - 14..] == "-speed-updates"
  }

  ghost predicate Unlike(w: World) {
    (forall p :: p in w.profiles ==> !EndsLikeCron(p)) && (forall p :: p in w.workers ==> !EndsLikeCron(p))
  }

  ghost predicate UnlikeSteps(steps: seq<Step>) {
    forall i :: 0 <= i < |steps| && steps[i].Edit? ==> forall p :: p in steps[i].profiles ==> !EndsLikeCron(p)
  }

  lemma OnlyEnding(traffic: set<string>, p: string)
    requires LooksLikeCron(traffic, p)
    ensures EndsLikeCron(p)
  {
    var q :| q in traffic && p == q + "-speed-updates";
    assert p[|p| - 14..] == "-speed-updates";
  }

  lemma UnlikeStep(w: World, s: Step)
    requires Unlike(w) && UnlikeSteps([s])
    ensures Unlike(Do(w, s)) && NoClash(Do(w, s))
  {
    hide LooksLikeCron, EndsLikeCron, DeterminePhase, Act, Fut;
    assert [s][0] == s;
    if s.Reconcile? {
      PassWorkers(w);
      WrittenNames(w);
    }
    var x := Do(w, s);
    forall p | p in x.workers && p !in x.profiles && LooksLikeCron(x.traffic, p)
      ensures false
    {
      OnlyEnding(x.traffic, p);
    }
  }

  /** It is enough that no profile is ever given a name that ends in -speed-updates. */
  lemma {:induction false} NamesSuffice(w: World, steps: seq<Step>)
    requires Unlike(w) && UnlikeSteps(steps)
    ensures Unclashing(w, steps)
    decreases |steps|
  {
    if steps != [] {
      assert UnlikeSteps([steps[0]]);
      UnlikeStep(w, steps[0]);
      assert UnlikeSteps(steps[1..]) by {
        forall i | 0 <= i < |steps[1..]| ensures steps[1..][i] == steps[i + 1] { }
      }
      NamesSuffice(Do(w, steps[0]), steps[1..]);
    }
  }

  lemma RunFromCreation(url: string, profiles: seq<string>, traffic: set<string>, steps: seq<Step>)
    requires Unclashing(Init(url, profiles, traffic), steps)
    ensures Inv(Run(Init(url, profiles, traffic), steps)) && ClaimsExist(Run(Init(url, profiles, traffic), steps))
  {
    assert InvAt(Init(url, profiles, traffic), 1);
    RunKeepsInv(Init(url, profiles, traffic), steps);
  }

  /** Whatever users edit and Kubernetes reports, with names that do not end in -speed-updates. */
  lemma RunWithPlainNames(url: string, profiles: seq<string>, traffic: set<string>, steps: seq<Step>)
    requires Unlike(Init(url, profiles, traffic)) && UnlikeSteps(steps)
    ensures Inv(Run(Init(url, profiles, traffic), steps)) && ClaimsExist(Run(Init(url, profiles, traffic), steps))
  {
    NamesSuffice(Init(url, profiles, traffic), steps);
    RunFromCreation(url, profiles, traffic, steps);
  }
}
