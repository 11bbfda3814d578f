/**
 What a complete pass leaves, object by object.
 */
module PassResult {
  import opened Protocol
  import opened Safety
  import opened Interruptions
  import opened Phases
  import opened Recovery

  /** Which claims and Jobs there are after a pass that reads a as active and n as newest.  An update makes
      the next generation; if n is beyond that one, what there is of n is kept in its place. */
  lemma KeysLeft(w: World, a: nat, n: nat, k: Key)
    requires FirstOn(w.profiles, w.workers, a) && NoneNewer(w, n)
    ensures var gens := match DeterminePhase(w)
        case Empty => {}
        case BuildingMap => {a}
        case UpdatingMap => {a, if n <= a + 1 then a + 1 else n}
        case _ => {n};
      var leftover := DeterminePhase(w) == UpdatingMap && n > a + 1 && k.gen == n;
      && (k in Pass(w).pvcs <==> k.profile in w.profiles && k.gen in gens && (leftover ==> k in w.pvcs))
      && (k in Pass(w).jobs <==> k.profile in w.profiles && k.gen in gens && (leftover ==> k in w.jobs))
  {
    hide DeterminePhase, ServedAfter, Act, Fut, Pass, Written, Built, FirstOn, NoneNewer;
    ReadsAre(w, a, n);
    OnlySpec(w, k);
    EmptyPhase(w);
    if k.profile in w.profiles {
      PassKeys(w, k.profile, k.gen);
      if Mounts(DeterminePhase(w)) { MountsNewest(w); } else { ServedWhileBuilding(w); }
      if DeterminePhase(w) == UpdatingMap { NewestWritten(w); }
    }
  }

  /** Those that were there are as they were; new claims are not yet bound, and new Jobs are given the URL
      of the spec. */
  lemma ValuesLeft(w: World, k: Key)
    ensures k in Pass(w).pvcs ==> Pass(w).pvcs[k] == if k in w.pvcs then w.pvcs[k] else false
    ensures k in Pass(w).jobs ==> Pass(w).jobs[k] == if k in w.jobs then w.jobs[k] else Job(w.url, false)
  {
    hide DeterminePhase, Act, Fut, EffectsOf;
  }

  /** Workers: in the phases that move them, every profile has one, on the newest generation and the file
      of the spec's URL, with the replicas it had; otherwise those of the spec stay as they are.  Of the
      others those with the name of a CronJob stay. */
  lemma WorkersLeft(w: World, n: nat, p: string)
    requires NoneNewer(w, n)
    ensures var moved := DeterminePhase(w) in
        {RedeployingWorkers, DeployingWorkers, WorkersDeployed, WorkersRedeployed} && p in w.profiles;
      var kept := p in w.workers && (p in w.profiles || exists q :: q in w.traffic && p == q + "-speed-updates");
      && (p in Pass(w).workers <==> moved || kept)
      && (p in Pass(w).workers ==>
            Pass(w).workers[p] ==
              if !moved then w.workers[p]
              else if p in w.workers then Worker(n, w.url, w.workers[p].ready, w.workers[p].replicas)
              else Worker(n, w.url, 0, 0))
  {
    ReadsAre(w, 0, n);
    if Mounts(DeterminePhase(w)) { MountsNewest(w); }
    hide DeterminePhase, ServedAfter, Act, Fut;
    PassWorkers(w);
    WrittenWorkers(w);
    if p !in w.profiles { WrittenElsewhere(w, p); }
    hide Pass, Written;
  }

  lemma WrittenElsewhere(w: World, p: string)
    requires p !in w.profiles
    ensures p in Written(w).workers <==> p in w.workers
    ensures p in w.workers ==> Written(w).workers[p] == w.workers[p]
  {
    hide DeterminePhase, Act, Fut;
  }

  /** The rest: the phase that was determined, the spec's URL as applied, and the spec as it was. */
  lemma RestLeft(w: World)
    ensures var x := Pass(w);
      && x.url == w.url && x.profiles == w.profiles && x.traffic == w.traffic
      && x.phase == DeterminePhase(w) && x.lastUrl == w.url
  {
    hide DeterminePhase, Act, Fut;
  }
}
