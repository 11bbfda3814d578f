/**
 What stopped passes leave behind, and when the next complete pass makes good of it.
 */
module Recovery {
  import opened Protocol
  import opened Safety
  import opened UrlConsistency
  import opened Interruptions
  import opened MountSafety
  import FailedReads

  // ---------- one complete pass after any patient run ----------

  /** An update is due, and claims or Jobs of a generation beyond the next one are left over. */
  ghost predicate Overtaken(w: World) {
    DeterminePhase(w) == UpdatingMap && Fut(w) > Act(w) + 1
  }

  /** None of those left over belong to a profile of the spec. */
  ghost predicate Restorable(w: World) {
    Overtaken(w) ==> forall p :: p in w.profiles ==> Key(p, Fut(w)) !in w.pvcs && Key(p, Fut(w)) !in w.jobs
  }

  lemma MountsNewest(w: World)
    requires Mounts(DeterminePhase(w))
    ensures ServedAfter(w) == Fut(w) == Fut(Written(w)) && Built(w, ServedAfter(w))
  {
    WrittenClaims(w);
  }

  lemma NewestWritten(w: World)
    requires DeterminePhase(w) == UpdatingMap
    ensures Fut(Written(w)) == if Overtaken(w) then Fut(w) else Act(w) + 1
    ensures Fut(w) >= Act(w) && Built(w, Act(w))
  {
    AllReadIsPass(w);
    SeenFuture(w, ALL_READ);
    BuiltHasClaims(w, Act(w));
  }

  /** The claims and Jobs of the spec's profiles after a complete pass, from any state. */
  lemma PassKeys(w: World, p: string, g: nat)
    requires p in w.profiles
    ensures var k := Key(p, g);
      var served := g == ServedAfter(w);
      var next := DeterminePhase(w) == UpdatingMap && g == if Overtaken(w) then Fut(w) else Act(w) + 1;
      && (k in Pass(w).pvcs <==> served || (next && (Overtaken(w) ==> k in w.pvcs)))
      && (k in Pass(w).jobs <==> served || (next && (Overtaken(w) ==> k in w.jobs)))
  {
    var k := Key(p, g);
    PassClaims(w, k);
    WrittenClaims(w);
    EmptyPhase(w);
    if Mounts(DeterminePhase(w)) {
      MountsNewest(w);
    } else if DeterminePhase(w) == UpdatingMap {
      NewestWritten(w);
    }
  }

  lemma OnlySpec(w: World, k: Key)
    ensures k in Pass(w).pvcs || k in Pass(w).jobs ==> k.profile in w.profiles
  {
    PassClaims(w, k);
  }

  lemma ServedPositive(w: World)
    requires ClaimsExist(w) && Positive(w)
    ensures ServedAfter(w) >= 1
  {
    hide Built;
    ActPositive(w);
  }

  /** The workers after the pass, from the states of patient runs. */
  lemma PassServesOne(w: World, p: string)
    requires Safe(w) && p in Pass(w).workers
    ensures p in w.profiles && Pass(w).workers[p].gen == ServedAfter(w)
  {
    hide LooksLikeCron, Act, Fut, DeterminePhase;
    PassWorkers(w);
    WrittenWorkers(w);
    if !Mounts(DeterminePhase(w)) {
      BuildsOnlyUniform(w);
      UniformOnAct(w);
      EmptyPhase(w);
    }
  }

  lemma NoneServed(w: World)
    requires Pass(w).workers == map[]
    ensures ServedAfter(w) == 1
  {
    ActAfter(w);
    ActiveIs(Pass(w).profiles, Pass(w).workers);
  }

  lemma RestoresInv(w: World)
    requires Safe(w) && Restorable(w)
    ensures InvAt(Pass(w), ServedAfter(w))
  {
    hide LooksLikeCron, Pass, ServedAfter, DeterminePhase, Act, Fut, Built;
    var x, h := Pass(w), ServedAfter(w);
    ServedPositive(w);
    if x.workers == map[] { NoneServed(w); }
    forall p | p in x.workers ensures x.workers[p].gen == h && Key(p, h) in x.pvcs {
      PassServesOne(w, p);
      PassKeys(w, p, h);
    }
    forall k ensures (k in x.pvcs <==> k in x.jobs) && (k in x.pvcs ==> k.gen == h || k.gen == h + 1) {
      OnlySpec(w, k);
      if k.profile in w.profiles { PassKeys(w, k.profile, k.gen); ServedWhileUpdating(w); }
    }
    assert x.jobs.Keys == x.pvcs.Keys;
    StillUnclashed(w);
  }

  lemma ServedWhileUpdating(w: World)
    ensures DeterminePhase(w) == UpdatingMap ==> ServedAfter(w) == Act(w)
  {
  }

  lemma StillUnclashed(w: World)
    requires NoClash(w)
    ensures NoClash(Pass(w))
  {
    hide LooksLikeCron, DeterminePhase, Act, Fut;
    PassWorkers(w);
  }

  lemma WithinOne(x: World, g: nat, k: Key, m: Key)
    requires ServesAt(x, g) && k in x.pvcs && (m in x.pvcs || m in x.jobs)
    ensures m.gen <= k.gen + 1
  {
    assert m in x.jobs ==> m in x.jobs.Keys;
    assert m in x.pvcs.Keys;
  }

  lemma LeavesGap(w: World)
    requires !Restorable(w)
    ensures !Inv(Pass(w))
  {
    hide LooksLikeCron, Pass, Act, Fut;
    var p :| p in w.profiles && (Key(p, Fut(w)) in w.pvcs || Key(p, Fut(w)) in w.jobs);
    PassKeys(w, p, Fut(w));
    PassKeys(w, p, Act(w));
    if g: nat :| InvAt(Pass(w), g) { WithinOne(Pass(w), g, Key(p, Act(w)), Key(p, Fut(w))); }
  }

  /** After any patient run, with passes stopped anywhere, one complete pass restores the invariant of
      complete passes, and so everything proved under it, if and only if no update is overtaken by
      leftovers of the spec's own profiles. */
  lemma PassRestoresInv(w: World)
    requires Safe(w)
    ensures Inv(Pass(w)) <==> Restorable(w)
    ensures Restorable(w) ==> InvAt(Pass(w), ServedAfter(w))
  {
    hide Restorable, Safe, Inv, InvAt;
    if Restorable(w) { RestoresInv(w); Some(Pass(w), ServedAfter(w)); } else { LeavesGap(w); }
  }

  lemma Some(x: World, g: nat)
    requires InvAt(x, g)
    ensures Inv(x)
  {
  }

  /** The states of complete passes are among those. */
  lemma InvIsRestorable(w: World)
    requires Inv(w)
    ensures Safe(w) && Restorable(w)
  {
    hide LooksLikeCron;
    var g: nat :| InvAt(w, g);
    NewestIs(w, g);
    if DeterminePhase(w) == UpdatingMap { ActIsServed(w, g); }
    hide DeterminePhase, Act, Fut;
    assert SpecUniform(w);
  }

  // ---------- what a pass starts ----------

  /** What the builders of a pass make or update is still there after its own garbage collection. */
  ghost predicate Survives(w: World) {
    && EffectsOf(w).claims <= Pass(w).pvcs.Keys
    && EffectsOf(w).maps <= Pass(w).jobs.Keys
    && EffectsOf(w).mounts <= Pass(w).workers.Keys
  }

  lemma EffectKeysAre(w: World)
    ensures var e := EffectsOf(w);
      && e.maps == e.claims
      && e.claims == (match DeterminePhase(w)
                      case BuildingMap => Generation(w.profiles, Act(w))
                      case UpdatingMap => Generation(w.profiles, Act(w) + 1)
                      case _ => {})
      && (forall p :: p in e.mounts ==> p in w.profiles && Mounts(DeterminePhase(w)))
  {
    hide DeterminePhase, Act, Fut;
  }

  /** From any state at all: a pass deletes again what it has just made if and only if it starts an
      update that leftovers have overtaken. */
  lemma AppliedSurvives(w: World)
    ensures Survives(w) <==> !Overtaken(w)
  {
    EffectKeysAre(w);
    EmptyPhase(w);
    ServedWhileBuilding(w);
    if Overtaken(w) {
      NewestWritten(w);
      var p := w.profiles[0];
      assert p in w.profiles;
      PassKeys(w, p, Act(w) + 1);
      assert Key(p, Act(w) + 1) in EffectsOf(w).claims;
    } else {
      hide Act, Fut, DeterminePhase, Pass, ServedAfter, EffectsOf;
      forall k | k in EffectsOf(w).claims
        ensures k in Pass(w).pvcs && k in Pass(w).jobs
      {
        PassKeys(w, k.profile, k.gen);
      }
      forall p | p in EffectsOf(w).mounts ensures p in Pass(w).workers { WorkerStays(w, p); }
    }
  }

  lemma ServedWhileBuilding(w: World)
    ensures DeterminePhase(w) == BuildingMap || DeterminePhase(w) == UpdatingMap ==> ServedAfter(w) == Act(w)
  {
  }

  lemma BegunNewest(w: World, d: Effects, y: World)
    requires Begun(w, d, y) && (DeterminePhase(w) == BuildingMap || DeterminePhase(w) == UpdatingMap)
    ensures Fut(y) <= Act(w) + 1 <==> Fut(w) <= Act(w) + 1
  {
    EffectKeysAre(w);
    BuildersKeep(w, d);
    hide DeterminePhase, Act;
    assert y.pvcs.Keys == Apply(w, d).pvcs.Keys;
    assert Apply(w, d).pvcs.Keys == w.pvcs.Keys + d.claims;
  }

  lemma RebuiltIsUpdate(w: World, y: World)
    requires w.profiles != [] && y.profiles == w.profiles && EffectsOf(y) == BuildEffects(w.profiles, Act(w) + 1)
    requires Act(y) == Act(w)
    ensures DeterminePhase(y) == UpdatingMap
  {
    EffectKeysAre(y);
    EmptyPhase(y);
    hide DeterminePhase, Act, Fut;
    var p := w.profiles[0];
    assert p in w.profiles;
    assert Key(p, Act(w) + 1) in EffectsOf(y).claims;
    assert Key(p, Act(w) + 1) !in Generation(w.profiles, Act(w));
  }

  /** The map that is built once more, because its URL was never recorded, outlives its own pass if and
      only if no generation beyond it was left when the first of the passes began. */
  lemma RebuiltSurvives(w: World, evs: seq<Event>, last: Event)
    requires Inv(w) && Interrupted(w, evs) && Due(w, History(w, evs)) && Interrupts(History(w, evs), last)
    requires !Due(w, Happen(History(w, evs), last)) && w.url != w.lastUrl && w.profiles != []
    ensures Survives(Happen(History(w, evs), last)) <==> Fut(w) <= Act(w) + 1
  {
    hide ServesAt, Begun, Due, Survives, Overtaken, Pass, EffectsOf, Act, Fut, DeterminePhase, Happen, History;
    var g: nat :| InvAt(w, g);
    var x := History(w, evs);
    var y := Happen(x, last);
    var none := NothingBegun(w);
    var c := StillBegun(w, g, none, w, evs);
    WorkExactly(w, g, c, x);
    var d := BegunFurther(w, c, x, last);
    WorkExactly(w, g, d, y);
    RebuiltReads(w, g, d, y);
    BegunNewest(w, d, y);
    AppliedSurvives(y);
    OvertakenIs(y);
  }

  lemma OvertakenIs(y: World)
    requires DeterminePhase(y) == UpdatingMap
    ensures Overtaken(y) <==> Fut(y) > Act(y) + 1
  {
    hide DeterminePhase, Act, Fut;
  }

  lemma RebuiltReads(w: World, g: nat, d: Effects, y: World)
    requires ServesAt(w, g) && Begun(w, d, y) && !Due(w, y) && w.url != w.lastUrl && w.profiles != []
    requires EffectsOf(y) == BuildEffects(w.profiles, Act(w) + 1)
    ensures Act(y) == Act(w) && DeterminePhase(y) == UpdatingMap
    ensures DeterminePhase(w) == BuildingMap
  {
    hide ServesAt, Act, Fut, Built, EffectsOf;
    BegunReads(w, g, d, y);
    RebuiltIsUpdate(w, y);
  }

  /** Exactly when a pass over a changed URL leaves a Job of it in the next generation for every
      profile: the served map is finished, no later generation is left over, and no Job of the next
      one is left from another URL. */
  lemma UrlChangeHonoured(w: World)
    requires w.url != w.lastUrl && w.profiles != []
    ensures (forall p :: p in w.profiles ==>
               Key(p, Act(w) + 1) in Pass(w).jobs && Pass(w).jobs[Key(p, Act(w) + 1)].url == w.url)
       <==> Built(w, Act(w)) && Fut(w) <= Act(w) + 1 &&
            (forall p :: p in w.profiles && Key(p, Act(w) + 1) in w.jobs ==> w.jobs[Key(p, Act(w) + 1)].url == w.url)
  {
    ServedWhileBuilding(w);
    assert DeterminePhase(w) == if Built(w, Act(w)) then UpdatingMap else BuildingMap;
    if DeterminePhase(w) == UpdatingMap { NewestWritten(w); }
    hide Act, Fut, DeterminePhase, Pass, ServedAfter, EffectsOf, Built;
    forall p | p in w.profiles
      ensures var k := Key(p, Act(w) + 1);
        && (k in Pass(w).jobs <==> DeterminePhase(w) == UpdatingMap && !Overtaken(w))
        && (k in Pass(w).jobs ==> Pass(w).jobs[k].url == if k in w.jobs then w.jobs[k].url else w.url)
    {
      PassKeys(w, p, Act(w) + 1);
      if Key(p, Act(w) + 1) in Pass(w).jobs { PassJob(w, Key(p, Act(w) + 1)); }
    }
    assert w.profiles[0] in w.profiles;
  }

  /** Every profile has a claim and a Job of the next generation. */
  ghost predicate NextStarted(w: World, x: World) {
    forall p :: p in w.profiles ==> Key(p, Act(w) + 1) in x.pvcs && Key(p, Act(w) + 1) in x.jobs
  }

  lemma SeenDue(w: World, r: Reads)
    requires DeterminePhase(w) == UpdatingMap && r.claims && r.jobs && (r.workers || Act(w) == 1)
    ensures WrittenSeeing(w, r) == Written(w)
  {
    var s := Seen(w, r);
    ActiveIs(w.profiles, s.workers);
    assert s.pvcs == w.pvcs && s.jobs == w.jobs && Act(s) == Act(w);
    assert Built(s, Act(s)) && (Built(s, Fut(s)) <==> Built(w, Fut(w)));
    hide Built;
    assert EffectsOf(s) == EffectsOf(w);
  }

  lemma SeenBack(w: World, r: Reads)
    requires DeterminePhase(w) == UpdatingMap && DeterminePhase(Seen(w, r)) == BuildingMap
    ensures forall k :: k in PassSeeing(w, r).pvcs || k in PassSeeing(w, r).jobs ==> k.gen == Act(w)
  {
    var v := WrittenSeeing(w, r);
    assert v.workers == w.workers;
    FailedReads.CollectBuilding(v);
  }

  lemma Unread(w: World, r: Reads)
    requires w.profiles != [] && !(r.claims && r.jobs)
    ensures DeterminePhase(Seen(w, r)) == BuildingMap
  {
    assert w.profiles[0] in w.profiles;
  }

  /** A due update, from any state at all.  If the served generation is not mistaken for the first, it
      is under way after the pass exactly if claims and Jobs were read and no leftovers overtake it.
      If it is mistaken, no Job of the next generation is made. */
  lemma UpdateTakenUp(w: World, r: Reads)
    requires DeterminePhase(w) == UpdatingMap
    ensures r.workers || Act(w) == 1 ==>
      (NextStarted(w, PassSeeing(w, r)) <==> r.claims && r.jobs && Fut(w) <= Act(w) + 1)
    ensures !r.workers && Act(w) != 1 ==>
      forall k :: k in PassSeeing(w, r).jobs && k.gen == Act(w) + 1 ==> k in w.jobs
  {
    hide DeterminePhase, Pass, PassSeeing, ServedAfter, Built, Act, Fut;
    EmptyPhase(w);
    var p := w.profiles[0];
    assert p in w.profiles;
    if DeterminePhase(Seen(w, r)) == BuildingMap { SeenBack(w, r); }
    if !(r.claims && r.jobs) {
      Unread(w, r);
      assert Key(p, Act(w) + 1) !in PassSeeing(w, r).jobs;
    } else if r.workers || Act(w) == 1 {
      SeenDue(w, r);
      ServedWhileBuilding(w);
      SameCollection(w, r);
      forall q | q in w.profiles { PassKeys(w, q, Act(w) + 1); }
    } else {
      OnlySecond(w, r);
    }
  }

  lemma SameCollection(w: World, r: Reads)
    requires WrittenSeeing(w, r) == Written(w)
    ensures PassSeeing(w, r) == Pass(w)
  {
  }

  lemma OnlySecond(w: World, r: Reads)
    requires !r.workers && DeterminePhase(w) == UpdatingMap
    ensures DeterminePhase(Seen(w, r)) != BuildingMap ==>
      forall k :: k in PassSeeing(w, r).jobs && k !in w.jobs ==> k.gen == 2
  {
    var s := Seen(w, r);
    ActiveIs(s.profiles, s.workers);
    EffectKeysAre(s);
    hide DeterminePhase, Fut;
  }
}
