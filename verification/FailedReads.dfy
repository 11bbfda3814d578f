/**
 A pass ignores the errors of its first three reads: a list that could not be read counts as empty.
 From the states that complete passes leave, mounted claims are safe from that; a pending map
 update is not.
 */
module FailedReads {
  import opened Protocol
  import opened Safety
  import opened Interruptions

  // ---------- reads that lead to the right work ----------

  lemma SeenActive(w: World, g: nat, r: Reads)
    requires ServesAt(w, g)
    ensures Act(Seen(w, r)) == Act(w) || Act(Seen(w, r)) == 1
    ensures DeterminePhase(Seen(w, r)) != BuildingMap && w.profiles != [] ==>
      r.claims && r.jobs && Act(Seen(w, r)) == Act(w) && Built(w, Act(w))
  {
    var s := Seen(w, r);
    if !r.workers { ActiveIs(w.profiles, s.workers); }
    if w.profiles != [] {
      assert w.profiles[0] in w.profiles;
      if Built(s, Act(s)) {
        assert Key(w.profiles[0], Act(s)) in w.pvcs;
        ActiveServes(w, g);
      }
    }
  }

  /** Unless it sees an unbuilt generation, the pass does the work it would have done. */
  lemma SeenWork(w: World, g: nat, r: Reads)
    requires ServesAt(w, g) && w.profiles != [] && DeterminePhase(Seen(w, r)) != BuildingMap
    ensures EffectsOf(Seen(w, r)) == EffectsOf(w)
    ensures Mounts(DeterminePhase(w)) <==> Mounts(DeterminePhase(Seen(w, r)))
    ensures DeterminePhase(Seen(w, r)) == DeterminePhase(w) || Mounts(DeterminePhase(w))
  {
    SeenActive(w, g, r);
    var s := Seen(w, r);
    assert s.pvcs == w.pvcs && s.jobs == w.jobs;
    assert Built(s, Fut(s)) == Built(w, Fut(w));
    ActIsServed(w, g);
    if !r.workers { ActiveIs(w.profiles, s.workers); }
  }

  lemma SeenRight(w: World, g: nat, r: Reads)
    requires ServesAt(w, g) && w.profiles != [] && DeterminePhase(Seen(w, r)) != BuildingMap
    ensures SameObjects(PassSeeing(w, r), Pass(w))
  {
    SeenWork(w, g, r);
    var v, x := Written(w), WrittenSeeing(w, r);
    assert SameObjects(v, x);
    if Mounts(DeterminePhase(w)) {
      ActAfter(w);
      FutAfter(w, g);
    }
    CollectObjects(v, x);
  }

  // ---------- reads that lead back to building ----------

  /** What garbage collection keeps once the phase is BuildingMap. */
  lemma CollectBuilding(v: World)
    requires v.phase == BuildingMap
    ensures forall k :: k in Collect(v).pvcs <==> k in v.pvcs && k.profile in v.profiles && k.gen == Act(v)
    ensures forall k :: k in Collect(v).pvcs ==> Collect(v).pvcs[k] == v.pvcs[k]
    ensures forall k :: k in Collect(v).jobs <==> k in v.jobs && k.profile in v.profiles && k.gen == Act(v)
    ensures forall k :: k in Collect(v).jobs ==> Collect(v).jobs[k] == v.jobs[k]
    ensures Collect(v).workers == KeptWorkers(v.workers, v.profiles, v.traffic) && Act(Collect(v)) == Act(v)
  {
    ActiveSame(v.profiles, v.workers, Collect(v).workers);
  }

  lemma WrittenUnbuilt(w: World, g: nat, r: Reads)
    requires ServesAt(w, g) && DeterminePhase(Seen(w, r)) == BuildingMap
    ensures var v := WrittenSeeing(w, r);
      && v.workers == w.workers && v.profiles == w.profiles && v.traffic == w.traffic
      && v.url == v.lastUrl == w.url && v.phase == BuildingMap
      && v.jobs.Keys == v.pvcs.Keys
      && (forall k :: k in w.pvcs ==> k in v.pvcs && v.pvcs[k] == w.pvcs[k])
      && (forall k :: k in w.jobs ==> k in v.jobs && v.jobs[k] == w.jobs[k])
  {
    BuildersKeep(w, EffectsOf(Seen(w, r)));
  }

  /** Seen as unbuilt: the pass ensures some generation, keeps the served one and nothing else. */
  lemma SeenUnbuilt(w: World, g: nat, r: Reads)
    requires ServesAt(w, g) && DeterminePhase(Seen(w, r)) == BuildingMap
    ensures var x := PassSeeing(w, r);
      && x.url == x.lastUrl == w.url && x.profiles == w.profiles && x.traffic == w.traffic && Act(x) == Act(w)
      && x.workers == KeptWorkers(w.workers, w.profiles, w.traffic)
      && (forall k :: k in x.pvcs ==> k.gen == Act(w))
      && (forall k :: k in x.jobs ==> k.gen == Act(w))
      && x.jobs.Keys == x.pvcs.Keys
      && (forall k :: k in w.pvcs && k.profile in w.profiles && k.gen == Act(w) ==>
            k in x.pvcs && x.pvcs[k] == w.pvcs[k])
      && (forall k :: k in w.jobs && k.profile in w.profiles && k.gen == Act(w) ==>
            k in x.jobs && x.jobs[k] == w.jobs[k])
  {
    WrittenUnbuilt(w, g, r);
    CollectBuilding(WrittenSeeing(w, r));
  }

  lemma UnbuiltKeepsInv(w: World, g: nat, r: Reads)
    requires InvAt(w, g) && DeterminePhase(Seen(w, r)) == BuildingMap
    ensures InvAt(PassSeeing(w, r), Act(w))
  {
    hide LooksLikeCron, PassSeeing, DeterminePhase, Act;
    SeenUnbuilt(w, g, r);
    ActiveServes(w, g);
    var x := PassSeeing(w, r);
    if x.workers == map[] { NoneActive(x); }
    forall p | p in x.workers ensures x.workers[p].gen == Act(w) && Key(p, Act(w)) in x.pvcs {
      assert p in w.workers && p in w.profiles;
    }
  }

  lemma NoneActive(x: World)
    requires x.workers == map[]
    ensures Act(x) == 1
  {
    ActiveIs(x.profiles, x.workers);
  }

  lemma EmptySpec(w: World, r: Reads)
    requires w.profiles == []
    ensures PassSeeing(w, r) == Pass(w)
  {
    assert Apply(w, EffectsOf(Seen(w, r))) == Apply(w, EffectsOf(w));
  }

  lemma SameInv(x: World, y: World, g: nat)
    requires SameObjects(x, y) && InvAt(x, g)
    ensures InvAt(y, g)
  {
  }

  /** Whatever reads fail, a complete pass keeps the invariant of complete passes, and with it every
      mounted claim. */
  lemma PassSeeingKeepsInv(w: World, r: Reads)
    requires Inv(w)
    ensures Inv(PassSeeing(w, r)) && ClaimsExist(PassSeeing(w, r))
  {
    hide InvAt, PassSeeing, Pass, DeterminePhase, SameObjects;
    var g: nat :| InvAt(w, g);
    PassKeepsInv(w, g);
    if w.profiles == [] {
      EmptySpec(w, r);
      HasInv(PassSeeing(w, r), ServedAfter(w));
    } else if DeterminePhase(Seen(w, r)) == BuildingMap {
      UnbuiltKeepsInv(w, g, r);
      HasInv(PassSeeing(w, r), Act(w));
    } else {
      Serves(w, g);
      SeenRight(w, g, r);
      Sym(PassSeeing(w, r), Pass(w));
      SameInv(Pass(w), PassSeeing(w, r), ServedAfter(w));
      HasInv(PassSeeing(w, r), ServedAfter(w));
    }
  }

  lemma HasInv(x: World, g: nat)
    requires InvAt(x, g)
    ensures Inv(x) && ClaimsExist(x)
  {
  }

  lemma Serves(w: World, g: nat)
    requires InvAt(w, g)
    ensures ServesAt(w, g)
  {
  }

  lemma Sym(x: World, y: World)
    requires SameObjects(x, y)
    ensures SameObjects(y, x)
  {
  }

  predicate Taken(w: World, r: Reads) {
    r.claims && r.jobs && (r.workers || Act(w) == 1)
  }

  lemma DueIsSeen(w: World, g: nat, r: Reads)
    requires ServesAt(w, g) && DeterminePhase(w) == UpdatingMap
    ensures DeterminePhase(Seen(w, r)) != BuildingMap <==> Taken(w, r)
  {
    ActIsServed(w, g);
    ActiveIs(w.profiles, Seen(w, r).workers);
    var p := w.profiles[0];
    assert p in w.profiles;
    if Taken(w, r) {
      assert Act(Seen(w, r)) == Act(w);
      assert Built(Seen(w, r), Act(w));
    } else {
      assert Key(p, Act(Seen(w, r))) !in Seen(w, r).pvcs || Key(p, Act(Seen(w, r))) !in Seen(w, r).jobs;
    }
  }

  lemma StaysBuilt(w: World, x: World, g: nat)
    requires Built(w, g) && x.profiles == w.profiles
    requires forall k :: k in w.pvcs && k.profile in w.profiles && k.gen == g ==> k in x.pvcs && x.pvcs[k] == w.pvcs[k]
    requires forall k :: k in w.jobs && k.profile in w.profiles && k.gen == g ==> k in x.jobs && x.jobs[k] == w.jobs[k]
    ensures Built(x, g)
  {
    forall p | p in w.profiles
      ensures var k := Key(p, g); k in x.pvcs && x.pvcs[k] && k in x.jobs && x.jobs[k].complete
    {
      assert Key(p, g) in w.pvcs;
    }
  }

  /** With the URL recorded and one built generation left, nothing more is built. */
  lemma NothingDue(x: World)
    requires x.profiles != [] && x.url == x.lastUrl && Built(x, Act(x)) && Act(x) >= 1
    requires forall k :: k in x.pvcs ==> k.gen == Act(x)
    ensures Mounts(DeterminePhase(x))
  {
    BuiltHasClaims(x, Act(x));
    assert Fut(x) == Act(x);
  }

  lemma UpdateMissed(w: World, g: nat, r: Reads)
    requires ServesAt(w, g) && DeterminePhase(w) == UpdatingMap && DeterminePhase(Seen(w, r)) == BuildingMap
    ensures var x := PassSeeing(w, r);
      x.lastUrl == x.url && Mounts(DeterminePhase(x)) && forall k :: k in x.jobs ==> k.gen == Act(w)
  {
    var x := PassSeeing(w, r);
    SeenUnbuilt(w, g, r);
    StaysBuilt(w, x, Act(w));
    ActiveServes(w, g);
    NothingDue(x);
  }

  /** A map update is due.  It is taken up exactly if the claims and Jobs were read and the served
      generation was not mistaken for another; otherwise the URL is recorded as applied, the next
      generation is deleted or never made, and no later pass knows that an update was due. */
  lemma UpdateLost(w: World, r: Reads)
    requires Inv(w) && DeterminePhase(w) == UpdatingMap
    ensures var x := PassSeeing(w, r);
      if Taken(w, r) then SameObjects(x, Pass(w))
      else x.lastUrl == x.url && Mounts(DeterminePhase(x)) && forall k :: k in x.jobs ==> k.gen == Act(w)
  {
    var g: nat :| InvAt(w, g);
    DueIsSeen(w, g, r);
    if Taken(w, r) { SeenRight(w, g, r); } else { UpdateMissed(w, g, r); }
  }
}
