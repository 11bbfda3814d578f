/**
 Passes that stop half way: the operator is killed, or a write to the API server fails.

 A pass may stop after any of its builders, or after its builders but before the annotation, and
 status may move on before the next pass.  Nothing is remembered; the next pass reads again.
 */
module Interruptions {
  import opened Protocol
  import opened Safety

  lemma AllReadIsPass(w: World)
    ensures Seen(w, ALL_READ) == w
    ensures WrittenSeeing(w, ALL_READ) == Written(w) && PassSeeing(w, ALL_READ) == Pass(w)
  {
  }

  // ---------- what a report of status cannot change ----------

  ghost predicate SameLayout(x: World, y: World) {
    && x.url == y.url && x.profiles == y.profiles && x.traffic == y.traffic && x.lastUrl == y.lastUrl
    && x.pvcs.Keys == y.pvcs.Keys
    && x.jobs.Keys == y.jobs.Keys && (forall k :: k in x.jobs ==> x.jobs[k].url == y.jobs[k].url)
    && x.workers.Keys == y.workers.Keys
    && (forall p :: p in x.workers ==> x.workers[p].gen == y.workers[p].gen && x.workers[p].opens == y.workers[p].opens)
  }

  /** Up to the status.phase that the next pass overwrites, the same objects with the same status. */
  predicate SameObjects(w: World, x: World) {
    w.(phase := x.phase) == x
  }

  lemma SameReads(x: World, y: World)
    requires SameLayout(x, y)
    ensures Act(x) == Act(y) && Fut(x) == Fut(y)
  {
    ActiveSame(x.profiles, x.workers, y.workers);
  }

  lemma ApplySame(x: World, y: World, e: Effects)
    requires SameLayout(x, y)
    ensures SameLayout(Apply(x, e), Apply(y, e))
  {
  }

  lemma KeptSame(v: World, x: World, active: nat, future: nat)
    requires SameLayout(v, x) && (active == future || v.phase == x.phase)
    ensures SameLayout(CollectSeen(v, active, future), CollectSeen(x, active, future))
  {
    hide LooksLikeCron;
  }

  /** The stored phase matters to garbage collection only if a future generation is kept or not. */
  lemma CollectSame(v: World, x: World)
    requires SameLayout(v, x) && (Act(v) == Fut(v) || v.phase == x.phase)
    ensures SameLayout(Collect(v), Collect(x))
  {
    hide CollectSeen, Act, Fut, SameLayout;
    SameReads(v, x);
    KeptSame(v, x, Act(v), Fut(v));
  }

  lemma KeptObjects(v: World, x: World, active: nat, future: nat)
    requires SameObjects(v, x) && (active == future || v.phase == x.phase)
    ensures SameObjects(CollectSeen(v, active, future), CollectSeen(x, active, future))
  {
    hide LooksLikeCron;
    assert forall k ::
      IsExpected(v.profiles, v.phase, active, future, k) == IsExpected(x.profiles, x.phase, active, future, k);
  }

  lemma CollectObjects(v: World, x: World)
    requires SameObjects(v, x) && (Act(v) == Fut(v) || v.phase == x.phase)
    ensures SameObjects(Collect(v), Collect(x))
  {
    hide CollectSeen;
    KeptObjects(v, x, Act(v), Fut(v));
  }

  // ---------- builders twice ----------

  lemma BuildersKeep(w: World, e: Effects)
    ensures forall k :: k in w.pvcs ==> k in Apply(w, e).pvcs && Apply(w, e).pvcs[k] == w.pvcs[k]
    ensures forall k :: k in w.jobs ==> k in Apply(w, e).jobs && Apply(w, e).jobs[k] == w.jobs[k]
    ensures forall k :: k in Apply(w, e).pvcs && k !in w.pvcs ==> !Apply(w, e).pvcs[k] && k in e.claims
    ensures forall k :: k in Apply(w, e).jobs && k !in w.jobs ==> !Apply(w, e).jobs[k].complete && k in e.maps
    ensures w.workers.Keys <= Apply(w, e).workers.Keys
    ensures e.claims == {} ==> Apply(w, e).pvcs == w.pvcs
  {
  }

  /** New claims are unbound and new Jobs incomplete, so builders alone never finish a map. */
  lemma BuiltUnmoved(w: World, e: Effects, h: nat)
    ensures Built(Apply(w, e), h) <==> Built(w, h)
  {
    BuildersKeep(w, e);
  }

  function Both(e: Effects, d: Effects): Effects {
    Effects(e.claims + d.claims, e.maps + d.maps, e.mounts + d.mounts, e.gen)
  }

  lemma EnsuredTwice<V>(m: map<Key, V>, a: set<Key>, b: set<Key>, v: V)
    ensures Ensured(Ensured(m, a, v), b, v) == Ensured(m, a + b, v)
  {
  }

  lemma PointedTwice(ws: map<string, Worker>, a: set<string>, b: set<string>, g: nat, f: string)
    ensures PointedAll(PointedAll(ws, a, g, f), b, g, f) == PointedAll(ws, a + b, g, f)
  {
    var v := PointedAll(ws, a, g, f);
    forall p ensures p in v ==> Pointed(v, p, g, f) == Pointed(ws, p, g, f) {
      if p in v && p in a { assert v[p] == Pointed(ws, p, g, f); }
    }
  }

  lemma ApplyTwice(w: World, e: Effects, d: Effects)
    requires e.gen == d.gen
    ensures Apply(Apply(w, e), d) == Apply(w, Both(e, d))
  {
    EnsuredTwice(w.pvcs, e.claims, d.claims, false);
    EnsuredTwice(w.jobs, e.maps, d.maps, Job(w.url, false));
    PointedTwice(w.workers, e.mounts, d.mounts, e.gen, w.url);
  }

  lemma ApplyNothing(w: World, g: nat)
    ensures Apply(w, Effects({}, {}, {}, g)) == w
  {
    EnsuredNothing(w.pvcs, false);
    EnsuredNothing(w.jobs, Job(w.url, false));
    assert PointedAll(w.workers, {}, g, w.url) == w.workers;
  }

  lemma EnsuredNothing<V>(m: map<Key, V>, v: V)
    ensures Ensured(m, {}, v) == m
  {
  }

  // ---------- the work of the next pass ----------

  /** Nothing that was finished in w has been lost in y. */
  ghost predicate Ahead(w: World, y: World) {
    && (forall k :: k in w.pvcs && w.pvcs[k] ==> k in y.pvcs && y.pvcs[k])
    && (forall k :: k in w.jobs && w.jobs[k].complete ==> k in y.jobs && y.jobs[k].complete)
  }

  /** In y a part d of the work of w has been done; status has moved on by any amount. */
  ghost predicate Begun(w: World, d: Effects, y: World) {
    Part(d, EffectsOf(w)) && SameLayout(Apply(w, d), y) && Ahead(w, y)
  }

  /** The work that w calls for is still due in y: the map being built is not finished, or, for an
      update, its URL is not recorded. */
  ghost predicate Due(w: World, y: World) {
    match DeterminePhase(w)
    case BuildingMap => !Built(y, Act(w))
    case UpdatingMap => w.url != w.lastUrl || !Built(y, Fut(w))
    case _ => true
  }

  lemma AheadBuilt(w: World, y: World, h: nat)
    requires Ahead(w, y) && y.profiles == w.profiles && Built(w, h)
    ensures Built(y, h)
  {
  }

  lemma ActUnmoved(w: World, g: nat, e: Effects)
    requires ServesAt(w, g) && Part(e, EffectsOf(w)) && w.profiles != []
    ensures Act(Apply(w, e)) == Act(w) || (Act(Apply(w, e)) == Fut(w) && DeterminePhase(w) == RedeployingWorkers)
  {
    var x := Apply(w, e);
    ActiveIs(w.profiles, w.workers);
    ActiveIs(w.profiles, x.workers);
    ActiveServes(w, g);
  }

  lemma FutUnmoved(w: World, g: nat, e: Effects)
    requires ServesAt(w, g) && Part(e, EffectsOf(w)) && w.profiles != []
    ensures Mounts(DeterminePhase(w)) ==> Fut(Apply(w, e)) == Fut(w)
    ensures DeterminePhase(w) == UpdatingMap && w.url == w.lastUrl ==> Fut(Apply(w, e)) == Fut(w) == g + 1
  {
    if Mounts(DeterminePhase(w)) {
      hide Act, Fut, DeterminePhase;
      BuildersKeep(w, e);
    } else if DeterminePhase(w) == UpdatingMap && w.url == w.lastUrl {
      NewestIs(w, g);
      ActIsServed(w, g);
      assert Fut(w) == g + 1;
      hide Act, DeterminePhase;
      assert Apply(w, e).pvcs.Keys == w.pvcs.Keys + e.claims;
    }
  }

  lemma BegunReads(w: World, g: nat, d: Effects, y: World)
    requires ServesAt(w, g) && Begun(w, d, y) && w.profiles != []
    ensures Act(y) == Act(w) || (Act(y) == Fut(w) && DeterminePhase(w) == RedeployingWorkers)
    ensures Mounts(DeterminePhase(w)) ==> Fut(y) == Fut(w)
    ensures DeterminePhase(w) == UpdatingMap && w.url == w.lastUrl ==> Fut(y) == Fut(w) == g + 1
  {
    hide EffectsOf, DeterminePhase, ServesAt, Act, Fut;
    ActUnmoved(w, g, d);
    FutUnmoved(w, g, d);
    SameReads(Apply(w, d), y);
  }

  lemma BuildWork(w: World, g: nat, d: Effects, y: World)
    requires ServesAt(w, g) && Begun(w, d, y) && w.profiles != [] && !Mounts(DeterminePhase(w))
    ensures Due(w, y) ==> DeterminePhase(y) == DeterminePhase(w) && Act(y) == Act(w)
    ensures !Due(w, y) ==>
      && DeterminePhase(y) != BuildingMap
      && (DeterminePhase(w) == UpdatingMap ==> DeterminePhase(y) == RedeployingWorkers)
  {
    hide ServesAt, Act, Fut, Built, EffectsOf;
    BegunReads(w, g, d, y);
    if DeterminePhase(w) == UpdatingMap {
      AheadBuilt(w, y, Act(w));
      ActIsServed(w, g);
    }
  }

  lemma MountWork(w: World, g: nat, d: Effects, y: World)
    requires ServesAt(w, g) && Begun(w, d, y) && Mounts(DeterminePhase(w))
    ensures Mounts(DeterminePhase(y)) && ServedAfter(y) == ServedAfter(w)
  {
    hide ServesAt, Act, Fut, Built, EffectsOf;
    BegunReads(w, g, d, y);
    AheadBuilt(w, y, Act(w));
    AheadBuilt(w, y, Fut(w));
    NewestIs(w, g);
    ActIsServed(w, g);
  }

  lemma OtherWork(w: World, y: World)
    requires w.profiles != [] && y.profiles == w.profiles && Act(y) == Act(w)
    requires DeterminePhase(w) == BuildingMap && DeterminePhase(y) != BuildingMap && DeterminePhase(y) != Empty
    ensures EffectsOf(y) != EffectsOf(w)
  {
    hide DeterminePhase, Act, Fut;
    var p := w.profiles[0];
    assert p in w.profiles;
    if Mounts(DeterminePhase(y)) { assert p in EffectsOf(y).mounts; }
  }

  lemma RolloutWork(w: World, y: World)
    requires w.profiles != [] && y.profiles == w.profiles
    requires DeterminePhase(w) == UpdatingMap && DeterminePhase(y) == RedeployingWorkers
    ensures EffectsOf(y) != EffectsOf(w) && EffectsOf(y) == MountEffects(w.profiles, Fut(y))
  {
    hide DeterminePhase, Act, Fut;
    assert w.profiles[0] in EffectsOf(y).mounts;
  }

  lemma MountsSame(w: World, y: World)
    requires y.profiles == w.profiles && Mounts(DeterminePhase(w)) && Mounts(DeterminePhase(y))
    requires ServedAfter(y) == ServedAfter(w)
    ensures EffectsOf(y) == EffectsOf(w)
  {
    hide DeterminePhase, Act, Fut;
  }

  lemma BuildsSame(w: World, y: World)
    requires y.profiles == w.profiles && !Mounts(DeterminePhase(w)) && DeterminePhase(y) == DeterminePhase(w)
        && Act(y) == Act(w)
    ensures EffectsOf(y) == EffectsOf(w) && ServedAfter(y) == ServedAfter(w)
  {
    hide DeterminePhase, Act, Fut;
  }

  lemma Rebuilt(w: World, y: World)
    requires y.url != y.lastUrl && y.profiles == w.profiles != [] && DeterminePhase(y) != BuildingMap
        && Act(y) == Act(w)
    ensures EffectsOf(y) == BuildEffects(w.profiles, Act(w) + 1)
  {
    hide Act, Fut, Built;
  }

  /** The next pass decides on the same work if and only if that work is still due.  What is done
      instead is progress, or, if the URL of the finished map was never recorded, the same map
      once more, as the next generation. */
  lemma WorkExactly(w: World, g: nat, d: Effects, y: World)
    requires ServesAt(w, g) && Begun(w, d, y)
    ensures EffectsOf(y) == EffectsOf(w) <==> Due(w, y)
    ensures Due(w, y) ==>
      ServedAfter(y) == ServedAfter(w) && (Mounts(DeterminePhase(w)) || DeterminePhase(y) == DeterminePhase(w))
    ensures !Due(w, y) && w.url != w.lastUrl ==> EffectsOf(y) == BuildEffects(w.profiles, Act(w) + 1)
    ensures !Due(w, y) && DeterminePhase(w) == UpdatingMap ==> EffectsOf(y) == MountEffects(w.profiles, Fut(w))
  {
    if w.profiles == [] {
      ActiveIs(w.profiles, w.workers);
      ActiveIs(w.profiles, y.workers);
      BuildsSame(w, y);
    } else {
      hide ServesAt, Act, Fut, Built, EffectsOf, ServedAfter;
      BegunReads(w, g, d, y);
      if Mounts(DeterminePhase(w)) {
        MountWork(w, g, d, y);
        MountsSame(w, y);
      } else {
        BuildWork(w, g, d, y);
        if Due(w, y) {
          BuildsSame(w, y);
        } else if DeterminePhase(w) == UpdatingMap {
          RolloutWork(w, y);
        } else {
          OtherWork(w, y);
          if w.url != w.lastUrl { Rebuilt(w, y); }
        }
      }
    }
  }

  // ---------- any number of stops and reports ----------

  /** A pass stops before its annotation, or status moves forward. */
  ghost predicate Interrupts(w: World, ev: Event) {
    match ev
    case Stop(r, e) => r == ALL_READ && Part(e, EffectsOf(w))
    case Env(s) => s.Status? && Forward(w, s)
    case _ => false
  }

  ghost predicate Interrupted(w: World, evs: seq<Event>)
    decreases |evs|
  {
    evs != [] ==> Interrupts(w, evs[0]) && Interrupted(Happen(w, evs[0]), evs[1..])
  }

  /** Interruptions finish no map but by reported status, and undo none. */
  lemma EventAhead(w: World, ev: Event)
    requires Interrupts(w, ev)
    ensures Ahead(w, Happen(w, ev)) && Happen(w, ev).profiles == w.profiles
    ensures ev.Env? ==> SameLayout(w, Happen(w, ev))
    ensures ev.Stop? ==> Happen(w, ev) == Apply(w, ev.e).(phase := DeterminePhase(w))
  {
    if ev.Stop? {
      AllReadIsPass(w);
      BuildersKeep(w, ev.e);
    } else {
      var x := Happen(w, ev);
      assert x.pvcs.Keys == w.pvcs.Keys && x.jobs.Keys == w.jobs.Keys && x.workers.Keys == w.workers.Keys;
    }
  }

  lemma {:induction false} RunAhead(w: World, evs: seq<Event>)
    requires Interrupted(w, evs)
    ensures Ahead(w, History(w, evs)) && History(w, evs).profiles == w.profiles
    decreases |evs|
  {
    if evs != [] {
      EventAhead(w, evs[0]);
      RunAhead(Happen(w, evs[0]), evs[1..]);
    }
  }

  /** Work that is due in the end was due all along. */
  lemma DueBefore(w: World, y: World, z: World)
    requires Ahead(y, z) && z.profiles == y.profiles && Due(w, z)
    ensures Due(w, y)
  {
    hide DeterminePhase, Act, Fut;
    if Built(y, Act(w)) { AheadBuilt(y, z, Act(w)); }
    if Built(y, Fut(w)) { AheadBuilt(y, z, Fut(w)); }
  }

  /** Doing the rest, or more, of work that has been begun. */
  lemma MoreWork(w: World, d: Effects, y: World, e: Effects)
    requires Begun(w, d, y) && Part(e, EffectsOf(w))
    ensures SameLayout(Apply(w, Both(d, e)), Apply(y, e)) && Part(Both(d, e), EffectsOf(w))
  {
    hide EffectsOf, Apply, SameLayout;
    ApplyTwice(w, d, e);
    ApplySame(Apply(w, d), y, e);
  }

  lemma BegunFurther(w: World, d: Effects, y: World, ev: Event) returns (e: Effects)
    requires Begun(w, d, y) && EffectsOf(y) == EffectsOf(w) && Interrupts(y, ev)
    ensures Begun(w, e, Happen(y, ev))
  {
    hide EffectsOf, DeterminePhase, Act, Fut, Apply, Happen;
    EventAhead(y, ev);
    if ev.Stop? {
      e := Both(d, ev.e);
      MoreWork(w, d, y, ev.e);
    } else {
      e := d;
    }
  }

  /** After any stops and reports that leave the work due, some part of it has been done. */
  lemma {:induction false} StillBegun(w: World, g: nat, d: Effects, y: World, evs: seq<Event>) returns (e: Effects)
    requires ServesAt(w, g) && Begun(w, d, y) && Interrupted(y, evs) && Due(w, History(y, evs))
    ensures Begun(w, e, History(y, evs))
    decreases |evs|
  {
    if evs == [] {
      e := d;
    } else {
      hide Begun, Due, ServesAt, Ahead;
      RunAhead(y, evs);
      DueBefore(w, y, History(y, evs));
      WorkExactly(w, g, d, y);
      var c := BegunFurther(w, d, y, evs[0]);
      e := StillBegun(w, g, c, Happen(y, evs[0]), evs[1..]);
    }
  }

  lemma WrittenAlike(w: World, y: World)
    requires EffectsOf(y) == EffectsOf(w) && SameLayout(Apply(w, EffectsOf(w)), Apply(y, EffectsOf(w)))
        && w.url == y.url
    ensures SameLayout(Written(w), Written(y))
  {
    hide EffectsOf, Apply;
  }

  lemma FinishesAlike(w: World, g: nat, d: Effects, y: World)
    requires ServesAt(w, g) && Begun(w, d, y) && Due(w, y)
    ensures SameLayout(Written(w), Written(y))
    ensures Written(y).phase == Written(w).phase || (Mounts(DeterminePhase(w)) && w.profiles != [])
  {
    WorkExactly(w, g, d, y);
    EmptyPhase(w);
    assert w.url == y.url;
    hide EffectsOf, DeterminePhase, Act, Fut, Due, Apply, SameLayout, Begun;
    MoreWork(w, d, y, EffectsOf(w));
    AllOfIt(w, d, y);
    WrittenAlike(w, y);
  }

  lemma AllOfIt(w: World, d: Effects, y: World)
    requires Begun(w, d, y)
    ensures Both(d, EffectsOf(w)) == EffectsOf(w)
  {
    hide EffectsOf, SameLayout, Ahead;
  }

  lemma EmptyPhase(w: World)
    ensures DeterminePhase(w) == Empty <==> w.profiles == []
  {
  }

  lemma CompletesAlike(w: World, g: nat, d: Effects, y: World)
    requires ServesAt(w, g) && Begun(w, d, y) && Due(w, y)
    ensures SameLayout(Pass(w), Pass(y))
  {
    hide Begun, Due, ServesAt, SameLayout, Written, Collect, EffectsOf, DeterminePhase;
    FinishesAlike(w, g, d, y);
    if Mounts(DeterminePhase(w)) && w.profiles != [] {
      ActAfter(w);
      FutAfter(w, g);
    }
    CollectSame(Written(w), Written(y));
  }

  /** Passes stop before their annotation, however often and wherever, and status moves forward in
      between.  While the work is due, the next pass leaves the same claims, Jobs and workers as an
      undisturbed one.  It decides on the same work if and only if that work is due after the last
      event; if it is not, an unrecorded URL makes it start the finished map once more, as the next
      generation, and a finished update is rolled out. */
  lemma InterruptedThenComplete(w: World, evs: seq<Event>, last: Event)
    requires Inv(w) && Interrupted(w, evs) && Due(w, History(w, evs)) && Interrupts(History(w, evs), last)
    ensures var y := Happen(History(w, evs), last);
      && (EffectsOf(y) == EffectsOf(w) <==> Due(w, y))
      && (Due(w, y) ==> SameLayout(Pass(w), Pass(y)))
      && (!Due(w, y) && w.url != w.lastUrl ==> EffectsOf(y) == BuildEffects(w.profiles, Act(w) + 1))
      && (!Due(w, y) && DeterminePhase(w) == UpdatingMap ==> EffectsOf(y) == MountEffects(w.profiles, Fut(w)))
  {
    hide ServesAt, Begun, Due, SameLayout, Pass, EffectsOf, Act, Fut, DeterminePhase, Happen;
    var g: nat :| InvAt(w, g);
    var x := History(w, evs);
    var y := Happen(x, last);
    var none := NothingBegun(w);
    var c := StillBegun(w, g, none, w, evs);
    WorkExactly(w, g, c, x);
    var d := BegunFurther(w, c, x, last);
    WorkExactly(w, g, d, y);
    if Due(w, y) { CompletesAlike(w, g, d, y); }
  }

  lemma NothingBegun(w: World) returns (none: Effects)
    ensures Begun(w, none, w)
  {
    none := Effects({}, {}, {}, EffectsOf(w).gen);
    ApplyNothing(w, none.gen);
  }

  /** Nothing is deleted and nothing recorded before the annotation. */
  lemma {:induction false} InterruptedKeeps(w: World, evs: seq<Event>)
    requires Interrupted(w, evs)
    ensures var y := History(w, evs);
      && y.url == w.url && y.lastUrl == w.lastUrl && y.profiles == w.profiles
      && w.pvcs.Keys <= y.pvcs.Keys && w.jobs.Keys <= y.jobs.Keys && w.workers.Keys <= y.workers.Keys
    decreases |evs|
  {
    if evs != [] {
      EventAhead(w, evs[0]);
      if evs[0].Stop? { BuildersKeep(w, evs[0].e); }
      InterruptedKeeps(Happen(w, evs[0]), evs[1..]);
    }
  }

  // ---------- stops alone ----------

  /** The status of everything in y is what it was in w, and new objects have none. */
  ghost predicate SameStatus(w: World, y: World) {
    && (forall k :: k in y.pvcs ==> y.pvcs[k] == (k in w.pvcs && w.pvcs[k]))
    && (forall k :: k in y.jobs ==> y.jobs[k].complete == (k in w.jobs && w.jobs[k].complete))
    && (forall p :: p in y.workers ==>
          && y.workers[p].ready == (if p in w.workers then w.workers[p].ready else 0)
          && y.workers[p].replicas == (if p in w.workers then w.workers[p].replicas else 0))
  }

  lemma ApplyStatus(w: World, e: Effects)
    ensures SameStatus(w, Apply(w, e))
  {
  }

  lemma PassStatus(w: World)
    ensures SameStatus(w, Pass(w))
  {
    hide EffectsOf, Act, Fut, LooksLikeCron;
    ApplyStatus(w, EffectsOf(w));
  }

  ghost predicate Stopped(evs: seq<Event>) {
    forall i :: 0 <= i < |evs| ==> evs[i].Stop?
  }

  lemma {:induction false} StopsKeepStatus(w: World, evs: seq<Event>)
    requires Interrupted(w, evs) && Stopped(evs)
    ensures SameStatus(w, History(w, evs)) && w.pvcs.Keys <= History(w, evs).pvcs.Keys
         && w.jobs.Keys <= History(w, evs).jobs.Keys && w.workers.Keys <= History(w, evs).workers.Keys
    decreases |evs|
  {
    if evs != [] {
      var x := Happen(w, evs[0]);
      EventAhead(w, evs[0]);
      ApplyStatus(w, evs[0].e);
      BuildersKeep(w, evs[0].e);
      assert SameStatus(w, x);
      assert Stopped(evs[1..]);
      StopsKeepStatus(x, evs[1..]);
    }
  }

  lemma StatusUnfinished(w: World, y: World)
    requires SameStatus(w, y) && y.profiles == w.profiles && y.url == w.url
    ensures Due(w, y)
  {
    assert forall h :: Built(y, h) ==> Built(w, h);
  }

  /** Stops alone, however many and wherever: the next complete pass leaves the very objects, status
      included, that an undisturbed one would have left. */
  lemma StoppedThenComplete(w: World, evs: seq<Event>)
    requires Inv(w) && Interrupted(w, evs) && Stopped(evs)
    ensures SameObjects(Pass(w), Pass(History(w, evs)))
  {
    var g: nat :| InvAt(w, g);
    var y := History(w, evs);
    StopsKeepStatus(w, evs);
    InterruptedKeeps(w, evs);
    StatusUnfinished(w, y);
    hide ServesAt, Begun, Due, Pass, DeterminePhase, Act, Fut, EffectsOf;
    var none := NothingBegun(w);
    var d := StillBegun(w, g, none, w, evs);
    CompletesAlike(w, g, d, y);
    PassStatus(w);
    PassStatus(y);
    SameAll(w, y, Pass(w), Pass(y));
  }

  lemma SameAll(w: World, y: World, x: World, z: World)
    requires SameStatus(w, y) && SameStatus(w, x) && SameStatus(y, z) && SameLayout(x, z)
    requires w.pvcs.Keys <= y.pvcs.Keys && w.jobs.Keys <= y.jobs.Keys && w.workers.Keys <= y.workers.Keys
    ensures SameObjects(x, z)
  {
    assert x.pvcs == z.pvcs;
    assert x.jobs == z.jobs;
    assert x.workers == z.workers;
  }

  // ---------- a map that is finished before its URL is recorded ----------

  /** The first map of a cluster, after a pass or after a pass stopped before its annotation, and
      the report that all its claims are bound and its Jobs complete. */
  ghost function FirstMapDone(x: World, profiles: seq<string>): World {
    Do(x, Status(Generation(profiles, 1), Generation(profiles, 1), map[]))
  }

  lemma FirstPass(w: World)
    requires w == Init(w.url, w.profiles, w.traffic) && w.profiles != []
    ensures Act(w) == 1 && Fut(w) == 1 && EffectsOf(w) == BuildEffects(w.profiles, 1)
    ensures DeterminePhase(w) == BuildingMap
    ensures var x := Apply(w, EffectsOf(w));
      x.pvcs.Keys == x.jobs.Keys == Generation(w.profiles, 1) && x.workers == map[]
    ensures Pass(w) == Written(w)
  {
    ActiveIs(w.profiles, w.workers);
    assert w.profiles[0] in w.profiles;
    assert Key(w.profiles[0], 1) !in w.pvcs;
    var v := Written(w);
    assert v.pvcs.Keys == Generation(w.profiles, 1);
    assert Collect(v) == v;
  }

  lemma DoneIsBuilt(x: World, w: World)
    requires w.profiles != [] && x.profiles == w.profiles && x.workers == map[]
    requires x.pvcs.Keys == x.jobs.Keys == Generation(w.profiles, 1)
    ensures var y := FirstMapDone(x, w.profiles);
      Act(y) == 1 && Fut(y) == 1 && Built(y, 1) && y.workers == map[] && y.profiles == w.profiles
      && y.url == x.url && y.lastUrl == x.lastUrl
  {
    var y := FirstMapDone(x, w.profiles);
    assert y.workers == map[];
    ActiveIs(y.profiles, y.workers);
    assert y.pvcs.Keys == Generation(w.profiles, 1);
    assert w.profiles[0] in w.profiles;
    assert forall k :: k in y.pvcs ==> k.gen == 1;
  }

  /** Recorded, the finished first map is deployed.  Unrecorded, it looks like a changed URL, and
      the same map is built again as generation 2. */
  lemma UnrecordedMapIsRebuilt(w: World)
    requires w == Init(w.url, w.profiles, w.traffic) && w.profiles != [] && w.url != ""
    ensures DeterminePhase(FirstMapDone(Pass(w), w.profiles)) == DeployingWorkers
    ensures Part(EffectsOf(w), EffectsOf(w))
    ensures EffectsOf(FirstMapDone(StoppedSeeing(w, ALL_READ, EffectsOf(w)), w.profiles)) == BuildEffects(w.profiles, 2)
  {
    FirstPass(w);
    DoneIsBuilt(Pass(w), w);
    AllReadIsPass(w);
    DoneIsBuilt(StoppedSeeing(w, ALL_READ, EffectsOf(w)), w);
    assert w.profiles[0] in w.profiles;
  }
}
