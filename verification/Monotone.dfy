/**
 The served generation along patient runs, with passes that stop anywhere.
 */
module Monotone {
  import opened Protocol
  import opened Safety
  import opened Interruptions
  import opened MountSafety

  /** No claim is more than one generation ahead of what is served. */
  ghost predicate Capped(w: World) {
    Fut(w) <= Act(w) + 1
  }

  lemma ServedIs(w: World)
    requires ClaimsExist(w) && Positive(w) && Serving(w)
    ensures 1 <= Act(w) <= Fut(w)
    ensures Uniform(w) ==> forall p :: p in w.workers ==> Act(w) == w.workers[p].gen
  {
    ActiveIs(w.profiles, w.workers);
    var p :| p in w.profiles && p in w.workers && Act(w) == w.workers[p].gen;
    assert Key(p, Act(w)) in w.pvcs.Keys;
  }

  lemma FewerClaims(a: set<Key>, b: set<Key>)
    requires a <= b
    ensures Newest(a) <= Newest(b)
  {
  }

  /** Garbage collection moves no worker of the spec and makes no claim. */
  lemma Collected(v: World, x: World)
    requires x.profiles == v.profiles && x.pvcs.Keys <= v.pvcs.Keys
    requires forall p :: p in v.profiles ==>
      (p in x.workers <==> p in v.workers) && (p in v.workers ==> x.workers[p] == v.workers[p])
    ensures Act(x) == Act(v) && Fut(x) <= Fut(v)
  {
    ActiveSame(v.profiles, v.workers, x.workers);
    FewerClaims(x.pvcs.Keys, v.pvcs.Keys);
  }

  /** A pass that moves workers moves them to the newest generation. */
  lemma MovesToNewest(w: World, r: Reads)
    requires Mounts(DeterminePhase(Seen(w, r)))
    ensures ServedAfter(Seen(w, r)) == Fut(w)
  {
    SeenClaims(w, r);
    hide Built, Fut, Act;
  }

  /** One that builds makes claims of at most the next. */
  lemma BuildsNext(w: World, r: Reads, e: Effects)
    requires Act(w) >= 1 && Part(e, EffectsOf(Seen(w, r))) && !Mounts(DeterminePhase(Seen(w, r)))
    ensures e.mounts == {} && forall k :: k in e.claims ==> k.gen <= Act(w) + 1
  {
    hide DeterminePhase, Fut;
    var s := Seen(w, r);
    if !r.workers { ActiveIs(s.profiles, s.workers); }
  }

  lemma BuildersMonotone(w: World, r: Reads, e: Effects)
    requires Safe(w) && Serving(w) && Capped(w) && Part(e, EffectsOf(Seen(w, r)))
    requires InOrder(e.mounts, w.profiles)
    ensures var x := Apply(w, e); Act(w) <= Act(x) <= Act(w) + 1 && Capped(x)
  {
    hide DeterminePhase, Act, Fut, LooksLikeCron, Underway;
    var x := Apply(w, e);
    ServedIs(w);
    StoppedActive(w, r, e);
    BuildersKeep(w, e);
    if Mounts(DeterminePhase(Seen(w, r))) {
      MovesToNewest(w, r);
      PartClaims(w, r, e);
    } else {
      BuildsNext(w, r, e);
      AtMost(w, x, Act(w) + 1);
    }
  }

  lemma PartClaims(w: World, r: Reads, e: Effects)
    requires Part(e, EffectsOf(Seen(w, r))) && Mounts(DeterminePhase(Seen(w, r)))
    ensures Fut(Apply(w, e)) == Fut(w)
  {
    hide DeterminePhase, Act;
    BuildersKeep(w, e);
  }

  lemma AtMost(w: World, x: World, g: nat)
    requires Fut(w) <= g && g >= 1 && forall k :: k in x.pvcs ==> k in w.pvcs || k.gen <= g
    ensures Fut(x) <= g
  {
  }

  lemma WholeInOrder(w: World, r: Reads)
    ensures var e := EffectsOf(Seen(w, r)); Part(e, e) && InOrder(e.mounts, w.profiles)
  {
    hide DeterminePhase, Act, Fut;
    var e := EffectsOf(Seen(w, r));
    assert w.profiles[..|w.profiles|] == w.profiles;
    assert FirstOf(w.profiles, |w.profiles|) == set p | p in w.profiles;
    assert FirstOf(w.profiles, 0) == {};
  }

  lemma SameReading(x: World, y: World)
    requires x.pvcs == y.pvcs && x.workers == y.workers && x.profiles == y.profiles
    ensures Act(x) == Act(y) && Fut(x) == Fut(y)
  {
  }

  lemma WrittenMonotone(w: World, r: Reads)
    requires Safe(w) && Serving(w) && Capped(w)
    ensures var v := WrittenSeeing(w, r); Act(w) <= Act(v) <= Act(w) + 1 && Capped(v)
  {
    hide DeterminePhase, Act, Fut, Safe, Apply;
    WholeInOrder(w, r);
    BuildersMonotone(w, r, EffectsOf(Seen(w, r)));
    SameReading(Apply(w, EffectsOf(Seen(w, r))), WrittenSeeing(w, r));
  }

  lemma EnvMonotone(w: World, s: Step)
    requires Safe(w) && Serving(w) && Patient(w, Env(s)) && Serving(Do(w, s))
    ensures Act(Do(w, s)) == Act(w) && Fut(Do(w, s)) == Fut(w)
  {
    hide LooksLikeCron, Underway, Built;
    if s.Edit? {
      ServedIs(w);
      ServedIs(Do(w, s));
      var p :| p in w.profiles && p in w.workers;
    } else {
      StatusKeepsReads(w, s);
    }
  }

  /** While a deployed profile stays in the spec, nothing lets the served generation fall, no edit or
      report moves it, and a pass raises it by at most one, wherever it stops and whatever it reads. */
  lemma EventMonotone(w: World, ev: Event)
    requires Safe(w) && Serving(w) && Capped(w) && Patient(w, ev) && Serving(Happen(w, ev))
    ensures var x := Happen(w, ev); Act(w) <= Act(x) <= Act(w) + (if ev.Env? then 0 else 1) && Capped(x)
  {
    hide DeterminePhase, Act, Fut, LooksLikeCron, Safe, Apply, EffectsOf, InOrder, Serving, Part;
    match ev {
      case Env(s) => EnvMonotone(w, s);
      case Stop(r, e) =>
        BuildersMonotone(w, r, e);
        SameReading(Apply(w, e), Happen(w, ev));
      case StopCollecting(r, ws, ps, js) =>
        WrittenMonotone(w, r);
        hide WrittenSeeing;
        Collected(WrittenSeeing(w, r), Happen(w, ev));
      case Complete(r) =>
        WrittenMonotone(w, r);
        hide WrittenSeeing;
        Collected(WrittenSeeing(w, r), Happen(w, ev));
    }
  }

  /** At every point of the run some deployed profile is in the spec. */
  ghost predicate ServedThroughout(w: World, evs: seq<Event>)
    decreases |evs|
  {
    Serving(w) && (evs != [] ==> ServedThroughout(Happen(w, evs[0]), evs[1..]))
  }

  /** Complete passes and stopped ones. */
  function PassesOf(evs: seq<Event>): nat {
    if evs == [] then 0 else (if evs[0].Env? then 0 else 1) + PassesOf(evs[1..])
  }

  lemma {:induction false} PatientRunMonotone(w: World, evs: seq<Event>)
    requires Safe(w) && Capped(w) && PatientRun(w, evs) && ServedThroughout(w, evs)
    ensures Act(w) <= Act(History(w, evs)) <= Act(w) + PassesOf(evs) && Capped(History(w, evs))
    decreases |evs|
  {
    if evs != [] {
      hide Safe, Capped, Serving, Happen, Act;
      SafeStep(w, evs[0]);
      StillServed(w, evs);
      EventMonotone(w, evs[0]);
      PatientRunMonotone(Happen(w, evs[0]), evs[1..]);
    }
  }

  lemma StillServed(w: World, evs: seq<Event>)
    requires evs != [] && ServedThroughout(w, evs)
    ensures Serving(w) && Serving(Happen(w, evs[0]))
  {
    hide Serving, Happen;
  }

  // ---------- where such runs begin ----------

  lemma InvIsCapped(w: World)
    requires Inv(w) && Serving(w)
    ensures Capped(w)
  {
    var g: nat :| InvAt(w, g);
    ActiveServes(w, g);
    NewestIs(w, g);
  }

  lemma FirstMoved(w: World, r: Reads, e: Effects)
    requires !Serving(w) && Part(e, EffectsOf(Seen(w, r))) && InOrder(e.mounts, w.profiles) && Serving(Apply(w, e))
    ensures Act(Apply(w, e)) == Fut(Apply(w, e))
  {
    hide DeterminePhase, Fut, Act;
    StoppedActive(w, r, e);
    if e.mounts != {} {
      MovesToNewest(w, r);
      PartClaims(w, r, e);
    }
  }

  lemma SameServing(v: World, x: World)
    requires x.profiles == v.profiles && forall p :: p in v.profiles ==> (p in x.workers <==> p in v.workers)
    ensures Serving(x) <==> Serving(v)
  {
  }

  lemma FirstWritten(w: World, r: Reads)
    requires !Serving(w) && Serving(WrittenSeeing(w, r))
    ensures Capped(WrittenSeeing(w, r))
  {
    hide DeterminePhase, Act, Fut, Apply;
    var e := EffectsOf(Seen(w, r));
    WholeInOrder(w, r);
    SameServing(Apply(w, e), WrittenSeeing(w, r));
    FirstMoved(w, r, e);
    SameReading(Apply(w, e), WrittenSeeing(w, r));
  }

  /** Whatever was left over before, the pass that deploys the first workers, stopped or not, leaves no
      claim more than one generation ahead. */
  lemma FirstWorkersCap(w: World, ev: Event)
    requires Possible(w, ev) && !ev.Env? && !Serving(w) && Serving(Happen(w, ev))
    ensures Capped(Happen(w, ev))
  {
    hide DeterminePhase, Act, Fut, LooksLikeCron, Apply, EffectsOf, InOrder, Serving, Part;
    var x := Happen(w, ev);
    match ev {
      case Stop(r, e) =>
        SameServing(Apply(w, e), x);
        FirstMoved(w, r, e);
        SameReading(Apply(w, e), x);
      case StopCollecting(r, ws, ps, js) =>
        var v := WrittenSeeing(w, r);
        hide WrittenSeeing;
        SameServing(v, x);
        FirstWritten(w, r);
        Collected(v, x);
      case Complete(r) =>
        var v := WrittenSeeing(w, r);
        hide WrittenSeeing;
        SameServing(v, x);
        FirstWritten(w, r);
        Collected(v, x);
    }
  }
}
