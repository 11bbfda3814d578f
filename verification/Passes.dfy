/**
 How a pass can end, for clusters and instances.
 */
module Passes {
  import opened Strings
  import opened Names
  import opened Protocol
  import opened Safety
  import opened Children
  import opened Builders
  import opened Encoding
  import opened Interruptions
  import opened MountSafety
  import opened Deletions
  import opened Instance

  /** Only a running owner is reconciled: one without finalizer gets it first, a paused one and one
      being deleted are left alone. */
  datatype Gate = Uninitialized | Running | Paused | Deleting

  /** How a pass ends.  Skipped: before anything was written.  Unchanged: the write of the phase
      failed.  Stopped: a builder's request or the annotation failed.  Panicked: in a builder.
      Collecting: a deletion failed. */
  datatype Outcome = Skipped | Unchanged | Stopped | Panicked | Collecting | Done

  /** Requests enough for any pass of so many builders over so many objects: one for the phase, one a
      builder, one for the annotation, nine lists, and one for each object of a kind that is listed. */
  function Need(builders: nat, objects: nat): nat {
    11 + 7 * builders + 6 * objects
  }

  // ---------- what a pass amounts to ----------

  /** The builders that the pass decides on. */
  ghost function Work(anonymous: bool, w: World, r: Reads, profiles: seq<ProfileSpec>): seq<Builder> {
    var s := Seen(w, r);
    BuildersOf(anonymous, DeterminePhase(s), profiles, Itoa(Act(s)), Itoa(Fut(s)))
  }

  function BuildersOf(anonymous: bool, ph: Phase, profiles: seq<ProfileSpec>, active: string,
                      future: string): seq<Builder>
  {
    if anonymous && profiles != [] then InstanceBuilders(ph, profiles[0], active, future)
    else PhaseBuilders(ph, profiles, active, future)
  }

  ghost predicate StoppedIn(w: World, r: Reads, x: World) {
    exists e :: Part(e, EffectsOf(Seen(w, r))) && InOrder(e.mounts, w.profiles) && x == StoppedSeeing(w, r, e)
  }

  /** Where a pass that began in w can leave the claims, Jobs and workers. */
  ghost predicate Ends(w: World, r: Reads, out: Outcome, x: World) {
    match out
    case Skipped => x == w
    case Unchanged => x == w
    case Stopped => StoppedIn(w, r, x)
    case Panicked => StoppedIn(w, r, x)
    case Collecting =>
      exists ws, ps, js :: Deletable(WrittenSeeing(w, r), ws, ps, js) && x == Deleted(WrittenSeeing(w, r), ws, ps, js)
    case Done => x == PassSeeing(w, r)
  }

  /** And the other children: nothing written but what the builders write, in their order, and
      nothing deleted that is expected. */
  ghost predicate ChildrenEnd(owner: string, anonymous: bool, spec: ClusterSpec, c0: map<Ref, Child>, bs: seq<Builder>,
                              out: Outcome, c: map<Ref, Child>)
  {
    match out
    case Skipped => c == c0
    case Unchanged => c == c0
    case Stopped => exists n: nat :: n <= |bs| && c == c0 + OutAll(owner, spec, c0, bs[..n])
    case Collecting => Spared(c0 + OutAll(owner, spec, c0, bs), c, ExpectedNames(owner, spec.profiles))
    case Panicked => Reached(bs) < |bs| && c == c0 + OutAll(owner, spec, c0, bs[..Reached(bs)])
    case Done => c == KeptKinds(c0 + OutAll(owner, spec, c0, bs), KindsOf(anonymous),
                                ExpectedNames(owner, spec.profiles))
  }

  lemma SameEnds(owner: string, anonymous: bool, spec: ClusterSpec, w: World, r: Reads, c0: map<Ref, Child>,
                 bs: seq<Builder>)
    ensures Ends(w, r, Skipped, w) && ChildrenEnd(owner, anonymous, spec, c0, bs, Skipped, c0)
    ensures Ends(w, r, Unchanged, w) && ChildrenEnd(owner, anonymous, spec, c0, bs, Unchanged, c0)
  {
  }

  lemma StopEnds(owner: string, anonymous: bool, spec: ClusterSpec, w: World, r: Reads, e: Effects, x: World,
                 c0: map<Ref, Child>, bs: seq<Builder>, n: nat, c: map<Ref, Child>)
    requires Part(e, EffectsOf(Seen(w, r))) && InOrder(e.mounts, w.profiles) && x == StoppedSeeing(w, r, e)
    requires n <= |bs| && c == c0 + OutAll(owner, spec, c0, bs[..n])
    ensures Ends(w, r, Stopped, x) && ChildrenEnd(owner, anonymous, spec, c0, bs, Stopped, c)
    ensures Ends(w, r, Panicked, x)
    ensures n == Reached(bs) < |bs| ==> ChildrenEnd(owner, anonymous, spec, c0, bs, Panicked, c)
  {
    hide EffectsOf, StoppedSeeing, Seen, Reached, Part, InOrder;
  }

  lemma CollectEnds(owner: string, anonymous: bool, spec: ClusterSpec, w: World, r: Reads, ws: set<string>,
                    ps: set<Key>, js: set<Key>, x: World, c0: map<Ref, Child>, bs: seq<Builder>, c: map<Ref, Child>)
    requires Deletable(WrittenSeeing(w, r), ws, ps, js) && x == Deleted(WrittenSeeing(w, r), ws, ps, js)
    requires Spared(c0 + OutAll(owner, spec, c0, bs), c, ExpectedNames(owner, spec.profiles))
    ensures Ends(w, r, Collecting, x) && ChildrenEnd(owner, anonymous, spec, c0, bs, Collecting, c)
  {
    hide Deletable, Deleted, WrittenSeeing, Spared;
  }

  lemma DoneEnds(owner: string, anonymous: bool, spec: ClusterSpec, w: World, r: Reads, x: World,
                 c0: map<Ref, Child>, bs: seq<Builder>, c: map<Ref, Child>)
    requires x == Collect(WrittenSeeing(w, r))
    requires c == KeptKinds(c0 + OutAll(owner, spec, c0, bs), KindsOf(anonymous), ExpectedNames(owner, spec.profiles))
    ensures Ends(w, r, Done, x) && ChildrenEnd(owner, anonymous, spec, c0, bs, Done, c)
  {
    hide Collect, WrittenSeeing;
  }

  /** For a cluster that is the exact collection of all kinds. */
  lemma ClusterChildrenEnd(owner: string, spec: ClusterSpec, c0: map<Ref, Child>, bs: seq<Builder>, c: map<Ref, Child>)
    requires ChildrenEnd(owner, false, spec, c0, bs, Done, c)
    ensures c == ChildrenAfter(owner, spec, c0, bs)
  {
    AllKinds(c0 + OutAll(owner, spec, c0, bs), ExpectedNames(owner, spec.profiles));
  }

  /** However a pass ends, if it has written anything, that is one event of the interrupted runs, with
      the reads that the pass was given. */
  lemma EndIsEvent(w: World, r: Reads, out: Outcome, x: World) returns (ev: Event)
    requires Ends(w, r, out, x) && out != Skipped && out != Unchanged
    ensures Possible(w, ev) && x == Happen(w, ev) && !ev.Env? && ev.read == r
    ensures match out case Collecting => ev.StopCollecting? case Done => ev == Complete(r) case _ => ev.Stop?
    ensures r == ALL_READ && out == Done ==> x == Pass(w)
  {
    hide EffectsOf, StoppedSeeing, Deletable, Deleted, Part, InOrder, PassSeeing, WrittenSeeing;
    AllReadIsPass(w);
    match out {
      case Collecting =>
        var ws, ps, js :| Deletable(WrittenSeeing(w, r), ws, ps, js) && x == Deleted(WrittenSeeing(w, r), ws, ps, js);
        ev := StopCollecting(r, ws, ps, js);
      case Done => ev := Complete(r);
      case Stopped =>
        var e :| Part(e, EffectsOf(Seen(w, r))) && InOrder(e.mounts, w.profiles) && x == StoppedSeeing(w, r, e);
        ev := Stop(r, e);
      case Panicked =>
        var e :| Part(e, EffectsOf(Seen(w, r))) && InOrder(e.mounts, w.profiles) && x == StoppedSeeing(w, r, e);
        ev := Stop(r, e);
    }
  }

  /** Room for one more generation in Go's int. */
  ghost predicate Room(w: World) {
    && (forall k :: k in w.pvcs ==> k.gen + 1 < MAX_INT)
    && (forall p :: p in w.workers ==> w.workers[p].gen + 1 < MAX_INT)
  }

  lemma InRoom(w: World, r: Reads)
    requires Room(w)
    ensures InRange(w) && InRange(Seen(w, r)) && Act(Seen(w, r)) + 1 < MAX_INT && Fut(Seen(w, r)) + 1 < MAX_INT
  {
    ActiveIs(w.profiles, Seen(w, r).workers);
  }

  /** The builders of the pass have the protocol's effects, and those of a cluster do not panic. */
  lemma WorkDoes(anonymous: bool, w: World, r: Reads, profiles: seq<ProfileSpec>)
    requires Room(w) && w.profiles == NamesOf(profiles) && (forall p :: p in profiles ==> Plain(p.name))
    requires Fits(anonymous, w.profiles, {})
    ensures var e := EffectsOf(Seen(w, r));
      var bs := Work(anonymous, w, r, profiles);
      && ListEffects(bs, e.gen) == e && WorkersIn(bs) <= w.profiles
      && (forall b :: b in bs ==> OnGeneration(b, e.gen) && (b.WorkerDeployment? ==> b.profile in profiles))
      && (!anonymous ==> Reached(bs) == |bs|)
  {
    hide Does, DeterminePhase, Act, Fut, PhaseEffects, PhaseBuilders, InstanceBuilders, WorkersIn;
    InRoom(w, r);
    var s := Seen(w, r);
    if anonymous {
      assert |profiles| == |NamesOf(profiles)| && profiles[0].name == NamesOf(profiles)[0];
      NotEmpty(s);
      InstanceDoes(DeterminePhase(s), profiles[0], Act(s), Fut(s));
      InstanceInOrder(DeterminePhase(s), profiles[0], Itoa(Act(s)), Itoa(Fut(s)));
      InstanceBuildsFor(DeterminePhase(s), profiles[0], Itoa(Act(s)), Itoa(Fut(s)));
    } else {
      PhaseBuildersEffects(DeterminePhase(s), profiles, Act(s), Fut(s));
      DoesFor(PhaseBuilders(DeterminePhase(s), profiles, Itoa(Act(s)), Itoa(Fut(s))), EffectsOf(s), profiles);
    }
  }

  lemma NotEmpty(s: World)
    requires s.profiles != []
    ensures DeterminePhase(s) != Empty
  {
  }

  lemma DoesFor(bs: seq<Builder>, e: Effects, profiles: seq<ProfileSpec>)
    requires Does(bs, e, profiles)
    ensures ListEffects(bs, e.gen) == e && WorkersIn(bs) <= NamesOf(profiles) && Reached(bs) == |bs|
    ensures forall b :: b in bs ==> OnGeneration(b, e.gen) && (b.WorkerDeployment? ==> b.profile in profiles)
  {
  }

  function SeenStore(s: Store, r: Reads): Store {
    Store(if r.claims then s.pvcs else map[], if r.jobs then s.jobs else map[],
          if r.workers then s.deployments else map[])
  }

  lemma SeenEncodes(owner: string, s: Store, w: World, r: Reads)
    requires Encodes(owner, s, w) && InRange(w)
    ensures Encodes(owner, SeenStore(s, r), Seen(w, r)) && InRange(Seen(w, r))
  {
    hide KeysEncode, WorkersNamed, WorkerEncodes, ClaimName, WorkerName, KeyOf, ProfileOf;
    NothingEncoded(owner);
  }

  lemma NothingEncoded(owner: string)
    ensures ClaimsEncode(owner, map[], map[]) && JobsEncode(owner, map[], map[]) && WorkersEncode(owner, map[], map[])
  {
  }

  lemma {:induction false} NoneDeployed(owner: string, profiles: seq<string>)
    ensures DeploymentsFor(owner, profiles, map[]) == []
  {
    if profiles != [] { NoneDeployed(owner, profiles[1..]); }
  }

  lemma SomeBuilders(bs: seq<Builder>, n: nat, g: nat, names: seq<string>)
    requires n <= |bs| && WorkersIn(bs) <= names
    ensures Part(ListEffects(bs[..n], g), ListEffects(bs, g)) && InOrder(ListEffects(bs[..n], g).mounts, names)
  {
    MountsInOrder(bs, n, g, names);
    hide WorkersIn, InOrder;
    forall b | b in bs[..n] ensures b in bs { }
    assert ListEffects(bs[..n], g).claims <= ListEffects(bs, g).claims;
    assert ListEffects(bs[..n], g).maps <= ListEffects(bs, g).maps;
    assert ListEffects(bs[..n], g).mounts <= ListEffects(bs, g).mounts;
  }

  /** The World once the builders have run, and once the annotation is written. */
  lemma BuildersRan(w: World, r: Reads, e: Effects, x: World)
    requires x == Apply(w.(phase := DeterminePhase(Seen(w, r))), e)
    ensures x == StoppedSeeing(w, r, e) && x.url == w.url
    ensures e == EffectsOf(Seen(w, r)) ==> x.(lastUrl := w.url) == WrittenSeeing(w, r)
  {
    hide DeterminePhase, Seen, EffectsOf;
  }

  lemma WrittenInRoom(w: World, r: Reads)
    requires Room(w)
    ensures InRange(WrittenSeeing(w, r))
  {
    InRoom(w, r);
    MountsOnlyProfiles(Seen(w, r));
    hide EffectsOf, DeterminePhase;
    SeenWorkers(w, r);
    var v := WrittenSeeing(w, r);
    forall k | k in v.pvcs ensures k.gen < MAX_INT { }
    forall p | p in v.workers ensures v.workers[p].gen < MAX_INT { }
  }

  lemma MountsOnlyProfiles(s: World)
    requires Act(s) + 1 < MAX_INT && Fut(s) + 1 < MAX_INT
    ensures EffectsOf(s).gen < MAX_INT
    ensures forall p :: p in EffectsOf(s).mounts ==> p in s.profiles
    ensures forall k :: k in EffectsOf(s).claims ==> k.gen < MAX_INT
  {
    hide Act, Fut, DeterminePhase;
  }
}
