/**
 The builder lists of each phase, built as the source builds them, and the protocol's effects that
 they stand for.
 */
module Builders {
  import opened Strings
  import opened Names
  import opened Protocol
  import opened Objects
  import opened Children

  function PhaseBuilders(ph: Phase, profiles: seq<ProfileSpec>, active: string, future: string): seq<Builder> {
    match ph
    case BuildingMap => MapBuilders(profiles, active)
    case DeployingWorkers => DeployBuilders(profiles, active)
    case WorkersDeployed => DeployedBuilders(profiles, active)
    case WorkersRedeployed => DeployedBuilders(profiles, active)
    case UpdatingMap => MapBuilders(profiles, NextMapGeneration(active))
    case RedeployingWorkers => RedeployBuilders(profiles, future)
    case Empty => []
  }

  // ---------- the loops ----------

  method MapPhaseBuilders(profiles: seq<ProfileSpec>, gen: string) returns (builders: seq<Builder>)
    ensures builders == MapBuilders(profiles, gen)
  {
    builders := [];
    for i := 0 to |profiles|
      invariant builders == MapBuilders(profiles[..i], gen)
    {
      assert profiles[..i + 1][..i] == profiles[..i];
      builders := builders + [PersistentVolumeClaim(profiles[i], gen), MapBuilder(profiles[i], gen)];
    }
    assert profiles[..|profiles|] == profiles;
  }

  method RedeployingWorkersPhaseBuilders(profiles: seq<ProfileSpec>, future: string) returns (builders: seq<Builder>)
    ensures builders == RedeployBuilders(profiles, future)
  {
    builders := [];
    for i := 0 to |profiles|
      invariant builders == RedeployBuilders(profiles[..i], future)
    {
      assert profiles[..i + 1][..i] == profiles[..i];
      builders := builders + [WorkerDeployment(profiles[i], future)];
    }
    assert profiles[..|profiles|] == profiles;
  }

  method DeployingWorkersPhaseBuilders(profiles: seq<ProfileSpec>, gen: string) returns (builders: seq<Builder>)
    ensures builders == DeployBuilders(profiles, gen)
  {
    builders := [];
    for i := 0 to |profiles|
      invariant builders == DeployBuilders(profiles[..i], gen)
    {
      assert profiles[..i + 1][..i] == profiles[..i];
      var p := profiles[i];
      builders := builders + [WorkerDeployment(p, gen), Service(p), DisruptionBudget(p)];
      if p.minReplicas.Some? && p.maxReplicas.Some? { builders := builders + [Autoscaler(p)]; }
    }
    assert profiles[..|profiles|] == profiles;
  }

  method WorkersDeployedPhaseBuilders(profiles: seq<ProfileSpec>, gen: string) returns (builders: seq<Builder>)
    ensures builders == DeployedBuilders(profiles, gen)
  {
    builders := [];
    for i := 0 to |profiles|
      invariant builders == ProfileBuilders(profiles[..i], gen)
    {
      assert profiles[..i + 1][..i] == profiles[..i];
      var p := profiles[i];
      ghost var before := builders;
      builders := builders + [Service(p)];
      builders := builders + [DisruptionBudget(p)];
      builders := builders + [WorkerDeployment(p, gen)];
      if p.minReplicas.Some? && p.maxReplicas.Some? { builders := builders + [Autoscaler(p)]; }
      if p.speedUpdates.Some? { builders := builders + [CronJob(p, gen)]; }
      assert builders == before + OneProfile(p, gen);
    }
    assert profiles[..|profiles|] == profiles;
    if |profiles| > 0 { builders := builders + [GatewayConfig, GatewayService, GatewayDeployment]; }
  }

  method ResourceBuildersForPhase(ph: Phase, profiles: seq<ProfileSpec>, active: string, future: string)
    returns (builders: seq<Builder>)
    ensures builders == PhaseBuilders(ph, profiles, active, future)
  {
    match ph
    case BuildingMap => builders := MapPhaseBuilders(profiles, active);
    case DeployingWorkers => builders := DeployingWorkersPhaseBuilders(profiles, active);
    case WorkersDeployed => builders := WorkersDeployedPhaseBuilders(profiles, active);
    case WorkersRedeployed => builders := WorkersDeployedPhaseBuilders(profiles, active);
    case UpdatingMap => builders := MapPhaseBuilders(profiles, NextMapGeneration(active));
    case RedeployingWorkers => builders := RedeployingWorkersPhaseBuilders(profiles, future);
    case Empty => builders := [];
  }

  /** How many builders run before the pass ends, if no request fails. */
  function Reached(bs: seq<Builder>): (n: nat)
    ensures n <= |bs| && (forall i :: 0 <= i < n ==> !Panics(bs[i])) && (n < |bs| ==> Panics(bs[n]))
  {
    if bs == [] || Panics(bs[0]) then 0 else 1 + Reached(bs[1..])
  }

  // ---------- membership ----------

  lemma {:induction false} InMapBuilders(profiles: seq<ProfileSpec>, gen: string, b: Builder)
    ensures b in MapBuilders(profiles, gen) <==>
      (b.PersistentVolumeClaim? || b.MapBuilder?) && b.profile in profiles && b.gen == gen
  {
    if profiles != [] {
      var n := |profiles| - 1;
      InMapBuilders(profiles[..n], gen, b);
      assert profiles == profiles[..n] + [profiles[n]];
    }
  }

  lemma {:induction false} InRedeployBuilders(profiles: seq<ProfileSpec>, gen: string, b: Builder)
    ensures b in RedeployBuilders(profiles, gen) <==> b.WorkerDeployment? && b.profile in profiles && b.gen == gen
  {
    if profiles != [] {
      var n := |profiles| - 1;
      InRedeployBuilders(profiles[..n], gen, b);
      assert profiles == profiles[..n] + [profiles[n]];
    }
  }

  /** What the builders of one profile have in common, whichever phase lists them. */
  predicate Serves(b: Builder, profiles: seq<ProfileSpec>, gen: string) {
    match b
    case WorkerDeployment(p, g) => p in profiles && g == gen
    case Service(p) => p in profiles
    case DisruptionBudget(p) => p in profiles
    case Autoscaler(p) => p in profiles && p.minReplicas.Some? && p.maxReplicas.Some?
    case _ => false
  }

  lemma {:induction false} InDeployBuilders(profiles: seq<ProfileSpec>, gen: string, b: Builder)
    ensures b in DeployBuilders(profiles, gen) <==> Serves(b, profiles, gen)
  {
    if profiles != [] {
      var n := |profiles| - 1;
      InDeployBuilders(profiles[..n], gen, b);
      assert profiles == profiles[..n] + [profiles[n]];
    }
  }

  lemma InOneProfile(p: ProfileSpec, gen: string, b: Builder)
    ensures b in OneProfile(p, gen) <==>
      Serves(b, [p], gen) || (b.CronJob? && b.profile == p && p.speedUpdates.Some? && b.gen == gen)
  {
  }

  lemma {:induction false} InProfileBuilders(profiles: seq<ProfileSpec>, gen: string, b: Builder)
    ensures b in ProfileBuilders(profiles, gen) <==>
      Serves(b, profiles, gen) || (b.CronJob? && b.profile in profiles && b.profile.speedUpdates.Some? && b.gen == gen)
  {
    if profiles != [] {
      var n := |profiles| - 1;
      InProfileBuilders(profiles[..n], gen, b);
      InOneProfile(profiles[n], gen, b);
      assert profiles == profiles[..n] + [profiles[n]];
    }
  }

  lemma InDeployedBuilders(profiles: seq<ProfileSpec>, gen: string, b: Builder)
    ensures b in DeployedBuilders(profiles, gen) <==>
      || Serves(b, profiles, gen)
      || (b.CronJob? && b.profile in profiles && b.profile.speedUpdates.Some? && b.gen == gen)
      || (profiles != [] && (b.GatewayConfig? || b.GatewayService? || b.GatewayDeployment?))
  {
    InProfileBuilders(profiles, gen, b);
  }

  /** Which builders a phase gets, one by one. */
  lemma PhaseListExactly(ph: Phase, profiles: seq<ProfileSpec>, active: string, future: string, b: Builder)
    ensures b in PhaseBuilders(ph, profiles, active, future) <==>
      match b
      case PersistentVolumeClaim(p, gen) =>
        && p in profiles
        && ((ph == BuildingMap && gen == active) || (ph == UpdatingMap && gen == NextMapGeneration(active)))
      case MapBuilder(p, gen) =>
        && p in profiles
        && ((ph == BuildingMap && gen == active) || (ph == UpdatingMap && gen == NextMapGeneration(active)))
      case WorkerDeployment(p, gen) =>
        p in profiles && ((ph == RedeployingWorkers && gen == future) ||
          (ph in {DeployingWorkers, WorkersDeployed, WorkersRedeployed} && gen == active))
      case Service(p) => p in profiles && ph in {DeployingWorkers, WorkersDeployed, WorkersRedeployed}
      case DisruptionBudget(p) => p in profiles && ph in {DeployingWorkers, WorkersDeployed, WorkersRedeployed}
      case Autoscaler(p) =>
        && p in profiles && ph in {DeployingWorkers, WorkersDeployed, WorkersRedeployed}
        && p.minReplicas.Some? && p.maxReplicas.Some?
      case CronJob(p, gen) =>
        p in profiles && ph in {WorkersDeployed, WorkersRedeployed} && p.speedUpdates.Some? && gen == active
      case GatewayConfig => profiles != [] && ph in {WorkersDeployed, WorkersRedeployed}
      case GatewayService => profiles != [] && ph in {WorkersDeployed, WorkersRedeployed}
      case GatewayDeployment => profiles != [] && ph in {WorkersDeployed, WorkersRedeployed}
  {
    hide MapBuilders, RedeployBuilders, DeployBuilders, DeployedBuilders, NextMapGeneration;
    InMapBuilders(profiles, active, b);
    InMapBuilders(profiles, NextMapGeneration(active), b);
    InRedeployBuilders(profiles, future, b);
    InDeployBuilders(profiles, active, b);
    InDeployedBuilders(profiles, active, b);
  }

  /** The builders of a profile come in this order, profile after profile. */
  lemma PhaseListInOrder(ph: Phase, profiles: seq<ProfileSpec>, p: ProfileSpec, active: string, future: string)
    requires ph != WorkersDeployed && ph != WorkersRedeployed
    ensures var before := PhaseBuilders(ph, profiles, active, future);
      var scaler := if p.minReplicas.Some? && p.maxReplicas.Some? then [Autoscaler(p)] else [];
      PhaseBuilders(ph, profiles + [p], active, future) ==
        match ph
        case BuildingMap => before + [PersistentVolumeClaim(p, active), MapBuilder(p, active)]
        case UpdatingMap =>
          before + [PersistentVolumeClaim(p, NextMapGeneration(active)), MapBuilder(p, NextMapGeneration(active))]
        case RedeployingWorkers => before + [WorkerDeployment(p, future)]
        case DeployingWorkers => before + [WorkerDeployment(p, active), Service(p), DisruptionBudget(p)] + scaler
        case _ => []
  {
    hide NextMapGeneration;
    assert (profiles + [p])[..|profiles|] == profiles;
  }

  /** Those of the gateway come last. */
  lemma DeployedListInOrder(ph: Phase, profiles: seq<ProfileSpec>, p: ProfileSpec, active: string, future: string)
    requires ph == WorkersDeployed || ph == WorkersRedeployed
    ensures var before := PhaseBuilders(ph, profiles, active, future);
      var scaler := if p.minReplicas.Some? && p.maxReplicas.Some? then [Autoscaler(p)] else [];
      var cron := if p.speedUpdates.Some? then [CronJob(p, active)] else [];
      && (profiles == [] ==> before == []) && (profiles != [] ==> |before| >= 3)
      && PhaseBuilders(ph, profiles + [p], active, future) ==
           (if profiles == [] then [] else before[..|before| - 3])
           + ([Service(p), DisruptionBudget(p), WorkerDeployment(p, active)] + scaler + cron)
           + [GatewayConfig, GatewayService, GatewayDeployment]
  {
    var bs := ProfileBuilders(profiles, active);
    assert (profiles + [p])[..|profiles|] == profiles;
    assert ProfileBuilders(profiles + [p], active) == bs + OneProfile(p, active);
    assert profiles == [] ==> bs == [];
    hide ProfileBuilders;
    assert profiles != [] ==> DeployedBuilders(profiles, active)[..|bs|] == bs;
  }

  // ---------- effects ----------

  function ListEffects(bs: seq<Builder>, g: nat): Effects {
    Effects(set b | b in bs && b.PersistentVolumeClaim? :: Key(b.profile.name, g),
            set b | b in bs && b.MapBuilder? :: Key(b.profile.name, g),
            set b | b in bs && b.WorkerDeployment? :: b.profile.name,
            g)
  }

  /** A builder whose object, if it carries a generation, carries g. */
  predicate OnGeneration(b: Builder, g: nat) {
    match b
    case PersistentVolumeClaim(p, gen) => gen == Itoa(g) && Plain(p.name)
    case MapBuilder(p, gen) => gen == Itoa(g) && Plain(p.name)
    case WorkerDeployment(p, gen) => gen == Itoa(g) && Plain(p.name)
    case _ => true
  }

  // ---------- the order of the workers ----------

  /** The profiles whose workers a list rewrites, in its order. */
  function WorkersIn(bs: seq<Builder>): seq<string> {
    if bs == [] then []
    else
      var b := bs[|bs| - 1];
      WorkersIn(bs[..|bs| - 1]) + if b.WorkerDeployment? then [b.profile.name] else []
  }

  lemma {:induction false} WorkersInBoth(a: seq<Builder>, b: seq<Builder>)
    ensures WorkersIn(a + b) == WorkersIn(a) + WorkersIn(b)
  {
    if b == [] {
      assert a + b == a;
    } else {
      WorkersInBoth(a, b[..|b| - 1]);
      assert (a + b)[..|a + b| - 1] == a + b[..|b| - 1];
    }
  }

  lemma WorkersInPrefix(bs: seq<Builder>, n: nat)
    requires n <= |bs|
    ensures WorkersIn(bs[..n]) <= WorkersIn(bs)
  {
    hide WorkersIn;
    var a, b := bs[..n], bs[n..];
    WorkersInBoth(a, b);
    assert a + b == bs;
  }

  lemma {:induction false} WorkersMounted(bs: seq<Builder>, g: nat)
    ensures ListEffects(bs, g).mounts == set p | p in WorkersIn(bs)
  {
    if bs != [] {
      var n := |bs| - 1;
      var before, b := bs[..n], bs[n];
      WorkersMounted(before, g);
      assert bs == before + [b];
      var last := if b.WorkerDeployment? then [b.profile.name] else [];
      assert WorkersIn(bs) == WorkersIn(before) + last;
      assert ListEffects(bs, g).mounts == ListEffects(before, g).mounts + set p | p in last;
    }
  }

  /** If a list rewrites workers in the order of the spec, so does every beginning of it. */
  lemma MountsInOrder(bs: seq<Builder>, n: nat, g: nat, names: seq<string>)
    requires n <= |bs| && WorkersIn(bs) <= names
    ensures InOrder(ListEffects(bs[..n], g).mounts, names)
  {
    WorkersInPrefix(bs, n);
    WorkersMounted(bs[..n], g);
    var ws := WorkersIn(bs[..n]);
    assert ws == names[..|ws|];
    assert ListEffects(bs[..n], g).mounts == FirstOf(names, |ws|);
  }

  lemma {:induction false} NoWorkersIn(bs: seq<Builder>)
    requires forall b :: b in bs ==> !b.WorkerDeployment?
    ensures WorkersIn(bs) == []
  {
    if bs != [] { NoWorkersIn(bs[..|bs| - 1]); }
  }

  lemma OneWorker(bs: seq<Builder>, before: seq<Builder>, p: ProfileSpec, gen: string, after: seq<Builder>)
    requires bs == before + [WorkerDeployment(p, gen)] + after
    requires (forall b :: b in before ==> !b.WorkerDeployment?) && forall b :: b in after ==> !b.WorkerDeployment?
    ensures WorkersIn(bs) == [p.name]
  {
    NoWorkersIn(before);
    NoWorkersIn(after);
    assert WorkersIn([WorkerDeployment(p, gen)]) == [p.name];
    hide WorkersIn;
    WorkersInBoth(before, [WorkerDeployment(p, gen)]);
    WorkersInBoth(before + [WorkerDeployment(p, gen)], after);
  }

  /** One more profile at the end of the list. */
  lemma OneMoreWorker(bs: seq<Builder>, profiles: seq<ProfileSpec>, last: seq<Builder>)
    requires profiles != [] && WorkersIn(bs) == NamesOf(profiles[..|profiles| - 1])
    requires WorkersIn(last) == [profiles[|profiles| - 1].name]
    ensures WorkersIn(bs + last) == NamesOf(profiles)
  {
    hide WorkersIn;
    WorkersInBoth(bs, last);
    assert NamesOf(profiles) == NamesOf(profiles[..|profiles| - 1]) + [profiles[|profiles| - 1].name];
  }

  lemma {:induction false} RedeploysInOrder(profiles: seq<ProfileSpec>, gen: string)
    ensures WorkersIn(RedeployBuilders(profiles, gen)) == NamesOf(profiles)
  {
    if profiles != [] {
      var n := |profiles| - 1;
      RedeploysInOrder(profiles[..n], gen);
      var last := [WorkerDeployment(profiles[n], gen)];
      OneWorker(last, [], profiles[n], gen, []);
      OneMoreWorker(RedeployBuilders(profiles[..n], gen), profiles, last);
    }
  }

  lemma {:induction false} DeploysInOrder(profiles: seq<ProfileSpec>, gen: string)
    ensures WorkersIn(DeployBuilders(profiles, gen)) == NamesOf(profiles)
  {
    if profiles != [] {
      hide WorkersIn, NamesOf, ScalerOf;
      var n := |profiles| - 1;
      var p, bs := profiles[n], DeployBuilders(profiles[..n], gen);
      var last := [WorkerDeployment(p, gen), Service(p), DisruptionBudget(p)] + ScalerOf(p);
      DeploysInOrder(profiles[..n], gen);
      NoWorkerIn(p, gen);
      OneWorker(last, [], p, gen, [Service(p), DisruptionBudget(p)] + ScalerOf(p));
      OneMoreWorker(bs, profiles, last);
      assert bs + [WorkerDeployment(p, gen), Service(p), DisruptionBudget(p)] + ScalerOf(p) == bs + last;
    }
  }

  lemma NoWorkerIn(p: ProfileSpec, gen: string)
    ensures forall b :: b in ScalerOf(p) + CronOf(p, gen) ==> !b.WorkerDeployment?
  {
  }

  lemma {:induction false} ProfilesInOrder(profiles: seq<ProfileSpec>, gen: string)
    ensures WorkersIn(ProfileBuilders(profiles, gen)) == NamesOf(profiles)
  {
    if profiles != [] {
      hide WorkersIn, NamesOf, ScalerOf, CronOf;
      var n := |profiles| - 1;
      var p := profiles[n];
      ProfilesInOrder(profiles[..n], gen);
      NoWorkerIn(p, gen);
      OneWorker(OneProfile(p, gen), [Service(p), DisruptionBudget(p)], p, gen, ScalerOf(p) + CronOf(p, gen));
      OneMoreWorker(ProfileBuilders(profiles[..n], gen), profiles, OneProfile(p, gen));
    }
  }

  lemma DeployedInOrder(profiles: seq<ProfileSpec>, gen: string)
    ensures WorkersIn(DeployedBuilders(profiles, gen)) == NamesOf(profiles)
  {
    ProfilesInOrder(profiles, gen);
    var g := [GatewayConfig, GatewayService, GatewayDeployment];
    NoWorkersIn(g);
    WorkersInBoth(ProfileBuilders(profiles, gen), if profiles == [] then [] else g);
  }

  lemma NamedProfile(profiles: seq<ProfileSpec>, n: string)
    ensures n in NamesOf(profiles) <==> exists p :: p in profiles && p.name == n
  {
    if p :| p in profiles && p.name == n {
      var i :| 0 <= i < |profiles| && profiles[i] == p;
      assert NamesOf(profiles)[i] == n;
    }
  }

  lemma MapBuildersEffects(profiles: seq<ProfileSpec>, gen: string, g: nat)
    ensures ListEffects(MapBuilders(profiles, gen), g) == BuildEffects(NamesOf(profiles), g)
  {
    var bs := MapBuilders(profiles, gen);
    forall b ensures b in bs <==> (b.PersistentVolumeClaim? || b.MapBuilder?) && b.profile in profiles && b.gen == gen {
      InMapBuilders(profiles, gen, b);
    }
    forall n ensures n in NamesOf(profiles) <==> exists p :: p in profiles && p.name == n { NamedProfile(profiles, n); }
    var e := ListEffects(bs, g);
    forall p | p in profiles ensures Key(p.name, g) in e.claims && Key(p.name, g) in e.maps {
      assert PersistentVolumeClaim(p, gen) in bs && MapBuilder(p, gen) in bs;
    }
    assert e.claims == Generation(NamesOf(profiles), g);
    assert e.maps == Generation(NamesOf(profiles), g);
    assert e.mounts == {};
  }

  /** A list that mounts every profile and builds no map. */
  lemma MountBuildersEffects(bs: seq<Builder>, profiles: seq<ProfileSpec>, gen: string, g: nat)
    requires forall b :: b in bs ==> !b.PersistentVolumeClaim? && !b.MapBuilder?
    requires forall b: Builder :: b.WorkerDeployment? ==> (b in bs <==> b.profile in profiles && b.gen == gen)
    ensures ListEffects(bs, g) == MountEffects(NamesOf(profiles), g)
  {
    forall n ensures n in NamesOf(profiles) <==> exists p :: p in profiles && p.name == n { NamedProfile(profiles, n); }
    var e := ListEffects(bs, g);
    forall p | p in profiles ensures p.name in e.mounts {
      assert WorkerDeployment(p, gen) in bs;
    }
    assert e.mounts == set p | p in NamesOf(profiles);
  }

  /** bs has the effects e, under names that parse back to e's generation, for profiles of the spec
      in their order, and no builder of it panics. */
  ghost predicate Does(bs: seq<Builder>, e: Effects, profiles: seq<ProfileSpec>) {
    && ListEffects(bs, e.gen) == e && WorkersIn(bs) <= NamesOf(profiles)
    && forall b :: b in bs ==> OnGeneration(b, e.gen) && BuilderOf(profiles, b) && !Panics(b)
  }

  lemma MapsDo(profiles: seq<ProfileSpec>, g: nat)
    requires forall p :: p in profiles ==> Plain(p.name)
    ensures Does(MapBuilders(profiles, Itoa(g)), BuildEffects(NamesOf(profiles), g), profiles)
  {
    hide Itoa;
    MapBuildersEffects(profiles, Itoa(g), g);
    forall b | b in MapBuilders(profiles, Itoa(g)) { InMapBuilders(profiles, Itoa(g), b); }
    NoWorkersIn(MapBuilders(profiles, Itoa(g)));
  }

  lemma RedeployDoes(profiles: seq<ProfileSpec>, g: nat)
    requires forall p :: p in profiles ==> Plain(p.name)
    ensures Does(RedeployBuilders(profiles, Itoa(g)), MountEffects(NamesOf(profiles), g), profiles)
  {
    hide Itoa, NamesOf, RedeployBuilders;
    forall b { InRedeployBuilders(profiles, Itoa(g), b); }
    RedeploysInOrder(profiles, Itoa(g));
    MountBuildersEffects(RedeployBuilders(profiles, Itoa(g)), profiles, Itoa(g), g);
  }

  lemma DeployDoes(profiles: seq<ProfileSpec>, g: nat)
    requires forall p :: p in profiles ==> Plain(p.name)
    ensures Does(DeployBuilders(profiles, Itoa(g)), MountEffects(NamesOf(profiles), g), profiles)
  {
    hide Itoa, NamesOf, DeployBuilders;
    forall b { InDeployBuilders(profiles, Itoa(g), b); }
    DeploysInOrder(profiles, Itoa(g));
    MountBuildersEffects(DeployBuilders(profiles, Itoa(g)), profiles, Itoa(g), g);
  }

  lemma DeployedDoes(profiles: seq<ProfileSpec>, g: nat)
    requires forall p :: p in profiles ==> Plain(p.name)
    ensures Does(DeployedBuilders(profiles, Itoa(g)), MountEffects(NamesOf(profiles), g), profiles)
  {
    hide Itoa, NamesOf, DeployedBuilders;
    forall b { InDeployedBuilders(profiles, Itoa(g), b); }
    DeployedInOrder(profiles, Itoa(g));
    MountBuildersEffects(DeployedBuilders(profiles, Itoa(g)), profiles, Itoa(g), g);
  }

  lemma NextIsSuccessor(a: nat)
    requires a < MAX_INT
    ensures NextMapGeneration(Itoa(a)) == Itoa(a + 1)
  {
    AtoiItoa(a);
  }

  /** The list of a phase has exactly that phase's effects. */
  lemma PhaseBuildersEffects(ph: Phase, profiles: seq<ProfileSpec>, a: nat, f: nat)
    requires a < MAX_INT && forall p :: p in profiles ==> Plain(p.name)
    ensures Does(PhaseBuilders(ph, profiles, Itoa(a), Itoa(f)), PhaseEffects(ph, NamesOf(profiles), a, f), profiles)
  {
    match ph
    case BuildingMap => MapsDo(profiles, a);
    case UpdatingMap => NextIsSuccessor(a); MapsDo(profiles, a + 1);
    case RedeployingWorkers => RedeployDoes(profiles, f);
    case DeployingWorkers => DeployDoes(profiles, a);
    case WorkersDeployed => DeployedDoes(profiles, a);
    case WorkersRedeployed => DeployedDoes(profiles, a);
    case Empty =>
  }
}
