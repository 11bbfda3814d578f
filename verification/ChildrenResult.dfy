/**
 What a pass leaves of the children other than claims, Jobs and workers, by kind and name.
 */
module ChildrenResult {
  import opened Strings
  import opened FileNames
  import opened Names
  import opened Protocol
  import opened Children
  import opened Builders
  import opened Deletions
  import opened Instance
  import opened Passes

  // ---------- what lists of builders write ----------

  lemma {:induction false} OutAllIs(owner: string, spec: ClusterSpec, sibs: map<Ref, Child>, bs: seq<Builder>, r: Ref)
    ensures r in OutAll(owner, spec, sibs, bs) <==> exists b :: b in bs && r in Out(owner, spec, sibs, b)
    ensures r in OutAll(owner, spec, sibs, bs) ==> exists b ::
      b in bs && r in Out(owner, spec, sibs, b) && OutAll(owner, spec, sibs, bs)[r] == Out(owner, spec, sibs, b)[r]
  {
    hide Out;
    if bs != [] {
      var before, last := bs[..|bs| - 1], bs[|bs| - 1];
      OutAllIs(owner, spec, sibs, before, r);
      assert bs == before + [last];
      if r in Out(owner, spec, sibs, last) { assert last in bs; }
    }
  }

  /** The name of a profile's children. */
  function Of(owner: string, p: ProfileSpec): string {
    if p.name == "" then owner else owner + "-" + p.name
  }

  predicate Named(spec: ClusterSpec) {
    forall p :: p in spec.profiles ==> Plain(p.name)
  }

  lemma TrafficNameIs(owner: string, p: string)
    requires Plain(p)
    ensures CronName(owner, p) == (if p == "" then owner else owner + "-" + p) + "-speed-updates"
  {
    WithoutDash(owner, p);
    WithoutDash(if p == "" then owner else owner + "-" + p, "speed-updates");
  }

  /** What one builder writes. */
  lemma OutIs(owner: string, spec: ClusterSpec, sibs: map<Ref, Child>, b: Builder, r: Ref)
    requires b.GatewayConfig? || b.GatewayService? || b.GatewayDeployment? || Plain(b.profile.name)
    ensures var out := Out(owner, spec, sibs, b);
      r in out <==>
        match b
        case PersistentVolumeClaim(_, _) => false
        case MapBuilder(_, _) => false
        case WorkerDeployment(_, _) => false
        case Service(p) => r == Ref(Services, Of(owner, p))
        case DisruptionBudget(p) => r == Ref(DisruptionBudgets, Of(owner, p))
        case Autoscaler(p) => r == Ref(Autoscalers, Of(owner, p)) && p.maxReplicas.Some?
        case CronJob(p, _) => r == Ref(CronJobs, Of(owner, p) + "-speed-updates") && p.speedUpdates.Some?
        case GatewayConfig => r == Ref(ConfigMaps, owner)
        case GatewayService => r == Ref(Services, owner)
        case GatewayDeployment => r == Ref(Deployments, owner)
  {
    GatewayNameIs(owner);
    if !b.GatewayConfig? && !b.GatewayService? && !b.GatewayDeployment? {
      WorkerNameIs(owner, b.profile.name);
      TrafficNameIs(owner, b.profile.name);
    }
    hide ConfigOf, WorkerName, CronName, ChildResourceName, OsrmFileName;
  }

  // ---------- what a phase makes ----------

  /** A pass in phase ph, with generation gen active and this text in the ConfigMap when it begins, writes
      child v at r. */
  ghost predicate Makes(owner: string, anonymous: bool, spec: ClusterSpec, ph: Phase, gen: string, text: Option<string>,
                        r: Ref, v: Child)
  {
    var up := ph == WorkersDeployed || ph == WorkersRedeployed;
    var on := up || ph == DeployingWorkers;
    var gateway := up && !anonymous && spec.profiles != [] && r.name == owner;
    match r.kind
    case Services =>
      || (on && v == ServiceChild && exists p :: p in spec.profiles && r.name == Of(owner, p))
      || (gateway && v == GatewayServiceChild)
    case DisruptionBudgets =>
      on && exists p ::
        p in spec.profiles && r.name == Of(owner, p) &&
        v == BudgetChild(if p.minReplicas.Some? then p.minReplicas.value - 1 else 1)
    case Autoscalers =>
      on && exists p ::
        p in spec.profiles && r.name == Of(owner, p) && (anonymous || p.minReplicas.Some?) &&
        p.maxReplicas.Some? && v == ScalerChild(p.minReplicas, p.maxReplicas.value)
    case CronJobs =>
      up && exists p ::
        p in spec.profiles && r.name == Of(owner, p) + "-speed-updates" && p.speedUpdates.Some? &&
        v == CronChild(p.speedUpdates.value, OsrmFileName(spec.url), ChildResourceName(owner, p.name, gen))
    case ConfigMaps => gateway && v == ConfigChild(ConfigOf(owner, spec))
    case Deployments => gateway && v == GatewayChild(text)
  }

  /** The text of the ConfigMap, if there is one. */
  function TextIn(owner: string, c: map<Ref, Child>): Option<string> {
    var r := Ref(ConfigMaps, owner);
    if r in c && c[r].ConfigChild? then Some(c[r].config) else None
  }

  lemma OutMakes(owner: string, anonymous: bool, spec: ClusterSpec, c0: map<Ref, Child>, ph: Phase, active: string,
                 future: string, b: Builder, r: Ref)
    requires Named(spec) && (anonymous ==> |spec.profiles| == 1)
    requires b in BuildersOf(anonymous, ph, spec.profiles, active, future) && r in Out(owner, spec, c0, b)
    ensures Makes(owner, anonymous, spec, ph, active, TextIn(owner, c0), r, Out(owner, spec, c0, b)[r])
  {
    hide PhaseBuilders, InstanceBuilders, ConfigOf, OsrmFileName, ChildResourceName, WorkerName, CronName, Plain;
    if anonymous {
      InstanceListExactly(ph, spec.profiles[0], active, future, b);
      assert spec.profiles[0] in spec.profiles;
    } else {
      PhaseListExactly(ph, spec.profiles, active, future, b);
    }
    OutIs(owner, spec, c0, b, r);
    GatewayNameIs(owner);
  }

  /** The builder behind a child that the phase makes. */
  lemma MakesOut(owner: string, anonymous: bool, spec: ClusterSpec, c0: map<Ref, Child>, ph: Phase, active: string,
                 future: string, r: Ref, v: Child) returns (b: Builder)
    requires Named(spec) && (anonymous ==> |spec.profiles| == 1)
    requires Makes(owner, anonymous, spec, ph, active, TextIn(owner, c0), r, v)
    ensures b in BuildersOf(anonymous, ph, spec.profiles, active, future) && r in Out(owner, spec, c0, b)
  {
    hide PhaseBuilders, InstanceBuilders, Out, ConfigOf, OsrmFileName, ChildResourceName, Plain, Of, TextIn;
    match r.kind {
      case Services =>
        if v == ServiceChild {
          var p :| p in spec.profiles && r.name == Of(owner, p);
          b := Service(p);
        } else {
          b := GatewayService;
        }
      case DisruptionBudgets =>
        var p :| p in spec.profiles && r.name == Of(owner, p);
        b := DisruptionBudget(p);
      case Autoscalers =>
        var p :| p in spec.profiles && r.name == Of(owner, p) && (anonymous || p.minReplicas.Some?) &&
          p.maxReplicas.Some?;
        b := Autoscaler(p);
      case CronJobs =>
        var p :| p in spec.profiles && r.name == Of(owner, p) + "-speed-updates" && p.speedUpdates.Some?;
        b := CronJob(p, active);
      case ConfigMaps => b := GatewayConfig;
      case Deployments => b := GatewayDeployment;
    }
    OutIs(owner, spec, c0, b, r);
    if anonymous {
      InstanceListExactly(ph, spec.profiles[0], active, future, b);
    } else {
      PhaseListExactly(ph, spec.profiles, active, future, b);
    }
  }

  lemma MadeExactly(owner: string, anonymous: bool, spec: ClusterSpec, c0: map<Ref, Child>, ph: Phase, active: string,
                    future: string, r: Ref)
    requires Named(spec) && (anonymous ==> |spec.profiles| == 1)
    ensures var out := OutAll(owner, spec, c0, BuildersOf(anonymous, ph, spec.profiles, active, future));
      && (r in out <==> exists v :: Makes(owner, anonymous, spec, ph, active, TextIn(owner, c0), r, v))
      && (r in out ==> Makes(owner, anonymous, spec, ph, active, TextIn(owner, c0), r, out[r]))
  {
    hide Named, BuildersOf, Makes, Out, TextIn;
    var bs := BuildersOf(anonymous, ph, spec.profiles, active, future);
    OutAllIs(owner, spec, c0, bs, r);
    if r in OutAll(owner, spec, c0, bs) {
      var b :| b in bs && r in Out(owner, spec, c0, b) && OutAll(owner, spec, c0, bs)[r] == Out(owner, spec, c0, b)[r];
      OutMakes(owner, anonymous, spec, c0, ph, active, future, b, r);
    }
    if v :| Makes(owner, anonymous, spec, ph, active, TextIn(owner, c0), r, v) {
      var b := MakesOut(owner, anonymous, spec, c0, ph, active, future, r, v);
    }
  }

  // ---------- what garbage collection expects ----------

  /** The owner's own name, as long as there are profiles; each profile's; and that of its CronJob, as long
      as it has speed updates. */
  ghost predicate IsExpectedName(owner: string, spec: ClusterSpec, n: string) {
    || (spec.profiles != [] && n == owner)
    || (exists p :: p in spec.profiles && n == Of(owner, p))
    || (exists p :: p in spec.profiles && p.speedUpdates.Some? && n == Of(owner, p) + "-speed-updates")
  }

  lemma ExpectedExactly(owner: string, spec: ClusterSpec, n: string)
    requires Named(spec)
    ensures n in ExpectedNames(owner, spec.profiles) <==> IsExpectedName(owner, spec, n)
  {
    GatewayNameIs(owner);
    forall p | p in spec.profiles
      ensures WorkerName(owner, p.name) == Of(owner, p) && CronName(owner, p.name) == Of(owner, p) + "-speed-updates"
      ensures n in ExpectedOf(owner, p) <==>
        n == Of(owner, p) || (p.speedUpdates.Some? && n == Of(owner, p) + "-speed-updates")
    {
      WorkerNameIs(owner, p.name);
      TrafficNameIs(owner, p.name);
    }
    hide WorkerName, CronName, ChildResourceName, ExpectedOf, Of;
  }

  // ---------- after a completed pass ----------

  /** Every child that is there after a completed pass has been made by it, or was there and has an expected
      name; and nothing else is.  What the pass makes takes the place of what was there. */
  lemma DoneExactly(owner: string, anonymous: bool, spec: ClusterSpec, w: World, read: Reads, c0: map<Ref, Child>,
                    c: map<Ref, Child>, r: Ref)
    requires ChildrenEnd(owner, anonymous, spec, c0, Work(anonymous, w, read, spec.profiles), Done, c)
    requires Named(spec) && (anonymous ==> |spec.profiles| == 1)
    ensures var ph, gen := DeterminePhase(Seen(w, read)), Itoa(Act(Seen(w, read)));
      var made := exists v :: Makes(owner, anonymous, spec, ph, gen, TextIn(owner, c0), r, v);
      var kept := r in c0 && (IsExpectedName(owner, spec, r.name) || (anonymous && r.kind == ConfigMaps));
      && (r in c <==> made || kept)
      && (r in c ==> if made then Makes(owner, anonymous, spec, ph, gen, TextIn(owner, c0), r, c[r]) else c[r] == c0[r])
  {
    hide Named, BuildersOf, Makes, Out, OutAll, TextIn, Of, ExpectedNames, DeterminePhase, Act, Fut, Itoa, Seen,
         ChildrenEnd, KindsOf, IsExpectedName;
    var s := Seen(w, read);
    MadeExactly(owner, anonymous, spec, c0, DeterminePhase(s), Itoa(Act(s)), Itoa(Fut(s)), r);
    KeptExactly(owner, anonymous, spec, c0, Work(anonymous, w, read, spec.profiles), c, r);
    ExpectedExactly(owner, spec, r.name);
    KindsExactly(anonymous, r.kind);
    var out := OutAll(owner, spec, c0, Work(anonymous, w, read, spec.profiles));
    assert Work(anonymous, w, read, spec.profiles)
        == BuildersOf(anonymous, DeterminePhase(s), spec.profiles, Itoa(Act(s)), Itoa(Fut(s)));
    if v :| Makes(owner, anonymous, spec, DeterminePhase(s), Itoa(Act(s)), TextIn(owner, c0), r, v) {
      MadeIsExpected(owner, anonymous, spec, DeterminePhase(s), Itoa(Act(s)), TextIn(owner, c0), r, v);
    }
    var expected := IsExpectedName(owner, spec, r.name) || (anonymous && r.kind == ConfigMaps);
    assert r in c <==> r in out || (r in c0 && expected);
  }

  lemma KeptExactly(owner: string, anonymous: bool, spec: ClusterSpec, c0: map<Ref, Child>, bs: seq<Builder>,
                    c: map<Ref, Child>, r: Ref)
    requires ChildrenEnd(owner, anonymous, spec, c0, bs, Done, c)
    ensures var out := OutAll(owner, spec, c0, bs);
      var spared := r.name in ExpectedNames(owner, spec.profiles) || r.kind !in KindsOf(anonymous);
      && (r in c <==> (r in out || r in c0) && spared)
      && (r in c ==> c[r] == if r in out then out[r] else c0[r])
  {
    hide OutAll, ExpectedNames;
  }

  lemma KindsExactly(anonymous: bool, kind: Kind)
    ensures kind in KindsOf(anonymous) <==> !anonymous || kind != ConfigMaps
  {
  }

  lemma MadeIsExpected(owner: string, anonymous: bool, spec: ClusterSpec, ph: Phase, gen: string, text: Option<string>,
                       r: Ref, v: Child)
    requires Makes(owner, anonymous, spec, ph, gen, text, r, v)
    ensures IsExpectedName(owner, spec, r.name)
  {
    hide Of, ChildResourceName, OsrmFileName, ConfigOf;
  }

  // ---------- for a cluster, spelled out ----------

  lemma Made(owner: string, spec: ClusterSpec, w: World, read: Reads, c0: map<Ref, Child>, c: map<Ref, Child>, r: Ref,
             v: Child)
    requires ChildrenEnd(owner, false, spec, c0, Work(false, w, read, spec.profiles), Done, c) && Named(spec)
    requires Makes(owner, false, spec, DeterminePhase(Seen(w, read)), Itoa(Act(Seen(w, read))), TextIn(owner, c0), r, v)
    ensures r in c
  {
    hide ChildrenEnd, Work, Named, Makes, DeterminePhase, Seen, Itoa, TextIn, Act;
    DoneExactly(owner, false, spec, w, read, c0, c, r);
  }

  /** While workers are deployed for the first time and ever after: each profile's Service and budget, and
      its autoscaler if both of its bounds are set. */
  lemma ServedProfile(owner: string, spec: ClusterSpec, w: World, read: Reads, c0: map<Ref, Child>, c: map<Ref, Child>,
                      p: ProfileSpec)
    requires ChildrenEnd(owner, false, spec, c0, Work(false, w, read, spec.profiles), Done, c) && Named(spec)
    requires DeterminePhase(Seen(w, read)) in {DeployingWorkers, WorkersDeployed, WorkersRedeployed}
    requires p in spec.profiles && p.name != ""
    ensures Ref(Services, owner + "-" + p.name) in c && Ref(DisruptionBudgets, owner + "-" + p.name) in c
    ensures p.minReplicas.Some? && p.maxReplicas.Some? ==> Ref(Autoscalers, owner + "-" + p.name) in c
    ensures DeterminePhase(Seen(w, read)) != DeployingWorkers && p.speedUpdates.Some? ==>
      Ref(CronJobs, owner + "-" + p.name + "-speed-updates") in c
  {
    hide ChildrenEnd, Work, Named, DeterminePhase, Seen, Itoa, TextIn, Act;
    var name := owner + "-" + p.name;
    Made(owner, spec, w, read, c0, c, Ref(Services, name), ServiceChild);
    Made(owner, spec, w, read, c0, c, Ref(DisruptionBudgets, name),
         BudgetChild(if p.minReplicas.Some? then p.minReplicas.value - 1 else 1));
    if p.minReplicas.Some? && p.maxReplicas.Some? {
      Made(owner, spec, w, read, c0, c, Ref(Autoscalers, name), ScalerChild(p.minReplicas, p.maxReplicas.value));
    }
    if DeterminePhase(Seen(w, read)) != DeployingWorkers && p.speedUpdates.Some? {
      Made(owner, spec, w, read, c0, c, Ref(CronJobs, name + "-speed-updates"),
           CronChild(p.speedUpdates.value, OsrmFileName(spec.url),
                     ChildResourceName(owner, p.name, Itoa(Act(Seen(w, read))))));
    }
  }

  /** A deployed cluster with profiles has its gateway: the configuration of the spec, the Service, and the
      Deployment with the hash of the text that the pass found. */
  lemma DeployedGateway(owner: string, spec: ClusterSpec, w: World, read: Reads, c0: map<Ref, Child>,
                        c: map<Ref, Child>)
    requires ChildrenEnd(owner, false, spec, c0, Work(false, w, read, spec.profiles), Done, c) && Named(spec)
    requires DeterminePhase(Seen(w, read)) in {WorkersDeployed, WorkersRedeployed} && spec.profiles != []
    ensures Ref(ConfigMaps, owner) in c && c[Ref(ConfigMaps, owner)] == ConfigChild(ConfigOf(owner, spec))
    ensures Ref(Deployments, owner) in c && c[Ref(Deployments, owner)] == GatewayChild(TextIn(owner, c0))
    ensures Ref(Services, owner) in c
  {
    hide ChildrenEnd, Work, Named, DeterminePhase, Seen, Itoa, TextIn, Act, ConfigOf;
    Made(owner, spec, w, read, c0, c, Ref(ConfigMaps, owner), ConfigChild(ConfigOf(owner, spec)));
    Made(owner, spec, w, read, c0, c, Ref(Deployments, owner), GatewayChild(TextIn(owner, c0)));
    Made(owner, spec, w, read, c0, c, Ref(Services, owner), GatewayServiceChild);
    DoneExactly(owner, false, spec, w, read, c0, c, Ref(ConfigMaps, owner));
    DoneExactly(owner, false, spec, w, read, c0, c, Ref(Deployments, owner));
  }

  /** Nothing is left of a cluster without profiles, the gateway included. */
  lemma NothingLeft(owner: string, spec: ClusterSpec, w: World, read: Reads, c0: map<Ref, Child>, c: map<Ref, Child>)
    requires ChildrenEnd(owner, false, spec, c0, Work(false, w, read, spec.profiles), Done, c)
    requires spec.profiles == []
    ensures c == map[]
  {
    hide ChildrenEnd, Work, DeterminePhase, Seen, Itoa, TextIn, Act;
    forall r ensures r !in c { DoneExactly(owner, false, spec, w, read, c0, c, r); }
  }

  /** In phases without them nothing new of a kind appears: an autoscaler or a CronJob that the pass has not
      found is one that the spec asks for. */
  lemma NothingUnasked(owner: string, spec: ClusterSpec, w: World, read: Reads, c0: map<Ref, Child>, c: map<Ref, Child>,
                       r: Ref)
    requires ChildrenEnd(owner, false, spec, c0, Work(false, w, read, spec.profiles), Done, c) && Named(spec)
    requires r in c && r !in c0
    ensures DeterminePhase(Seen(w, read)) in {DeployingWorkers, WorkersDeployed, WorkersRedeployed}
    ensures r.kind == Autoscalers ==>
      exists p :: p in spec.profiles && p.minReplicas.Some? && p.maxReplicas.Some? && r.name == Of(owner, p)
    ensures r.kind == CronJobs ==>
      exists p :: p in spec.profiles && p.speedUpdates.Some? && r.name == Of(owner, p) + "-speed-updates"
    ensures r.kind == ConfigMaps || r.kind == Deployments ==> spec.profiles != [] && r.name == owner
  {
    hide ChildrenEnd, Work, Named, DeterminePhase, Seen, Itoa, TextIn, Act, ConfigOf, OsrmFileName, ChildResourceName,
         Of;
    DoneExactly(owner, false, spec, w, read, c0, c, r);
  }

  /** An autoscaler whose bounds have been taken out of the spec is never deleted: it has the name of the
      profile's worker, which stays expected. */
  lemma AutoscalerStays(owner: string, spec: ClusterSpec, w: World, read: Reads, c0: map<Ref, Child>,
                        c: map<Ref, Child>, p: ProfileSpec)
    requires ChildrenEnd(owner, false, spec, c0, Work(false, w, read, spec.profiles), Done, c) && Named(spec)
    requires p in spec.profiles && p.name != "" && Ref(Autoscalers, owner + "-" + p.name) in c0
    requires forall q :: q in spec.profiles && q.name == p.name ==> q.minReplicas.None? || q.maxReplicas.None?
    ensures Ref(Autoscalers, owner + "-" + p.name) in c
    ensures c[Ref(Autoscalers, owner + "-" + p.name)] == c0[Ref(Autoscalers, owner + "-" + p.name)]
  {
    hide ChildrenEnd, Work, Named, DeterminePhase, Seen, Itoa, TextIn, Act;
    var r := Ref(Autoscalers, owner + "-" + p.name);
    DoneExactly(owner, false, spec, w, read, c0, c, r);
    forall q | q in spec.profiles && Of(owner, q) == r.name ensures q.name == p.name { SameProfile(owner, q, p); }
  }

  lemma SameProfile(owner: string, q: ProfileSpec, p: ProfileSpec)
    requires p.name != "" && Of(owner, q) == owner + "-" + p.name
    ensures q.name == p.name
  {
    assert |owner + "-" + p.name| > |owner|;
    if q.name != "" { ConcatInjective(owner + "-", q.name, p.name); }
  }

  // ---------- when the pass stops ----------

  /** A pass that stops in its builders deletes no child; what it has changed, the phase makes. */
  lemma StoppedChildren(owner: string, anonymous: bool, spec: ClusterSpec, w: World, read: Reads, c0: map<Ref, Child>,
                        out: Outcome, c: map<Ref, Child>, r: Ref)
    requires ChildrenEnd(owner, anonymous, spec, c0, Work(anonymous, w, read, spec.profiles), out, c)
    requires (out == Stopped || out == Panicked) && Named(spec) && (anonymous ==> |spec.profiles| == 1)
    ensures r in c0 ==> r in c
    ensures var ph, gen := DeterminePhase(Seen(w, read)), Itoa(Act(Seen(w, read)));
      r in c ==> (r in c0 && c[r] == c0[r]) || Makes(owner, anonymous, spec, ph, gen, TextIn(owner, c0), r, c[r])
  {
    hide Named, BuildersOf, Makes, Out, OutAll, TextIn, DeterminePhase, Act, Fut, Itoa, Seen, Reached;
    var s := Seen(w, read);
    var bs := Work(anonymous, w, read, spec.profiles);
    var n: nat :| n <= |bs| && c == c0 + OutAll(owner, spec, c0, bs[..n]);
    OutAllIs(owner, spec, c0, bs[..n], r);
    if r in OutAll(owner, spec, c0, bs[..n]) {
      var b :| b in bs[..n] && r in Out(owner, spec, c0, b)
        && OutAll(owner, spec, c0, bs[..n])[r] == Out(owner, spec, c0, b)[r];
      assert b in bs;
      OutMakes(owner, anonymous, spec, c0, DeterminePhase(s), Itoa(Act(s)), Itoa(Fut(s)), b, r);
    }
  }

  /** One that stops in garbage collection deletes none that is expected, and has made all that the phase
      makes. */
  lemma CollectingChildren(owner: string, anonymous: bool, spec: ClusterSpec, w: World, read: Reads,
                           c0: map<Ref, Child>, c: map<Ref, Child>, r: Ref)
    requires ChildrenEnd(owner, anonymous, spec, c0, Work(anonymous, w, read, spec.profiles), Collecting, c)
    requires Named(spec) && (anonymous ==> |spec.profiles| == 1)
    ensures var ph, gen := DeterminePhase(Seen(w, read)), Itoa(Act(Seen(w, read)));
      var made := exists v :: Makes(owner, anonymous, spec, ph, gen, TextIn(owner, c0), r, v);
      && (made || (r in c0 && IsExpectedName(owner, spec, r.name)) ==> r in c)
      && (r in c && made ==> Makes(owner, anonymous, spec, ph, gen, TextIn(owner, c0), r, c[r]))
      && (r in c && !made ==> r in c0 && c[r] == c0[r])
  {
    hide Named, BuildersOf, Makes, Out, OutAll, TextIn, Of, ExpectedNames, DeterminePhase, Act, Fut, Itoa, Seen,
         IsExpectedName;
    var s := Seen(w, read);
    assert Work(anonymous, w, read, spec.profiles)
        == BuildersOf(anonymous, DeterminePhase(s), spec.profiles, Itoa(Act(s)), Itoa(Fut(s)));
    MadeExactly(owner, anonymous, spec, c0, DeterminePhase(s), Itoa(Act(s)), Itoa(Fut(s)), r);
    ExpectedExactly(owner, spec, r.name);
    if v :| Makes(owner, anonymous, spec, DeterminePhase(s), Itoa(Act(s)), TextIn(owner, c0), r, v) {
      MadeIsExpected(owner, anonymous, spec, DeterminePhase(s), Itoa(Act(s)), TextIn(owner, c0), r, v);
    }
  }
}
