/**
 The builders of each phase, and the children other than claims, Jobs and worker Deployments:
 Services, disruption budgets, autoscalers, traffic CronJobs and the gateway.
 */
module Children {
  import opened Strings
  import opened FileNames
  import opened Names
  import opened Protocol

  datatype SpeedUpdates = SpeedUpdates(url: string, schedule: string)

  datatype ProfileSpec = ProfileSpec(
    name: string,
    endpoint: string,
    internalEndpoint: Option<string>,
    minReplicas: Option<int>,
    maxReplicas: Option<int>,
    speedUpdates: Option<SpeedUpdates>)

  datatype ClusterSpec = ClusterSpec(url: string, profiles: seq<ProfileSpec>, services: seq<string>)

  function NamesOf(profiles: seq<ProfileSpec>): (names: seq<string>)
    ensures |names| == |profiles| && forall i :: 0 <= i < |names| ==> names[i] == profiles[i].name
  {
    seq(|profiles|, i requires 0 <= i < |profiles| => profiles[i].name)
  }

  /** The profiles with speed updates. */
  function TrafficOf(profiles: seq<ProfileSpec>): set<string> {
    set p | p in profiles && p.speedUpdates.Some? :: p.name
  }

  // ---------- builders ----------

  datatype Builder =
    | PersistentVolumeClaim(profile: ProfileSpec, gen: string)
    | MapBuilder(profile: ProfileSpec, gen: string)
    | WorkerDeployment(profile: ProfileSpec, gen: string)
    | Service(profile: ProfileSpec)
    | DisruptionBudget(profile: ProfileSpec)
    | Autoscaler(profile: ProfileSpec)
    | CronJob(profile: ProfileSpec, gen: string)
    | GatewayConfig
    | GatewayService
    | GatewayDeployment

  function MapBuilders(profiles: seq<ProfileSpec>, gen: string): seq<Builder> {
    if profiles == [] then []
    else
      var n := |profiles| - 1;
      MapBuilders(profiles[..n], gen) + [PersistentVolumeClaim(profiles[n], gen), MapBuilder(profiles[n], gen)]
  }

  function RedeployBuilders(profiles: seq<ProfileSpec>, gen: string): seq<Builder> {
    if profiles == [] then []
    else
      var n := |profiles| - 1;
      RedeployBuilders(profiles[..n], gen) + [WorkerDeployment(profiles[n], gen)]
  }

  function ScalerOf(p: ProfileSpec): seq<Builder> {
    if p.minReplicas.Some? && p.maxReplicas.Some? then [Autoscaler(p)] else []
  }

  function CronOf(p: ProfileSpec, gen: string): seq<Builder> {
    if p.speedUpdates.Some? then [CronJob(p, gen)] else []
  }

  function DeployBuilders(profiles: seq<ProfileSpec>, gen: string): seq<Builder> {
    if profiles == [] then []
    else
      var n := |profiles| - 1;
      var p := profiles[n];
      DeployBuilders(profiles[..n], gen) + [WorkerDeployment(p, gen), Service(p), DisruptionBudget(p)] + ScalerOf(p)
  }

  function OneProfile(p: ProfileSpec, gen: string): seq<Builder> {
    [Service(p), DisruptionBudget(p), WorkerDeployment(p, gen)] + ScalerOf(p) + CronOf(p, gen)
  }

  function ProfileBuilders(profiles: seq<ProfileSpec>, gen: string): seq<Builder> {
    if profiles == [] then []
    else
      var n := |profiles| - 1;
      var p := profiles[n];
      ProfileBuilders(profiles[..n], gen) + OneProfile(p, gen)
  }

  function DeployedBuilders(profiles: seq<ProfileSpec>, gen: string): seq<Builder> {
    ProfileBuilders(profiles, gen) + if profiles == [] then [] else [GatewayConfig, GatewayService, GatewayDeployment]
  }

  /** The autoscaler's builder dereferences the pointer to maxReplicas. */
  predicate Panics(b: Builder) {
    b.Autoscaler? && b.profile.maxReplicas.None?
  }

  // ---------- the objects ----------

  datatype Kind = CronJobs | Deployments | Autoscalers | DisruptionBudgets | Services | ConfigMaps

  datatype Ref = Ref(kind: Kind, name: string)

  datatype Child =
    | ServiceChild
    | BudgetChild(minAvailable: int)
    | ScalerChild(minReplicas: Option<int>, maxReplicas: int)
    | CronChild(updates: SpeedUpdates, file: string, claim: string)
    | ConfigChild(config: string)                // the text of the nginx configuration
    | GatewayServiceChild
    | GatewayChild(hashOf: Option<string>)       // the text whose hash annotates the template

  // ---------- the gateway's configuration ----------

  /** strings.ToUpper, on the letters that Service names are made of. */
  function Upper(s: string): string {
    seq(|s|, i requires 0 <= i < |s| =>
      if 'a' <= s[i] <= 'z' then "ABCDEFGHIJKLMNOPQRSTUVWXYZ"[(s[i] - 'a') as nat] else s[i])
  }

  function EnvVariable(service: string): string {
    var s := Upper(service);
    seq(|s|, i requires 0 <= i < |s| => if s[i] == '-' then '_' else s[i]) + "_SERVICE_HOST"
  }

  function InternalEndpoint(p: ProfileSpec): string {
    match p.internalEndpoint case Some(e) => e case None => p.endpoint
  }

  function Location(owner: string, p: ProfileSpec, service: string): string {
    "\n\t\t\tlocation /" + service + "/v1/" + p.endpoint + " {\n\t\t\t\tproxy_pass http://${"
    + EnvVariable(WorkerName(owner, p.name)) + "}/" + service + "/v1/" + InternalEndpoint(p) + ";\n\t\t\t}"
  }

  function LocationsOf(owner: string, p: ProfileSpec, services: seq<string>): string {
    if services == [] then []
    else LocationsOf(owner, p, services[..|services| - 1]) + Location(owner, p, services[|services| - 1])
  }

  function Locations(owner: string, profiles: seq<ProfileSpec>, services: seq<string>): string {
    if profiles == [] then []
    else
      var n := |profiles| - 1;
      Locations(owner, profiles[..n], services) + LocationsOf(owner, profiles[n], services)
  }

  method GetNginxLocations(owner: string, profiles: seq<ProfileSpec>, services: seq<string>) returns (locations: string)
    ensures locations == Locations(owner, profiles, services)
  {
    hide Location;
    locations := "";
    for i := 0 to |profiles|
      invariant locations == Locations(owner, profiles[..i], services)
    {
      ghost var before := locations;
      for j := 0 to |services|
        invariant locations == before + LocationsOf(owner, profiles[i], services[..j])
      {
        assert services[..j + 1][..j] == services[..j];
        locations := locations + Location(owner, profiles[i], services[j]);
      }
      assert services[..|services|] == services;
      assert profiles[..i + 1][..i] == profiles[..i];
    }
    assert profiles[..|profiles|] == profiles;
  }

  /** generateNginxConf */
  function ConfigOf(owner: string, spec: ClusterSpec): string {
    "\n\tevents {\n\t\tworker_connections 2048;\n\t}\n\thttp {\n"
    + "\t\tlarge_client_header_buffers 4 128k;\n\t\tserver {\n"
    + "\t\t\tlisten 80;\n\t\t\tserver_name _;\n\t\t\t" + Locations(owner, spec.profiles, spec.services)
    + "\n\t\t}\n\t}\n\t"
  }

  /** The host of a Service, as the environment names it: letters in upper case, dashes as underscores. */
  lemma EnvVariableIs(service: string, i: nat)
    ensures |EnvVariable(service)| == |service| + 13 && EnvVariable(service)[|service|..] == "_SERVICE_HOST"
    ensures i < |service| ==>
      var c, v := service[i], EnvVariable(service)[i];
      && (c == '-' ==> v == '_')
      && ('a' <= c <= 'z' ==> 'A' <= v <= 'Z' && (v as int) - ('A' as int) == (c as int) - ('a' as int))
      && (c != '-' && !('a' <= c <= 'z') ==> v == c)
  {
    var letters := "ABCDEFGHIJKLMNOPQRSTUVWXYZ";
    assert forall j :: 0 <= j < 26 ==> letters[j] as int == 'A' as int + j;
  }

  /** A location sends the service's path under the profile's endpoint to the worker of that profile, under
      the internal endpoint, or the same one if there is none. */
  lemma LocationIs(owner: string, p: ProfileSpec, service: string)
    requires WellNamed(p.name)
    ensures var internal := if p.internalEndpoint.Some? then p.internalEndpoint.value else p.endpoint;
      Location(owner, p, service) ==
        "\n\t\t\tlocation /" + service + "/v1/" + p.endpoint + " {\n\t\t\t\tproxy_pass http://${"
        + EnvVariable(owner + "-" + p.name) + "}/" + service + "/v1/" + internal + ";\n\t\t\t}"
  {
    WorkerNameIs(owner, p.name);
    hide EnvVariable, WorkerName;
  }

  /** Locations follow one another in the order of the spec, those of one profile in that of the services. */
  lemma {:induction false} LocationsInOrder(owner: string, ps: seq<ProfileSpec>, qs: seq<ProfileSpec>,
                                            services: seq<string>)
    ensures Locations(owner, ps + qs, services) == Locations(owner, ps, services) + Locations(owner, qs, services)
  {
    hide LocationsOf;
    if qs == [] {
      assert ps + qs == ps;
    } else {
      var n := |qs| - 1;
      LocationsInOrder(owner, ps, qs[..n], services);
      assert (ps + qs)[..|ps + qs| - 1] == ps + qs[..n];
    }
  }

  lemma {:induction false} ServicesInOrder(owner: string, p: ProfileSpec, some: seq<string>, more: seq<string>)
    ensures Locations(owner, [p], some + more) == Locations(owner, [p], some) + Locations(owner, [p], more)
    ensures forall service :: Locations(owner, [p], [service]) == Location(owner, p, service)
  {
    hide Location;
    assert [p][..0] == [];
    forall services ensures Locations(owner, [p], services) == LocationsOf(owner, p, services) {
      assert Locations(owner, [], services) == [];
    }
    OfInOrder(owner, p, some, more);
    forall service ensures LocationsOf(owner, p, [service]) == Location(owner, p, service) {
      assert [service][..0] == [];
    }
  }

  lemma {:induction false} OfInOrder(owner: string, p: ProfileSpec, some: seq<string>, more: seq<string>)
    ensures LocationsOf(owner, p, some + more) == LocationsOf(owner, p, some) + LocationsOf(owner, p, more)
  {
    hide Location;
    if more == [] {
      assert some + more == some;
    } else {
      var n := |more| - 1;
      OfInOrder(owner, p, some, more[..n]);
      assert (some + more)[..|some + more| - 1] == some + more[..n];
    }
  }

  lemma {:induction false} NoLocations(owner: string, profiles: seq<ProfileSpec>)
    ensures Locations(owner, profiles, []) == []
  {
    if profiles != [] { NoLocations(owner, profiles[..|profiles| - 1]); }
  }

  /** Without exposed services every spec has one and the same configuration: a server without locations. */
  lemma UnexposedAreAlike(owner: string, spec: ClusterSpec, other: ClusterSpec)
    requires spec.services == [] && other.services == []
    ensures ConfigOf(owner, spec) == ConfigOf(owner, other) ==
      "\n\tevents {\n\t\tworker_connections 2048;\n\t}\n\thttp {\n"
      + "\t\tlarge_client_header_buffers 4 128k;\n\t\tserver {\n"
      + "\t\t\tlisten 80;\n\t\t\tserver_name _;\n\t\t\t" + "\n\t\t}\n\t}\n\t"
  {
    NoLocations(owner, spec.profiles);
    NoLocations(owner, other.profiles);
  }

  function GatewayName(owner: string): string {
    ChildResourceName(owner, "", "")
  }

  function CronName(owner: string, p: string): string {
    ChildResourceName(owner, p, "speed-updates")
  }

  /** The configuration in the ConfigMap that the pass read when it started. */
  function SeenConfig(owner: string, siblings: map<Ref, Child>): Option<string> {
    var r := Ref(ConfigMaps, GatewayName(owner));
    if r in siblings && siblings[r].ConfigChild? then Some(siblings[r].config) else None
  }

  /** What one builder writes among these children. */
  function Out(owner: string, spec: ClusterSpec, siblings: map<Ref, Child>, b: Builder): map<Ref, Child> {
    match b
    case PersistentVolumeClaim(_, _) => map[]
    case MapBuilder(_, _) => map[]
    case WorkerDeployment(_, _) => map[]
    case Service(p) => map[Ref(Services, WorkerName(owner, p.name)) := ServiceChild]
    case DisruptionBudget(p) =>
      map[Ref(DisruptionBudgets, WorkerName(owner, p.name)) :=
            BudgetChild(match p.minReplicas case Some(n) => n - 1 case None => 1)]
    case Autoscaler(p) =>
      if p.maxReplicas.Some?
      then map[Ref(Autoscalers, WorkerName(owner, p.name)) := ScalerChild(p.minReplicas, p.maxReplicas.value)]
      else map[]
    case CronJob(p, gen) =>
      if p.speedUpdates.Some?
      then map[Ref(CronJobs, CronName(owner, p.name)) :=
                 CronChild(p.speedUpdates.value, OsrmFileName(spec.url), ChildResourceName(owner, p.name, gen))]
      else map[]
    case GatewayConfig => map[Ref(ConfigMaps, GatewayName(owner)) := ConfigChild(ConfigOf(owner, spec))]
    case GatewayService => map[Ref(Services, GatewayName(owner)) := GatewayServiceChild]
    case GatewayDeployment => map[Ref(Deployments, GatewayName(owner)) := GatewayChild(SeenConfig(owner, siblings))]
  }

  function OutAll(owner: string, spec: ClusterSpec, siblings: map<Ref, Child>, bs: seq<Builder>): map<Ref, Child> {
    if bs == [] then map[]
    else OutAll(owner, spec, siblings, bs[..|bs| - 1]) + Out(owner, spec, siblings, bs[|bs| - 1])
  }

  // ---------- garbage collection ----------

  function ExpectedOf(owner: string, p: ProfileSpec): set<string> {
    {WorkerName(owner, p.name)} + if p.speedUpdates.Some? then {CronName(owner, p.name)} else {}
  }

  /** The names that garbage collection expects, of whatever kind. */
  function ExpectedNames(owner: string, profiles: seq<ProfileSpec>): set<string> {
    (set p, n | p in profiles && n in ExpectedOf(owner, p) :: n)
    + if profiles == [] then {} else {GatewayName(owner)}
  }

  /** Garbage collection of these kinds only. */
  function KeptKinds(children: map<Ref, Child>, kinds: set<Kind>, names: set<string>): map<Ref, Child> {
    map r | r in children && (r.kind in kinds ==> r.name in names) :: children[r]
  }

  function KeptChildren(children: map<Ref, Child>, names: set<string>): map<Ref, Child> {
    map r | r in children && r.name in names :: children[r]
  }

  /** What a complete pass leaves of the children. */
  function ChildrenAfter(owner: string, spec: ClusterSpec, children: map<Ref, Child>, bs: seq<Builder>)
    : map<Ref, Child>
  {
    KeptChildren(children + OutAll(owner, spec, children, bs), ExpectedNames(owner, spec.profiles))
  }

  // ---------- exactness ----------

  /** A builder of a phase's list serves a profile of the spec, or the gateway of a non-empty spec. */
  ghost predicate BuilderOf(profiles: seq<ProfileSpec>, b: Builder) {
    match b
    case GatewayConfig => profiles != []
    case GatewayService => profiles != []
    case GatewayDeployment => profiles != []
    case CronJob(p, _) => p in profiles && p.speedUpdates.Some?
    case _ => b.profile in profiles
  }

  lemma {:induction false} OutAllExpected(owner: string, spec: ClusterSpec, sibs: map<Ref, Child>, bs: seq<Builder>)
    requires forall b :: b in bs ==> BuilderOf(spec.profiles, b)
    ensures forall r :: r in OutAll(owner, spec, sibs, bs) ==> r.name in ExpectedNames(owner, spec.profiles)
  {
    hide ConfigOf;
    if bs != [] {
      OutAllExpected(owner, spec, sibs, bs[..|bs| - 1]);
      var b := bs[|bs| - 1];
      assert BuilderOf(spec.profiles, b);
      forall r | r in Out(owner, spec, sibs, b) ensures r.name in ExpectedNames(owner, spec.profiles) {
        if !b.GatewayConfig? && !b.GatewayService? && !b.GatewayDeployment? {
          assert r.name in ExpectedOf(owner, b.profile);
        }
      }
    }
  }

  /** Garbage collection leaves exactly the children with expected names, and among them everything
      that the builders of the same pass wrote, with the value they wrote; once is enough. */
  lemma CollectionIsExact(owner: string, spec: ClusterSpec, children: map<Ref, Child>, bs: seq<Builder>)
    requires forall b :: b in bs ==> BuilderOf(spec.profiles, b)
    ensures var after := ChildrenAfter(owner, spec, children, bs);
      && (forall r :: r in after <==>
            (r in children || r in OutAll(owner, spec, children, bs)) && r.name in ExpectedNames(owner, spec.profiles))
      && (forall r :: r in OutAll(owner, spec, children, bs) ==>
            r in after && after[r] == OutAll(owner, spec, children, bs)[r])
      && KeptChildren(after, ExpectedNames(owner, spec.profiles)) == after
  {
    hide ConfigOf;
    OutAllExpected(owner, spec, children, bs);
  }

  lemma CronNameIs(owner: string, p: string)
    requires WellNamed(p)
    ensures CronName(owner, p) == owner + "-" + (p + "-speed-updates")
  {
    var n := owner + "-" + p;
    assert n[|n| - 1] == p[|p| - 1];
    assert n + "-" + "speed-updates" == n + "-speed-updates";
    var m := n + "-speed-updates";
    assert m[|m| - 1] == 's';
    assert m == owner + "-" + (p + "-speed-updates");
  }

  /** The traffic CronJob of profile p survives exactly if p still has speed updates, or another
      profile happens to bear the CronJob's own name. */
  lemma CronJobSurvives(owner: string, profiles: seq<ProfileSpec>, p: string)
    requires WellNamed(owner) && WellNamed(p) && forall q :: q in profiles ==> WellNamed(q.name)
    ensures CronName(owner, p) in ExpectedNames(owner, profiles) <==>
      exists q :: q in profiles && ((q.name == p && q.speedUpdates.Some?) || q.name == p + "-speed-updates")
  {
    CronNameIs(owner, p);
    GatewayNameIs(owner);
    forall q | q in profiles
      ensures CronName(owner, p) in ExpectedOf(owner, q) <==>
        ((q.name == p && q.speedUpdates.Some?) || q.name == p + "-speed-updates")
    {
      WorkerNameIs(owner, q.name);
      CronNameIs(owner, q.name);
      if CronName(owner, p) == WorkerName(owner, q.name) {
        ConcatInjective(owner + "-", p + "-speed-updates", q.name);
      }
      if CronName(owner, p) == CronName(owner, q.name) {
        ConcatInjective(owner + "-", p + "-speed-updates", q.name + "-speed-updates");
        assert (p + "-speed-updates")[..|p|] == p && (q.name + "-speed-updates")[..|p|] == q.name;
      }
    }
    if q :| q in profiles && ((q.name == p && q.speedUpdates.Some?) || q.name == p + "-speed-updates") {
      assert CronName(owner, p) in ExpectedOf(owner, q);
    }
  }

  lemma WorkerNotCron(owner: string, p: string, q: string)
    requires WellNamed(p) && WellNamed(q)
    ensures WorkerName(owner, p) == CronName(owner, q) <==> p == q + "-speed-updates"
  {
    WorkerNameIs(owner, p);
    CronNameIs(owner, q);
    if WorkerName(owner, p) == CronName(owner, q) { ConcatInjective(owner + "-", p, q + "-speed-updates"); }
  }

  /** Expected names are not told apart by kind: the worker Deployment of a removed profile survives
      exactly if it looks like the CronJob of a profile with speed updates. */
  lemma WorkerSurvives(owner: string, profiles: seq<ProfileSpec>, p: string)
    requires WellNamed(owner) && WellNamed(p) && forall q :: q in profiles ==> WellNamed(q.name)
    ensures WorkerName(owner, p) in ExpectedNames(owner, profiles) <==>
      p in NamesOf(profiles) || LooksLikeCron(TrafficOf(profiles), p)
  {
    WorkerNameIs(owner, p);
    GatewayNameIs(owner);
    forall q | q in profiles
      ensures WorkerName(owner, p) in ExpectedOf(owner, q) <==>
        q.name == p || (q.speedUpdates.Some? && p == q.name + "-speed-updates")
    {
      WorkerNameInjective(owner, p, q.name);
      WorkerNotCron(owner, p, q.name);
    }
    hide WorkerName, CronName, GatewayName, ExpectedOf;
    if p in NamesOf(profiles) {
      var i :| 0 <= i < |profiles| && NamesOf(profiles)[i] == p;
      assert profiles[i] in profiles && WorkerName(owner, p) in ExpectedOf(owner, profiles[i]);
    }
    if LooksLikeCron(TrafficOf(profiles), p) {
      var n :| n in TrafficOf(profiles) && p == n + "-speed-updates";
      var q :| q in profiles && q.speedUpdates.Some? && q.name == n;
      assert WorkerName(owner, p) in ExpectedOf(owner, q);
    }
    if q :| q in profiles && WorkerName(owner, p) in ExpectedOf(owner, q) {
      if q.name == p {
        var i :| 0 <= i < |profiles| && profiles[i] == q;
        assert NamesOf(profiles)[i] == p;
      } else {
        assert q.name in TrafficOf(profiles);
      }
    }
    assert WorkerName(owner, p) != GatewayName(owner) by { NotGateway(owner, p); }
  }

  lemma NotGateway(owner: string, p: string)
    requires WellNamed(p)
    ensures WorkerName(owner, p) != GatewayName(owner)
  {
    WorkerNameIs(owner, p);
    GatewayNameIs(owner);
  }

  // ---------- the gateway catches up ----------

  lemma {:induction false} OutIgnoresSiblings(owner: string, spec: ClusterSpec, c: map<Ref, Child>, d: map<Ref, Child>,
                                              bs: seq<Builder>)
    requires GatewayDeployment !in bs
    ensures OutAll(owner, spec, c, bs) == OutAll(owner, spec, d, bs)
  {
    hide ConfigOf;
    if bs != [] {
      var b := bs[|bs| - 1];
      assert b in bs && b != GatewayDeployment;
      OutIgnoresSiblings(owner, spec, c, d, bs[..|bs| - 1]);
      assert Out(owner, spec, c, b) == Out(owner, spec, d, b);
    }
  }

  lemma {:induction false} NoGatewayAmongProfiles(profiles: seq<ProfileSpec>, gen: string)
    ensures GatewayDeployment !in ProfileBuilders(profiles, gen)
  {
    if profiles != [] { NoGatewayAmongProfiles(profiles[..|profiles| - 1], gen); }
  }

  /** Everything a deployed pass writes but the gateway Deployment. */
  function Fixed(owner: string, spec: ClusterSpec, gen: string): map<Ref, Child> {
    OutAll(owner, spec, map[], ProfileBuilders(spec.profiles, gen))
    + map[Ref(ConfigMaps, GatewayName(owner)) := ConfigChild(ConfigOf(owner, spec))]
    + map[Ref(Services, GatewayName(owner)) := GatewayServiceChild]
  }

  function GatewayRef(owner: string): Ref {
    Ref(Deployments, GatewayName(owner))
  }

  lemma OutOneMore(owner: string, spec: ClusterSpec, c: map<Ref, Child>, bs: seq<Builder>, b: Builder)
    ensures OutAll(owner, spec, c, bs + [b]) == OutAll(owner, spec, c, bs) + Out(owner, spec, c, b)
  {
    hide ConfigOf;
    assert (bs + [b])[..|bs|] == bs;
  }

  lemma OutOfGateway(owner: string, spec: ClusterSpec, c: map<Ref, Child>, bs: seq<Builder>)
    ensures OutAll(owner, spec, c, bs + [GatewayConfig, GatewayService, GatewayDeployment])
         == OutAll(owner, spec, c, bs) + map[Ref(ConfigMaps, GatewayName(owner)) := ConfigChild(ConfigOf(owner, spec))]
            + map[Ref(Services, GatewayName(owner)) := GatewayServiceChild]
            + map[GatewayRef(owner) := GatewayChild(SeenConfig(owner, c))]
  {
    hide ConfigOf;
    var b1, b2 := bs + [GatewayConfig], bs + [GatewayConfig] + [GatewayService];
    OutOneMore(owner, spec, c, bs, GatewayConfig);
    OutOneMore(owner, spec, c, b1, GatewayService);
    OutOneMore(owner, spec, c, b2, GatewayDeployment);
    assert bs + [GatewayConfig, GatewayService, GatewayDeployment] == b2 + [GatewayDeployment];
  }

  lemma DeployedOut(owner: string, spec: ClusterSpec, c: map<Ref, Child>, gen: string)
    requires spec.profiles != []
    ensures OutAll(owner, spec, c, DeployedBuilders(spec.profiles, gen))
         == Fixed(owner, spec, gen) + map[GatewayRef(owner) := GatewayChild(SeenConfig(owner, c))]
  {
    hide ConfigOf;
    var bs := ProfileBuilders(spec.profiles, gen);
    NoGatewayAmongProfiles(spec.profiles, gen);
    OutIgnoresSiblings(owner, spec, c, map[], bs);
    OutOfGateway(owner, spec, c, bs);
  }

  function DeployedPass(owner: string, spec: ClusterSpec, gen: string, c: map<Ref, Child>): map<Ref, Child> {
    ChildrenAfter(owner, spec, c, DeployedBuilders(spec.profiles, gen))
  }

  lemma DeployedPassIs(owner: string, spec: ClusterSpec, gen: string, c: map<Ref, Child>)
    requires spec.profiles != []
    ensures DeployedPass(owner, spec, gen, c) ==
      KeptChildren(c + (Fixed(owner, spec, gen) + map[GatewayRef(owner) := GatewayChild(SeenConfig(owner, c))]),
                   ExpectedNames(owner, spec.profiles))
    ensures SeenConfig(owner, DeployedPass(owner, spec, gen, c)) == Some(ConfigOf(owner, spec))
    ensures GatewayRef(owner) in DeployedPass(owner, spec, gen, c)
    ensures DeployedPass(owner, spec, gen, c)[GatewayRef(owner)] == GatewayChild(SeenConfig(owner, c))
  {
    hide ConfigOf;
    DeployedOut(owner, spec, c, gen);
  }

  /** One pass that writes `fixed` and, at r, a value v. */
  function Settle(c: map<Ref, Child>, fixed: map<Ref, Child>, r: Ref, v: Child, names: set<string>): map<Ref, Child> {
    KeptChildren(c + (fixed + map[r := v]), names)
  }

  lemma SettleTwice(c: map<Ref, Child>, fixed: map<Ref, Child>, r: Ref, v: Child, u: Child, names: set<string>)
    requires r.name in names
    ensures var c1 := Settle(c, fixed, r, v, names);
      var c2 := Settle(c1, fixed, r, u, names);
      && Settle(c2, fixed, r, u, names) == c2
      && (c2 == c1 <==> u == v)
      && r in c2 && c2[r] == u
  {
    var c1 := Settle(c, fixed, r, v, names);
    var c2 := Settle(c1, fixed, r, u, names);
    assert r in c1 && c1[r] == v;
    assert Settle(c2, fixed, r, u, names) == c2;
    if u == v { assert c2 == c1; }
  }

  /** With spec and phase unchanged, the children stop changing after the second deployed pass, and
      after the first exactly if the ConfigMap already held the text of the spec's configuration: the
      hash on the gateway's template lags one pass behind the ConfigMap. */
  lemma GatewayCatchesUp(owner: string, spec: ClusterSpec, gen: string, c: map<Ref, Child>)
    requires spec.profiles != []
    ensures var c1 := DeployedPass(owner, spec, gen, c);
      var c2 := DeployedPass(owner, spec, gen, c1);
      && DeployedPass(owner, spec, gen, c2) == c2
      && (c2 == c1 <==> SeenConfig(owner, c) == Some(ConfigOf(owner, spec)))
      && GatewayRef(owner) in c2 && c2[GatewayRef(owner)] == GatewayChild(Some(ConfigOf(owner, spec)))
  {
    hide ConfigOf;
    var c1 := DeployedPass(owner, spec, gen, c);
    var c2 := DeployedPass(owner, spec, gen, c1);
    DeployedPassIs(owner, spec, gen, c);
    DeployedPassIs(owner, spec, gen, c1);
    DeployedPassIs(owner, spec, gen, c2);
    SettleTwice(c, Fixed(owner, spec, gen), GatewayRef(owner), GatewayChild(SeenConfig(owner, c)),
                GatewayChild(Some(ConfigOf(owner, spec))), ExpectedNames(owner, spec.profiles));
  }
}
