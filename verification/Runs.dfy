/**
 Runs of a controller on named objects: what the theorems about the protocol say of them.
 */
module Runs {
  import opened Strings
  import opened Names
  import opened Protocol
  import opened Safety
  import opened Objects
  import opened Children
  import opened Builders
  import opened Encoding
  import opened MountSafety
  import opened Deletions
  import opened Passes
  import opened Controller

  /** What can happen to the objects of one owner: its spec is edited, Kubernetes reports status, or a
      pass is made, with some of its first reads and a number of requests that will succeed. */
  datatype Op =
    | Respec(spec: ClusterSpec)
    | Observe(news: News)
    | Attempt(read: Reads, requests: nat)

  // ---------- a patient environment, in terms of names ----------

  predicate SameSuffix(d: Deployment, e: Deployment) {
    && d.volumes != [] && d.volumes[0].Some? && e.volumes != [] && e.volumes[0].Some?
    && ResourceNameSuffix(d.volumes[0].value) == ResourceNameSuffix(e.volumes[0].value)
  }

  /** All Deployments mount claims of one generation. */
  predicate Agree(deployments: map<string, Deployment>) {
    forall n, m :: n in deployments && m in deployments ==> SameSuffix(deployments[n], deployments[m])
  }

  /** Every Deployment that garbage collection would keep is the worker of a profile. */
  predicate OnlyWorkersKept(owner: string, names: set<string>, profiles: seq<ProfileSpec>) {
    forall n :: n in names && n in ExpectedNames(owner, profiles) ==>
      exists p :: p in profiles && WorkerName(owner, p.name) == n
  }

  /** No claim stops being bound, and no Job stops being complete. */
  predicate Onwards(pvcs: map<string, Pvc>, jobs: map<string, MapJob>, news: News) {
    && (forall n :: n in pvcs && IsBound(pvcs[n]) && n in news.claims ==> news.claims[n] == Bound)
    && (forall n :: n in jobs && JobComplete(jobs[n]) && n in news.conditions ==> SaysComplete(news.conditions[n]))
  }

  predicate Calm(owner: string, anonymous: bool, s: Store, op: Op) {
    match op
    case Respec(spec) =>
      && Agree(s.deployments) && OnlyWorkersKept(owner, s.deployments.Keys, spec.profiles)
      && (forall p :: p in spec.profiles ==> Plain(p.name)) && Fits(anonymous, NamesOf(spec.profiles), {})
    case Observe(news) => Agree(s.deployments) || Onwards(s.pvcs, s.jobs, news)
    case Attempt(read, _) => read == ALL_READ || Agree(s.deployments)
  }

  // ---------- and in terms of the World ----------

  lemma WorkerSuffix(owner: string, s: Store, w: World, p: string)
    requires Encodes(owner, s, w) && p in w.workers
    ensures var n := WorkerName(owner, p);
      && n in s.deployments && s.deployments[n].volumes != [] && s.deployments[n].volumes[0].Some?
      && s.deployments[n].volumes[0].value == ClaimName(owner, Key(p, w.workers[p].gen))
      && ResourceNameSuffix(s.deployments[n].volumes[0].value) == Itoa(w.workers[p].gen)
  {
    hide ClaimsEncode, JobsEncode, ChildResourceName;
    SuffixOfClaim(owner, Key(p, w.workers[p].gen));
  }

  lemma AgreeIsUniform(owner: string, s: Store, w: World)
    requires Encodes(owner, s, w) && Agree(s.deployments)
    ensures Uniform(w) && SpecUniform(w)
  {
    hide Encodes, WorkerName, ClaimName, ResourceNameSuffix;
    forall p, q | p in w.workers && q in w.workers ensures w.workers[p].gen == w.workers[q].gen {
      WorkerSuffix(owner, s, w, p);
      WorkerSuffix(owner, s, w, q);
      assert SameSuffix(s.deployments[WorkerName(owner, p)], s.deployments[WorkerName(owner, q)]);
      ItoaInjective(w.workers[p].gen, w.workers[q].gen);
    }
  }

  lemma OnwardsIsForward(owner: string, s: Store, w: World, news: News)
    requires Encodes(owner, s, w) && Onwards(s.pvcs, s.jobs, news)
    ensures Forward(w, StatusOf(owner, w, news))
  {
    hide WorkersEncode, ClaimName, KeyOf, SaysComplete;
  }

  lemma KeptIsUnclashed(owner: string, anonymous: bool, s: Store, w: World, spec: ClusterSpec)
    requires WellNamed(owner) && Encodes(owner, s, w) && Fits(anonymous, NamesOf(spec.profiles), w.workers.Keys)
    requires (forall p :: p in spec.profiles ==> Plain(p.name))
        && OnlyWorkersKept(owner, s.deployments.Keys, spec.profiles)
    ensures NoClash(Do(w, Edit(spec.url, NamesOf(spec.profiles), TrafficOf(spec.profiles))))
  {
    hide ClaimsEncode, JobsEncode, WorkerEncodes, WorkerName, ExpectedNames, NamesOf, TrafficOf, LooksLikeCron,
        ProfileOf;
    forall p | p in w.workers && LooksLikeCron(TrafficOf(spec.profiles), p) ensures p in NamesOf(spec.profiles) {
      forall q | q in spec.profiles ensures q.name in NamesOf(spec.profiles) { NamedProfiles(spec.profiles, q); }
      ExpectedWorker(owner, anonymous, spec.profiles, w.workers, p);
      var q :| q in spec.profiles && WorkerName(owner, q.name) == WorkerName(owner, p);
      WorkerNameInjective(owner, p, q.name);
    }
  }

  lemma NamedProfiles(profiles: seq<ProfileSpec>, q: ProfileSpec)
    requires q in profiles
    ensures q.name in NamesOf(profiles)
  {
    var i :| 0 <= i < |profiles| && profiles[i] == q;
    assert NamesOf(profiles)[i] == q.name;
  }

  lemma UniformAgrees(owner: string, s: Store, w: World)
    requires Encodes(owner, s, w) && Uniform(w)
    ensures Agree(s.deployments)
  {
    hide ClaimsEncode, JobsEncode, WorkerEncodes, WorkerName, ClaimName, ResourceNameSuffix, ProfileOf;
    forall n, m | n in s.deployments && m in s.deployments ensures SameSuffix(s.deployments[n], s.deployments[m]) {
      WorkerSuffix(owner, s, w, ProfileOf(owner, n));
      WorkerSuffix(owner, s, w, ProfileOf(owner, m));
    }
  }

  lemma ForwardIsOnwards(owner: string, s: Store, w: World, news: News)
    requires Encodes(owner, s, w) && Forward(w, StatusOf(owner, w, news))
    ensures Onwards(s.pvcs, s.jobs, news)
  {
    hide WorkersEncode, ClaimName, KeyOf, SaysComplete;
    forall n | n in s.pvcs && IsBound(s.pvcs[n]) && n in news.claims ensures news.claims[n] == Bound {
      var k := KeyOf(owner, n);
      assert k in w.pvcs.Keys && ClaimName(owner, k) == n;
    }
    forall n | n in s.jobs && JobComplete(s.jobs[n]) && n in news.conditions ensures SaysComplete(news.conditions[n]) {
      var k := KeyOf(owner, n);
      assert k in w.jobs.Keys && ClaimName(owner, k) == n;
    }
  }

  lemma UnclashedIsKept(owner: string, anonymous: bool, s: Store, w: World, spec: ClusterSpec)
    requires WellNamed(owner) && Encodes(owner, s, w) && Fits(anonymous, NamesOf(spec.profiles), w.workers.Keys)
    requires forall p :: p in spec.profiles ==> Plain(p.name)
    requires NoClash(Do(w, Edit(spec.url, NamesOf(spec.profiles), TrafficOf(spec.profiles))))
    ensures OnlyWorkersKept(owner, s.deployments.Keys, spec.profiles)
  {
    hide ClaimsEncode, JobsEncode, WorkerEncodes, WorkerName, ExpectedNames, NamesOf, TrafficOf, LooksLikeCron,
         ProfileOf;
    forall n | n in s.deployments && n in ExpectedNames(owner, spec.profiles)
      ensures exists p :: p in spec.profiles && WorkerName(owner, p.name) == n
    {
      var p := ProfileOf(owner, n);
      forall q | q in spec.profiles ensures q.name in NamesOf(spec.profiles) { NamedProfiles(spec.profiles, q); }
      ExpectedWorker(owner, anonymous, spec.profiles, w.workers, p);
      NamedProfile(spec.profiles, p);
    }
  }

  /** The moments that are calm enough, in terms of the World: for an edit, all workers on one generation
      and none of a removed profile with the name of a CronJob; for a report, one generation or status that
      does not go back; for a pass, one generation or all reads. */
  lemma CalmExactly(owner: string, anonymous: bool, s: Store, w: World, op: Op)
    requires WellNamed(owner) && Encodes(owner, s, w) && Fits(anonymous, w.profiles, w.workers.Keys)
    ensures var one := forall p, q :: p in w.workers && q in w.workers ==> w.workers[p].gen == w.workers[q].gen;
      Calm(owner, anonymous, s, op) <==>
        match op
        case Respec(spec) =>
          && one && (forall p :: p in spec.profiles ==> Plain(p.name)) && Fits(anonymous, NamesOf(spec.profiles), {})
          && (forall p, q ::
                p in w.workers && q in spec.profiles && q.speedUpdates.Some? && p == q.name + "-speed-updates" ==>
                  p in NamesOf(spec.profiles))
        case Observe(news) => one || Forward(w, StatusOf(owner, w, news))
        case Attempt(read, _) => one || read == ALL_READ
  {
    hide Encodes, Agree, OnlyWorkersKept, Onwards, Forward, NamesOf, WellNamed, BoundAfter, CompleteAfter, WorkerName;
    if Agree(s.deployments) { AgreeIsUniform(owner, s, w); }
    if Uniform(w) { UniformAgrees(owner, s, w); }
    match op {
      case Respec(spec) =>
        if (forall p :: p in spec.profiles ==> Plain(p.name)) && Fits(anonymous, NamesOf(spec.profiles), {}) {
          if OnlyWorkersKept(owner, s.deployments.Keys, spec.profiles) {
            KeptIsUnclashed(owner, anonymous, s, w, spec);
            ClashIs(w, spec);
          } else if NoClash(Do(w, Edit(spec.url, NamesOf(spec.profiles), TrafficOf(spec.profiles)))) {
            UnclashedIsKept(owner, anonymous, s, w, spec);
          } else {
            ClashIs(w, spec);
          }
        }
      case Observe(news) =>
        if Onwards(s.pvcs, s.jobs, news) { OnwardsIsForward(owner, s, w, news); }
        if Forward(w, StatusOf(owner, w, news)) { ForwardIsOnwards(owner, s, w, news); }
      case Attempt(_, _) =>
    }
  }

  lemma ClashIs(w: World, spec: ClusterSpec)
    ensures NoClash(Do(w, Edit(spec.url, NamesOf(spec.profiles), TrafficOf(spec.profiles)))) <==>
      forall p, q :: p in w.workers && q in spec.profiles && q.speedUpdates.Some? && p == q.name + "-speed-updates" ==>
        p in NamesOf(spec.profiles)
  {
    hide NamesOf;
    forall q | q in spec.profiles && q.speedUpdates.Some? ensures q.name in TrafficOf(spec.profiles) { }
  }

  /** Every worker mounts a claim that exists, as named objects. */
  ghost predicate ClaimsThere(s: Store) {
    forall n :: n in s.deployments ==>
      s.deployments[n].volumes != [] && s.deployments[n].volumes[0].Some? && s.deployments[n].volumes[0].value in s.pvcs
  }

  lemma ClaimsAreThere(owner: string, s: Store, w: World)
    requires Encodes(owner, s, w) && ClaimsExist(w)
    ensures ClaimsThere(s)
  {
    hide JobsEncode, ClaimName, WorkerName, KeyOf, ProfileOf;
    forall n | n in s.deployments
      ensures s.deployments[n].volumes != [] && s.deployments[n].volumes[0].Some?
          && s.deployments[n].volumes[0].value in s.pvcs
    {
      var p := ProfileOf(owner, n);
      assert p in w.workers && WorkerName(owner, p) == n;
      assert Key(p, w.workers[p].gen) in w.pvcs;
    }
  }

  // ---------- generations grow by one in an event ----------

  ghost predicate Below(w: World, g: nat) {
    && g >= 1
    && (forall k :: k in w.pvcs ==> k.gen <= g)
    && (forall p :: p in w.workers ==> w.workers[p].gen <= g)
  }

  lemma SeenBelow(w: World, g: nat, r: Reads)
    requires Below(w, g)
    ensures EffectsOf(Seen(w, r)).gen <= g + 1 && forall k :: k in EffectsOf(Seen(w, r)).claims ==> k.gen <= g + 1
  {
    hide DeterminePhase;
    var s := Seen(w, r);
    ActiveIs(s.profiles, s.workers);
    assert Fut(s) <= g;
  }

  lemma AppliedBelow(w: World, g: nat, e: Effects)
    requires Below(w, g) && e.gen <= g && forall k :: k in e.claims ==> k.gen <= g
    ensures Below(Apply(w, e), g)
  {
  }

  lemma EventBelow(w: World, g: nat, ev: Event)
    requires Below(w, g) && Possible(w, ev)
    ensures Below(Happen(w, ev), g + 1)
  {
    hide EffectsOf, DeterminePhase, LooksLikeCron, Act, Fut, Apply;
    match ev {
      case Env(s) =>
      case Stop(r, e) =>
        SeenBelow(w, g, r);
        AppliedBelow(w, g + 1, e);
      case StopCollecting(r, _, _, _) =>
        SeenBelow(w, g, r);
        AppliedBelow(w, g + 1, EffectsOf(Seen(w, r)));
      case Complete(r) =>
        SeenBelow(w, g, r);
        AppliedBelow(w, g + 1, EffectsOf(Seen(w, r)));
    }
  }

  lemma {:induction false} OneMoreEvent(w: World, evs: seq<Event>, ev: Event)
    requires PatientRun(w, evs) && Patient(History(w, evs), ev)
    ensures PatientRun(w, evs + [ev]) && History(w, evs + [ev]) == Happen(History(w, evs), ev)
    decreases |evs|
  {
    hide Patient, Happen;
    if evs == [] {
      assert ([] + [ev])[1..] == [];
    } else {
      OneMoreEvent(Happen(w, evs[0]), evs[1..], ev);
      assert (evs + [ev])[1..] == evs[1..] + [ev];
    }
  }

  // ---------- the run ----------

  /** The objects of an owner at one moment, and the World that they stand for. */
  datatype Moment = Moment(spec: ClusterSpec, gate: Gate, store: Store, children: map<Ref, Child>, w: World)

  ghost function Now(r: Reconciler): Moment
    reads r
  {
    Moment(r.spec, r.gate, Store(r.pvcs, r.jobs, r.deployments), r.children, r.model)
  }

  function Size(m: Moment): nat {
    |m.store.pvcs| + |m.store.jobs| + |m.store.deployments| + |m.children|
  }

  /** What a pass of a running owner is: nothing only without a single request, one event with the
      reads that it was given, and with enough requests the complete pass, unless a builder panics. */
  ghost predicate Passed(anonymous: bool, m: Moment, read: Reads, requests: nat, evs: seq<Event>) {
    var bs := Work(anonymous, m.w, read, m.spec.profiles);
    && (evs == [] ==> requests == 0)
    && (evs != [] ==> |evs| == 1 && !evs[0].Env? && evs[0].read == read)
    && (requests > Need(|bs|, Size(m)) ==>
          if Reached(bs) == |bs| then evs == [Complete(read)] else anonymous && evs != [] && evs[0].Stop?)
  }

  /** The events that an operation becomes: none at a moment that is not calm enough for it. */
  ghost predicate Becomes(owner: string, anonymous: bool, m: Moment, op: Op, evs: seq<Event>) {
    if !Calm(owner, anonymous, m.store, op) then evs == []
    else
      match op
      case Respec(spec) => evs == [Env(Edit(spec.url, NamesOf(spec.profiles), TrafficOf(spec.profiles)))]
      case Observe(news) => evs == [Env(StatusOf(owner, m.w, news))]
      case Attempt(read, requests) => if m.gate == Running then Passed(anonymous, m, read, requests, evs) else evs == []
  }

  function SpecAfter(owner: string, anonymous: bool, m: Moment, op: Op): ClusterSpec {
    if op.Respec? && Calm(owner, anonymous, m.store, op) then op.spec else m.spec
  }

  /** The finalizer comes with the first pass that has a request. */
  function GateAfter(owner: string, anonymous: bool, m: Moment, op: Op): Gate {
    if op.Attempt? && Calm(owner, anonymous, m.store, op) && m.gate == Uninitialized && op.requests > 0 then Running
    else m.gate
  }

  /** One operation takes the owner from m to n, by these events. */
  ghost predicate Turn(owner: string, anonymous: bool, m: Moment, op: Op, evs: seq<Event>, n: Moment) {
    && Becomes(owner, anonymous, m, op, evs)
    && PatientRun(m.w, evs) && n.w == History(m.w, evs)
    && n.spec == SpecAfter(owner, anonymous, m, op) && n.gate == GateAfter(owner, anonymous, m, op)
    && Encodes(owner, n.store, n.w)
  }

  /** What one turn is, case by case.  A pass is given 11 requests, 7 more for each builder and 6 for each
      object before it counts as having enough. */
  lemma TurnExactly(owner: string, anonymous: bool, m: Moment, op: Op, evs: seq<Event>, n: Moment)
    requires Turn(owner, anonymous, m, op, evs, n)
    ensures PatientRun(m.w, evs) && n.w == History(m.w, evs) && Encodes(owner, n.store, n.w)
    ensures !Calm(owner, anonymous, m.store, op) ==> evs == [] && n.spec == m.spec && n.gate == m.gate
    ensures Calm(owner, anonymous, m.store, op) ==>
      match op
      case Respec(spec) =>
        && n.spec == spec && n.gate == m.gate
        && evs == [Env(Edit(spec.url, NamesOf(spec.profiles), TrafficOf(spec.profiles)))]
      case Observe(news) => n.spec == m.spec && n.gate == m.gate && evs == [Env(StatusOf(owner, m.w, news))]
      case Attempt(read, requests) =>
        var bs := Work(anonymous, m.w, read, m.spec.profiles);
        var objects := |m.store.pvcs| + |m.store.jobs| + |m.store.deployments| + |m.children|;
        && n.spec == m.spec
        && (n.gate == if m.gate == Uninitialized && requests > 0 then Running else m.gate)
        && (m.gate != Running ==> evs == [])
        && (m.gate == Running && requests > 0 ==>
              |evs| == 1 && !evs[0].Env? && evs[0].read == read)
        && (m.gate == Running && requests > 11 + 7 * |bs| + 6 * objects && Reached(bs) == |bs| ==>
              evs == [Complete(read)])
  {
    hide Calm, Work, Reached, PatientRun, History, Encodes, StatusOf, NamesOf, TrafficOf;
  }

  /** How a pass of a running owner ends, as events. */
  lemma PassBecomes(anonymous: bool, m: Moment, read: Reads, requests: nat, out: Outcome, x: World)
    returns (evs: seq<Event>)
    requires Ends(m.w, read, out, x) && out != Skipped && (read == ALL_READ || SpecUniform(m.w))
    requires out == Unchanged ==> requests == 0
    requires out == Panicked ==> anonymous
    requires var bs := Work(anonymous, m.w, read, m.spec.profiles);
      requests > Need(|bs|, Size(m)) ==> out == if Reached(bs) == |bs| then Done else Panicked
    ensures Passed(anonymous, m, read, requests, evs)
    ensures PatientRun(m.w, evs) && x == History(m.w, evs) && |evs| <= 1
  {
    hide Ends, Patient, Happen, Work, Reached, SpecUniform, Possible;
    if out == Unchanged {
      evs := [];
      NoEvent(m.w, read, out, x);
    } else {
      var ev := EndIsEvent(m.w, read, out, x);
      PatientPass(m.w, read, ev);
      evs := [ev];
      OneEvent(m.w, ev);
    }
  }

  method Attempted(r: Reconciler, read: Reads, requests: nat) returns (ghost evs: seq<Event>)
    requires r.Valid() && Room(r.model)
    requires Calm(r.owner, r.anonymous, Store(r.pvcs, r.jobs, r.deployments), Attempt(read, requests))
    modifies r
    ensures r.Valid() && |evs| <= 1 && Turn(r.owner, r.anonymous, old(Now(r)), Attempt(read, requests), evs, Now(r))
  {
    hide Encodes, Calm, Patient, Happen, Ends, ChildrenEnd, Room, Fits, Work, Reached, Need, Passed, PatientRun,
        History;
    ghost var m := Now(r);
    CalmPass(r, read, requests);
    NothingHappens(m.w);
    r.requests := requests;
    var out := r.Reconcile(read);
    if out == Skipped {
      evs := [];
      NoEvent(m.w, read, out, r.model);
    } else {
      evs := PassBecomes(r.anonymous, m, read, requests, out, r.model);
    }
  }

  /** One operation, if the moment is calm enough for it. */
  method Step(r: Reconciler, op: Op) returns (ghost evs: seq<Event>)
    requires r.Valid() && Room(r.model)
    modifies r
    ensures r.Valid() && |evs| <= 1 && Turn(r.owner, r.anonymous, old(Now(r)), op, evs, Now(r))
  {
    hide Encodes, Calm, Patient, Happen, Room, Fits, StatusOf, Passed, PatientRun, History;
    ghost var w := r.model;
    NothingHappens(w);
    evs := [];
    if !Calm(r.owner, r.anonymous, Store(r.pvcs, r.jobs, r.deployments), op) { return; }
    match op {
      case Respec(spec) =>
        CalmEdit(r, spec);
        r.Edit(spec);
        evs := [Env(Edit(spec.url, NamesOf(spec.profiles), TrafficOf(spec.profiles)))];
        OneEvent(w, evs[0]);
      case Observe(news) =>
        CalmReport(r, news);
        r.Report(news);
        evs := [Env(StatusOf(r.owner, w, news))];
        OneEvent(w, evs[0]);
      case Attempt(read, requests) => evs := Attempted(r, read, requests);
    }
  }

  lemma NothingHappens(w: World)
    ensures PatientRun(w, []) && History(w, []) == w
  {
  }

  lemma OneEvent(w: World, ev: Event)
    requires Patient(w, ev)
    ensures PatientRun(w, [ev]) && History(w, [ev]) == Happen(w, ev)
    ensures ev.Env? ==> Happen(w, ev) == Do(w, ev.step)
  {
    hide Patient;
    assert [ev][1..] == [];
    assert History(Happen(w, ev), []) == Happen(w, ev);
  }

  lemma NoEvent(w: World, read: Reads, out: Outcome, x: World)
    requires Ends(w, read, out, x) && (out == Skipped || out == Unchanged)
    ensures x == w
  {
  }

  /** A pass that may go ahead is patient, however it ends. */
  lemma PatientPass(w: World, read: Reads, ev: Event)
    requires Possible(w, ev) && !ev.Env? && ev.read == read && (read == ALL_READ || SpecUniform(w))
    ensures Patient(w, ev)
  {
    hide Possible, SpecUniform;
  }

  lemma CalmEdit(r: Reconciler, spec: ClusterSpec)
    requires r.Valid() && Calm(r.owner, r.anonymous, Store(r.pvcs, r.jobs, r.deployments), Respec(spec))
    ensures (forall p :: p in spec.profiles ==> Plain(p.name)) && Fits(r.anonymous, NamesOf(spec.profiles), {})
    ensures Patient(r.model, Env(Edit(spec.url, NamesOf(spec.profiles), TrafficOf(spec.profiles))))
  {
    hide Encodes, OnlyWorkersKept, NoClash, Agree, Uniform, NamesOf, TrafficOf;
    var s := Store(r.pvcs, r.jobs, r.deployments);
    AgreeIsUniform(r.owner, s, r.model);
    KeptIsUnclashed(r.owner, r.anonymous, s, r.model, spec);
  }

  lemma CalmReport(r: Reconciler, news: News)
    requires r.Valid() && Calm(r.owner, r.anonymous, Store(r.pvcs, r.jobs, r.deployments), Observe(news))
    ensures Patient(r.model, Env(StatusOf(r.owner, r.model, news)))
  {
    hide Encodes, Onwards, Agree, Uniform, SpecUniform, Forward;
    var s := Store(r.pvcs, r.jobs, r.deployments);
    if Agree(s.deployments) {
      AgreeIsUniform(r.owner, s, r.model);
    } else {
      OnwardsIsForward(r.owner, s, r.model, news);
    }
  }

  lemma CalmPass(r: Reconciler, read: Reads, requests: nat)
    requires r.Valid() && Calm(r.owner, r.anonymous, Store(r.pvcs, r.jobs, r.deployments), Attempt(read, requests))
    ensures read == ALL_READ || SpecUniform(r.model)
  {
    hide Encodes, Agree, Uniform, SpecUniform;
    if read != ALL_READ { AgreeIsUniform(r.owner, Store(r.pvcs, r.jobs, r.deployments), r.model); }
  }

  function Flat(turns: seq<seq<Event>>): seq<Event> {
    if turns == [] then [] else Flat(turns[..|turns| - 1]) + turns[|turns| - 1]
  }

  /** The operations one by one, each with the moment before it, its events and the moment after it. */
  ghost predicate Traced(owner: string, anonymous: bool, ops: seq<Op>, trace: seq<Moment>, turns: seq<seq<Event>>) {
    && |trace| == |ops| + 1 && |turns| == |ops|
    && forall i :: 0 <= i < |ops| ==> Turn(owner, anonymous, trace[i], ops[i], turns[i], trace[i + 1])
  }

  lemma OneMoreTurn(owner: string, anonymous: bool, ops: seq<Op>, trace: seq<Moment>, turns: seq<seq<Event>>,
                    op: Op, evs: seq<Event>, n: Moment)
    requires Traced(owner, anonymous, ops, trace, turns) && Turn(owner, anonymous, trace[|ops|], op, evs, n)
    ensures Traced(owner, anonymous, ops + [op], trace + [n], turns + [evs])
    ensures Flat(turns + [evs]) == Flat(turns) + evs
  {
    hide Turn;
    assert (turns + [evs])[..|turns|] == turns;
  }

  lemma TraceExactly(owner: string, anonymous: bool, ops: seq<Op>, trace: seq<Moment>, turns: seq<seq<Event>>, i: nat)
    requires Traced(owner, anonymous, ops, trace, turns) && i < |ops|
    ensures |trace| == |ops| + 1 && |turns| == |ops|
    ensures Turn(owner, anonymous, trace[i], ops[i], turns[i], trace[i + 1])
  {
    hide Turn;
  }

  lemma TurnRuns(owner: string, anonymous: bool, m: Moment, op: Op, evs: seq<Event>, n: Moment)
    requires Turn(owner, anonymous, m, op, evs, n)
    ensures PatientRun(m.w, evs) && n.w == History(m.w, evs) && Encodes(owner, n.store, n.w)
  {
  }

  /** Any sequence of edits, reports and passes, each made only when the moment is calm: at every
      moment, as named objects, every worker mounts a claim that exists; and the Worlds behind them go
      through a patient run, so that everything proved of those holds of it. */
  method Drive(r: Reconciler, ops: seq<Op>, ghost g: nat)
    returns (ghost trace: seq<Moment>, ghost turns: seq<seq<Event>>)
    requires r.Valid() && Safe(r.model) && Below(r.model, g) && g + |ops| + 1 < MAX_INT
    modifies r
    ensures r.Valid() && Traced(r.owner, r.anonymous, ops, trace, turns)
    ensures trace[0] == old(Now(r)) && trace[|ops|] == Now(r)
    ensures forall m :: m in trace ==> Safe(m.w) && ClaimsThere(m.store)
    ensures PatientRun(old(r.model), Flat(turns)) && r.model == History(old(r.model), Flat(turns))
  {
    hide Encodes, Safe, Below, Patient, Happen, ClaimsThere, Turn, Traced, Flat, PatientRun, History;
    ghost var w := r.model;
    trace, turns := [Now(r)], [];
    RunStarts(r.owner, r.anonymous, Now(r));
    SafeClaims(r.model);
    ClaimsAreThere(r.owner, Now(r).store, r.model);
    assert ops[..0] == [];
    for i := 0 to |ops|
      invariant r.Valid() && Safe(r.model) && Below(r.model, g + i)
      invariant Traced(r.owner, r.anonymous, ops[..i], trace, turns) && |trace| == i + 1
      invariant trace[0] == old(Now(r)) && trace[i] == Now(r)
      invariant forall m :: m in trace ==> Safe(m.w) && ClaimsThere(m.store)
      invariant PatientRun(w, Flat(turns)) && r.model == History(w, Flat(turns))
    {
      BelowRoom(r.model, g + i);
      ghost var m := Now(r);
      ghost var evs := Step(r, ops[i]);
      OneMoreTurn(r.owner, r.anonymous, ops[..i], trace, turns, ops[i], evs, Now(r));
      TurnRuns(r.owner, r.anonymous, m, ops[i], evs, Now(r));
      PatientRunIsSafe(m.w, evs);
      ClaimsAreThere(r.owner, Now(r).store, r.model);
      Further(m.w, evs, g + i);
      RunFurther(w, Flat(turns), evs);
      trace, turns := trace + [Now(r)], turns + [evs];
      assert ops[..i + 1] == ops[..i] + [ops[i]];
    }
    assert ops[..|ops|] == ops;
  }

  lemma RunStarts(owner: string, anonymous: bool, m: Moment)
    ensures Traced(owner, anonymous, [], [m], []) && Flat([]) == []
    ensures PatientRun(m.w, []) && History(m.w, []) == m.w
  {
  }

  lemma RunFurther(w: World, evs: seq<Event>, d: seq<Event>)
    requires PatientRun(w, evs) && PatientRun(History(w, evs), d) && |d| <= 1
    ensures PatientRun(w, evs + d) && History(w, evs + d) == History(History(w, evs), d)
  {
    hide Patient, Happen;
    var x := History(w, evs);
    if d == [] {
      assert evs + d == evs;
    } else {
      assert d == [d[0]];
      FirstEvent(x, d);
      OneMoreEvent(w, evs, d[0]);
    }
  }

  lemma FirstEvent(x: World, d: seq<Event>)
    requires |d| == 1 && PatientRun(x, d)
    ensures Patient(x, d[0]) && History(x, d) == Happen(x, d[0])
  {
    hide Patient, Happen;
    assert d[1..] == [];
  }

  lemma BelowRoom(w: World, g: nat)
    requires Below(w, g) && g + 1 < MAX_INT
    ensures Room(w)
  {
  }

  lemma Further(x: World, d: seq<Event>, g: nat)
    requires |d| <= 1 && PatientRun(x, d) && Below(x, g)
    ensures Below(History(x, d), g + 1)
  {
    hide Happen;
    if d != [] {
      FirstEvent(x, d);
      EventBelow(x, g, d[0]);
    }
  }

  /** From the creation of a cluster or an instance. */
  method FromCreation(owner: string, anonymous: bool, spec: ClusterSpec, ops: seq<Op>)
    returns (r: Reconciler, ghost trace: seq<Moment>, ghost turns: seq<seq<Event>>)
    requires WellNamed(owner) && (forall p :: p in spec.profiles ==> Plain(p.name))
    requires Fits(anonymous, NamesOf(spec.profiles), {}) && |ops| + 2 < MAX_INT
    ensures fresh(r) && r.Valid() && Traced(owner, anonymous, ops, trace, turns) && trace[|ops|] == Now(r)
    ensures trace[0].spec == spec && trace[0].gate == Uninitialized && trace[0].children == map[]
    ensures trace[0].w == Init(spec.url, NamesOf(spec.profiles), TrafficOf(spec.profiles))
    ensures forall m :: m in trace ==> ClaimsThere(m.store)
  {
    hide Encodes, Fits, ClaimsThere, Traced;
    r := new Reconciler(owner, anonymous, spec);
    trace, turns := Drive(r, ops, 1);
  }
}
