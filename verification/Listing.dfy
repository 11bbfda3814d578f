/**
 What the controllers list, and the names that garbage collection expects.
 */
module Listing {
  import opened Strings
  import opened Names
  import opened Protocol
  import opened Safety
  import opened Objects
  import opened Children
  import opened Encoding

  // ---------- lists ----------

  method Enumerate<T(==)>(s: set<T>) returns (items: seq<T>)
    ensures (forall x :: x in items <==> x in s) && |items| == |s|
  {
    var rest := s;
    items := [];
    while rest != {}
      invariant rest <= s && |items| + |rest| == |s|
      invariant forall x :: x in items <==> x in s - rest
      decreases |rest|
    {
      var x :| x in rest;
      items := items + [x];
      rest := rest - {x};
    }
  }

  /** List: every object once, in any order. */
  method Items<V>(objects: map<string, V>) returns (items: seq<V>)
    ensures ListOf(items, objects) && |items| == |objects|
  {
    var names := Enumerate(objects.Keys);
    items := [];
    for i := 0 to |names|
      invariant |items| == i
      invariant forall x :: x in items ==> exists n :: n in objects && objects[n] == x
      invariant forall j :: 0 <= j < i ==> objects[names[j]] in items
    {
      assert names[i] in names;
      items := items + [objects[names[i]]];
    }
    forall n | n in objects ensures objects[n] in items {
      var j :| 0 <= j < |names| && names[j] == n;
    }
  }

  method GetProfilesDeployments(owner: string, profiles: seq<string>, deployments: map<string, Deployment>)
    returns (found: seq<Deployment>)
    ensures found == DeploymentsFor(owner, profiles, deployments)
  {
    hide WorkerName;
    found := [];
    for i := 0 to |profiles|
      invariant found + DeploymentsFor(owner, profiles[i..], deployments)
          == DeploymentsFor(owner, profiles, deployments)
    {
      var name := WorkerName(owner, profiles[i]);
      assert profiles[i..][1..] == profiles[i + 1..];
      ghost var rest := DeploymentsFor(owner, profiles[i + 1..], deployments);
      if name in deployments {
        assert found + ([deployments[name]] + rest) == (found + [deployments[name]]) + rest;
        found := found + [deployments[name]];
      } else {
        assert [] + rest == rest;
      }
    }
  }

  /** The names that garbage collection expects of children without a generation. */
  method ExpectedResources(owner: string, profiles: seq<ProfileSpec>) returns (expected: set<string>)
    ensures expected == ExpectedNames(owner, profiles)
  {
    hide WorkerName, CronName, GatewayName;
    expected := {};
    for i := 0 to |profiles|
      invariant expected == set p, n | p in profiles[..i] && n in ExpectedOf(owner, p) :: n
    {
      var p := profiles[i];
      ghost var before := expected;
      expected := expected + {WorkerName(owner, p.name)};
      if p.speedUpdates.Some? { expected := expected + {CronName(owner, p.name)}; }
      assert expected == before + ExpectedOf(owner, p);
      assert profiles[..i + 1] == profiles[..i] + [p];
    }
    assert profiles[..|profiles|] == profiles;
    if |profiles| > 0 {
      expected := expected + {GatewayName(owner)};
    }
  }

  /** An instance's Deployment, Service, autoscaler and disruption budget share one name. */
  method ExpectedResourcesOfInstance(owner: string, profiles: seq<ProfileSpec>) returns (expected: set<string>)
    requires |profiles| == 1 && profiles[0].name == ""
    ensures expected == ExpectedNames(owner, profiles)
  {
    hide ChildResourceName, CronName;
    expected := {WorkerName(owner, "")};
    if profiles[0].speedUpdates.Some? { expected := expected + {CronName(owner, "")}; }
    assert expected == ExpectedOf(owner, profiles[0]);
    assert profiles == [profiles[0]];
    assert GatewayName(owner) == WorkerName(owner, "");
  }

  /** The generations whose claims and Jobs garbage collection expects of each profile. */
  function KeptSuffixes(ph: Phase, active: string, future: string): set<string> {
    {active} + if active != future && KeepsFuture(ph) then {future} else {}
  }

  function ExpectedClaims(owner: string, profiles: seq<string>, ph: Phase, active: string,
                          future: string): set<string>
  {
    set p, g | p in profiles && g in KeptSuffixes(ph, active, future) :: ChildResourceName(owner, p, g)
  }

  method ExpectedGenerations(owner: string, profiles: seq<string>, ph: Phase, active: string, future: string)
    returns (expected: set<string>)
    ensures expected == ExpectedClaims(owner, profiles, ph, active, future)
  {
    hide ChildResourceName;
    expected := {};
    for i := 0 to |profiles|
      invariant expected == ExpectedClaims(owner, profiles[..i], ph, active, future)
    {
      var p := profiles[i];
      ghost var before := expected;
      expected := expected + {ChildResourceName(owner, p, active)};
      if active != future {
        if ph == UpdatingMap || ph == RedeployingWorkers || ph == DeployingWorkers {
          expected := expected + {ChildResourceName(owner, p, future)};
        }
      }
      assert expected == before + set g | g in KeptSuffixes(ph, active, future) :: ChildResourceName(owner, p, g);
      assert profiles[..i + 1] == profiles[..i] + [p];
    }
    assert profiles[..|profiles|] == profiles;
  }

  method ExpectedGenerationsOfInstance(owner: string, ph: Phase, active: string, future: string)
    returns (expected: set<string>)
    ensures expected == ExpectedClaims(owner, [""], ph, active, future)
  {
    hide ChildResourceName;
    expected := {ChildResourceName(owner, "", active)};
    if active != future {
      if ph == UpdatingMap || ph == RedeployingWorkers || ph == DeployingWorkers {
        expected := expected + {ChildResourceName(owner, "", future)};
      }
    }
    assert expected == set g | g in KeptSuffixes(ph, active, future) :: ChildResourceName(owner, "", g);
  }

  lemma ExpectedClaim(owner: string, profiles: seq<string>, ph: Phase, a: nat, f: nat, k: Key)
    requires Plain(k.profile) && forall p :: p in profiles ==> Plain(p)
    ensures ClaimName(owner, k) in ExpectedClaims(owner, profiles, ph, Itoa(a), Itoa(f)) <==>
      IsExpected(profiles, ph, a, f, k)
  {
    hide ChildResourceName;
    ItoaInjective(a, f);
    var names := ExpectedClaims(owner, profiles, ph, Itoa(a), Itoa(f));
    if ClaimName(owner, k) in names {
      var p, g :| p in profiles && g in KeptSuffixes(ph, Itoa(a), Itoa(f))
          && ChildResourceName(owner, p, g) == ClaimName(owner, k);
      var m := Key(p, if g == Itoa(a) then a else f);
      assert ClaimName(owner, m) == ClaimName(owner, k);
      ClaimNameInjective(owner, m, k);
    }
    if IsExpected(profiles, ph, a, f, k) {
      assert Itoa(k.gen) in KeptSuffixes(ph, Itoa(a), Itoa(f));
    }
  }

  method ProfileNames(profiles: seq<ProfileSpec>) returns (names: seq<string>)
    ensures names == NamesOf(profiles)
  {
    names := [];
    for i := 0 to |profiles|
      invariant names == NamesOf(profiles[..i])
    {
      names := names + [profiles[i].name];
    }
    assert profiles[..|profiles|] == profiles;
  }

  lemma ActInRange(w: World)
    requires InRange(w)
    ensures Act(w) < MAX_INT
  {
    ActiveIs(w.profiles, w.workers);
  }

  method ReadFuture(owner: string, ghost s: Store, ghost w: World, pvcs: seq<Pvc>) returns (future: string)
    requires Encodes(owner, s, w) && InRange(w) && ListOf(pvcs, s.pvcs)
    ensures future == Itoa(Fut(w))
  {
    hide ClaimsEncode, WorkersEncode, JobsEncode, ListOf, IsHighest, Parsed;
    ParsesAll(owner, s.pvcs, w.pvcs, pvcs);
    var f := ComputeFutureMapGeneration(pvcs);
    ghost var n: nat :| IsHighest(pvcs, n) && f == Ok(Itoa(n));
    HighestIsNewest(owner, s.pvcs, w.pvcs, pvcs, n);
    future := f.value;
  }

  /** On objects that stand for a World, reading the served generation neither fails nor panics. */
  lemma ClusterReads(owner: string, s: Store, w: World, ds: seq<Deployment>)
    requires Encodes(owner, s, w) && InRange(w) && ds == DeploymentsFor(owner, w.profiles, s.deployments)
    ensures ActiveGeneration(ds) == Ok(Itoa(Act(w)))
  {
    hide ClaimsEncode, WorkersEncode, JobsEncode, ActiveGeneration;
    SuffixIsActive(owner, w.profiles, s.deployments, w.workers);
  }
}
