/**
 The status conditions of a cluster or an instance, and when they last changed.
 */
module Conditions {
  import opened Strings

  datatype Truth = True | False | Unknown

  datatype Condition = Condition(kind: string, status: Truth, since: int, reason: string)

  /** A child resource: a Deployment with its own conditions and replica counts, or anything else. */
  datatype Resource =
    | Deployment(conditions: seq<(string, string)>, wanted: Option<int>, ready: int)
    | Other

  const AVAILABLE := "Available"
  const ALL_READY := "AllReplicasReady"
  const SUCCESS := "ReconciliationSuccess"

  // ---------- one condition ----------

  /** The first Deployment among the resources says that it is available. */
  ghost predicate IsAvailable(resources: seq<Resource>) {
    exists i :: 0 <= i < |resources| && resources[i].Deployment? && (AVAILABLE, "True") in resources[i].conditions &&
      forall j :: 0 <= j < i ==> resources[j].Other?
  }

  /** Some Deployment has as many ready replicas as it wants; one is enough. */
  ghost predicate IsReady(resources: seq<Resource>) {
    exists i :: 0 <= i < |resources| && resources[i].Deployment? && resources[i].wanted.Some? &&
      resources[i].ready >= resources[i].wanted.value
  }

  /** A status keeps its time as long as it stays the same. */
  function Since(was: Option<Condition>, status: Truth, now: int): int {
    match was
    case Some(c) => if c.status == status then c.since else now
    case None => now
  }

  ghost function Available(resources: seq<Resource>, was: Option<Condition>, now: int): Condition {
    var status := if IsAvailable(resources) then True else False;
    Condition(AVAILABLE, status, Since(was, status, now),
              if status == True then "Available" else "DeploymentUnavailable")
  }

  ghost function AllReady(resources: seq<Resource>, was: Option<Condition>, now: int): Condition {
    var status := if IsReady(resources) then True else False;
    Condition(ALL_READY, status, Since(was, status, now),
              if status == True then "AllReplicasReady" else "NotAllReplicasReady")
  }

  method AvailableCondition(resources: seq<Resource>, was: Option<Condition>, now: int) returns (condition: Condition)
    ensures condition == Available(resources, was, now)
  {
    condition := Condition(AVAILABLE, False, 0, "DeploymentUnavailable");
    if was.Some? { condition := condition.(since := was.value.since); }
    ghost var since := condition.since;
    for i := 0 to |resources|
      invariant forall j :: 0 <= j < i ==> resources[j].Other?
      invariant condition == Condition(AVAILABLE, False, since, "DeploymentUnavailable")
    {
      if resources[i].Deployment? {
        var conditions := resources[i].conditions;
        for j := 0 to |conditions|
          invariant condition ==
            if (AVAILABLE, "True") in conditions[..j] then Condition(AVAILABLE, True, since, "Available")
                                 else Condition(AVAILABLE, False, since, "DeploymentUnavailable")
        {
          if conditions[j].0 == AVAILABLE && conditions[j].1 == "True" {
            condition := condition.(status := True, reason := "Available");
            assert conditions[j] == (AVAILABLE, "True");
          }
        }
        assert conditions[..|conditions|] == conditions;
        break;
      }
    }
    assert condition.status == True <==> IsAvailable(resources);
    if was.None? || was.value.status != condition.status { condition := condition.(since := now); }
  }

  method AllReplicasReadyCondition(resources: seq<Resource>, was: Option<Condition>, now: int)
    returns (condition: Condition)
    ensures condition == AllReady(resources, was, now)
  {
    condition := Condition(ALL_READY, False, 0, "NotAllReplicasReady");
    if was.Some? { condition := condition.(since := was.value.since); }
    var allReplicasReady := false;
    for i := 0 to |resources|
      invariant !allReplicasReady && !IsReady(resources[..i])
    {
      var r := resources[i];
      if r.Deployment? && r.wanted.Some? && r.ready >= r.wanted.value {
        allReplicasReady := true;
        break;
      }
      assert resources[..i + 1] == resources[..i] + [r];
    }
    assert resources[..|resources|] == resources;
    if allReplicasReady { condition := condition.(status := True, reason := "AllReplicasReady"); }
    if was.None? || was.value.status != condition.status { condition := condition.(since := now); }
  }

  // ---------- the list ----------

  function LastOf(conditions: seq<Condition>, kind: string): Option<Condition> {
    if conditions == [] then None
    else
      var n := |conditions| - 1;
      if conditions[n].kind == kind then Some(conditions[n]) else LastOf(conditions[..n], kind)
  }

  ghost function Refreshed(conditions: seq<Condition>, resources: seq<Resource>, now: int): seq<Condition> {
    [Available(resources, LastOf(conditions, AVAILABLE), now),
     AllReady(resources, LastOf(conditions, ALL_READY), now),
     match LastOf(conditions, SUCCESS) case Some(c) => c case None => Condition(SUCCESS, Unknown, now, "Initialising")]
  }

  function Changed(was: Condition, c: Condition, now: int): Condition {
    Condition(was.kind, c.status, Since(Some(was), c.status, now), c.reason)
  }

  /** The first condition of c's kind takes over its status and reason. */
  function Replaced(conditions: seq<Condition>, c: Condition, now: int): seq<Condition> {
    if conditions == [] then []
    else if conditions[0].kind == c.kind then [Changed(conditions[0], c, now)] + conditions[1..]
    else [conditions[0]] + Replaced(conditions[1..], c, now)
  }

  class Status {
    var conditions: seq<Condition>

    constructor ()
      ensures conditions == []
    {
      conditions := [];
    }

    method SetConditions(resources: seq<Resource>, now: int)
      modifies this
      ensures conditions == Refreshed(old(conditions), resources, now)
    {
      var oldAvailable, oldAllReady, oldSuccess := None, None, None;
      for i := 0 to |conditions|
        invariant conditions == old(conditions)
        invariant oldAvailable == LastOf(conditions[..i], AVAILABLE)
        invariant oldAllReady == LastOf(conditions[..i], ALL_READY)
        invariant oldSuccess == LastOf(conditions[..i], SUCCESS)
      {
        var condition := conditions[i];
        assert conditions[..i + 1][..i] == conditions[..i];
        if condition.kind == ALL_READY {
          oldAllReady := Some(condition);
        } else if condition.kind == AVAILABLE {
          oldAvailable := Some(condition);
        } else if condition.kind == SUCCESS {
          oldSuccess := Some(condition);
        }
      }
      assert conditions[..|conditions|] == conditions;
      var success := Condition(SUCCESS, Unknown, now, "Initialising");
      if oldSuccess.Some? { success := oldSuccess.value; }
      var available := AvailableCondition(resources, oldAvailable, now);
      var allReady := AllReplicasReadyCondition(resources, oldAllReady, now);
      conditions := [available, allReady, success];
    }

    method SetCondition(c: Condition, now: int)
      modifies this
      ensures conditions == Replaced(old(conditions), c, now)
    {
      hide Replaced;
      for i := 0 to |conditions|
        invariant conditions == old(conditions) && forall j :: 0 <= j < i ==> conditions[j].kind != c.kind
      {
        if conditions[i].kind == c.kind {
          ReplacedFirst(conditions, c, now, i);
          if conditions[i].status != c.status { conditions := conditions[i := conditions[i].(since := now)]; }
          conditions := conditions[i := conditions[i].(status := c.status, reason := c.reason)];
          return;
        }
      }
      ReplacedNone(conditions, c, now);
    }
  }

  lemma {:induction false} ReplacedFirst(conditions: seq<Condition>, c: Condition, now: int, i: nat)
    requires i < |conditions| && conditions[i].kind == c.kind && forall j :: 0 <= j < i ==> conditions[j].kind != c.kind
    ensures Replaced(conditions, c, now) == conditions[i := Changed(conditions[i], c, now)]
  {
    if i > 0 { ReplacedFirst(conditions[1..], c, now, i - 1); }
  }

  lemma {:induction false} ReplacedNone(conditions: seq<Condition>, c: Condition, now: int)
    requires forall j :: 0 <= j < |conditions| ==> conditions[j].kind != c.kind
    ensures Replaced(conditions, c, now) == conditions
  {
    if conditions != [] { ReplacedNone(conditions[1..], c, now); }
  }

  /** Of several conditions of one kind the last one counts. */
  lemma {:induction false} LastOfIs(conditions: seq<Condition>, kind: string)
    ensures match LastOf(conditions, kind)
      case None => forall c :: c in conditions ==> c.kind != kind
      case Some(c) =>
        && c.kind == kind
        && exists i ::
             && 0 <= i < |conditions| && conditions[i] == c
             && forall j :: i < j < |conditions| ==> conditions[j].kind != kind
  {
    if conditions != [] {
      var n := |conditions| - 1;
      assert conditions == conditions[..n] + [conditions[n]];
      if conditions[n].kind != kind {
        LastOfIs(conditions[..n], kind);
        if LastOf(conditions[..n], kind).Some? {
          var i :| 0 <= i < n && conditions[..n][i] == LastOf(conditions, kind).value &&
            forall j :: i < j < n ==> conditions[..n][j].kind != kind;
          forall j | i < j < |conditions| ensures conditions[j].kind != kind {
            if j < n { assert conditions[..n][j] == conditions[j]; }
          }
          assert conditions[i] == LastOf(conditions, kind).value;
        }
      }
    }
  }

  // ---------- histories ----------

  datatype Call =
    | Refresh(resources: seq<Resource>, now: int)   // SetConditions
    | Set(condition: Condition, now: int)           // SetCondition

  ghost function After(conditions: seq<Condition>, call: Call): seq<Condition> {
    match call
    case Refresh(resources, now) => Refreshed(conditions, resources, now)
    case Set(c, now) => Replaced(conditions, c, now)
  }

  /** A new object has no conditions. */
  ghost function History(calls: seq<Call>): seq<Condition> {
    if calls == [] then [] else After(History(calls[..|calls| - 1]), calls[|calls| - 1])
  }

  /** The three kinds of condition, once each, in their order. */
  predicate Complete(conditions: seq<Condition>) {
    && |conditions| == 3
    && conditions[0].kind == AVAILABLE && conditions[1].kind == ALL_READY && conditions[2].kind == SUCCESS
  }

  lemma ThreeKinds(c: seq<Condition>)
    requires Complete(c)
    ensures LastOf(c, AVAILABLE) == Some(c[0]) && LastOf(c, ALL_READY) == Some(c[1]) && LastOf(c, SUCCESS) == Some(c[2])
  {
    var two := c[..2];
    assert two[..1] == c[..1] && c[..1][..0] == [];
    assert AVAILABLE[0] == 'A' && ALL_READY[1] == 'l' && SUCCESS[0] == 'R';
    assert LastOf(c[..1], AVAILABLE) == Some(c[0]);
    assert LastOf(two, AVAILABLE) == LastOf(two[..1], AVAILABLE);
    assert LastOf(two, ALL_READY) == Some(c[1]);
  }

  /** One call on a complete list: still complete, and a time moves exactly with its status. */
  lemma CallKeepsTimes(c: seq<Condition>, call: Call)
    requires Complete(c)
    ensures Complete(After(c, call))
    ensures forall k :: 0 <= k < 3 ==>
      var x := After(c, call)[k]; x.since == if x.status == c[k].status then c[k].since else call.now
  {
    ThreeKinds(c);
    if call.Set? {
      var d, now := call.condition, call.now;
      assert c[1..][1..] == c[2..] && c[2..][1..] == [];
      assert Replaced(c, d, now) == if c[0].kind == d.kind then [Changed(c[0], d, now)] + c[1..]
                                    else [c[0]] + Replaced(c[1..], d, now);
      assert Replaced(c[1..], d, now) == if c[1].kind == d.kind then [Changed(c[1], d, now)] + c[2..]
                                         else [c[1]] + Replaced(c[2..], d, now);
      assert Replaced(c[2..], d, now) == if c[2].kind == d.kind then [Changed(c[2], d, now)] else [c[2]];
    }
  }

  lemma {:induction false} HistoryIsComplete(calls: seq<Call>)
    requires calls != [] && calls[0].Refresh?
    ensures Complete(History(calls))
  {
    var n := |calls| - 1;
    if n > 0 {
      HistoryIsComplete(calls[..n]);
      CallKeepsTimes(History(calls[..n]), calls[n]);
    }
  }

  /** The status of condition k has not changed since call n, which set it. */
  ghost predicate SetBy(calls: seq<Call>, k: nat, n: nat)
    requires calls != [] && calls[0].Refresh? && k < 3 && n < |calls|
  {
    && Complete(History(calls)) && (forall m :: 0 < m <= |calls| ==> Complete(History(calls[..m])))
    && History(calls)[k].since == calls[n].now
    && (forall m :: n < m <= |calls| ==> History(calls[..m])[k].status == History(calls)[k].status)
    && (n > 0 ==> History(calls[..n])[k].status != History(calls)[k].status)
  }

  lemma FreshTimes(resources: seq<Resource>, now: int)
    ensures Complete(Refreshed([], resources, now)) && forall c :: c in Refreshed([], resources, now) ==> c.since == now
  {
    hide IsAvailable, IsReady;
  }

  lemma FirstCall(calls: seq<Call>, k: nat)
    requires |calls| == 1 && calls[0].Refresh? && k < 3
    ensures Complete(History(calls)) && History(calls)[k].since == calls[0].now
  {
    hide Refreshed;
    assert calls[..0] == [];
    assert History(calls) == Refreshed([], calls[0].resources, calls[0].now);
    FreshTimes(calls[0].resources, calls[0].now);
    assert History(calls)[k] in History(calls);
  }

  /** After any calls from the first SetConditions on, the list is complete and the time of each
      condition is the time of the call that last changed its status. */
  lemma {:induction false} TimesAreTransitions(calls: seq<Call>, k: nat) returns (n: nat)
    requires calls != [] && calls[0].Refresh? && k < 3
    ensures n < |calls| && SetBy(calls, k, n)
  {
    hide After;
    forall m | 0 < m <= |calls| ensures Complete(History(calls[..m])) { HistoryIsComplete(calls[..m]); }
    assert calls[..|calls|] == calls;
    var last := |calls| - 1;
    if last == 0 {
      n := 0;
      FirstCall(calls, k);
    } else {
      var before := calls[..last];
      CallKeepsTimes(History(before), calls[last]);
      assert History(calls) == After(History(before), calls[last]);
      if History(calls)[k].status == History(before)[k].status {
        n := TimesAreTransitions(before, k);
        forall m | 0 < m <= last ensures before[..m] == calls[..m] { }
      } else {
        n := last;
      }
    }
  }

  // ---------- what the conditions say ----------

  /** The three kinds by name; `Complete` lists them in this order. */
  lemma KindsOfComplete(c: seq<Condition>)
    requires Complete(c)
    ensures |c| == 3 && c[0].kind == "Available" && c[1].kind == "AllReplicasReady"
    ensures c[2].kind == "ReconciliationSuccess"
  {
  }

  /** SetCondition: the condition of that kind says what it is told, and the others stay as they are. */
  lemma SetSays(before: seq<Condition>, c: Condition, now: int, k: nat)
    requires Complete(before) && k < 3
    ensures var after := After(before, Set(c, now));
      && |after| == 3
      && (before[k].kind == c.kind ==>
            after[k].kind == c.kind && after[k].status == c.status && after[k].reason == c.reason)
      && (before[k].kind != c.kind ==> after[k] == before[k])
  {
    KindsOfComplete(before);
    assert "Available"[1] == 'v' && "AllReplicasReady"[1] == 'l' && "ReconciliationSuccess"[1] == 'e';
    if j: nat :| j < 3 && before[j].kind == c.kind {
      ReplacedFirst(before, c, now, j);
    } else {
      ReplacedNone(before, c, now);
    }
  }

  /** SetConditions: two conditions say what the resources say, the third is kept. */
  lemma RefreshSays(before: seq<Condition>, resources: seq<Resource>, now: int)
    ensures var after := After(before, Refresh(resources, now));
      && |after| == 3 && after[0].kind == "Available" && after[1].kind == "AllReplicasReady"
      && (if exists i :: 0 <= i < |resources| && resources[i].Deployment? &&
              ("Available", "True") in resources[i].conditions && forall j :: 0 <= j < i ==> resources[j].Other?
          then after[0].status == True && after[0].reason == "Available"
          else after[0].status == False && after[0].reason == "DeploymentUnavailable")
      && (if exists i :: 0 <= i < |resources| && resources[i].Deployment? && resources[i].wanted.Some? &&
              resources[i].ready >= resources[i].wanted.value
          then after[1].status == True && after[1].reason == "AllReplicasReady"
          else after[1].status == False && after[1].reason == "NotAllReplicasReady")
      && (before == [] ==> after[2] == Condition("ReconciliationSuccess", Unknown, now, "Initialising"))
      && (Complete(before) ==> after[2] == before[2])
  {
    if Complete(before) { ThreeKinds(before); }
  }

  /** The calls that decide on the condition of index k: those that set its kind, and for the first two
      those that look at the resources. */
  predicate Decides(call: Call, k: nat) {
    match call
    case Refresh(_, _) => k != 2
    case Set(c, _) =>
      c.kind == if k == 0 then "Available" else if k == 1 then "AllReplicasReady" else "ReconciliationSuccess"
  }

  lemma Undecided(before: seq<Condition>, call: Call, k: nat)
    requires Complete(before) && k < 3 && !Decides(call, k)
    ensures |After(before, call)| == 3 && After(before, call)[k] == before[k]
  {
    match call {
      case Refresh(resources, now) => RefreshSays(before, resources, now);
      case Set(c, now) =>
        KindsOfComplete(before);
        SetSays(before, c, now, k);
    }
  }

  /** Over any history: each condition is what the last call that decides on it has left. */
  lemma {:induction false} LastCallDecides(calls: seq<Call>, k: nat, n: nat)
    requires calls != [] && calls[0].Refresh? && k < 3 && n < |calls|
    requires forall m :: n < m < |calls| ==> !Decides(calls[m], k)
    ensures Complete(History(calls)) && Complete(History(calls[..n + 1]))
    ensures History(calls)[k] == History(calls[..n + 1])[k]
    decreases |calls|
  {
    hide After, Decides, Complete;
    HistoryIsComplete(calls);
    HistoryIsComplete(calls[..n + 1]);
    var last := |calls| - 1;
    if n == last {
      assert calls[..n + 1] == calls;
    } else {
      var before := calls[..last];
      assert before[..n + 1] == calls[..n + 1];
      HistoryIsComplete(before);
      LastCallDecides(before, k, n);
      Undecided(History(before), calls[last], k);
    }
  }

  lemma HistoryAt(calls: seq<Call>, n: nat)
    requires n < |calls|
    ensures History(calls[..n + 1]) == After(History(calls[..n]), calls[n])
  {
    assert calls[..n + 1][..n] == calls[..n];
  }

  /** Reconciliation has succeeded or failed as the last call of SetCondition on it said. */
  lemma SuccessIsSet(calls: seq<Call>, n: nat)
    requires calls != [] && calls[0].Refresh? && n < |calls|
    requires calls[n].Set? && calls[n].condition.kind == "ReconciliationSuccess"
    requires forall m :: n < m < |calls| && calls[m].Set? ==> calls[m].condition.kind != "ReconciliationSuccess"
    ensures |History(calls)| == 3 && History(calls)[2].kind == "ReconciliationSuccess"
    ensures History(calls)[2].status == calls[n].condition.status
    ensures History(calls)[2].reason == calls[n].condition.reason
  {
    hide After, History, Complete;
    LastCallDecides(calls, 2, n);
    HistoryAt(calls, n);
    assert calls[..n][0] == calls[0];
    HistoryIsComplete(calls[..n]);
    KindsOfComplete(History(calls[..n]));
    KindsOfComplete(History(calls));
    SetSays(History(calls[..n]), calls[n].condition, calls[n].now, 2);
  }

  /** It is unknown as long as there was none. */
  lemma SuccessIsUnknown(calls: seq<Call>)
    requires calls != [] && calls[0].Refresh?
    requires forall m :: 0 <= m < |calls| && calls[m].Set? ==> calls[m].condition.kind != "ReconciliationSuccess"
    ensures |History(calls)| == 3
    ensures History(calls)[2] == Condition("ReconciliationSuccess", Unknown, calls[0].now, "Initialising")
  {
    LastCallDecides(calls, 2, 0);
    hide After, Complete;
    HistoryAt(calls, 0);
    assert calls[..0] == [];
    KindsOfComplete(History(calls));
    RefreshSays([], calls[0].resources, calls[0].now);
  }

  /** Unless it has been set by name since, a condition says what the resources said when they were last
      looked at. */
  lemma ResourcesAreSeen(calls: seq<Call>, n: nat)
    requires calls != [] && calls[0].Refresh? && n < |calls| && calls[n].Refresh?
    requires forall m :: n < m < |calls| ==>
      calls[m].Set? && calls[m].condition.kind != "Available" && calls[m].condition.kind != "AllReplicasReady"
    ensures |History(calls)| == 3
    ensures History(calls)[0].kind == "Available" && History(calls)[1].kind == "AllReplicasReady"
    ensures var resources := calls[n].resources;
      History(calls)[0].status ==
        if exists i :: 0 <= i < |resources| && resources[i].Deployment? &&
             ("Available", "True") in resources[i].conditions && forall j :: 0 <= j < i ==> resources[j].Other?
        then True else False
    ensures var resources := calls[n].resources;
      History(calls)[1].status ==
        if exists i :: 0 <= i < |resources| && resources[i].Deployment? && resources[i].wanted.Some? &&
             resources[i].ready >= resources[i].wanted.value
        then True else False
  {
    LastCallDecides(calls, 0, n);
    LastCallDecides(calls, 1, n);
    hide After, History, Complete;
    HistoryAt(calls, n);
    KindsOfComplete(History(calls));
    RefreshSays(History(calls[..n]), calls[n].resources, calls[n].now);
  }
}
