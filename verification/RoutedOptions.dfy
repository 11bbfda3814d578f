/**
 The command-line flags of osrm-routed, printed from a Go map in whatever order it is visited.
 */
module RoutedOptions {
  import opened Strings

  datatype Options = Options(viaRoute: Option<int>, trip: Option<int>, table: Option<int>, matching: Option<int>,
                             nearest: Option<int>)

  function FormatInt(v: Option<int>): string {
    match v case None => "" case Some(n) => ItoaSigned(n)
  }

  function FlagMap(o: Options): map<string, string> {
    map["--max-viaroute-size" := FormatInt(o.viaRoute), "--max-trip-size" := FormatInt(o.trip),
        "--max-table-size" := FormatInt(o.table), "--max-matching-size" := FormatInt(o.matching),
        "--max-nearest-size" := FormatInt(o.nearest)]
  }

  predicate IsSet(o: Options, flag: string) {
    flag in FlagMap(o) && FlagMap(o)[flag] != ""
  }

  function Printed(o: Options, flag: string): string
    requires IsSet(o, flag)
  {
    flag + " " + FlagMap(o)[flag]
  }

  function Join(parts: seq<string>): string {
    if parts == [] then ""
    else if |parts| == 1 then parts[0]
    else parts[0] + " " + Join(parts[1..])
  }

  /** An order in which the flags that are set can be visited. */
  ghost predicate IsOrder(o: Options, order: seq<string>) {
    && (forall i, j :: 0 <= i < j < |order| ==> order[i] != order[j])
    && (forall f :: f in order <==> IsSet(o, f))
  }

  ghost function PrintedIn(o: Options, order: seq<string>): string
    requires IsOrder(o, order)
  {
    Join(seq(|order|, i requires 0 <= i < |order| => Printed(o, order[i])))
  }

  method ToString(options: Option<Options>) returns (s: string)
    ensures options.None? ==> s == ""
    ensures options.Some? ==> exists order :: IsOrder(options.value, order) && s == PrintedIn(options.value, order)
  {
    hide FlagMap;
    if options.None? { return ""; }
    var o := options.value;
    var flagMap := FlagMap(o);
    var flags: seq<string> := [];
    ghost var order: seq<string> := [];
    var rest := flagMap.Keys;
    while rest != {}
      invariant rest <= flagMap.Keys
      invariant |flags| == |order|
      invariant forall i :: 0 <= i < |order| ==> IsSet(o, order[i]) && flags[i] == Printed(o, order[i])
      invariant forall i, j :: 0 <= i < j < |order| ==> order[i] != order[j]
      invariant forall f :: f in order <==> IsSet(o, f) && f !in rest
      decreases |rest|
    {
      var flag :| flag in rest;
      var val := flagMap[flag];
      if val != "" {
        flags, order := flags + [flag + " " + val], order + [flag];
      }
      rest := rest - {flag};
    }
    assert IsOrder(o, order);
    assert flags == seq(|order|, i requires 0 <= i < |order| => Printed(o, order[i]));
    s := Join(flags);
  }

  // ---------- spelled out ----------

  lemma NumbersPrint(v: Option<int>)
    ensures FormatInt(v) != "" <==> v.Some?
  {
    if v.Some? { DigitsOfItoa(if v.value >= 0 then v.value else 0 - v.value); }
  }

  /** Which option is printed as which flag, with which value. */
  lemma FlagsAre(o: Options, flag: string)
    ensures IsSet(o, flag) <==>
      || (flag == "--max-viaroute-size" && o.viaRoute.Some?)
      || (flag == "--max-trip-size" && o.trip.Some?)
      || (flag == "--max-table-size" && o.table.Some?)
      || (flag == "--max-matching-size" && o.matching.Some?)
      || (flag == "--max-nearest-size" && o.nearest.Some?)
    ensures IsSet(o, flag) ==>
      && (flag == "--max-viaroute-size" ==> Printed(o, flag) == flag + " " + ItoaSigned(o.viaRoute.value))
      && (flag == "--max-trip-size" ==> Printed(o, flag) == flag + " " + ItoaSigned(o.trip.value))
      && (flag == "--max-table-size" ==> Printed(o, flag) == flag + " " + ItoaSigned(o.table.value))
      && (flag == "--max-matching-size" ==> Printed(o, flag) == flag + " " + ItoaSigned(o.matching.value))
      && (flag == "--max-nearest-size" ==> Printed(o, flag) == flag + " " + ItoaSigned(o.nearest.value))
  {
    NumbersPrint(o.viaRoute);
    NumbersPrint(o.trip);
    NumbersPrint(o.table);
    NumbersPrint(o.matching);
    NumbersPrint(o.nearest);
    hide ItoaSigned;
    FiveFlags();
  }

  lemma FiveFlags()
    ensures "--max-viaroute-size"[6] == 'v' && "--max-trip-size"[6..8] == "tr" && "--max-table-size"[6..8] == "ta"
    ensures "--max-matching-size"[6] == 'm' && "--max-nearest-size"[6] == 'n'
  {
  }

  /** The flags are separated by single blanks, in the order in which they are visited. */
  lemma {:induction false} JoinBoth(a: seq<string>, b: seq<string>)
    requires a != [] && b != []
    ensures Join(a + b) == Join(a) + " " + Join(b)
  {
    if |a| == 1 {
      assert (a + b)[1..] == b;
    } else {
      assert (a + b)[1..] == a[1..] + b;
      JoinBoth(a[1..], b);
    }
  }

  lemma PrintedFurther(o: Options, order: seq<string>, flag: string)
    requires IsOrder(o, order + [flag])
    ensures PrintedIn(o, order + [flag]) ==
      (if order == [] then "" else Join(seq(|order|, i requires 0 <= i < |order| => Printed(o, order[i]))) + " ")
      + Printed(o, flag)
  {
    hide FlagMap;
    var all := order + [flag];
    var before := seq(|order|, i requires 0 <= i < |order| => Printed(o, order[i]));
    assert seq(|all|, i requires 0 <= i < |all| => Printed(o, all[i])) == before + [Printed(o, flag)];
    if order != [] { JoinBoth(before, [Printed(o, flag)]); }
  }

  lemma {:induction false} Listed(s: set<string>) returns (order: seq<string>)
    ensures forall i, j :: 0 <= i < j < |order| ==> order[i] != order[j]
    ensures forall f :: f in order <==> f in s
  {
    if s == {} {
      order := [];
    } else {
      var f :| f in s;
      var rest := Listed(s - {f});
      order := rest + [f];
    }
  }

  /** Any flag that is set can come first. */
  lemma CanComeFirst(o: Options, f: string) returns (order: seq<string>)
    requires IsSet(o, f)
    ensures IsOrder(o, order) && order != [] && order[0] == f
  {
    var others := Listed((set g | g in FlagMap(o) && IsSet(o, g)) - {f});
    order := [f] + others;
  }

  lemma StartsWithFirst(o: Options, order: seq<string>)
    requires IsOrder(o, order) && order != []
    ensures |PrintedIn(o, order)| >= |order[0]| && PrintedIn(o, order)[..|order[0]|] == order[0]
  {
    hide FlagMap;
    assert order[0] in order;
    var parts := seq(|order|, i requires 0 <= i < |order| => Printed(o, order[i]));
    assert parts[0][..|order[0]|] == order[0];
    assert Join(parts) == if |parts| == 1 then parts[0] else parts[0] + " " + Join(parts[1..]);
  }

  lemma FlagsDiffer(o: Options, f: string, g: string)
    requires f in FlagMap(o) && g in FlagMap(o) && f != g
    ensures |f| > 7 && |g| > 7 && (f[6] != g[6] || f[7] != g[7])
  {
  }

  lemma SameFlag(o: Options, order: seq<string>, i: nat, j: nat)
    requires IsOrder(o, order) && i < |order| && j < |order|
    requires forall f, g :: IsSet(o, f) && IsSet(o, g) ==> f == g
    ensures order[i] == order[j]
  {
    assert order[i] in order && order[j] in order;
  }

  lemma AtMostOne(o: Options, order: seq<string>)
    requires IsOrder(o, order) && forall f, g :: IsSet(o, f) && IsSet(o, g) ==> f == g
    ensures |order| <= 1
  {
    hide FlagMap;
    if |order| > 1 { SameFlag(o, order, 0, 1); }
  }

  /** The text of the flags, and with it a worker's template, is the same in every pass if and only
      if at most one option is set; otherwise the same spec can be printed in two ways. */
  lemma SameEveryTime(o: Options)
    ensures (forall a, b :: IsOrder(o, a) && IsOrder(o, b) ==> PrintedIn(o, a) == PrintedIn(o, b)) <==>
            (forall f, g :: IsSet(o, f) && IsSet(o, g) ==> f == g)
  {
    hide FlagMap, PrintedIn;
    if f, g :| IsSet(o, f) && IsSet(o, g) && f != g {
      var a := CanComeFirst(o, f);
      var b := CanComeFirst(o, g);
      StartsWithFirst(o, a);
      StartsWithFirst(o, b);
      FlagsDiffer(o, f, g);
      assert PrintedIn(o, a)[..|f|][6] == f[6] && PrintedIn(o, a)[..|f|][7] == f[7];
      assert PrintedIn(o, b)[..|g|][6] == g[6] && PrintedIn(o, b)[..|g|][7] == g[7];
    } else {
      forall a, b | IsOrder(o, a) && IsOrder(o, b) ensures PrintedIn(o, a) == PrintedIn(o, b) {
        AtMostOne(o, a);
        AtMostOne(o, b);
        assert |a| == 1 ==> a[0] in a && a[0] in b;
        assert |b| == 1 ==> b[0] in b && b[0] in a;
        assert a == b;
      }
    }
  }
}
