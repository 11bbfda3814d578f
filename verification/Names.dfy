/**
 The names of child objects, from which the controller recovers all of its state.
 */
module Names {
  import opened Strings
  import opened Protocol

  function ChildResourceName(owner: string, service: string, suffix: string): string {
    var nameWithService := TrimDash(owner + "-" + service);
    TrimDash(nameWithService + "-" + suffix)
  }

  function ResourceNameSuffix(name: string): string {
    LastToken(name, '-')
  }

  /** Worker Deployments, Services and autoscalers of a profile. */
  function WorkerName(owner: string, profile: string): string {
    ChildResourceName(owner, profile, "")
  }

  /** The claim and the Job of a profile's generation. */
  function ClaimName(owner: string, k: Key): string {
    ChildResourceName(owner, k.profile, Itoa(k.gen))
  }

  /** Names that a trailing dash cannot blur. */
  predicate Plain(s: string) {
    s == [] || s[|s| - 1] != '-'
  }

  predicate WellNamed(s: string) {
    s != [] && Plain(s)
  }

  // ---------- spelled out ----------

  /** The anonymous profile of an OSRMInstance leaves no trace in its names. */
  function Prefix(owner: string, p: string): string {
    if p == "" then owner else owner + "-" + p
  }

  lemma WithoutDash(s: string, t: string)
    requires Plain(t)
    ensures TrimDash(s + "-" + t) == if t == "" then s else s + "-" + t
  {
    var n := s + "-" + t;
    if t == "" {
      assert n[..|s|] == s;
    } else {
      assert n[|n| - 1] == t[|t| - 1];
    }
  }

  lemma WorkerNameIs(owner: string, p: string)
    requires Plain(p)
    ensures WorkerName(owner, p) == if p == "" then owner else owner + "-" + p
  {
    WithoutDash(owner, p);
    WithoutDash(Prefix(owner, p), "");
  }

  lemma ClaimNameIs(owner: string, k: Key)
    requires Plain(k.profile)
    ensures ClaimName(owner, k) == (if k.profile == "" then owner else owner + "-" + k.profile) + "-" + Itoa(k.gen)
  {
    ItoaNoDash(k.gen);
    WithoutDash(owner, k.profile);
    WithoutDash(Prefix(owner, k.profile), Itoa(k.gen));
  }

  lemma GatewayNameIs(owner: string)
    ensures ChildResourceName(owner, "", "") == owner
  {
    WorkerNameIs(owner, "");
  }

  // ---------- the codec ----------

  /** Whatever the name: the part after its last dash, or all of a name without one. */
  lemma SuffixIs(name: string, before: string, suffix: string)
    requires '-' !in suffix && (name == suffix || name == before + "-" + suffix)
    ensures ResourceNameSuffix(name) == suffix
  {
    if name == suffix {
      LastTokenIs(name, '-');
    } else {
      LastTokenOf(before, suffix, '-');
    }
  }

  /** The generation can be read back from the name of a claim, whatever the names contain. */
  lemma SuffixOfClaim(owner: string, k: Key)
    ensures ResourceNameSuffix(ClaimName(owner, k)) == Itoa(k.gen)
    ensures k.gen <= MAX_INT ==> Atoi(ResourceNameSuffix(ClaimName(owner, k))) == Some(k.gen)
  {
    ItoaNoDash(k.gen);
    var n := TrimDash(owner + "-" + k.profile);
    var m := n + "-" + Itoa(k.gen);
    assert m[|m| - 1] == Itoa(k.gen)[|Itoa(k.gen)| - 1];
    LastTokenOf(n, Itoa(k.gen), '-');
    if k.gen <= MAX_INT { AtoiItoa(k.gen); }
  }

  lemma ConcatInjective(a: string, p: string, q: string)
    requires a + p == a + q
    ensures p == q
  {
    assert (a + p)[|a|..] == p;
    assert (a + q)[|a|..] == q;
  }

  // ---------- exactly when names collide ----------

  /** The same name, or the same but for one dash at the end. */
  predicate SameButDash(p: string, q: string) {
    p == q || (WellNamed(q) && p == q + "-") || (WellNamed(p) && q == p + "-")
  }

  /** The name with the owner's part, after the first trim. */
  function Stem(owner: string, p: string): string {
    TrimDash(owner + "-" + p)
  }

  lemma StemIs(owner: string, p: string)
    ensures Stem(owner, p) == if p == "" then owner else owner + "-" + TrimDash(p)
  {
    var n := owner + "-" + p;
    if p == "" {
      assert n[..|owner|] == owner;
    } else {
      assert n[|n| - 1] == p[|p| - 1];
      assert n[..|n| - 1] == owner + "-" + p[..|p| - 1];
    }
  }

  lemma StemsCollide(owner: string, p: string, q: string)
    ensures Stem(owner, p) == Stem(owner, q) <==> SameButDash(p, q)
  {
    StemIs(owner, p);
    StemIs(owner, q);
    if p == "" || q == "" {
      assert Stem(owner, p) == Stem(owner, q) ==> |Stem(owner, p)| == |Stem(owner, q)|;
    } else {
      if Stem(owner, p) == Stem(owner, q) { ConcatInjective(owner + "-", TrimDash(p), TrimDash(q)); }
      TrimsCollide(p, q);
    }
  }

  lemma TrimsCollide(p: string, q: string)
    requires p != "" && q != ""
    ensures TrimDash(p) == TrimDash(q) <==> SameButDash(p, q)
  {
    if p[|p| - 1] == '-' { assert p == p[..|p| - 1] + "-"; }
    if q[|q| - 1] == '-' { assert q == q[..|q| - 1] + "-"; }
    assert (p + "-")[..|p|] == p && (q + "-")[..|q|] == q;
  }

  /** Two profiles share the name of their workers, and the claims of a generation, if and only if
      their names are the same but for one dash at the end. */
  lemma NamesCollide(owner: string, k: Key, m: Key)
    ensures WorkerName(owner, k.profile) == WorkerName(owner, m.profile) <==> SameButDash(k.profile, m.profile)
    ensures ClaimName(owner, k) == ClaimName(owner, m) <==> SameButDash(k.profile, m.profile) && k.gen == m.gen
  {
    hide Itoa;
    StemsCollide(owner, k.profile, m.profile);
    WithoutDash(Stem(owner, k.profile), "");
    WithoutDash(Stem(owner, m.profile), "");
    PlainItoa(k.gen);
    PlainItoa(m.gen);
    WithoutDash(Stem(owner, k.profile), Itoa(k.gen));
    WithoutDash(Stem(owner, m.profile), Itoa(m.gen));
    if ClaimName(owner, k) == ClaimName(owner, m) {
      SuffixOfClaim(owner, k);
      SuffixOfClaim(owner, m);
      ItoaInjective(k.gen, m.gen);
      var n := |ClaimName(owner, k)| - |"-" + Itoa(k.gen)|;
      assert ClaimName(owner, k)[..n] == Stem(owner, k.profile);
      assert ClaimName(owner, m)[..n] == Stem(owner, m.profile);
    }
  }

  lemma PlainNamesDiffer(p: string, q: string)
    requires Plain(p) && Plain(q)
    ensures SameButDash(p, q) <==> p == q
  {
    assert (p + "-")[|p|] == '-' && (q + "-")[|q|] == '-';
  }

  lemma WorkerNameInjective(owner: string, p: string, q: string)
    requires Plain(p) && Plain(q)
    ensures WorkerName(owner, p) == WorkerName(owner, q) <==> p == q
  {
    NamesCollide(owner, Key(p, 0), Key(q, 0));
    PlainNamesDiffer(p, q);
  }

  lemma ClaimNameInjective(owner: string, k: Key, m: Key)
    requires Plain(k.profile) && Plain(m.profile)
    ensures ClaimName(owner, k) == ClaimName(owner, m) <==> k == m
  {
    NamesCollide(owner, k, m);
    PlainNamesDiffer(k.profile, m.profile);
  }

  lemma PlainItoa(n: nat)
    ensures Itoa(n) != "" && Plain(Itoa(n))
  {
    ItoaNoDash(n);
  }

  /** The claim that a suffix read from a claim leads back to is that claim. */
  lemma ClaimRebuilt(owner: string, k: Key)
    ensures ChildResourceName(owner, k.profile, ResourceNameSuffix(ClaimName(owner, k))) == ClaimName(owner, k)
  {
    SuffixOfClaim(owner, k);
  }

  /** The key behind a claim name. */
  ghost function KeyOf(owner: string, name: string): Key {
    if k: Key :| Plain(k.profile) && ClaimName(owner, k) == name then k else Key("", 0)
  }

  ghost function ProfileOf(owner: string, name: string): string {
    if p: string :| Plain(p) && WorkerName(owner, p) == name then p else ""
  }

  lemma KeyOfClaim(owner: string, k: Key)
    requires Plain(k.profile)
    ensures KeyOf(owner, ClaimName(owner, k)) == k
  {
    ClaimNameInjective(owner, k, KeyOf(owner, ClaimName(owner, k)));
  }

  lemma ProfileOfWorker(owner: string, p: string)
    requires Plain(p)
    ensures ProfileOf(owner, WorkerName(owner, p)) == p
  {
    WorkerNameInjective(owner, p, ProfileOf(owner, WorkerName(owner, p)));
  }
}
