/**
 How a PBF URL names the files on the shared volume.

 The operator computes the name that osrm-routed opens with strings.Split and
 strings.ReplaceAll; the map-builder script computes the name it writes with
 basename and a first-match substitution.  Both are modelled on plain strings.
 */
module FileNames {
  import opened Strings

  const PBF_SUFFIX := "osm.pbf"
  const OSRM_SUFFIX := "osrm"

  // ---------- the operator ----------

  /** The part of s after its last '/'. */
  function LastSegment(s: string): string {
    LastToken(s, '/')
  }

  /** strings.ReplaceAll(s, "osm.pbf", "osrm"): every match, scanning from the left. */
  function ReplaceAll(s: string): string {
    if s == [] then []
    else if PBF_SUFFIX <= s then OSRM_SUFFIX + ReplaceAll(s[|PBF_SUFFIX|..])
    else [s[0]] + ReplaceAll(s[1..])
  }

  /** The file name in the osrm-routed command line of a worker. */
  function OsrmFileName(url: string): string {
    ReplaceAll(LastSegment(url))
  }

  // ---------- the script ----------

  function StripSlashes(s: string): string {
    if s != [] && s[|s| - 1] == '/' then StripSlashes(s[..|s| - 1]) else s
  }

  /** basename: trailing slashes are removed first; a string of slashes only is "/". */
  function Basename(s: string): string {
    if s != [] && StripSlashes(s) == [] then "/" else LastSegment(StripSlashes(s))
  }

  /** ${name/osm.pbf/osrm}: the first match only. */
  function ReplaceFirst(s: string): string {
    if s == [] then []
    else if PBF_SUFFIX <= s then OSRM_SUFFIX + s[|PBF_SUFFIX|..]
    else [s[0]] + ReplaceFirst(s[1..])
  }

  /** The name of the .osrm file the map builder produces for a URL. */
  function BuiltFileName(url: string): string {
    ReplaceFirst(Basename(url))
  }

  // ---------- when the two agree ----------

  predicate MatchAt(s: string, i: nat) {
    i <= |s| && PBF_SUFFIX <= s[i..]
  }

  /** At most one occurrence of "osm.pbf". */
  ghost predicate AtMostOneMatch(s: string) {
    forall i: nat, j: nat :: MatchAt(s, i) && MatchAt(s, j) ==> i == j
  }

  /** The shell does not split or expand the URL, and it has no query or fragment, which curl would
      leave out of the name of the file it writes. */
  predicate OneWord(url: string) {
    forall i :: 0 <= i < |url| ==> url[i] !in " \t\n?*[#"
  }

  /** What a user can check before writing a URL into the spec. */
  ghost predicate NamesOneFile(url: string) {
    LastSegment(url) != [] && AtMostOneMatch(LastSegment(url))
  }

  lemma {:induction false} ReplaceAllIdentity(s: string)
    requires forall i: nat :: !MatchAt(s, i)
    ensures ReplaceAll(s) == s
  {
    if s == [] {
    } else {
      assert !MatchAt(s, 0) && s[0..] == s;
      forall i: nat ensures !MatchAt(s[1..], i) {
        if i <= |s[1..]| { assert s[1..][i..] == s[i + 1..]; assert !MatchAt(s, i + 1); }
      }
      ReplaceAllIdentity(s[1..]);
    }
  }

  /** Each further match makes the result strictly shorter than the input. */
  lemma {:induction false} ReplaceAllShortens(s: string)
    ensures |ReplaceAll(s)| <= |s|
    ensures (exists i: nat :: MatchAt(s, i)) ==> |ReplaceAll(s)| < |s|
  {
    if s == [] {
    } else if PBF_SUFFIX <= s {
      ReplaceAllShortens(s[|PBF_SUFFIX|..]);
    } else {
      ReplaceAllShortens(s[1..]);
      if i: nat :| MatchAt(s, i) {
        assert i != 0 by { assert s[0..] == s; }
        assert s[1..][i - 1..] == s[i..];
        assert MatchAt(s[1..], i - 1);
      }
    }
  }

  lemma {:induction false} ReplaceAgree(s: string)
    ensures ReplaceAll(s) == ReplaceFirst(s) <==> AtMostOneMatch(s)
  {
    if s == [] {
    } else if PBF_SUFFIX <= s {
      var rest := s[|PBF_SUFFIX|..];
      ReplaceAllShortens(rest);
      assert MatchAt(s, 0) by { assert s[0..] == s; }
      if i: nat :| MatchAt(rest, i) {
        assert s[i + |PBF_SUFFIX|..] == rest[i..];
        assert MatchAt(s, i + |PBF_SUFFIX|);
        assert ReplaceAll(s)[|OSRM_SUFFIX|..] == ReplaceAll(rest);
        assert ReplaceFirst(s)[|OSRM_SUFFIX|..] == rest;
      } else {
        ReplaceAllIdentity(rest);
        forall i: nat | MatchAt(s, i) ensures i == 0 {
          if i != 0 {
            assert s[i..][0] == 'o';  // so position i is not inside the first match
            assert s[i..] == rest[i - |PBF_SUFFIX|..];
            assert MatchAt(rest, i - |PBF_SUFFIX|);
          }
        }
      }
    } else {
      ReplaceAgree(s[1..]);
      assert !MatchAt(s, 0) by { assert s[0..] == s; }
      forall i: nat ensures MatchAt(s, i + 1) == MatchAt(s[1..], i) {
        if i <= |s[1..]| { assert s[1..][i..] == s[i + 1..]; }
      }
      if AtMostOneMatch(s[1..]) {
        forall i: nat, j: nat | MatchAt(s, i) && MatchAt(s, j) ensures i == j {
          assert MatchAt(s[1..], i - 1) && MatchAt(s[1..], j - 1);
        }
      }
      if AtMostOneMatch(s) {
        forall i: nat, j: nat | MatchAt(s[1..], i) && MatchAt(s[1..], j) ensures i == j {
          assert MatchAt(s, i + 1) && MatchAt(s, j + 1);
        }
      }
      assert ReplaceAll(s)[1..] == ReplaceAll(s[1..]);
      assert ReplaceFirst(s)[1..] == ReplaceFirst(s[1..]);
    }
  }

  lemma {:induction false} ReplaceFirstNonempty(s: string)
    requires s != []
    ensures ReplaceFirst(s) != []
  {
  }

  lemma {:induction false} StripSlashesShape(s: string)
    ensures StripSlashes(s) <= s
    ensures StripSlashes(s) != [] ==> StripSlashes(s)[|StripSlashes(s)| - 1] != '/'
  {
    if s != [] && s[|s| - 1] == '/' { StripSlashesShape(s[..|s| - 1]); }
  }

  /** The worker opens the file that the map builder wrote exactly when the last path segment of
      the URL is non-empty and contains "osm.pbf" at most once.  The script refuses an empty URL. */
  lemma WorkerOpensBuiltFile(url: string)
    requires url != [] && OneWord(url)
    ensures OsrmFileName(url) == BuiltFileName(url) <==> NamesOneFile(url)
  {
    var seg := LastSegment(url);
    StripSlashesShape(url);
    if seg == [] {
      assert url[|url| - 1] == '/';
      var stripped := StripSlashes(url);
      if stripped != [] {
        assert LastSegment(stripped) != [] ;
      }
      ReplaceFirstNonempty(Basename(url));
    } else {
      assert seg[|seg| - 1] == url[|url| - 1];
      assert StripSlashes(url) == url;
      ReplaceAgree(seg);
    }
  }

  // ---------- spelled out ----------

  /** No match of "osm.pbf" begins before position n. */
  predicate NoMatchBefore(s: string, n: nat)
    requires n <= |s|
  {
    forall i :: 0 <= i < n ==> !("osm.pbf" <= s[i..])
  }

  /** The leftmost match becomes "osrm"; the operator goes on behind it, the script does not. */
  lemma {:induction false} LeftmostReplaced(a: string, b: string)
    requires NoMatchBefore(a + "osm.pbf" + b, |a|)
    ensures ReplaceAll(a + "osm.pbf" + b) == a + "osrm" + ReplaceAll(b)
    ensures ReplaceFirst(a + "osm.pbf" + b) == a + "osrm" + b
  {
    var s := a + "osm.pbf" + b;
    if a == [] {
      assert s[|"osm.pbf"|..] == b;
      assert "osm.pbf" <= s;
      assert a + "osrm" + b == "osrm" + b && a + "osrm" + ReplaceAll(b) == "osrm" + ReplaceAll(b);
    } else {
      assert s[0..] == s;
      assert s[1..] == a[1..] + "osm.pbf" + b;
      assert NoMatchBefore(s[1..], |a| - 1) by {
        forall i | 0 <= i < |a| - 1 ensures s[1..][i..] == s[i + 1..] { }
      }
      LeftmostReplaced(a[1..], b);
      assert a + "osrm" + b == [a[0]] + (a[1..] + "osrm" + b);
      assert a + "osrm" + ReplaceAll(b) == [a[0]] + (a[1..] + "osrm" + ReplaceAll(b));
    }
  }

  lemma {:induction false} NothingReplaced(s: string)
    requires NoMatchBefore(s, |s|)
    ensures ReplaceAll(s) == s && ReplaceFirst(s) == s
  {
    if s != [] {
      assert s[0..] == s;
      assert NoMatchBefore(s[1..], |s| - 1) by {
        forall i | 0 <= i < |s| - 1 ensures s[1..][i..] == s[i + 1..] { }
      }
      NothingReplaced(s[1..]);
    }
  }

  /** The file that a worker opens for the usual URL: what follows the last slash, with the one
      "osm.pbf" in it replaced by "osrm". */
  lemma UsualFileName(path: string, a: string, b: string)
    requires '/' !in a && '/' !in b && NoMatchBefore(a + "osm.pbf" + b, |a|) && NoMatchBefore(b, |b|)
    ensures OsrmFileName(path + "/" + (a + "osm.pbf" + b)) == a + "osrm" + b
    ensures OsrmFileName(a + "osm.pbf" + b) == a + "osrm" + b
  {
    var name := a + "osm.pbf" + b;
    assert '/' !in name;
    LastTokenOf(path, name, '/');
    LastTokenIs(name, '/');
    LeftmostReplaced(a, b);
    NothingReplaced(b);
  }
}
