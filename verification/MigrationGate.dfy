/** The migration directory check (internal/gates/migration.go). The listing and the file-name pattern are taken as
    given: an entry is a directory, a file that does not match, or a parsed (version, name, direction) triple. */
module MigrationGate {
  import opened Prelude

  datatype Direction = Up | Down

  datatype Entry = Directory | OtherFile | Migration(version: nat, name: string, direction: Direction, file: string)

  /** The pattern's match is never empty. */
  predicate WellNamed(entries: seq<Entry>) {
    forall e :: e in entries && e.Migration? ==> e.file != ""
  }

  datatype Pair = Pair(version: nat, name: string, up: string, down: string)

  datatype CheckError =
    | NameMismatch(version: nat) | NoMigrations | Gap(before: nat, after: nat)
    | MissingUp(version: nat) | MissingDown(version: nat)

  // ---------------------------------------------------------------------
  // What is accepted, without order, map or sort
  // ---------------------------------------------------------------------

  ghost predicate OneName(entries: seq<Entry>) {
    forall d, e :: d in entries && e in entries && d.Migration? && e.Migration? && d.version == e.version ==>
      d.name == e.name
  }

  ghost predicate HasFile(entries: seq<Entry>, v: nat, dir: Direction) {
    exists e :: e in entries && e.Migration? && e.version == v && e.direction == dir
  }

  ghost predicate HasVersion(entries: seq<Entry>, v: nat) {
    exists e :: e in entries && e.Migration? && e.version == v
  }

  ghost predicate Acceptable(entries: seq<Entry>) {
    && OneName(entries)
    && (forall v :: HasVersion(entries, v) ==> HasFile(entries, v, Up) && HasFile(entries, v, Down))
    && (exists lo, hi :: lo <= hi && Interval(entries, lo, hi))
  }

  /** The versions are exactly lo..hi. */
  ghost predicate Interval(entries: seq<Entry>, lo: nat, hi: nat) {
    forall v: nat :: HasVersion(entries, v) <==> lo <= v <= hi
  }

  /** Acceptance depends on the set of entries only. */
  lemma OrderIrrelevant(s: seq<Entry>, t: seq<Entry>)
    requires forall e :: e in s <==> e in t
    ensures Acceptable(s) <==> Acceptable(t)
  {
    forall v: nat, d: Direction ensures HasFile(s, v, d) <==> HasFile(t, v, d) {}
    forall v: nat ensures HasVersion(s, v) <==> HasVersion(t, v) {}
    assert OneName(s) <==> OneName(t);
    forall lo: nat, hi: nat ensures Interval(s, lo, hi) <==> Interval(t, lo, hi) {}
  }

  // ---------------------------------------------------------------------
  // The pairs
  // ---------------------------------------------------------------------

  /** The map after the entries: one pair per version, with the name and the files that occurred. */
  ghost predicate Collected(entries: seq<Entry>, pairs: map<nat, Pair>) {
    && (forall v :: v in pairs <==> HasVersion(entries, v))
    && (forall e :: e in entries && e.Migration? ==> pairs[e.version].name == e.name)
    && (forall v :: v in pairs ==>
          && (pairs[v].up != "" <==> HasFile(entries, v, Up))
          && (pairs[v].down != "" <==> HasFile(entries, v, Down)))
  }

  function SetFile(p: Pair, e: Entry): Pair
    requires e.Migration?
  {
    match e.direction
    case Up => p.(up := e.file)
    case Down => p.(down := e.file)
  }

  lemma OneMoreEntry(entries: seq<Entry>, pairs: map<nat, Pair>, e: Entry, p: Pair)
    requires Collected(entries, pairs) && e.Migration? && e.file != ""
    requires p == if e.version in pairs then pairs[e.version] else Pair(e.version, e.name, "", "")
    requires p.name == e.name
    ensures Collected(entries + [e], pairs[e.version := SetFile(p, e)])
  {
    var more, pairs' := entries + [e], pairs[e.version := SetFile(p, e)];
    VersionsExtend(entries, e);
    forall v: nat, d: Direction
      ensures HasFile(more, v, d) <==> HasFile(entries, v, d) || (v == e.version && d == e.direction)
    {
      FilesExtend(entries, e, v, d);
    }
    forall d | d in entries && d.Migration? ensures d.version in pairs' && pairs'[d.version].name == d.name {
      assert HasVersion(entries, d.version);
    }
    forall v | v in pairs' ensures pairs'[v].up != "" <==> HasFile(more, v, Up)
                           ensures pairs'[v].down != "" <==> HasFile(more, v, Down)
    {
      if v == e.version && v !in pairs {
        assert !HasFile(entries, v, Up) && !HasFile(entries, v, Down) by { assert !HasVersion(entries, v); }
      }
    }
  }

  lemma VersionsExtend(entries: seq<Entry>, e: Entry)
    requires e.Migration?
    ensures forall v :: HasVersion(entries + [e], v) <==> HasVersion(entries, v) || v == e.version
  {
    forall v ensures HasVersion(entries + [e], v) <==> HasVersion(entries, v) || v == e.version {
      if HasVersion(entries, v) {
        var d :| d in entries && d.Migration? && d.version == v;
        assert d in entries + [e];
      }
      assert e in entries + [e];
    }
  }

  lemma FilesExtend(entries: seq<Entry>, e: Entry, v: nat, d: Direction)
    requires e.Migration?
    ensures HasFile(entries + [e], v, d) <==> HasFile(entries, v, d) || (v == e.version && d == e.direction)
  {
    if HasFile(entries, v, d) {
      var x :| x in entries && x.Migration? && x.version == v && x.direction == d;
      assert x in entries + [e];
    }
    assert e in entries + [e];
  }

  lemma SkippedEntry(entries: seq<Entry>, pairs: map<nat, Pair>, e: Entry)
    requires Collected(entries, pairs) && !e.Migration?
    ensures Collected(entries + [e], pairs)
  {
    var more := entries + [e];
    forall v: nat ensures HasVersion(more, v) <==> HasVersion(entries, v) {
      if HasVersion(entries, v) {
        var d :| d in entries && d.Migration? && d.version == v;
        assert d in more;
      }
    }
    forall v: nat, d: Direction ensures HasFile(more, v, d) <==> HasFile(entries, v, d) {
      if HasFile(entries, v, d) {
        var x :| x in entries && x.Migration? && x.version == v && x.direction == d;
        assert x in more;
      }
    }
  }

  method CollectPairs(entries: seq<Entry>) returns (res: Result<map<nat, Pair>, CheckError>)
    requires WellNamed(entries)
    ensures res.Ok? <==> OneName(entries)
    ensures res.Ok? ==> Collected(entries, res.value)
    ensures res.Err? ==> res.error.NameMismatch?
  {
    var pairs: map<nat, Pair> := map[];
    for k := 0 to |entries|
      invariant Collected(entries[..k], pairs)
    {
      var e := entries[k];
      assert entries[..k + 1] == entries[..k] + [e];
      if !e.Migration? {
        SkippedEntry(entries[..k], pairs, e);
      } else {
        var p := if e.version in pairs then pairs[e.version] else Pair(e.version, e.name, "", "");
        if p.name != e.name {
          assert HasVersion(entries[..k], e.version);
          var d :| d in entries[..k] && d.Migration? && d.version == e.version;
          assert d in entries && e in entries && d.name != e.name;
          return Err(NameMismatch(e.version));
        }
        OneMoreEntry(entries[..k], pairs, e, p);
        pairs := pairs[e.version := SetFile(p, e)];
      }
    }
    assert entries[..|entries|] == entries;
    res := Ok(pairs);
  }

  // ---------------------------------------------------------------------
  // The versions
  // ---------------------------------------------------------------------

  method Versions(pairs: map<nat, Pair>) returns (versions: seq<nat>)
    ensures forall v :: v in versions <==> v in pairs
    ensures forall i, j :: 0 <= i < j < |versions| ==> versions[i] < versions[j]
  {
    var collected: seq<nat> := [];
    var todo := pairs.Keys;
    while todo != {}
      invariant todo <= pairs.Keys
      invariant forall v :: v in collected <==> v in pairs && v !in todo
      invariant forall i, j :: 0 <= i < j < |collected| ==> collected[i] != collected[j]
      decreases |todo|
    {
      var v :| v in todo;
      collected := collected + [v];
      todo := todo - {v};
    }
    versions := SortSlice(collected, (a: nat, b: nat) => a < b);
    SortedVersions(collected, versions);
  }

  lemma SortedVersions(s: seq<nat>, t: seq<nat>)
    requires multiset(s) == multiset(t)
    requires forall i, j :: 0 <= i < j < |s| ==> s[i] != s[j]
    requires SortedBy(t, (a: nat, b: nat) => a < b)
    ensures forall v :: v in t <==> v in s
    ensures forall i, j :: 0 <= i < j < |t| ==> t[i] < t[j]
  {
    forall v ensures v in t <==> v in s { assert v in multiset(t) <==> v in multiset(s); }
    var less := (a: nat, b: nat) => a < b;
    forall i, j | 0 <= i < j < |t| ensures t[i] < t[j] {
      assert !less(t[j], t[i]);
      OnceInMultiset(s, t[i]);
      if t[i] == t[j] { TwiceInMultiset(t, i, j); }
    }
  }

  /** A strictly increasing list whose neighbours differ by one is the whole interval between its ends. */
  lemma {:induction false} ConsecutiveIsInterval(vs: seq<nat>)
    requires |vs| > 0
    requires forall i :: 1 <= i < |vs| ==> vs[i] == vs[i - 1] + 1
    ensures forall v :: v in vs <==> vs[0] <= v <= vs[|vs| - 1]
    ensures vs[|vs| - 1] == vs[0] + |vs| - 1
  {
    if |vs| > 1 {
      var front := vs[..|vs| - 1];
      ConsecutiveIsInterval(front);
      assert forall v :: v in vs <==> v in front || v == vs[|vs| - 1];
    }
  }

  /** A gap between sorted neighbours is a version missing from every interval that covers them. */
  lemma GapBreaksInterval(entries: seq<Entry>, vs: seq<nat>, i: nat)
    requires forall v :: v in vs <==> HasVersion(entries, v)
    requires forall x, y :: 0 <= x < y < |vs| ==> vs[x] < vs[y]
    requires 1 <= i < |vs| && vs[i] != vs[i - 1] + 1
    ensures forall lo, hi :: !Interval(entries, lo, hi)
  {
    GapIsEmpty(vs, i);
    assert vs[i] in vs && vs[i - 1] in vs;
    assert !HasVersion(entries, vs[i - 1] + 1);
  }

  lemma GapIsEmpty(vs: seq<nat>, i: nat)
    requires forall x, y :: 0 <= x < y < |vs| ==> vs[x] < vs[y]
    requires 1 <= i < |vs|
    ensures forall v :: vs[i - 1] < v < vs[i] ==> v !in vs
  {
    forall k | 0 <= k < |vs| ensures vs[k] <= vs[i - 1] || vs[i] <= vs[k] {}
  }

  /** The order scan: the index of the first version that does not follow its predecessor; 0 when none does. */
  method FirstGap(versions: seq<nat>) returns (i: nat)
    ensures i == 0 ==> forall k :: 1 <= k < |versions| ==> versions[k] == versions[k - 1] + 1
    ensures i != 0 ==> i < |versions| && versions[i] != versions[i - 1] + 1
  {
    i := 1;
    while i < |versions|
      invariant 1 <= i
      invariant forall j :: 1 <= j < i && j < |versions| ==> versions[j] == versions[j - 1] + 1
    {
      if versions[i] != versions[i - 1] + 1 {
        return;
      }
      i := i + 1;
    }
    i := 0;
  }

  /** The pairing scan. */
  method FirstUnpaired(versions: seq<nat>, pairs: map<nat, Pair>) returns (error: Option<CheckError>)
    requires forall v :: v in versions ==> v in pairs
    ensures error == None ==> forall v :: v in versions ==> pairs[v].up != "" && pairs[v].down != ""
    ensures error != None ==>
      || (error.value.MissingUp? && error.value.version in versions && pairs[error.value.version].up == "")
      || (error.value.MissingDown? && error.value.version in versions && pairs[error.value.version].up != ""
          && pairs[error.value.version].down == "")
  {
    for i := 0 to |versions|
      invariant forall k :: 0 <= k < i ==> pairs[versions[k]].up != "" && pairs[versions[k]].down != ""
    {
      assert versions[i] in versions;
      var p := pairs[versions[i]];
      if p.up == "" {
        return Some(MissingUp(versions[i]));
      }
      if p.down == "" {
        return Some(MissingDown(versions[i]));
      }
    }
    error := None;
  }

  /** checkDir. It accepts exactly the acceptable listings; a listing is refused for mixed names first, then for
      being empty, then for a gap, then for the lowest version that lacks a file. */
  method CheckDir(entries: seq<Entry>) returns (error: Option<CheckError>)
    requires WellNamed(entries)
    ensures error == None <==> Acceptable(entries)
    ensures error != None ==>
      match error.value
      case NameMismatch(_) => !OneName(entries)
      case NoMigrations => OneName(entries) && forall v :: !HasVersion(entries, v)
      case Gap(a, b) => OneName(entries) && a + 1 < b && HasVersion(entries, a) && HasVersion(entries, b)
                        && forall v :: a < v < b ==> !HasVersion(entries, v)
      case MissingUp(v) => OneName(entries) && HasVersion(entries, v) && !HasFile(entries, v, Up)
      case MissingDown(v) =>
        OneName(entries) && HasVersion(entries, v) && HasFile(entries, v, Up) && !HasFile(entries, v, Down)
  {
    var collected := CollectPairs(entries);
    if collected.Err? {
      return Some(collected.error);
    }
    var pairs := collected.value;
    if |pairs| == 0 {
      assert forall v :: v !in pairs;
      forall lo, hi | lo <= hi ensures !Interval(entries, lo, hi) { assert !HasVersion(entries, lo); }
      return Some(NoMigrations);
    }
    var versions := Versions(pairs);
    var i := FirstGap(versions);
    if i != 0 {
      GapBreaksInterval(entries, versions, i);
      GapIsEmpty(versions, i);
      assert versions[i] in versions && versions[i - 1] in versions;
      return Some(Gap(versions[i - 1], versions[i]));
    }
    assert |versions| > 0 by { var v :| v in pairs; assert v in versions; }
    ConsecutiveIsInterval(versions);
    assert Interval(entries, versions[0], versions[|versions| - 1]);
    error := FirstUnpaired(versions, pairs);
  }
}
