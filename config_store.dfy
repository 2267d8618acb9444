/** Configuration files and their history (src/config.py): loading and saving
    over an abstract file store, the classification of DeepDiff changes, and
    the `ConfigVersionManager` that keeps timestamped backups beside the
    configuration file. */
module ConfigStore {
  import opened Common
  import opened Strings
  import opened Values
  import opened Dicts

  // ---------------------------------------------------------------------
  // load_config / save_config
  // ---------------------------------------------------------------------

  /** The files the CLI can read, by path, each holding a parsed YAML document. */
  type Store = map<string, Value>

  function LoadConfig(store: Store, path: string): (r: Result<Value>)
    ensures r.Err? <==> path !in store
    ensures r.Err? ==> r.error.kind == FileNotFoundError
    ensures r.Ok? ==> r.value == store[path]
  {
    if path in store then Ok(store[path])
    else Err(Error(FileNotFoundError, "Configuration file not found: " + path))
  }

  /** Saving creates the parent directories and replaces the file; loading it
      back gives the saved document and no other file changes. */
  function SaveConfig(store: Store, path: string, config: Value): (r: Store)
    ensures LoadConfig(r, path) == Ok(config)
    ensures forall p :: p != path ==> LoadConfig(r, p) == LoadConfig(store, p)
  {
    store[path := config]
  }

  // ---------------------------------------------------------------------
  // analyze_config_diff
  // ---------------------------------------------------------------------

  /** One `values_changed` entry of a DeepDiff: the path and both values. */
  datatype Change = Change(path: string, oldValue: Value, newValue: Value)

  datatype Kind = JvmChange | ServiceChange | ClusterChange | Unclassified

  /** The first matching test wins: `jvm`, then `service_config`, then
      `cluster`, all on the lower-cased path. */
  function KindOf(path: string): Kind {
    var p := Lower(path);
    if Contains(p, "jvm") then JvmChange
    else if Contains(p, "service_config") then ServiceChange
    else if Contains(p, "cluster") then ClusterChange
    else Unclassified
  }

  predicate NeedsRestart(k: Kind) {
    k == JvmChange || k == ServiceChange
  }

  datatype Changes = Changes(jvm: seq<Change>, service: seq<Change>, cluster: seq<Change>, requiresRestart: bool)

  const NoChanges := Changes([], [], [], false)

  /** One iteration of the loop over `values_changed`. */
  function Classify(acc: Changes, c: Change): Changes {
    match KindOf(c.path)
    case JvmChange => acc.(jvm := acc.jvm + [c], requiresRestart := true)
    case ServiceChange => acc.(service := acc.service + [c], requiresRestart := true)
    case ClusterChange => acc.(cluster := acc.cluster + [c])
    case Unclassified => acc
  }

  /** The result of the loop after the entries `cs`. */
  function Analyze(cs: seq<Change>): Changes
    decreases |cs|
  {
    if cs == [] then NoChanges else Classify(Analyze(cs[..|cs| - 1]), cs[|cs| - 1])
  }

  method AnalyzeConfigDiff(valuesChanged: seq<Change>) returns (changes: Changes)
    ensures changes == Analyze(valuesChanged)
  {
    changes := NoChanges;
    var i := 0;
    while i < |valuesChanged|
      invariant 0 <= i <= |valuesChanged|
      invariant changes == Analyze(valuesChanged[..i])
    {
      var c := valuesChanged[i];
      assert valuesChanged[..i + 1][..i] == valuesChanged[..i];
      var kind := KindOf(c.path);
      if kind == JvmChange {
        changes := changes.(jvm := changes.jvm + [c], requiresRestart := true);
      } else if kind == ServiceChange {
        changes := changes.(service := changes.service + [c], requiresRestart := true);
      } else if kind == ClusterChange {
        changes := changes.(cluster := changes.cluster + [c]);
      }
      i := i + 1;
    }
    assert valuesChanged[..i] == valuesChanged;
  }

  /** Reference definition: the entries of kind `k`, in their order. */
  function Select(cs: seq<Change>, k: Kind): seq<Change>
    decreases |cs|
  {
    if cs == [] then []
    else (if KindOf(cs[0].path) == k then [cs[0]] else []) + Select(cs[1..], k)
  }

  lemma {:induction false} SelectAppend(cs: seq<Change>, c: Change, k: Kind)
    ensures Select(cs + [c], k) == Select(cs, k) + (if KindOf(c.path) == k then [c] else [])
    decreases |cs|
  {
    if cs != [] {
      assert (cs + [c])[1..] == cs[1..] + [c];
      SelectAppend(cs[1..], c, k);
    }
  }

  /** An entry is selected iff it is one of the entries and has kind `k`. */
  lemma {:induction false} SelectMembers(cs: seq<Change>, k: Kind, c: Change)
    ensures c in Select(cs, k) <==> c in cs && KindOf(c.path) == k
    ensures |Select(cs, k)| <= |cs|
    decreases |cs|
  {
    if cs != [] {
      SelectMembers(cs[1..], k, c);
      assert cs == [cs[0]] + cs[1..];
    }
  }

  /** Each list holds exactly the entries of its kind, in diff order; a
      restart is required iff some entry is a JVM or service_config change,
      so cluster changes alone never require one. */
  lemma {:induction false} AnalyzeSpec(cs: seq<Change>)
    ensures Analyze(cs).jvm == Select(cs, JvmChange)
    ensures Analyze(cs).service == Select(cs, ServiceChange)
    ensures Analyze(cs).cluster == Select(cs, ClusterChange)
    ensures Analyze(cs).requiresRestart <==> exists i :: 0 <= i < |cs| && NeedsRestart(KindOf(cs[i].path))
    decreases |cs|
  {
    if cs != [] {
      var front := cs[..|cs| - 1];
      var c := cs[|cs| - 1];
      assert cs == front + [c];
      AnalyzeSpec(front);
      SelectAppend(front, c, JvmChange);
      SelectAppend(front, c, ServiceChange);
      SelectAppend(front, c, ClusterChange);
      if Analyze(front).requiresRestart {
        var i :| 0 <= i < |front| && NeedsRestart(KindOf(front[i].path));
        assert cs[i] == front[i];
      }
      if exists i :: 0 <= i < |cs| && NeedsRestart(KindOf(cs[i].path)) {
        var i :| 0 <= i < |cs| && NeedsRestart(KindOf(cs[i].path));
        if i < |front| {
          assert front[i] == cs[i];
        }
      }
    }
  }

  /** The three selections share out the entries: together they hold each
      entry of the diff at most as often as the diff does. */
  lemma {:induction false} SelectShares(cs: seq<Change>)
    ensures multiset(Select(cs, JvmChange)) + multiset(Select(cs, ServiceChange)) +
      multiset(Select(cs, ClusterChange)) <= multiset(cs)
    ensures |Select(cs, JvmChange)| + |Select(cs, ServiceChange)| + |Select(cs, ClusterChange)| <= |cs|
    decreases |cs|
  {
    if cs != [] {
      SelectShares(cs[1..]);
      assert cs == [cs[0]] + cs[1..];
    }
  }

  /** A classified entry keeps its path and both values, and nothing is
      reported twice: the three lists together hold each entry at most as
      often as the diff does, so they are no longer than the diff. */
  lemma AnalyzeKeepsEntries(cs: seq<Change>, c: Change)
    ensures c in Analyze(cs).jvm || c in Analyze(cs).service || c in Analyze(cs).cluster
      <==> c in cs && KindOf(c.path) != Unclassified
    ensures multiset(Analyze(cs).jvm) + multiset(Analyze(cs).service) + multiset(Analyze(cs).cluster)
      <= multiset(cs)
    ensures |Analyze(cs).jvm| + |Analyze(cs).service| + |Analyze(cs).cluster| <= |cs|
  {
    AnalyzeSpec(cs);
    SelectMembers(cs, JvmChange, c);
    SelectMembers(cs, ServiceChange, c);
    SelectMembers(cs, ClusterChange, c);
    SelectShares(cs);
  }

  // ---------------------------------------------------------------------
  // Backup file names and their timestamps
  // ---------------------------------------------------------------------

  /** `config_{timestamp}.yaml` */
  function BackupName(timestamp: string): string {
    "config_" + timestamp + ".yaml"
  }

  /** The glob `config_*.yaml`. */
  predicate MatchesGlob(name: string) {
    |name| >= 12 && StartsWith(name, "config_") && EndsWith(name, ".yaml")
  }

  /** `Path(name).stem` for a name ending in `.yaml`. */
  function Stem(name: string): string {
    if EndsWith(name, ".yaml") then name[..|name| - 5] else name
  }

  /** `s.replace(pat, '')`: every occurrence, scanning left to right. */
  function RemoveAll(s: string, pat: string): string
    requires |pat| > 0
    decreases |s|
  {
    if |s| < |pat| then s
    else if s[..|pat|] == pat then RemoveAll(s[|pat|..], pat)
    else [s[0]] + RemoveAll(s[1..], pat)
  }

  /** `backup.stem.replace('config_', '')` */
  function Timestamp(name: string): string {
    RemoveAll(Stem(name), "config_")
  }

  /** An occurrence in the tail is an occurrence one place further on. */
  lemma OccursAtTail(s: string, pat: string, i: nat)
    requires |s| > 0
    ensures OccursAt(s[1..], pat, i) ==> OccursAt(s, pat, i + 1)
  {
    if OccursAt(s[1..], pat, i) {
      forall j | 0 <= j < |pat| ensures s[i + 1..i + 1 + |pat|][j] == pat[j] {
        assert s[1..][i..i + |pat|][j] == pat[j];
      }
    }
  }

  lemma {:induction false} RemoveAllAbsent(s: string, pat: string)
    requires |pat| > 0 && !Contains(s, pat)
    ensures RemoveAll(s, pat) == s
    decreases |s|
  {
    if |s| >= |pat| {
      assert !OccursAt(s, pat, 0);
      assert !Contains(s[1..], pat) by {
        forall i: nat | i <= |s[1..]| ensures !OccursAt(s[1..], pat, i) {
          OccursAtTail(s, pat, i);
        }
      }
      RemoveAllAbsent(s[1..], pat);
      assert s == [s[0]] + s[1..];
    }
  }

  /** What `strftime('%Y%m%d_%H%M%S')` produces: digits and underscores. */
  predicate TimestampShaped(ts: string) {
    forall i :: 0 <= i < |ts| ==> IsDigit(ts[i]) || ts[i] == '_'
  }

  /** The timestamp listed for a backup is the one it was written with,
      whenever the timestamp itself does not contain `config_`; in particular
      for every timestamp the clock produces. */
  lemma TimestampOfBackupName(ts: string)
    requires !Contains(ts, "config_")
    ensures MatchesGlob(BackupName(ts))
    ensures Timestamp(BackupName(ts)) == ts
  {
    var n := BackupName(ts);
    assert n[..7] == "config_";
    assert n[|n| - 5..] == ".yaml";
    assert Stem(n) == "config_" + ts;
    var st := "config_" + ts;
    assert st[..7] == "config_" && st[7..] == ts;
    RemoveAllAbsent(ts, "config_");
  }

  lemma ClockTimestampsAreClean(ts: string)
    requires TimestampShaped(ts)
    ensures !Contains(ts, "config_")
  {
    forall i: nat | i <= |ts| ensures !OccursAt(ts, "config_", i) {
      if i + 7 <= |ts| {
        assert ts[i..i + 7][0] == ts[i];
      }
    }
  }

  lemma BackupNameInjective(a: string, b: string)
    requires BackupName(a) == BackupName(b)
    ensures a == b
  {
    var n := BackupName(a);
    assert n[7..|n| - 5] == a;
    assert BackupName(b)[7..|n| - 5] == b;
  }

  // ---------------------------------------------------------------------
  // Sorting file names newest first: `sorted(..., reverse=True)`
  // ---------------------------------------------------------------------

  predicate NewestFirst(s: seq<string>) {
    forall i, j :: 0 <= i < j < |s| ==> LexLe(s[j], s[i])
  }

  function InsertDesc(x: string, s: seq<string>): seq<string>
    decreases |s|
  {
    if s == [] || LexLe(s[0], x) then [x] + s else [s[0]] + InsertDesc(x, s[1..])
  }

  function SortDesc(s: seq<string>): seq<string>
    decreases |s|
  {
    if s == [] then [] else InsertDesc(s[0], SortDesc(s[1..]))
  }

  /** Insertion adds exactly `x`. */
  lemma {:induction false} InsertDescMultiset(x: string, s: seq<string>)
    ensures multiset(InsertDesc(x, s)) == multiset(s) + multiset{x}
    decreases |s|
  {
    if s != [] && !LexLe(s[0], x) {
      InsertDescMultiset(x, s[1..]);
      assert s == [s[0]] + s[1..];
    }
  }

  /** Every name of `InsertDesc(x, s)` is below a bound that bounds `x` and `s`. */
  lemma {:induction false} InsertDescBounded(x: string, s: seq<string>, b: string)
    requires LexLe(x, b)
    requires forall i :: 0 <= i < |s| ==> LexLe(s[i], b)
    ensures forall i :: 0 <= i < |InsertDesc(x, s)| ==> LexLe(InsertDesc(x, s)[i], b)
    decreases |s|
  {
    if s != [] && !LexLe(s[0], x) {
      var t := s[1..];
      assert forall i :: 0 <= i < |t| ==> LexLe(t[i], b) by {
        forall i | 0 <= i < |t| ensures LexLe(t[i], b) { assert t[i] == s[i + 1]; }
      }
      InsertDescBounded(x, t, b);
      var r := [s[0]] + InsertDesc(x, t);
      forall i | 0 < i < |r| ensures LexLe(r[i], b) { assert r[i] == InsertDesc(x, t)[i - 1]; }
    }
  }

  lemma {:induction false} InsertDescSorted(x: string, s: seq<string>)
    requires NewestFirst(s)
    ensures NewestFirst(InsertDesc(x, s))
    decreases |s|
  {
    if s == [] {
    } else if LexLe(s[0], x) {
      var r := [x] + s;
      forall i, j | 0 <= i < j < |r| ensures LexLe(r[j], r[i]) {
        if i == 0 {
          if j > 1 {
            LexLeTransitive(s[j - 1], s[0], x);
          }
        } else {
          assert r[i] == s[i - 1] && r[j] == s[j - 1];
        }
      }
    } else {
      LexLeTotal(s[0], x);
      var t := s[1..];
      assert NewestFirst(t) by {
        forall i, j | 0 <= i < j < |t| ensures LexLe(t[j], t[i]) {
          assert t[i] == s[i + 1] && t[j] == s[j + 1];
        }
      }
      assert forall i :: 0 <= i < |t| ==> LexLe(t[i], s[0]) by {
        forall i | 0 <= i < |t| ensures LexLe(t[i], s[0]) { assert t[i] == s[i + 1]; }
      }
      InsertDescSorted(x, t);
      InsertDescBounded(x, t, s[0]);
      var it := InsertDesc(x, t);
      var r := [s[0]] + it;
      forall i, j | 0 <= i < j < |r| ensures LexLe(r[j], r[i]) {
        if i == 0 {
          assert r[j] == it[j - 1];
        } else {
          assert r[i] == it[i - 1] && r[j] == it[j - 1];
        }
      }
    }
  }

  /** The listing order: newest first, and the same names. */
  lemma {:induction false} SortDescSpec(s: seq<string>)
    ensures NewestFirst(SortDesc(s))
    ensures multiset(SortDesc(s)) == multiset(s)
    decreases |s|
  {
    if s != [] {
      SortDescSpec(s[1..]);
      InsertDescSorted(s[0], SortDesc(s[1..]));
      InsertDescMultiset(s[0], SortDesc(s[1..]));
      assert s == [s[0]] + s[1..];
    }
  }

  // ---------------------------------------------------------------------
  // The backup directory and ConfigVersionManager
  // ---------------------------------------------------------------------

  /** The files of the backup directory that `glob('config_*.yaml')` finds. */
  function GlobNames(dir: seq<Item<Value>>): seq<string>
    decreases |dir|
  {
    if dir == [] then []
    else (if MatchesGlob(dir[0].key) then [dir[0].key] else []) + GlobNames(dir[1..])
  }

  lemma {:induction false} GlobNamesMembers(dir: seq<Item<Value>>, n: string)
    ensures n in GlobNames(dir) <==> MatchesGlob(n) && n in KeysOf(dir)
    decreases |dir|
  {
    if dir != [] {
      GlobNamesMembers(dir[1..], n);
      assert KeysOf(dir) == [dir[0].key] + KeysOf(dir[1..]);
    }
  }

  /** One row of `list_versions`: the path, the timestamp and the size. */
  datatype Version = Version(file: string, timestamp: string, size: nat)

  function SortedVersionNames(dir: seq<Item<Value>>): seq<string> {
    SortDesc(GlobNames(dir))
  }

  /** The size of the file `name`; `sizeOf` gives the byte size of a stored
      document, whose YAML rendering is not part of this model. */
  function FileSize(dir: seq<Item<Value>>, name: string, sizeOf: Value -> nat): nat {
    match Dicts.Get(dir, name)
    case Some(v) => sizeOf(v)
    case None => 0
  }

  function Versions(backupDir: string, dir: seq<Item<Value>>, sizeOf: Value -> nat): (r: seq<Version>)
    ensures |r| == |SortedVersionNames(dir)|
  {
    var names := SortedVersionNames(dir);
    seq(|names|, i requires 0 <= i < |names| =>
      Version(backupDir + "/" + names[i], Timestamp(names[i]), FileSize(dir, names[i], sizeOf)))
  }

  /** A listed name is one of the matching files of the directory. */
  lemma SortedVersionNamesMembers(dir: seq<Item<Value>>, n: string)
    ensures NewestFirst(SortedVersionNames(dir))
    ensures n in SortedVersionNames(dir) <==> MatchesGlob(n) && Dicts.Get(dir, n).Some?
  {
    SortDescSpec(GlobNames(dir));
    GlobNamesMembers(dir, n);
    GetSomeIffKey(dir, n);
    assert n in SortedVersionNames(dir) <==> n in multiset(SortedVersionNames(dir));
    assert n in GlobNames(dir) <==> n in multiset(GlobNames(dir));
  }

  /** `list_versions` lists every backup file matching `config_*.yaml` once,
      newest (greatest name) first, with the timestamp taken from its name
      and the size of that very file. */
  lemma VersionsSpec(backupDir: string, dir: seq<Item<Value>>, sizeOf: Value -> nat, n: string)
    ensures NewestFirst(SortedVersionNames(dir))
    ensures n in SortedVersionNames(dir) <==> MatchesGlob(n) && Dicts.Get(dir, n).Some?
    ensures forall i :: 0 <= i < |Versions(backupDir, dir, sizeOf)| ==>
      var name := SortedVersionNames(dir)[i];
      Dicts.Get(dir, name).Some? &&
      Versions(backupDir, dir, sizeOf)[i] ==
        Version(backupDir + "/" + name, Timestamp(name), sizeOf(Dicts.Get(dir, name).value))
  {
    SortedVersionNamesMembers(dir, n);
    var names := SortedVersionNames(dir);
    forall i | 0 <= i < |names| ensures Dicts.Get(dir, names[i]).Some? {
      SortedVersionNamesMembers(dir, names[i]);
    }
  }

  /** The backup directory after `backup_current_config` at time `now`. */
  function AfterBackup(dir: seq<Item<Value>>, config: Option<Value>, now: string): seq<Item<Value>> {
    if config.None? then dir else Set(dir, BackupName(now), config.value)
  }

  /** After a successful backup the listing is non-empty and shows the new
      backup under the timestamp it was taken at. */
  lemma BackupListed(backupDir: string, dir: seq<Item<Value>>, sizeOf: Value -> nat, config: Value, now: string)
    requires TimestampShaped(now)
    ensures |Versions(backupDir, AfterBackup(dir, Some(config), now), sizeOf)| >= 1
    ensures exists i :: (0 <= i < |Versions(backupDir, AfterBackup(dir, Some(config), now), sizeOf)| &&
      Versions(backupDir, AfterBackup(dir, Some(config), now), sizeOf)[i].timestamp == now &&
      Versions(backupDir, AfterBackup(dir, Some(config), now), sizeOf)[i].size == sizeOf(config))
  {
    var d := AfterBackup(dir, Some(config), now);
    var n := BackupName(now);
    ClockTimestampsAreClean(now);
    TimestampOfBackupName(now);
    VersionsSpec(backupDir, d, sizeOf, n);
    var names := SortedVersionNames(d);
    var i :| 0 <= i < |names| && names[i] == n;
    assert Versions(backupDir, d, sizeOf)[i].timestamp == Timestamp(n);
    assert Versions(backupDir, d, sizeOf)[i].size == sizeOf(config);
  }

  /** The configuration that `rollback_to_version(version)` leaves in place:
      the backup file is read after the current configuration was backed up. */
  function Restored(dir: seq<Item<Value>>, config: Option<Value>, version: string, now: string): Option<Value> {
    Dicts.Get(AfterBackup(dir, config, now), BackupName(version))
  }

  /** Rolling back to a version taken in an earlier second restores that
      version's content. */
  lemma RollbackRestoresVersion(dir: seq<Item<Value>>, config: Option<Value>, version: string, now: string)
    requires now != version
    ensures Restored(dir, config, version, now) == Dicts.Get(dir, BackupName(version))
  {
    if config.Some? {
      if BackupName(now) == BackupName(version) {
        BackupNameInjective(now, version);
      }
      SetOther(dir, BackupName(now), config.value, BackupName(version));
    }
  }

  /** Rolling back to a version taken in the same second as the rollback
      restores nothing: the pre-rollback backup overwrites that version's
      file first, so the current configuration stays. */
  lemma SameSecondRollbackKeepsCurrent(dir: seq<Item<Value>>, config: Value, now: string)
    ensures Restored(dir, Some(config), now, now) == Some(config)
  {
  }

  class ConfigVersionManager {
    /** The `.config_backups` directory beside the configuration file. */
    const backupDir: string
    /** The configuration file's content; None when the file does not exist. */
    var config: Option<Value>
    /** The files of the backup directory. */
    var backups: seq<Item<Value>>

    /** `mkdir(exist_ok=True)` on the backup directory: files already in it
        are kept. The directory's parent is the configuration file's own
        directory; were it missing, `mkdir` (without `parents=True`) would
        raise FileNotFoundError, which is not modelled. */
    constructor(backupDir: string, config: Option<Value>, existing: seq<Item<Value>>)
      ensures this.backupDir == backupDir && this.config == config && this.backups == existing
    {
      this.backupDir := backupDir;
      this.config := config;
      this.backups := existing;
    }

    /** Copies the configuration file to `config_{now}.yaml` and returns the
        backup's path; returns None and writes nothing when the file is missing. */
    method BackupCurrentConfig(now: string) returns (path: Option<string>)
      modifies this
      ensures config == old(config)
      ensures old(config).None? ==> path.None? && backups == old(backups)
      ensures old(config).Some? ==> path == Some(backupDir + "/" + BackupName(now))
      ensures backups == AfterBackup(old(backups), old(config), now)
    {
      if config.None? {
        return None;
      }
      backups := Set(backups, BackupName(now), config.value);
      path := Some(backupDir + "/" + BackupName(now));
    }

    function ListVersions(sizeOf: Value -> nat): seq<Version>
      reads this
    {
      Versions(backupDir, backups, sizeOf)
    }

    /** Fails with ValueError, changing nothing, when the requested backup is
        missing; otherwise backs up the current configuration and then copies
        the requested backup over the configuration file. */
    method RollbackToVersion(version: string, now: string) returns (r: Result<bool>)
      modifies this
      ensures Dicts.Get(old(backups), BackupName(version)).None? ==>
        r.Err? && r.error.kind == ValueError && backups == old(backups) && config == old(config)
      ensures Dicts.Get(old(backups), BackupName(version)).Some? ==>
        r == Ok(true) && backups == AfterBackup(old(backups), old(config), now) &&
        config == Restored(old(backups), old(config), version, now)
    {
      var file := BackupName(version);
      if Dicts.Get(backups, file).None? {
        return Err(Error(ValueError, "Version not found: " + version));
      }
      var _ := BackupCurrentConfig(now);
      config := Dicts.Get(backups, file);
      r := Ok(true);
    }
  }
}
