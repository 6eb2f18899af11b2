/** Schema versioning and database backups (src/main/services/DatabaseMigration.ts).
    The database is reduced to the `schema_version` table and the list of
    migrations whose scripts have committed; the directory holding the
    database file is an abstract file system. What a script, a copy or the
    version query answers is given to each operation. */
module Migration {
  import opened Types
  import opened Text
  import Files

  /** One entry of `getMigrations`. */
  datatype Migration = Migration(version: int, description: string, sql: string)

  /** `getMigrations`: a single migration, version 1, whose script holds only
      comments (the initial schema is created elsewhere). */
  const Migrations: seq<Migration> := [Migration(1, "初始化数据库结构", "")]

  /** A row of `schema_version`. */
  datatype VersionRow = VersionRow(version: int, appliedAt: string)

  /** The `schema_version` rows (None while the table does not exist) and
      the versions whose scripts have committed, in commit order. */
  datatype Db = Db(versions: Option<seq<VersionRow>>, executed: seq<int>)

  /** SQLite's messages for an insert into a missing table and for a
      repeated primary key. */
  const NoVersionTable := "no such table: schema_version"
  const DuplicateVersion := "UNIQUE constraint failed: schema_version.version"

  function VersionList(rows: seq<VersionRow>): (vs: seq<int>)
    ensures |vs| == |rows| && forall i :: 0 <= i < |rows| ==> vs[i] == rows[i].version
  {
    seq(|rows|, i requires 0 <= i < |rows| => rows[i].version)
  }

  /** The highest recorded version. */
  function MaxVersion(rows: seq<VersionRow>): (m: int)
    requires rows != []
    ensures m in VersionList(rows)
    ensures forall i :: 0 <= i < |rows| ==> rows[i].version <= m
    decreases |rows|
  {
    if |rows| == 1 then rows[0].version
    else
      var init := rows[..|rows| - 1];
      var m := MaxVersion(init);
      assert forall i :: 0 <= i < |init| ==> VersionList(rows)[i] == VersionList(init)[i];
      if rows[|rows| - 1].version > m then rows[|rows| - 1].version else m
  }

  /** `SELECT version FROM schema_version ORDER BY version DESC LIMIT 1`,
      or 0 when the table is empty. */
  function CurrentVersion(rows: seq<VersionRow>): (v: int)
    ensures rows == [] ==> v == 0
    ensures rows != [] ==> v in VersionList(rows) && forall i :: 0 <= i < |rows| ==> rows[i].version <= v
  {
    if rows == [] then 0 else MaxVersion(rows)
  }

  // ---------------------------------------------------------------------
  // executeMigrations
  // ---------------------------------------------------------------------

  /** What running one migration's transaction meets: the error its script
      raises, if any, and the clock text its row would record. */
  datatype Attempt = Attempt(scriptError: Option<string>, appliedAt: string)

  /** The database so far and the error that ended the run, if one did. */
  datatype Progress = Progress(db: Db, error: Option<string>)

  /** One migration: skipped unless its version is above `current`; run in a
      transaction that commits its script and its version row together, or
      rolls both back when the script fails, the table is missing or the
      version is already recorded. */
  function ApplyStep(p: Progress, m: Migration, a: Attempt, current: int): Progress
  {
    if p.error.Some? || m.version <= current then p
    else if a.scriptError.Some? then p.(error := a.scriptError)
    else if p.db.versions.None? then p.(error := Some(NoVersionTable))
    else if m.version in VersionList(p.db.versions.value) then p.(error := Some(DuplicateVersion))
    else Progress(Db(Some(p.db.versions.value + [VersionRow(m.version, a.appliedAt)]), p.db.executed + [m.version]), None)
  }

  /** `executeMigrations` over the list, in list order. */
  function ApplySpec(db: Db, migs: seq<Migration>, attempts: seq<Attempt>, current: int): Progress
    requires |attempts| == |migs|
    decreases |migs|
  {
    if migs == [] then Progress(db, None)
    else
      var n := |migs| - 1;
      ApplyStep(ApplySpec(db, migs[..n], attempts[..n], current), migs[n], attempts[n], current)
  }

  /** The rows the pending migrations (version above `current`) would add, in order. */
  function PendingRows(migs: seq<Migration>, attempts: seq<Attempt>, current: int): seq<VersionRow>
    requires |attempts| == |migs|
    decreases |migs|
  {
    if migs == [] then []
    else
      var n := |migs| - 1;
      var rest := PendingRows(migs[..n], attempts[..n], current);
      if migs[n].version > current then rest + [VersionRow(migs[n].version, attempts[n].appliedAt)] else rest
  }

  predicate Distinct(vs: seq<int>)
  {
    forall i, j :: 0 <= i < j < |vs| ==> vs[i] != vs[j]
  }

  lemma VersionListAppend(a: seq<VersionRow>, b: seq<VersionRow>)
    ensures VersionList(a + b) == VersionList(a) + VersionList(b)
  {
  }

  /** When every script succeeds and the pending versions are new and
      distinct, the run succeeds and commits exactly the pending migrations,
      in list order, each with its version row. */
  lemma {:induction false} AppliesPendingInOrder(db: Db, migs: seq<Migration>, attempts: seq<Attempt>, current: int)
    requires |attempts| == |migs| && db.versions.Some?
    requires forall i :: 0 <= i < |attempts| ==> attempts[i].scriptError.None?
    requires Distinct(VersionList(db.versions.value + PendingRows(migs, attempts, current)))
    ensures var pending := PendingRows(migs, attempts, current);
      ApplySpec(db, migs, attempts, current)
        == Progress(Db(Some(db.versions.value + pending), db.executed + VersionList(pending)), None)
    decreases |migs|
  {
    if migs == [] {
      assert db.versions.value + [] == db.versions.value && VersionList([]) == [];
      assert db.executed + [] == db.executed;
    } else {
      var n := |migs| - 1;
      var rows := db.versions.value;
      var rest := PendingRows(migs[..n], attempts[..n], current);
      if migs[n].version > current {
        var row := VersionRow(migs[n].version, attempts[n].appliedAt);
        assert rows + (rest + [row]) == (rows + rest) + [row];
        VersionListAppend(rows + rest, [row]);
        assert Distinct(VersionList(rows + rest)) by {
          assert forall i :: 0 <= i < |rows + rest| ==> VersionList(rows + rest)[i] == VersionList(rows + rest + [row])[i];
        }
        AppliesPendingInOrder(db, migs[..n], attempts[..n], current);
        assert migs[n].version !in VersionList(rows + rest) by {
          var all := VersionList(rows + rest + [row]);
          forall i | 0 <= i < |rows + rest| ensures VersionList(rows + rest)[i] != migs[n].version {
            assert VersionList(rows + rest)[i] == all[i];
            assert all[|all| - 1] == migs[n].version;
          }
        }
        VersionListAppend(rest, [row]);
        assert VersionList([row]) == [migs[n].version];
        assert db.executed + VersionList(rest) + [migs[n].version] == db.executed + VersionList(rest + [row]);
      } else {
        AppliesPendingInOrder(db, migs[..n], attempts[..n], current);
      }
    }
  }

  /** Once a migration has failed, the rest of the list changes nothing. */
  lemma {:induction false} StaysFailed(db: Db, migs: seq<Migration>, attempts: seq<Attempt>, more: seq<Migration>, moreAttempts: seq<Attempt>, current: int)
    requires |attempts| == |migs| && |moreAttempts| == |more|
    requires ApplySpec(db, migs, attempts, current).error.Some?
    ensures ApplySpec(db, migs + more, attempts + moreAttempts, current) == ApplySpec(db, migs, attempts, current)
    decreases |more|
  {
    if more == [] {
      assert migs + more == migs && attempts + moreAttempts == attempts;
    } else {
      var n := |more| - 1;
      assert (migs + more)[..|migs + more| - 1] == migs + more[..n];
      assert (attempts + moreAttempts)[..|attempts + moreAttempts| - 1] == attempts + moreAttempts[..n];
      StaysFailed(db, migs, attempts, more[..n], moreAttempts[..n], current);
    }
  }

  /** A failing migration ends the run: the migrations before it stay
      committed, its own script and row are rolled back, and none after it
      runs. */
  lemma FailureStopsRun(db: Db, migs: seq<Migration>, attempts: seq<Attempt>, current: int, k: nat)
    requires |attempts| == |migs| && k < |migs|
    requires ApplySpec(db, migs[..k], attempts[..k], current).error.None?
    requires ApplySpec(db, migs[..k + 1], attempts[..k + 1], current).error.Some?
    ensures ApplySpec(db, migs, attempts, current).db == ApplySpec(db, migs[..k], attempts[..k], current).db
    ensures ApplySpec(db, migs, attempts, current).error.Some?
  {
    assert migs[..k + 1][..k] == migs[..k] && attempts[..k + 1][..k] == attempts[..k];
    StaysFailed(db, migs[..k + 1], attempts[..k + 1], migs[k + 1..], attempts[k + 1..], current);
    assert migs[..k + 1] + migs[k + 1..] == migs;
    assert attempts[..k + 1] + attempts[k + 1..] == attempts;
  }

  /** A migration whose script fails leaves the database as it was. */
  lemma FailedScriptRolledBack(db: Db, m: Migration, message: string, stamp: string, current: int)
    requires m.version > current
    ensures ApplySpec(db, [m], [Attempt(Some(message), stamp)], current) == Progress(db, Some(message))
  {
    assert [m][..0] == [] && [Attempt(Some(message), stamp)][..0] == [];
  }

  /** Migrations at or below the current version are never run. */
  lemma {:induction false} NothingPending(db: Db, migs: seq<Migration>, attempts: seq<Attempt>, current: int)
    requires |attempts| == |migs|
    requires forall i :: 0 <= i < |migs| ==> migs[i].version <= current
    ensures ApplySpec(db, migs, attempts, current) == Progress(db, None)
    decreases |migs|
  {
    if migs != [] {
      NothingPending(db, migs[..|migs| - 1], attempts[..|attempts| - 1], current);
    }
  }

  /** A run only appends rows above the starting version, keeps the table,
      and when it succeeds every pending version is recorded. */
  lemma {:induction false} RunRecordsPending(db: Db, migs: seq<Migration>, attempts: seq<Attempt>, current: int)
    requires |attempts| == |migs| && db.versions.Some?
    ensures var r := ApplySpec(db, migs, attempts, current);
      && r.db.versions.Some?
      && |db.versions.value| <= |r.db.versions.value|
      && r.db.versions.value[..|db.versions.value|] == db.versions.value
      && (forall k :: |db.versions.value| <= k < |r.db.versions.value| ==> r.db.versions.value[k].version > current)
      && (r.error.None? ==> forall i :: 0 <= i < |migs| && migs[i].version > current ==> migs[i].version in VersionList(r.db.versions.value))
    decreases |migs|
  {
    if migs != [] {
      var n := |migs| - 1;
      RunRecordsPending(db, migs[..n], attempts[..n], current);
      var p := ApplySpec(db, migs[..n], attempts[..n], current);
      var r := ApplySpec(db, migs, attempts, current);
      assert r == ApplyStep(p, migs[n], attempts[n], current);
      if r.error.None? {
        assert p.error.None?;
        var before := p.db.versions.value;
        var after := r.db.versions.value;
        assert before <= after;
        forall i | 0 <= i < |migs| && migs[i].version > current
          ensures migs[i].version in VersionList(after)
        {
          if i < n {
            assert migs[i] == migs[..n][i];
            var j :| 0 <= j < |before| && VersionList(before)[j] == migs[i].version;
            assert VersionList(after)[j] == migs[i].version;
          } else {
            assert migs[n].version in VersionList(before) || VersionList(after)[|after| - 1] == migs[n].version;
          }
        }
      }
    }
  }

  /** The current version never drops when rows above it are appended. */
  lemma CurrentVersionGrows(rows: seq<VersionRow>, rows': seq<VersionRow>)
    requires |rows| <= |rows'| && rows'[..|rows|] == rows
    requires forall k :: |rows| <= k < |rows'| ==> rows'[k].version > CurrentVersion(rows)
    ensures CurrentVersion(rows') >= CurrentVersion(rows)
  {
    if rows != [] {
      var j :| 0 <= j < |rows| && VersionList(rows)[j] == CurrentVersion(rows);
      assert rows'[j] == rows[j];
    } else if rows' != [] {
      assert rows'[0].version > 0;
    }
  }

  /** `migrate` run twice: once a run from the recorded version has
      succeeded, a second run from the new recorded version applies nothing. */
  lemma SecondRunAppliesNothing(db: Db, migs: seq<Migration>, attempts: seq<Attempt>, attempts2: seq<Attempt>)
    requires |attempts| == |migs| && |attempts2| == |migs| && db.versions.Some?
    requires ApplySpec(db, migs, attempts, CurrentVersion(db.versions.value)).error.None?
    ensures var db' := ApplySpec(db, migs, attempts, CurrentVersion(db.versions.value)).db;
      && db'.versions.Some?
      && ApplySpec(db', migs, attempts2, CurrentVersion(db'.versions.value)) == Progress(db', None)
  {
    var current := CurrentVersion(db.versions.value);
    RunRecordsPending(db, migs, attempts, current);
    var db' := ApplySpec(db, migs, attempts, current).db;
    var rows' := db'.versions.value;
    CurrentVersionGrows(db.versions.value, rows');
    forall i | 0 <= i < |migs| ensures migs[i].version <= CurrentVersion(rows') {
      if migs[i].version > current {
        var j :| 0 <= j < |rows'| && VersionList(rows')[j] == migs[i].version;
      }
    }
    NothingPending(db', migs, attempts2, CurrentVersion(rows'));
  }

  // ---------------------------------------------------------------------
  // migrate
  // ---------------------------------------------------------------------

  /** `getCurrentVersion` then `executeMigrations`: the version read first
      (creating an empty table when it is missing, or 0 without touching
      anything when the query fails), then the run from it. */
  function MigrateSpec(db: Db, queryFails: bool, attempts: seq<Attempt>): Progress
    requires |attempts| == |Migrations|
  {
    var start := if !queryFails && db.versions.None? then db.(versions := Some([])) else db;
    var current := if queryFails || db.versions.None? then 0 else CurrentVersion(db.versions.value);
    ApplySpec(start, Migrations, attempts, current)
  }

  /** A fresh database gets version 1 recorded; one that already has it is
      left alone. */
  lemma MigrateFreshAndAgain(executed: seq<int>, a: Attempt, b: Attempt)
    requires a.scriptError.None?
    ensures MigrateSpec(Db(None, executed), false, [a])
              == Progress(Db(Some([VersionRow(1, a.appliedAt)]), executed + [1]), None)
    ensures var db := MigrateSpec(Db(None, executed), false, [a]).db;
      MigrateSpec(db, false, [b]) == Progress(db, None)
  {
    assert Migrations[..0] == [] && [a][..0] == [] && [b][..0] == [];
    var rows := [VersionRow(1, a.appliedAt)];
    assert VersionList([]) == [];
    assert [] + rows == rows;
    assert CurrentVersion(rows) == 1;
  }

  // ---------------------------------------------------------------------
  // Backups
  // ---------------------------------------------------------------------

  /** `backup`'s path: the first ".db" of the database path replaced by
      "_backup_<clock>.db". */
  function BackupPath(dbPath: string, ts: nat): string
  {
    ReplaceFirst(dbPath, ".db", "_backup_" + NatToString(ts) + ".db")
  }

  /** `pat` starts at no position of `s` before `n`. */
  predicate AbsentBefore(s: string, pat: string, n: nat)
  {
    forall i :: 0 <= i < n && i <= |s| ==> !StartsWith(s[i..], pat)
  }

  /** `ReplaceFirst` replaces the first occurrence, wherever it is. */
  lemma {:induction false} ReplaceFirstAt(pre: string, pat: string, post: string, rep: string)
    requires AbsentBefore(pre + pat + post, pat, |pre|)
    ensures ReplaceFirst(pre + pat + post, pat, rep) == pre + rep + post
    decreases |pre|
  {
    var s := pre + pat + post;
    if pre == [] {
      assert s == pat + post;
      assert s[..|pat|] == pat;
    } else {
      assert !StartsWith(s[0..], pat);
      assert s[0..] == s;
      var tail := pre[1..] + pat + post;
      assert s[1..] == tail;
      assert AbsentBefore(tail, pat, |pre| - 1) by {
        forall i | 0 <= i < |pre| - 1 && i <= |tail| ensures !StartsWith(tail[i..], pat) {
          assert tail[i..] == s[i + 1..];
        }
      }
      ReplaceFirstAt(pre[1..], pat, post, rep);
      assert s[0] == pre[0];
      assert [pre[0]] + (pre[1..] + rep + post) == pre + rep + post;
    }
  }

  /** For a path whose only ".db" is its suffix, the backup sits beside it
      with the clock before the suffix. */
  lemma BackupBesideDatabase(stem: string, ts: nat)
    requires AbsentBefore(stem + ".db", ".db", |stem|)
    ensures BackupPath(stem + ".db", ts) == stem + "_backup_" + NatToString(ts) + ".db"
  {
    assert stem + ".db" == stem + ".db" + "";
    ReplaceFirstAt(stem, ".db", "", "_backup_" + NatToString(ts) + ".db");
  }

  /** An earlier ".db" elsewhere in the path is the one replaced: for a
      directory named `<dir>.db`, the backup path names the file inside a
      sibling directory `<dir>_backup_<ts>.db`, outside the database's own
      directory; unless that directory exists, the copy fails. */
  lemma BackupReplacesFirstOccurrence(dir: string, name: string, ts: nat)
    requires forall i :: 0 <= i < |dir| ==> dir[i] != '.'
    ensures BackupPath(dir + ".db/" + name, ts) == dir + "_backup_" + NatToString(ts) + ".db/" + name
  {
    var rep := "_backup_" + NatToString(ts) + ".db";
    var post := "/" + name;
    var path := dir + ".db" + post;
    assert dir + ".db/" + name == path;
    assert AbsentBefore(path, ".db", |dir|) by {
      forall i | 0 <= i < |dir| && i <= |path| ensures !StartsWith(path[i..], ".db") {
        assert path[i..][0] == dir[i];
      }
    }
    ReplaceFirstAt(dir, ".db", post, rep);
    assert dir + rep + post == dir + "_backup_" + NatToString(ts) + ".db/" + name;
  }

  /** Without ".db" the backup path is the database path itself. */
  lemma {:induction false} BackupWithoutSuffix(dbPath: string, ts: nat)
    requires AbsentBefore(dbPath, ".db", |dbPath| + 1)
    ensures BackupPath(dbPath, ts) == dbPath
    decreases |dbPath|
  {
    NoOccurrenceUnchanged(dbPath, ".db", "_backup_" + NatToString(ts) + ".db");
  }

  lemma {:induction false} NoOccurrenceUnchanged(s: string, pat: string, rep: string)
    requires AbsentBefore(s, pat, |s| + 1)
    ensures ReplaceFirst(s, pat, rep) == s
    decreases |s|
  {
    assert s[0..] == s;
    if s != [] {
      assert AbsentBefore(s[1..], pat, |s[1..]| + 1) by {
        forall i | 0 <= i < |s[1..]| + 1 && i <= |s[1..]| ensures !StartsWith(s[1..][i..], pat) {
          assert s[1..][i..] == s[i + 1..];
        }
      }
      NoOccurrenceUnchanged(s[1..], pat, rep);
      assert [s[0]] + s[1..] == s;
    }
  }

  /** `path.dirname` (POSIX): everything before the last '/', trailing
      slashes ignored; "." when there is none, "/" at the root. */
  function Dirname(p: string): string
  {
    var t := Files.TrimTrailingSlashes(p);
    if t == [] then (if p == [] then "." else "/")
    else
      var k := Files.LastIndex(t, '/');
      if k.None? then "." else if k.value == 0 then "/" else t[..k.value]
  }

  /** `path.join(dir, name)` for a directory from `Dirname` and a plain name. */
  function JoinIn(dir: string, name: string): string
  {
    if dir == "." then name else if dir != [] && dir[|dir| - 1] == '/' then dir + name else dir + "/" + name
  }

  lemma JoinInInjective(dir: string, a: string, b: string)
    requires JoinIn(dir, a) == JoinIn(dir, b)
    ensures a == b
  {
    if dir != "." {
      var head := if dir != [] && dir[|dir| - 1] == '/' then dir else dir + "/";
      assert JoinIn(dir, a) == head + a && JoinIn(dir, b) == head + b;
      assert a == (head + a)[|head|..] && b == (head + b)[|head|..];
    }
  }

  /** The names `cleanupOldBackups` considers. */
  predicate IsBackupName(name: string)
  {
    Contains(name, "_backup_") && EndsWith(name, ".db")
  }

  /** The listed backup names as paths in `dir`, in listing order. */
  function BackupPaths(dir: string, names: seq<string>): (r: seq<string>)
    decreases |names|
  {
    if names == [] then []
    else
      var rest := BackupPaths(dir, names[..|names| - 1]);
      var n := names[|names| - 1];
      if IsBackupName(n) then rest + [JoinIn(dir, n)] else rest
  }

  /** Only backup names reach the sweep. */
  lemma {:induction false} BackupPathsAreBackups(dir: string, names: seq<string>, q: string)
    requires q in BackupPaths(dir, names)
    ensures exists n :: n in names && IsBackupName(n) && q == JoinIn(dir, n)
    decreases |names|
  {
    var init := names[..|names| - 1];
    var n := names[|names| - 1];
    if !(IsBackupName(n) && q == JoinIn(dir, n)) {
      BackupPathsAreBackups(dir, init, q);
      var m :| m in init && IsBackupName(m) && q == JoinIn(dir, m);
      assert m in names;
    }
  }

  const DayMs: nat := 24 * 60 * 60 * 1000
  const DefaultKeepDays: int := 7

  /** The source's test `mtime < now - keepDays days` is the shared age test. */
  lemma CutoffIsAge(f: Files.FileData, now: int, keepDays: int)
    ensures Files.Expired(f, now, keepDays * DayMs) <==> f.mtime < now - keepDays * DayMs
  {
  }

  /** A file whose name is not a backup name survives any cleanup, whatever its age. */
  lemma CleanupSparesOtherNames(fs: Files.FileSystem, dir: string, names: seq<string>, name: string, now: int, keepDays: int)
    requires !IsBackupName(name)
    ensures var r := Files.SweepSpec(fs, BackupPaths(dir, names), now, keepDays * DayMs).files;
      (JoinIn(dir, name) in r <==> JoinIn(dir, name) in fs)
      && (JoinIn(dir, name) in fs ==> r[JoinIn(dir, name)] == fs[JoinIn(dir, name)])
  {
    var q := JoinIn(dir, name);
    if q in BackupPaths(dir, names) {
      BackupPathsAreBackups(dir, names, q);
      var n :| n in names && IsBackupName(n) && q == JoinIn(dir, n);
      JoinInInjective(dir, name, n);
      assert false;
    }
    Files.SweepKeepsUnlisted(fs, BackupPaths(dir, names), now, keepDays * DayMs, q);
  }

  // ---------------------------------------------------------------------
  // The migrator
  // ---------------------------------------------------------------------

  class DatabaseMigration {
    const dbPath: string
    var db: Db
    /** The files of the directory holding the database, by path. */
    var files: Files.FileSystem
    /** Whether `restore` has closed the connection. */
    var closed: bool

    constructor (dbPath: string, db: Db, files: Files.FileSystem)
      ensures this.dbPath == dbPath && this.db == db && this.files == files && !closed
    {
      this.dbPath := dbPath;
      this.db := db;
      this.files := files;
      closed := false;
    }

    /** `getCurrentVersion`; `queryFails` is whether the query throws. */
    method GetCurrentVersion(queryFails: bool) returns (v: int)
      modifies this
      ensures files == old(files) && closed == old(closed) && db.executed == old(db.executed)
      ensures queryFails ==> v == 0 && db == old(db)
      ensures !queryFails && old(db.versions).None? ==> v == 0 && db.versions == Some([])
      ensures !queryFails && old(db.versions).Some? ==> v == CurrentVersion(old(db.versions).value) && db == old(db)
    {
      if queryFails {
        return 0;
      }
      if db.versions.None? {
        db := db.(versions := Some([]));
        return 0;
      }
      v := CurrentVersion(db.versions.value);
    }

    /** `executeMigrations`: each migration above `current`, in list order,
        in its own transaction; the first failure is rethrown. */
    method ExecuteMigrations(current: int, migrations: seq<Migration>, attempts: seq<Attempt>) returns (r: Result<()>)
      requires |attempts| == |migrations|
      modifies this
      ensures files == old(files) && closed == old(closed)
      ensures var p := ApplySpec(old(db), migrations, attempts, current);
        && db == p.db
        && (p.error.None? ==> r == Ok(()))
        && (p.error.Some? ==> r == Err(PlainError(p.error.value)))
    {
      var i := 0;
      while i < |migrations|
        invariant 0 <= i <= |migrations|
        invariant ApplySpec(old(db), migrations[..i], attempts[..i], current) == Progress(db, None)
        invariant files == old(files) && closed == old(closed)
      {
        assert migrations[..i + 1][..i] == migrations[..i] && attempts[..i + 1][..i] == attempts[..i];
        var m := migrations[i];
        var a := attempts[i];
        if m.version > current {
          var failure: Option<string> := None;
          if a.scriptError.Some? {
            failure := a.scriptError;
          } else if db.versions.None? {
            failure := Some(NoVersionTable);
          } else if m.version in VersionList(db.versions.value) {
            failure := Some(DuplicateVersion);
          }
          if failure.Some? {
            StaysFailed(old(db), migrations[..i + 1], attempts[..i + 1], migrations[i + 1..], attempts[i + 1..], current);
            assert migrations[..i + 1] + migrations[i + 1..] == migrations;
            assert attempts[..i + 1] + attempts[i + 1..] == attempts;
            return Err(PlainError(failure.value));
          }
          db := Db(Some(db.versions.value + [VersionRow(m.version, a.appliedAt)]), db.executed + [m.version]);
        }
        i := i + 1;
      }
      assert migrations[..i] == migrations && attempts[..i] == attempts;
      r := Ok(());
    }

    /** `migrate`: read the version, run the fixed migration list from it,
        rethrow the first failure. */
    method Migrate(queryFails: bool, attempts: seq<Attempt>) returns (r: Result<()>)
      requires |attempts| == |Migrations|
      modifies this
      ensures files == old(files) && closed == old(closed)
      ensures var p := MigrateSpec(old(db), queryFails, attempts);
        && db == p.db
        && (p.error.None? ==> r == Ok(()))
        && (p.error.Some? ==> r == Err(PlainError(p.error.value)))
    {
      var current := GetCurrentVersion(queryFails);
      r := ExecuteMigrations(current, Migrations, attempts);
    }

    /** `backup` at clock `ts`; `copyError` is what a failing copy throws.
        A missing database file fails the copy too. */
    method Backup(ts: nat, copyError: Option<string>) returns (r: Result<string>)
      modifies this
      ensures db == old(db) && closed == old(closed)
      ensures dbPath !in old(files) || copyError.Some? ==> r.Err? && files == old(files)
      ensures dbPath in old(files) && copyError.None? ==>
        && r == Ok(BackupPath(dbPath, ts))
        && files == old(files)[BackupPath(dbPath, ts) := Files.FileData(old(files)[dbPath].size, ts, true, true)]
    {
      var path := BackupPath(dbPath, ts);
      if dbPath !in files {
        return Err(PlainError("ENOENT: no such file or directory, copyfile '" + dbPath + "' -> '" + path + "'"));
      }
      if copyError.Some? {
        return Err(PlainError(copyError.value));
      }
      files := files[path := Files.FileData(files[dbPath].size, ts, true, true)];
      r := Ok(path);
    }

    /** `restore`: a missing backup fails before anything happens; otherwise
        the connection is closed and the backup copied over the database. */
    method Restore(backupPath: string, copyError: Option<string>, now: int) returns (r: Result<()>)
      modifies this
      ensures db == old(db)
      ensures backupPath !in old(files) ==>
        r == Err(PlainError("备份文件不存在")) && files == old(files) && closed == old(closed)
      ensures backupPath in old(files) && copyError.Some? ==>
        r == Err(PlainError(copyError.value)) && files == old(files) && closed
      ensures backupPath in old(files) && copyError.None? ==>
        && r == Ok(()) && closed
        && files == old(files)[dbPath := Files.FileData(old(files)[backupPath].size, now, true, true)]
    {
      if backupPath !in files {
        return Err(PlainError("备份文件不存在"));
      }
      closed := true;
      if copyError.Some? {
        return Err(PlainError(copyError.value));
      }
      files := files[dbPath := Files.FileData(files[backupPath].size, now, true, true)];
      r := Ok(());
    }

    /** `cleanupOldBackups`, given the directory listing (None when it
        cannot be read). Backups older than `keepDays` days are removed in
        listing order; a failing `stat` silently ends the cleanup. */
    method CleanupOldBackups(listing: Option<seq<string>>, keepDays: int, now: int)
      modifies this
      ensures db == old(db) && closed == old(closed)
      ensures listing.None? ==> files == old(files)
      ensures listing.Some? ==>
        files == Files.SweepSpec(old(files), BackupPaths(Dirname(dbPath), listing.value), now, keepDays * DayMs).files
    {
      if listing.None? {
        return;
      }
      var paths := BackupPaths(Dirname(dbPath), listing.value);
      var maxAge := keepDays * DayMs;
      ghost var count: nat, size: nat := 0, 0;
      var i := 0;
      while i < |paths|
        invariant 0 <= i <= |paths|
        invariant Files.SweepSpec(old(files), paths[..i], now, maxAge) == Files.Sweep(files, count, size, true)
        invariant db == old(db) && closed == old(closed)
      {
        var path := paths[i];
        assert paths[..i + 1][..i] == paths[..i];
        if path !in files {
          Files.SweepStaysFailed(old(files), paths[..i + 1], paths[i + 1..], now, maxAge);
          assert paths[..i + 1] + paths[i + 1..] == paths;
          return;
        }
        if files[path].mtime < now - maxAge {
          count, size := count + 1, size + files[path].size;
          files := files - {path};
        }
        i := i + 1;
      }
      assert paths[..i] == paths;
    }
  }
}
