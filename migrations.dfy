/** The migration manager (src/infrastructure/database/MigrationManager.ts) over an
    abstract database: the `migration_history` table is a map from version to its row,
    every other statement only goes to a log, and whether the database accepts a statement
    is an oracle. The SHA-256 checksum is an uninterpreted function.

    `applyMigration` runs the statements one by one, outside a transaction, and records
    the version only once all of them have run; `rollbackMigration` runs the stored
    rollback SQL and deletes the row inside one transaction. */
module Migrations {
  import opened Wrappers
  import opened Text
  import opened SqlSplit

  /** One migration file. */
  datatype Migration = Migration(version: string, name: string, up: string, down: string)

  /** A row of `migration_history` (its auto-increment id and timestamp are left out). */
  datatype HistoryRow = HistoryRow(name: string, rollbackSql: string, checksum: string)

  /** Why an operation threw. */
  datatype MigrationError =
    | StatementRejected(statement: string)   // the database rejected a migration statement
    | AlreadyRecorded(version: string)       // the UNIQUE constraint on `version` rejected the insert
    | NotFound(version: string)              // rollback of a version that is not in the history
    | RollbackRejected(version: string)      // the database rejected the rollback transaction

  /** The message of the error thrown for a rollback of an unknown version. */
  function NotFoundMessage(version: string): string {
    "Migration " + version + " not found"
  }

  /** The observable state of the database: the history table and the log of every
      statement sent to it. */
  datatype DbState = DbState(history: map<string, HistoryRow>, log: seq<string>)

  /** Index of the first statement the database rejects, or `|stmts|` when it accepts all. */
  function FirstRejected(accepts: string -> bool, stmts: seq<string>): (k: nat)
    ensures k <= |stmts|
    ensures forall j :: 0 <= j < k ==> accepts(stmts[j])
    ensures k < |stmts| ==> !accepts(stmts[k])
  {
    if stmts == [] || !accepts(stmts[0]) then 0 else 1 + FirstRejected(accepts, stmts[1..])
  }

  /** The statements `applyMigration` sends for `up`. */
  function UpStatements(m: Migration): seq<string> {
    SplitCleaned(Cleaned(m.up))
  }

  /** `applyMigration(m)` on state `st`: the statements run in order until one is rejected
      (the ones before it stay run); when all are accepted the version is inserted, which
      fails if it is already recorded. */
  function ApplyEffect(st: DbState, accepts: string -> bool, checksum: string -> string, m: Migration)
    : (Result<(), MigrationError>, DbState)
  {
    ApplyStatements(st, accepts, checksum, m, UpStatements(m))
  }

  /** `ApplyEffect` once the statements of the `up` SQL are known. */
  function ApplyStatements(st: DbState, accepts: string -> bool, checksum: string -> string, m: Migration, stmts: seq<string>)
    : (Result<(), MigrationError>, DbState)
  {
    var k := FirstRejected(accepts, stmts);
    if k < |stmts| then (Failure(StatementRejected(stmts[k])), DbState(st.history, st.log + stmts[..k + 1]))
    else if m.version in st.history then (Failure(AlreadyRecorded(m.version)), DbState(st.history, st.log + stmts))
    else (Success(()), DbState(st.history[m.version := HistoryRow(m.name, m.down, checksum(m.up))], st.log + stmts))
  }

  /** A migration is recorded only after every one of its statements has been accepted, and
      only under its own version with its name, rollback SQL and the checksum of its `up`
      SQL; nothing else in the history changes, and a failure records nothing. */
  lemma ApplyRecordsOnlyAfterStatements(st: DbState, accepts: string -> bool, checksum: string -> string, m: Migration)
    ensures var (r, st') := ApplyEffect(st, accepts, checksum, m);
      && (r.Success? <==> (forall s :: s in UpStatements(m) ==> accepts(s)) && m.version !in st.history)
      && (r.Success? ==> st'.history == st.history[m.version := HistoryRow(m.name, m.down, checksum(m.up))])
      && (r.Failure? ==> st'.history == st.history)
      && (r.Success? ==> st'.log == st.log + UpStatements(m))
  {
    var stmts := UpStatements(m);
    var k := FirstRejected(accepts, stmts);
    if k < |stmts| {
      assert stmts[k] in stmts;
    }
  }

  /** `migrations.filter(m => !applied.includes(m.version))`. */
  function PendingOf(ms: seq<Migration>, applied: set<string>): (r: seq<Migration>)
    ensures |r| <= |ms|
    ensures forall m :: m in r <==> m in ms && m.version !in applied
  {
    if ms == [] then []
    else (if ms[0].version !in applied then [ms[0]] else []) + PendingOf(ms[1..], applied)
  }

  /** The pending filter distributes over concatenation: pending migrations keep their
      list order, which is the order `runPendingMigrations` applies them in. */
  lemma {:induction false} PendingOfConcat(a: seq<Migration>, b: seq<Migration>, applied: set<string>)
    ensures PendingOf(a + b, applied) == PendingOf(a, applied) + PendingOf(b, applied)
  {
    if a == [] {
      assert a + b == b;
    } else {
      assert (a + b)[0] == a[0] && (a + b)[1..] == a[1..] + b;
      PendingOfConcat(a[1..], b, applied);
    }
  }

  /** `runPendingMigrations`' loop: apply each pending migration in order, stopping at the
      first one that throws. */
  function RunEffect(st: DbState, accepts: string -> bool, checksum: string -> string, pending: seq<Migration>)
    : (Result<(), MigrationError>, DbState)
    decreases |pending|
  {
    if pending == [] then (Success(()), st)
    else
      var (r, st1) := ApplyEffect(st, accepts, checksum, pending[0]);
      if r.Failure? then (r, st1) else RunEffect(st1, accepts, checksum, pending[1..])
  }

  /** A successful run records every pending migration and keeps every row already in the
      history. */
  lemma {:induction false} RunRecordsPending(st: DbState, accepts: string -> bool, checksum: string -> string, pending: seq<Migration>)
    ensures var (r, st') := RunEffect(st, accepts, checksum, pending);
      r.Success? ==>
        && (forall m :: m in pending ==> m.version in st'.history)
        && (forall v :: v in st.history ==> v in st'.history && st'.history[v] == st.history[v])
        && (forall v :: v in st'.history ==> v in st.history || exists m :: m in pending && m.version == v)
    decreases |pending|
  {
    if pending != [] {
      var (r1, st1) := ApplyEffect(st, accepts, checksum, pending[0]);
      ApplyRecordsOnlyAfterStatements(st, accepts, checksum, pending[0]);
      if r1.Success? {
        RunRecordsPending(st1, accepts, checksum, pending[1..]);
        var (r, st') := RunEffect(st1, accepts, checksum, pending[1..]);
        if r.Success? {
          forall m | m in pending ensures m.version in st'.history {
            if m != pending[0] {
              assert m in pending[1..];
            }
          }
          forall v | v in st'.history ensures v in st.history || exists m :: m in pending && m.version == v {
            if v !in st1.history {
              var m :| m in pending[1..] && m.version == v;
              assert m in pending;
            } else if v !in st.history {
              assert pending[0] in pending && pending[0].version == v;
            }
          }
        }
      }
    }
  }

  /** After a successful run nothing is pending any more: running again applies nothing. */
  lemma RunLeavesNothingPending(st: DbState, accepts: string -> bool, checksum: string -> string, ms: seq<Migration>)
    ensures var (r, st') := RunEffect(st, accepts, checksum, PendingOf(ms, st.history.Keys));
      r.Success? ==> PendingOf(ms, st'.history.Keys) == []
  {
    var pending := PendingOf(ms, st.history.Keys);
    RunRecordsPending(st, accepts, checksum, pending);
    var (r, st') := RunEffect(st, accepts, checksum, pending);
    if r.Success? {
      forall m | m in ms ensures m.version in st'.history {
        if m.version !in st.history {
          assert m in pending;
        }
      }
      AllRecordedNothingPending(ms, st'.history.Keys);
    }
  }

  lemma {:induction false} AllRecordedNothingPending(ms: seq<Migration>, applied: set<string>)
    requires forall m :: m in ms ==> m.version in applied
    ensures PendingOf(ms, applied) == []
  {
    if ms != [] {
      assert ms[0] in ms;
      assert forall m :: m in ms[1..] ==> m in ms;
      AllRecordedNothingPending(ms[1..], applied);
    }
  }

  /** `migrations.find(m => m.version === v)`. */
  function FirstWithVersion(ms: seq<Migration>, v: string): (r: Option<Migration>)
    ensures r.None? <==> forall m :: m in ms ==> m.version != v
    ensures r.Some? ==> r.value in ms && r.value.version == v
    ensures r.Some? ==> exists k :: 0 <= k < |ms| && ms[k] == r.value && forall j :: 0 <= j < k ==> ms[j].version != v
  {
    if ms == [] then None
    else if ms[0].version == v then Some(ms[0])
    else
      var r := FirstWithVersion(ms[1..], v);
      if r.Some? then
        var k :| 0 <= k < |ms[1..]| && ms[1..][k] == r.value && forall j :: 0 <= j < k ==> ms[1..][j].version != v;
        assert ms[k + 1] == r.value;
        r
      else r
  }

  /** What `validateMigrations` checks: every recorded version that has a migration file
      stores the checksum of that file's `up` SQL (the first file with that version).
      Versions without a file are skipped. */
  predicate ChecksumsMatch(history: map<string, HistoryRow>, ms: seq<Migration>, checksum: string -> string) {
    forall v :: v in history && FirstWithVersion(ms, v).Some? ==>
      history[v].checksum == checksum(FirstWithVersion(ms, v).value.up)
  }

  /** The database: the history table, the statement log and the acceptance oracle. */
  class Database {
    var history: map<string, HistoryRow>
    var log: seq<string>
    const accepts: string -> bool

    constructor (accepts: string -> bool)
      ensures history == map[] && log == [] && this.accepts == accepts
    {
      history := map[];
      log := [];
      this.accepts := accepts;
    }

    function State(): DbState
      reads this
    {
      DbState(history, log)
    }

    /** `tursoClient.execute(sql)` for a statement outside the history table. */
    method Execute(sql: string) returns (ok: bool)
      modifies this
      ensures ok == accepts(sql)
      ensures history == old(history) && log == old(log) + [sql]
    {
      ok := accepts(sql);
      log := log + [sql];
    }

    /** `INSERT INTO migration_history …`: rejected when the version is already there. */
    method Insert(version: string, row: HistoryRow) returns (ok: bool)
      modifies this
      ensures ok == (version !in old(history))
      ensures history == if ok then old(history)[version := row] else old(history)
      ensures log == old(log)
    {
      ok := version !in history;
      if ok {
        history := history[version := row];
      }
    }

    /** The rollback transaction: run `sql`, then delete the row of `version`; when the
        database rejects `sql` the transaction is rolled back and the row stays. */
    method RollbackTransaction(version: string, sql: string) returns (ok: bool)
      modifies this
      ensures ok == accepts(sql)
      ensures log == old(log) + [sql]
      ensures history == if ok then old(history) - {version} else old(history)
    {
      ok := accepts(sql);
      log := log + [sql];
      if ok {
        history := history - {version};
      }
    }
  }

  class MigrationManager {
    const db: Database
    const checksum: string -> string

    constructor (db: Database, checksum: string -> string)
      ensures this.db == db && this.checksum == checksum
    {
      this.db := db;
      this.checksum := checksum;
    }

    /** `getAppliedMigrations()`: every recorded version, each once. The `ORDER BY
        version` is not modelled; no caller depends on the order. */
    method GetAppliedMigrations() returns (versions: seq<string>)
      ensures forall v :: v in versions <==> v in db.history
      ensures forall i, j :: 0 <= i < j < |versions| ==> versions[i] != versions[j]
    {
      versions := [];
      var rest := db.history.Keys;
      while rest != {}
        invariant rest <= db.history.Keys
        invariant forall v :: v in db.history ==> (v in versions <==> v !in rest)
        invariant forall v :: v in versions ==> v in db.history
        invariant forall i, j :: 0 <= i < j < |versions| ==> versions[i] != versions[j]
        decreases rest
      {
        var v :| v in rest;
        versions := versions + [v];
        rest := rest - {v};
      }
    }

    /** `getMigrationStatus()`: the version and name of every recorded migration, each
        once, and their number. The `applied_at` column is not modelled. */
    method GetMigrationStatus() returns (applied: seq<(string, string)>, totalMigrations: nat)
      ensures totalMigrations == |applied| == |db.history|
      ensures forall k :: 0 <= k < |applied| ==> applied[k].0 in db.history && applied[k].1 == db.history[applied[k].0].name
      ensures forall v :: v in db.history ==> exists k :: 0 <= k < |applied| && applied[k].0 == v
    {
      var versions := GetAppliedMigrations();
      applied := [];
      for i := 0 to |versions|
        invariant |applied| == i
        invariant forall k :: 0 <= k < i ==> applied[k] == (versions[k], db.history[versions[k]].name)
      {
        applied := applied + [(versions[i], db.history[versions[i]].name)];
      }
      DistinctCardinality(versions);
      assert (set v | v in versions) == db.history.Keys;
      forall v | v in db.history ensures exists k :: 0 <= k < |applied| && applied[k].0 == v {
        var k :| 0 <= k < |versions| && versions[k] == v;
        assert applied[k].0 == v;
      }
      totalMigrations := |applied|;
    }

    /** The loop of `applyMigration`: run each non-blank statement in order and stop at
        the first one the database rejects (the exception leaves the loop). */
    method RunStatements(statements: seq<string>) returns (rejected: Option<string>)
      requires forall s :: s in statements ==> s != [] && IsTrimmed(s)
      modifies db
      ensures var k := FirstRejected(db.accepts, statements);
        && rejected == (if k < |statements| then Some(statements[k]) else None)
        && db.history == old(db.history)
        && db.log == old(db.log) + statements[..if k < |statements| then k + 1 else k]
    {
      ghost var k := FirstRejected(db.accepts, statements);
      for i := 0 to |statements|
        invariant db.history == old(db.history)
        invariant db.log == old(db.log) + statements[..i]
        invariant i <= k
      {
        var statement := statements[i];
        assert statement in statements;
        TrimmedIsFixpoint(statement);
        if Trim(statement) != [] {
          var ok := db.Execute(statement);
          assert statements[..i + 1] == statements[..i] + [statement];
          if !ok {
            assert i == k;
            return Some(statement);
          }
          assert i < k;
        }
      }
      assert statements[..|statements|] == statements;
      rejected := None;
    }

    /** `applyMigration(m)`. */
    method ApplyMigration(m: Migration) returns (r: Result<(), MigrationError>)
      modifies db
      ensures (r, db.State()) == ApplyEffect(old(db.State()), db.accepts, checksum, m)
    {
      var sum := checksum(m.up);
      var statements := SplitSqlStatements(m.up);
      ghost var before := db.State();
      assert ApplyEffect(before, db.accepts, checksum, m) == ApplyStatements(before, db.accepts, checksum, m, statements);
      r := ApplyLoggedStatements(m, sum, statements);
      assert (r, db.State()) == ApplyStatements(before, db.accepts, checksum, m, statements);
    }

    /** `applyMigration(m)` after its `up` SQL has been split into `statements`. */
    method ApplyLoggedStatements(m: Migration, sum: string, statements: seq<string>) returns (r: Result<(), MigrationError>)
      requires sum == checksum(m.up)
      requires forall s :: s in statements ==> s != [] && IsTrimmed(s)
      modifies db
      ensures (r, db.State()) == ApplyStatements(old(db.State()), db.accepts, checksum, m, statements)
    {
      ghost var k := FirstRejected(db.accepts, statements);
      var rejected := RunStatements(statements);
      if rejected.Some? {
        return Failure(StatementRejected(rejected.value));
      }
      assert statements[..k] == statements;
      var ok := db.Insert(m.version, HistoryRow(m.name, m.down, sum));
      if !ok {
        return Failure(AlreadyRecorded(m.version));
      }
      r := Success(());
    }

    /** `rollbackMigration(version)`. */
    method RollbackMigration(version: string) returns (r: Result<(), MigrationError>)
      modifies db
      ensures version !in old(db.history) ==> r == Failure(NotFound(version)) && db.State() == old(db.State())
      ensures version in old(db.history) ==>
        var sql := old(db.history)[version].rollbackSql;
        && (r.Success? <==> db.accepts(sql))
        && (r.Failure? ==> r.error == RollbackRejected(version))
        && db.log == old(db.log) + [sql]
        && db.history == (if r.Success? then old(db.history) - {version} else old(db.history))
    {
      if version !in db.history {
        return Failure(NotFound(version));
      }
      var rollbackSql := db.history[version].rollbackSql;
      var ok := db.RollbackTransaction(version, rollbackSql);
      if !ok {
        return Failure(RollbackRejected(version));
      }
      r := Success(());
    }

    /** `runPendingMigrations(migrations)`. */
    method RunPendingMigrations(migrations: seq<Migration>) returns (r: Result<(), MigrationError>)
      modifies db
      ensures (r, db.State()) == RunEffect(old(db.State()), db.accepts, checksum, PendingOf(migrations, old(db.history).Keys))
      ensures PendingOf(migrations, old(db.history).Keys) == [] ==> r.Success? && db.State() == old(db.State())
    {
      var applied := GetAppliedMigrations();
      assert (set v | v in applied) == db.history.Keys;
      var pending := PendingOf(migrations, set v | v in applied);
      if |pending| == 0 {
        return Success(());
      }

      for i := 0 to |pending|
        invariant RunEffect(old(db.State()), db.accepts, checksum, pending)
               == RunEffect(db.State(), db.accepts, checksum, pending[i..])
      {
        assert pending[i..][1..] == pending[i + 1..];
        r := ApplyMigration(pending[i]);
        if r.Failure? {
          return;
        }
      }
      r := Success(());
    }

    /** `validateMigrations(migrations)`. */
    method ValidateMigrations(migrations: seq<Migration>) returns (valid: bool)
      ensures valid <==> ChecksumsMatch(db.history, migrations, checksum)
    {
      var applied := GetAppliedMigrations();
      for i := 0 to |applied|
        invariant forall j :: 0 <= j < i ==>
          var v := applied[j];
          FirstWithVersion(migrations, v).Some? ==> db.history[v].checksum == checksum(FirstWithVersion(migrations, v).value.up)
      {
        var appliedVersion := applied[i];
        var migration := FirstWithVersion(migrations, appliedVersion);
        if migration.None? {
          continue;
        }
        if appliedVersion in db.history {
          var storedChecksum := db.history[appliedVersion].checksum;
          var currentChecksum := checksum(migration.value.up);
          if storedChecksum != currentChecksum {
            return false;
          }
        }
      }
      forall v | v in db.history && FirstWithVersion(migrations, v).Some?
        ensures db.history[v].checksum == checksum(FirstWithVersion(migrations, v).value.up)
      {
        var j :| 0 <= j < |applied| && applied[j] == v;
      }
      return true;
    }
  }
}
