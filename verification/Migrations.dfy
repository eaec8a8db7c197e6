/** The migration runner, and databases that fail or connections that break at any point. */
module Migrations {
  import opened Sequences
  import opened Wrappers

  type Version = string

  /** What the SQL of a migration makes of a schema; None when the database refuses it. */
  type Effect<!S> = (Version, S) -> Option<S>

  /** The committed state: the rows of schema_migrations in order of insertion, None before the
      table exists, and everything else. */
  datatype Db<S> = Db(table: Option<seq<Version>>, schema: S)

  function Recorded<S>(db: Db<S>): seq<Version> {
    if db.table.Some? then db.table.value else []
  }

  /** What may happen to one call of the database: nothing; it fails or the runner dies first; the
      database obeys but the answer is lost. */
  datatype Fault = NoFault | Fails | AnswerLost

  /** The fault of every call of one run, by the number of the call. */
  type Plan = nat -> Fault

  /** The committed state that a run leaves, how many calls it made, and whether it ended well. */
  datatype Result<S> = Result(db: Db<S>, calls: nat, ok: bool)

  // ---- One run ----

  /** One transaction: begin, the SQL, the record, commit.  Only a commit that the database has
      obeyed changes the committed state, and its answer may be lost. */
  function Migrate<S>(effect: Effect<S>, db: Db<S>, name: Version, plan: Plan, calls: nat): Result<S> {
    var schema := effect(name, db.schema);
    if plan(calls) != NoFault then Result(db, calls + 1, false)
    else if plan(calls + 1) != NoFault || schema.None? then Result(db, calls + 2, false)
    else if plan(calls + 2) != NoFault || name in Recorded(db) then Result(db, calls + 3, false)
    else
      var committed := Db(Some(Recorded(db) + [name]), schema.value);
      match plan(calls + 3)
      case NoFault => Result(committed, calls + 4, true)
      case Fails => Result(db, calls + 4, false)
      case AnswerLost => Result(committed, calls + 4, false)
  }

  /** The loop of ApplyMigrations over the remaining names. */
  function ApplyAll<S>(effect: Effect<S>, db: Db<S>, names: seq<Version>, plan: Plan, calls: nat): Result<S>
    decreases |names|
  {
    if names == [] then Result(db, calls, true)
    else if plan(calls) != NoFault then Result(db, calls + 1, false)
    else if names[0] in Recorded(db) then ApplyAll(effect, db, names[1..], plan, calls + 1)
    else
      var r := Migrate(effect, db, names[0], plan, calls + 1);
      if !r.ok then r else ApplyAll(effect, r.db, names[1..], plan, r.calls)
  }

  function Apply<S>(effect: Effect<S>, db: Db<S>, names: seq<Version>, plan: Plan): Result<S> {
    var created := db.(table := Some(Recorded(db)));
    match plan(0)
    case NoFault => ApplyAll(effect, created, names, plan, 1)
    case Fails => Result(db, 1, false)
    case AnswerLost => Result(created, 1, false)
  }

  // ---- What runs promise ----

  /** The schema after exactly these migrations, once each, in this order. */
  function Applied<S>(effect: Effect<S>, schema: S, versions: seq<Version>): Option<S> {
    if versions == [] then Some(schema)
    else
      var before := Applied(effect, schema, versions[..|versions| - 1]);
      if before.None? then None else effect(versions[|versions| - 1], before.value)
  }

  /** What the recorded versions say was done is what was done, and nothing else. */
  ghost predicate Faithful<S>(effect: Effect<S>, initial: S, db: Db<S>) {
    Applied(effect, initial, Recorded(db)) == Some(db.schema)
  }

  /** The migrations still to do, in order. */
  function Pending(names: seq<Version>, recorded: seq<Version>): seq<Version> {
    Filter(names, (n: Version) => n !in recorded)
  }

  lemma {:induction false} AppliedAppend<S>(effect: Effect<S>, schema: S, a: seq<Version>, b: seq<Version>)
    ensures Applied(effect, schema, a + b)
            == var mid := Applied(effect, schema, a); if mid.None? then None else Applied(effect, mid.value, b)
  {
    if b == [] {
      assert a + b == a;
    } else {
      var n := |b| - 1;
      AppliedAppend(effect, schema, a, b[..n]);
      assert (a + b)[..|a| + n] == a + b[..n];
    }
  }

  lemma AppliedFirst<S>(effect: Effect<S>, schema: S, name: Version, rest: seq<Version>)
    ensures Applied(effect, schema, [name] + rest)
            == var mid := effect(name, schema); if mid.None? then None else Applied(effect, mid.value, rest)
  {
    AppliedAppend(effect, schema, [name], rest);
    assert [name][..0] == [];
  }

  /** Recording the first name leaves the others to do. */
  lemma PendingNext(names: seq<Version>, recorded: seq<Version>)
    requires Distinct(names) && names != []
    ensures names[0] in recorded ==> Pending(names, recorded) == Pending(names[1..], recorded)
    ensures names[0] !in recorded ==>
              Pending(names, recorded) == [names[0]] + Pending(names[1..], recorded + [names[0]])
  {
    FilterSame(names[1..], (n: Version) => n !in recorded, (n: Version) => n !in recorded + [names[0]]);
  }

  /** From db to db' exactly these migrations were done, once each in this order, and recorded. */
  ghost predicate Progress<S>(effect: Effect<S>, db: Db<S>, db': Db<S>, done: seq<Version>) {
    Recorded(db') == Recorded(db) + done && Applied(effect, db.schema, done) == Some(db'.schema)
  }

  lemma NoProgress<S>(effect: Effect<S>, db: Db<S>, db': Db<S>)
    requires Recorded(db') == Recorded(db) && db'.schema == db.schema
    ensures Progress(effect, db, db', [])
  {
    assert Recorded(db) + [] == Recorded(db);
  }

  lemma ProgressThen<S>(effect: Effect<S>, db: Db<S>, db': Db<S>, db'': Db<S>, done: seq<Version>, more: seq<Version>)
    requires Progress(effect, db, db', done) && Progress(effect, db', db'', more)
    ensures Progress(effect, db, db'', done + more)
  {
    AppliedAppend(effect, db.schema, done, more);
    assert Recorded(db) + done + more == Recorded(db) + (done + more);
  }

  /** However it ends, one transaction has done and recorded its migration, or nothing. */
  lemma MigrateApplies<S>(effect: Effect<S>, db: Db<S>, name: Version, plan: Plan, calls: nat)
    returns (done: seq<Version>)
    ensures var r := Migrate(effect, db, name, plan, calls);
            && Progress(effect, db, r.db, done)
            && (done == [] || (done == [name] && name !in Recorded(db))) && (r.ok ==> done == [name])
  {
    var r := Migrate(effect, db, name, plan, calls);
    if r.db == db {
      done := [];
      NoProgress(effect, db, db);
    } else {
      done := [name];
      AppliedFirst(effect, db.schema, name, []);
      assert done + [] == done;
    }
  }

  /** However it ends, the loop has done the first few of the migrations that were pending, each in
      its turn and recorded as it was done; if it ends well it has done them all. */
  lemma {:induction false} LoopApplies<S>(effect: Effect<S>, db: Db<S>, names: seq<Version>, plan: Plan, calls: nat)
    returns (done: seq<Version>)
    requires Distinct(names)
    ensures var r := ApplyAll(effect, db, names, plan, calls);
            && Progress(effect, db, r.db, done)
            && done <= Pending(names, Recorded(db))
            && (r.ok ==> done == Pending(names, Recorded(db)))
    decreases |names|
  {
    if names == [] || plan(calls) != NoFault {
      done := [];
      NoProgress(effect, db, db);
    } else {
      PendingNext(names, Recorded(db));
      if names[0] in Recorded(db) {
        done := LoopApplies(effect, db, names[1..], plan, calls + 1);
      } else {
        done := MigrateApplies(effect, db, names[0], plan, calls + 1);
        var r := Migrate(effect, db, names[0], plan, calls + 1);
        if r.ok {
          var rest := LoopApplies(effect, r.db, names[1..], plan, r.calls);
          ProgressThen(effect, db, r.db, ApplyAll(effect, r.db, names[1..], plan, r.calls).db, done, rest);
          assert Recorded(r.db) == Recorded(db) + [names[0]];
          done := done + rest;
        }
      }
    }
  }

  // ---- Any number of runs ----

  /** What a sequence of runs leaves of a database that begins with nothing recorded. */
  function Runs<S>(effect: Effect<S>, initial: S, names: seq<Version>, plans: seq<Plan>): Db<S> {
    if plans == [] then Db(None, initial)
    else Apply(effect, Runs(effect, initial, names, plans[..|plans| - 1]), names, plans[|plans| - 1]).db
  }

  /** One run, whatever was recorded before. */
  lemma RunApplies<S>(effect: Effect<S>, db: Db<S>, names: seq<Version>, plan: Plan) returns (done: seq<Version>)
    requires Distinct(names)
    ensures var r := Apply(effect, db, names, plan);
            && Progress(effect, db, r.db, done)
            && done <= Pending(names, Recorded(db))
            && (r.ok ==> done == Pending(names, Recorded(db)))
  {
    var created := db.(table := Some(Recorded(db)));
    if plan(0) == NoFault {
      done := LoopApplies(effect, created, names, plan, 1);
    } else {
      done := [];
      NoProgress(effect, db, Apply(effect, db, names, plan).db);
    }
  }

  lemma NotBefore(names: seq<Version>, k: nat, i: nat)
    requires Distinct(names) && k <= i < |names|
    ensures names[i] !in names[..k]
  {
    if names[i] in names[..k] {
      var j :| 0 <= j < k && names[..k][j] == names[i];
      DistinctAt(names, j, i);
    }
  }

  lemma PendingAfterPrefix(names: seq<Version>, recorded: seq<Version>)
    requires Distinct(names) && recorded <= names
    ensures Pending(names, recorded) == names[|recorded|..]
  {
    var k := |recorded|;
    assert recorded == names[..k];
    forall i | k <= i < |names| ensures names[i] !in recorded {
      NotBefore(names, k, i);
    }
    forall i | 0 <= i < k ensures names[i] in recorded {
      assert recorded[i] == names[i];
    }
    FilterSuffix(names, (n: Version) => n !in recorded, k);
  }

  lemma RunKeepsPrefix<S>(effect: Effect<S>, initial: S, db: Db<S>, names: seq<Version>, plan: Plan)
    requires Distinct(names) && Recorded(db) <= names && Faithful(effect, initial, db)
    ensures var r := Apply(effect, db, names, plan);
            && Recorded(db) <= Recorded(r.db) <= names && Faithful(effect, initial, r.db)
            && (r.ok ==>
                  && Recorded(r.db) == names
                  && Applied(effect, db.schema, names[|Recorded(db)|..]) == Some(r.db.schema))
  {
    var done := RunApplies(effect, db, names, plan);
    PendingAfterPrefix(names, Recorded(db));
    AppliedAppend(effect, initial, Recorded(db), done);
    assert names == Recorded(db) + names[|Recorded(db)|..];
  }

  /** Crash safety.  After any number of runs, each broken off anywhere, the recorded versions are
      the first few names and the schema is the outcome of exactly those, once each, in order. */
  lemma {:induction false} CrashSafe<S>(effect: Effect<S>, initial: S, names: seq<Version>, plans: seq<Plan>)
    requires Distinct(names)
    ensures var db := Runs(effect, initial, names, plans);
            Recorded(db) <= names && Faithful(effect, initial, db)
  {
    if plans != [] {
      var before := plans[..|plans| - 1];
      CrashSafe(effect, initial, names, before);
      RunKeepsPrefix(effect, initial, Runs(effect, initial, names, before), names, plans[|plans| - 1]);
    }
  }

  /** A later run that ends well applies only the rest, and leaves everything applied. */
  lemma LaterRunAppliesOnlyTheRest<S>(effect: Effect<S>, initial: S, names: seq<Version>, plans: seq<Plan>, plan: Plan)
    requires Distinct(names) && Apply(effect, Runs(effect, initial, names, plans), names, plan).ok
    ensures var db, db' := Runs(effect, initial, names, plans), Runs(effect, initial, names, plans + [plan]);
            && Recorded(db) <= names && Recorded(db') == names
            && Applied(effect, db.schema, names[|Recorded(db)|..]) == Some(db'.schema)
            && Applied(effect, initial, names) == Some(db'.schema)
  {
    CrashSafe(effect, initial, names, plans);
    assert (plans + [plan])[..|plans|] == plans;
    RunKeepsPrefix(effect, initial, Runs(effect, initial, names, plans), names, plan);
  }

  lemma {:induction false} LoopEndsWell<S>(effect: Effect<S>, db: Db<S>, names: seq<Version>, plan: Plan, calls: nat)
    requires Distinct(names) && db.table.Some? && forall n :: plan(n) == NoFault
    ensures ApplyAll(effect, db, names, plan, calls).ok
            <==> Applied(effect, db.schema, Pending(names, Recorded(db))).Some?
    decreases |names|
  {
    if names != [] {
      PendingNext(names, Recorded(db));
      if names[0] in Recorded(db) {
        LoopEndsWell(effect, db, names[1..], plan, calls + 1);
      } else {
        var r := Migrate(effect, db, names[0], plan, calls + 1);
        AppliedFirst(effect, db.schema, names[0], Pending(names[1..], Recorded(db) + [names[0]]));
        if r.ok {
          LoopEndsWell(effect, r.db, names[1..], plan, r.calls);
        }
      }
    }
  }

  /** Interruptions never get in the way of a later run: with a database that answers, it ends well
      if and only if the migrations would have applied to the empty database in one go. */
  lemma InterruptionsDoNoHarm<S>(effect: Effect<S>, initial: S, names: seq<Version>, plans: seq<Plan>, plan: Plan)
    requires Distinct(names) && forall n :: plan(n) == NoFault
    ensures Apply(effect, Runs(effect, initial, names, plans), names, plan).ok
            <==> Applied(effect, initial, names).Some?
  {
    var db := Runs(effect, initial, names, plans);
    CrashSafe(effect, initial, names, plans);
    PendingAfterPrefix(names, Recorded(db));
    LoopEndsWell(effect, db.(table := Some(Recorded(db))), names, plan, 1);
    AppliedAppend(effect, initial, Recorded(db), names[|Recorded(db)|..]);
    assert names == Recorded(db) + names[|Recorded(db)|..];
  }

  /** A release with other migrations: a run that ends well leaves the record in the order of the
      names if and only if everything recorded before comes first among them. */
  lemma RecordedInOrderExactly<S>(effect: Effect<S>, db: Db<S>, names: seq<Version>, plan: Plan)
    requires Distinct(names) && Apply(effect, db, names, plan).ok
    ensures Recorded(Apply(effect, db, names, plan).db) == names <==> Recorded(db) <= names
  {
    var done := RunApplies(effect, db, names, plan);
    if Recorded(db) <= names {
      PendingAfterPrefix(names, Recorded(db));
    }
  }

  // ---- The names ----

  datatype Entry = Entry(name: string, isDir: bool)

  predicate IsMigration(e: Entry) {
    !e.isDir && |e.name| > 4 && e.name[|e.name| - 4..] == ".sql"
  }

  /** Lexicographic order. */
  predicate AtMost(a: string, b: string) {
    a == [] || (b != [] && (a[0] < b[0] || (a[0] == b[0] && AtMost(a[1..], b[1..]))))
  }

  function Insert(name: Version, sorted: seq<Version>): seq<Version> {
    if sorted == [] || AtMost(name, sorted[0]) then [name] + sorted
    else [sorted[0]] + Insert(name, sorted[1..])
  }

  function MigrationNames(entries: seq<Entry>): seq<Version> {
    if entries == [] then []
    else if IsMigration(entries[0]) then Insert(entries[0].name, MigrationNames(entries[1..]))
    else MigrationNames(entries[1..])
  }

  ghost predicate InOrder(names: seq<Version>) {
    names != [] ==> (forall n :: n in names[1..] ==> AtMost(names[0], n)) && InOrder(names[1..])
  }

  lemma {:induction false} AtMostTotal(a: string, b: string)
    ensures AtMost(a, b) || AtMost(b, a)
    ensures AtMost(a, b) && AtMost(b, a) ==> a == b
  {
    if a != [] && b != [] && a[0] == b[0] {
      AtMostTotal(a[1..], b[1..]);
      assert a == [a[0]] + a[1..] && b == [b[0]] + b[1..];
    }
  }

  lemma {:induction false} AtMostTransitive(a: string, b: string, c: string)
    requires AtMost(a, b) && AtMost(b, c)
    ensures AtMost(a, c)
  {
    if a != [] && a[0] == b[0] == c[0] {
      AtMostTransitive(a[1..], b[1..], c[1..]);
    }
  }

  lemma {:induction false} InsertInOrder(name: Version, sorted: seq<Version>)
    requires InOrder(sorted)
    ensures var r := Insert(name, sorted);
            && InOrder(r)
            && (forall n :: n in r <==> n == name || n in sorted)
            && (name !in sorted && Distinct(sorted) ==> Distinct(r))
  {
    if sorted != [] && !AtMost(name, sorted[0]) {
      AtMostTotal(name, sorted[0]);
      InsertInOrder(name, sorted[1..]);
      var rest := Insert(name, sorted[1..]);
      assert ([sorted[0]] + rest)[1..] == rest;
    } else {
      forall n | n in sorted ensures AtMost(name, n) {
        if n != sorted[0] {
          AtMostTransitive(name, sorted[0], n);
        }
      }
      assert ([name] + sorted)[1..] == sorted;
    }
  }

  /** Lexicographic order, said without recursion: a is a beginning of b, or at the first place
      where they differ a has the smaller character. */
  lemma {:induction false} AtMostExactly(a: string, b: string)
    ensures AtMost(a, b)
            <==> a <= b || exists k :: 0 <= k < |a| && k < |b| && a[..k] == b[..k] && a[k] < b[k]
  {
    if a != [] && b != [] && a[0] == b[0] {
      AtMostExactly(a[1..], b[1..]);
      assert a[1..] <= b[1..] <==> a <= b;
      forall k | 0 < k < |a| && k < |b| ensures a[..k] == b[..k] <==> a[1..][..k - 1] == b[1..][..k - 1] {
        assert a[..k] == [a[0]] + a[1..][..k - 1] && b[..k] == [b[0]] + b[1..][..k - 1];
      }
      if k :| 0 <= k < |a| - 1 && k < |b| - 1 && a[1..][..k] == b[1..][..k] && a[1..][k] < b[1..][k] {
        assert a[..k + 1] == b[..k + 1] && a[k + 1] < b[k + 1];
      }
      if k :| 0 <= k < |a| && k < |b| && a[..k] == b[..k] && a[k] < b[k] {
        assert k > 0 && a[1..][k - 1] < b[1..][k - 1];
      }
    } else if a != [] && b != [] && a[0] < b[0] {
      assert a[..0] == b[..0];
    }
  }

  lemma {:induction false} InOrderAt(names: seq<Version>, i: nat, j: nat)
    requires InOrder(names) && i < j < |names|
    ensures AtMost(names[i], names[j])
  {
    if i > 0 {
      InOrderAt(names[1..], i - 1, j - 1);
    } else {
      assert names[j] == names[1..][j - 1];
    }
  }

  lemma {:induction false} NamesSorted(entries: seq<Entry>)
    ensures InOrder(MigrationNames(entries))
    ensures forall n :: n in MigrationNames(entries) <==> exists e :: e in entries && IsMigration(e) && e.name == n
    ensures DifferentNames(entries) ==> Distinct(MigrationNames(entries))
  {
    if entries != [] {
      NamesSorted(entries[1..]);
      assert forall e :: e in entries <==> e == entries[0] || e in entries[1..];
      if IsMigration(entries[0]) {
        InsertInOrder(entries[0].name, MigrationNames(entries[1..]));
      }
    }
  }

  /** A plain file of this name, which is more than its extension. */
  ghost predicate IsSqlFile(entries: seq<Entry>, name: string) {
    exists e, stem :: e in entries && e.name == name && !e.isDir && stem != "" && name == stem + ".sql"
  }

  lemma SqlFilesExactly(entries: seq<Entry>, name: string)
    ensures IsSqlFile(entries, name) <==> exists e :: e in entries && IsMigration(e) && e.name == name
  {
    if e :| e in entries && IsMigration(e) && e.name == name {
      assert name == name[..|name| - 4] + ".sql";
    }
    if e, stem :| e in entries && e.name == name && !e.isDir && stem != "" && name == stem + ".sql" {
      assert name[|name| - 4..] == ".sql";
      assert IsMigration(e);
    }
  }

  /** The names are exactly those of the plain files that end in .sql, in lexicographic order: of two
      names, the earlier is a beginning of the later, or has the smaller character where they first
      differ.  None occurs twice when no two files share a name. */
  lemma NamesInOrder(entries: seq<Entry>)
    ensures var names := MigrationNames(entries);
            && (forall n :: n in names <==> IsSqlFile(entries, n))
            && (DifferentNames(entries) ==> Distinct(names))
            && forall i, j :: 0 <= i < j < |names| ==>
                 || names[i] <= names[j]
                 || exists k :: && 0 <= k < |names[i]| && k < |names[j]|
                                && names[i][..k] == names[j][..k] && names[i][k] < names[j][k]
  {
    NamesSorted(entries);
    var names := MigrationNames(entries);
    forall n ensures n in names <==> IsSqlFile(entries, n) {
      SqlFilesExactly(entries, n);
    }
    forall i, j | 0 <= i < j < |names|
      ensures || names[i] <= names[j]
              || exists k :: && 0 <= k < |names[i]| && k < |names[j]|
                             && names[i][..k] == names[j][..k] && names[i][k] < names[j][k]
    {
      InOrderAt(names, i, j);
      AtMostExactly(names[i], names[j]);
    }
  }

  ghost predicate DifferentNames(entries: seq<Entry>) {
    entries != [] ==> (forall e :: e in entries[1..] ==> e.name != entries[0].name) && DifferentNames(entries[1..])
  }

  // ---- The runner ----

  /** A database behind a connection that may fail. */
  class Database<S> {
    const effect: Effect<S>
    const plan: Plan
    var table: Option<seq<Version>>
    var schema: S
    var calls: nat

    constructor (effect: Effect<S>, plan: Plan, db: Db<S>)
      ensures this.effect == effect && this.plan == plan && calls == 0 && Committed() == db
    {
      this.effect, this.plan, calls := effect, plan, 0;
      table, schema := db.table, db.schema;
    }

    ghost function Committed(): Db<S>
      reads this
    {
      Db(table, schema)
    }

    /** Applies every migration that is not recorded, each with its record in one transaction; stops
        at the first error. */
    method ApplyMigrations(names: seq<Version>) returns (ok: bool)
      requires calls == 0
      modifies this
      ensures Result(Committed(), calls, ok) == Apply(effect, old(Committed()), names, plan)
    {
      var created := Call();
      if created != Fails && table.None? {
        table := Some([]);
      }
      if created != NoFault {
        return false;
      }
      for i := 0 to |names|
        invariant table.Some?
        invariant Apply(effect, old(Committed()), names, plan) == ApplyAll(effect, Committed(), names[i..], plan, calls)
      {
        assert names[i..][0] == names[i] && names[i..][1..] == names[i + 1..];
        var checked := Call();
        if checked != NoFault {
          return false;
        }
        if names[i] !in table.value {
          var applied := RunMigration(names[i]);
          if !applied {
            return false;
          }
        }
      }
      return true;
    }

    /** One transaction. */
    method RunMigration(name: Version) returns (ok: bool)
      requires table.Some? && name !in table.value
      modifies this
      ensures Result(Committed(), calls, ok) == Migrate(effect, old(Committed()), name, plan, old(calls))
      ensures table.Some?
    {
      var begun := Call();
      if begun != NoFault {
        return false;
      }
      var txTable, txSchema := table.value, schema;
      var executed := Call();
      var changed := effect(name, txSchema);
      if executed != NoFault || changed.None? {
        return false;
      }
      txSchema := changed.value;
      var recorded := Call();
      if recorded != NoFault {
        return false;
      }
      txTable := txTable + [name];
      var committed := Call();
      if committed != Fails {
        table, schema := Some(txTable), txSchema;
      }
      return committed == NoFault;
    }

    method Call() returns (f: Fault)
      modifies this`calls
      ensures calls == old(calls) + 1 && f == plan(old(calls))
    {
      f := plan(calls);
      calls := calls + 1;
    }
  }
}
