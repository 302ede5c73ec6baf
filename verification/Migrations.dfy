/** Startup migrations: every .sql file in name order, one transaction each, recorded in
    schema_migrations; calls may fail or be interrupted at any point and be repeated. */
module Migrations {
  import opened Strings

  /** A directory entry. */
  datatype Entry = Entry(name: string, isDir: bool)

  predicate HasSqlSuffix(name: string) { |name| >= 4 && name[|name| - 4..] == ".sql" }

  // ---- sort.Strings ----

  predicate Sorted(names: seq<string>) {
    forall i, j :: 0 <= i < j < |names| ==> Less(names[i], names[j])
  }

  function Insert(name: string, names: seq<string>): seq<string> {
    if names == [] || Less(name, names[0]) then [name] + names else [names[0]] + Insert(name, names[1..])
  }

  lemma {:induction false} InsertSorts(name: string, names: seq<string>)
    requires Sorted(names) && name !in names
    ensures Sorted(Insert(name, names))
    ensures forall n :: n in Insert(name, names) <==> n == name || n in names
  {
    if names != [] {
      var rest := names[1..];
      assert names == [names[0]] + rest;
      Trichotomy(name, names[0]);
      if Less(name, names[0]) {
        forall i | 0 <= i < |names| ensures Less(name, names[i]) {
          if i > 0 { Transitive(name, names[0], names[i]); }
        }
      } else {
        InsertSorts(name, rest);
        var out := Insert(name, rest);
        forall j | 0 <= j < |out| ensures Less(names[0], out[j]) {
          assert out[j] in out;
          if out[j] != name {
            var k :| 0 <= k < |rest| && rest[k] == out[j];
            assert Less(names[0], names[k + 1]);
          }
        }
      }
    }
  }

  /** The migration names of a directory, sorted. */
  function SortedNames(entries: seq<Entry>): seq<string> {
    if entries == [] then [] else
      var e := entries[|entries| - 1];
      var names := SortedNames(entries[..|entries| - 1]);
      if !e.isDir && HasSqlSuffix(e.name) then Insert(e.name, names) else names
  }

  lemma {:induction false} SqlSuffixIs(stem: string, n: string)
    ensures HasSqlSuffix(stem + ".sql")
    ensures HasSqlSuffix(n) ==> n[|n| - 4] == '.' && n[|n| - 3] == 's' && n[|n| - 2] == 'q' && n[|n| - 1] == 'l'
  {
    assert (stem + ".sql")[|stem|..] == ".sql";
    if HasSqlSuffix(n) {
      var end := n[|n| - 4..];
      assert end[0] == '.' && end[1] == 's' && end[2] == 'q' && end[3] == 'l';
    }
  }

  lemma {:induction false} SortedNamesSorted(entries: seq<Entry>)
    requires forall i, j :: 0 <= i < j < |entries| ==> entries[i].name != entries[j].name
    ensures Sorted(SortedNames(entries))
    ensures forall n :: n in SortedNames(entries) <==>
      exists i :: 0 <= i < |entries| && entries[i].name == n && !entries[i].isDir && HasSqlSuffix(n)
  {
    if entries != [] {
      var front, e := entries[..|entries| - 1], entries[|entries| - 1];
      assert forall i :: 0 <= i < |front| ==> front[i] == entries[i];
      SortedNamesSorted(front);
      if !e.isDir && HasSqlSuffix(e.name) {
        InsertSorts(e.name, SortedNames(front));
      }
    }
  }

  // ---- the database ----

  /** What one file's turn meets: its applied check fails, or the check succeeds and then, if the
      file is not yet applied, the transaction never starts or rolls back, it commits, or it commits
      and the caller does not live to see it. */
  datatype Turn = CheckFails | RolledBack | Commits | CommitsUnseen

  function Sqls(names: seq<string>, sqlOf: map<string, string>): seq<string> {
    seq(|names|, i requires 0 <= i < |names| => if names[i] in sqlOf then sqlOf[names[i]] else "")
  }

  class Database {
    /** The recorded versions, and every migration text executed so far, in order: the schema
        is their fold. */
    var versions: set<string>
    var executed: seq<string>

    constructor ()
      ensures versions == {} && executed == []
    {
      versions, executed := {}, [];
    }

    /** The invariant: the first `done` names are recorded, and exactly their texts have been
        executed, each once, in order. */
    ghost predicate AppliedUpTo(names: seq<string>, sqlOf: map<string, string>, done: nat)
      reads this
    {
      && done <= |names|
      && (forall n :: n in versions <==> n in names[..done])
      && executed == Sqls(names[..done], sqlOf)
    }

    /** Migrate over the sorted names; turns[i] says what meets the i-th file. Every file is checked,
        applied ones too. Stops at the first failure. */
    method Migrate(names: seq<string>, sqlOf: map<string, string>, turns: seq<Turn>, ghost done: nat)
      returns (ok: bool, ghost done': nat)
      requires Sorted(names) && |turns| == |names| && AppliedUpTo(names, sqlOf, done)
      modifies this
      ensures done <= done' && AppliedUpTo(names, sqlOf, done')
      ensures ok
        <==> (forall i :: 0 <= i < done ==> !turns[i].CheckFails?)
             && (forall i :: done <= i < |turns| ==> turns[i].Commits?)
      ensures ok ==> done' == |names|
      ensures done == |names| ==> versions == old(versions) && executed == old(executed)
      ensures (exists i :: 0 <= i < done && turns[i].CheckFails?) ==> done' == done
      ensures forall i :: done <= i < done' - 1 ==> turns[i].Commits?
      ensures (forall i :: 0 <= i < done ==> !turns[i].CheckFails?) && done' < |names| ==>
        !turns[done'].Commits? || (done' > done && turns[done' - 1].CommitsUnseen?)
    {
      done' := done;
      for i := 0 to |names|
        invariant done' == (if i <= done then done else i) && AppliedUpTo(names, sqlOf, done')
        invariant i <= done ==> versions == old(versions) && executed == old(executed)
        invariant forall k :: 0 <= k < i && k < done ==> !turns[k].CheckFails?
        invariant forall k :: done <= k < i ==> turns[k].Commits?
      {
        if turns[i].CheckFails? {
          return false, done';
        }
        AppliedIff(names, done', i);
        if names[i] in versions {
          continue;
        }
        match turns[i] {
          case RolledBack =>
            return false, done';
          case Commits =>
            ApplyNext(names, sqlOf, i);
            done' := i + 1;
          case CommitsUnseen =>
            ApplyNext(names, sqlOf, i);
            done' := i + 1;
            return false, done';
        }
      }
      ok := true;
    }

    method ApplyNext(names: seq<string>, sqlOf: map<string, string>, i: nat)
      requires i < |names| && AppliedUpTo(names, sqlOf, i)
      modifies this
      ensures AppliedUpTo(names, sqlOf, i + 1)
    {
      assert names[..i + 1] == names[..i] + [names[i]];
      RunFile(names[i], if names[i] in sqlOf then sqlOf[names[i]] else "");
      assert Sqls(names[..i + 1], sqlOf)
        == Sqls(names[..i], sqlOf) + [if names[i] in sqlOf then sqlOf[names[i]] else ""];
    }

    /** One file's transaction: execute it and record it, together. */
    method RunFile(name: string, sql: string)
      modifies this
      ensures versions == old(versions) + {name} && executed == old(executed) + [sql]
    {
      executed := executed + [sql];
      versions := versions + {name};
    }
  }

  lemma {:induction false} AppliedIff(names: seq<string>, done: nat, i: nat)
    requires Sorted(names) && done <= |names| && i < |names|
    ensures names[i] in names[..done] <==> i < done
  {
    if names[i] in names[..done] {
      var k :| 0 <= k < done && names[..done][k] == names[i];
      Trichotomy(names[k], names[i]);
      assert k == i;
    }
  }

  /** What has been executed while `done` names are applied: the i-th file's own text, for each of them. */
  lemma {:induction false} ExecutedAre(db: Database, names: seq<string>, sqlOf: map<string, string>, done: nat)
    requires db.AppliedUpTo(names, sqlOf, done) && forall n :: n in names ==> n in sqlOf
    ensures |db.executed| == done && forall i :: 0 <= i < done ==> db.executed[i] == sqlOf[names[i]]
  {}

  predicate Undisturbed(turns: seq<Turn>) { forall i :: 0 <= i < |turns| ==> turns[i].Commits? }

  /** Any number of calls over a fixed file set, each interrupted or not, starting from an
      empty database: what is recorded is always a prefix of the sorted names and what has been
      executed is exactly that prefix's files, once each, in order; one undisturbed call completes. */
  method MigrateRepeatedly(entries: seq<Entry>, sqlOf: map<string, string>, calls: seq<seq<Turn>>)
    returns (db: Database)
    requires forall i, j :: 0 <= i < j < |entries| ==> entries[i].name != entries[j].name
    requires forall c :: c in calls ==> |c| == |SortedNames(entries)|
    ensures exists done :: db.AppliedUpTo(SortedNames(entries), sqlOf, done)
    ensures (exists c :: 0 <= c < |calls| && Undisturbed(calls[c])) ==>
      db.AppliedUpTo(SortedNames(entries), sqlOf, |SortedNames(entries)|)
  {
    var names := SortedNames(entries);
    SortedNamesSorted(entries);
    db := new Database();
    ghost var done := 0;
    assert names[..0] == [];
    for c := 0 to |calls|
      invariant fresh(db) && db.AppliedUpTo(names, sqlOf, done)
      invariant (exists k :: 0 <= k < c && Undisturbed(calls[k])) ==> done == |names|
    {
      assert calls[c] in calls;
      var ok;
      ok, done := db.Migrate(names, sqlOf, calls[c], done);
    }
  }
}
