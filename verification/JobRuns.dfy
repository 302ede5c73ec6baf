/** The control_plane.job_runs table: one row per triggered job, the SQL statements the
    control-plane (Go) and the worker (Python) issue against it, as functions on the table,
    and the table itself as an object whose methods are those statements. */
module JobRuns {
  import opened Options

  type RunId = nat
  type Time = int

  datatype Status = Queued | Running | Succeeded | Partial | Failed | Cancelled

  predicate Active(s: Status) { s.Queued? || s.Running? }

  predicate Terminal(s: Status) { !Active(s) }

  /** queued < running < terminal. */
  function Rank(s: Status): nat {
    match s
    case Queued => 0
    case Running => 1
    case _ => 2
  }

  datatype Row = Row(
    jobType: string, params: string, status: Status, submittedAt: Time,
    startedAt: Option<Time>, finishedAt: Option<Time>, exitCode: Option<int>,
    error: Option<string>, logOutput: Option<string>, rowsProcessed: Option<int>, metrics: Option<string>)

  type Table = map<RunId, Row>

  /** What a job handler hands to mark_terminal. */
  datatype Report = Report(
    status: Status, exitCode: Option<int>, error: Option<string>, log: string,
    rowsProcessed: Option<int>, metrics: Option<string>)

  /** What is published about a run on the job channels. */
  datatype JobEvent = StatusEvent(id: RunId, status: Status) | LogEvent(id: RunId, line: string)

  // ---- the statements, as functions on the table ----

  function Inserted(t: Table, id: RunId, jobType: string, params: string, now: Time): Table {
    t[id := Row(jobType, params, Queued, now, None, None, None, None, None, None, None)]
  }

  /** Whether the guarded UPDATE of mark_running matches a row. */
  predicate Claimable(t: Table, id: RunId) { id in t && t[id].status.Queued? }

  function MarkedRunning(t: Table, id: RunId, now: Time): Table {
    if Claimable(t, id) then t[id := t[id].(status := Running, startedAt := Some(now))] else t
  }

  /** Unguarded: whatever the status was, it is overwritten; a missing row is left missing. */
  function MarkedTerminal(t: Table, id: RunId, r: Report, now: Time): Table {
    if id !in t then t else
      t[id := t[id].(status := r.status, finishedAt := Some(now), exitCode := r.exitCode, error := r.error,
                     logOutput := Some(r.log), rowsProcessed := r.rowsProcessed, metrics := r.metrics)]
  }

  /** Unguarded as well. */
  function MarkedFailed(t: Table, id: RunId, message: string, now: Time): Table {
    if id !in t then t else t[id := t[id].(status := Failed, finishedAt := Some(now), error := Some(message))]
  }

  function Cleared(t: Table): Table {
    map id | id in t && Active(t[id].status) :: t[id]
  }

  function ActiveIds(t: Table): set<RunId> {
    set id | id in t && Active(t[id].status)
  }

  function CancelledRow(row: Row, now: Time): Row {
    row.(status := Cancelled, finishedAt := Some(now), error := Some("Cancelled by user"))
  }

  function CancelledIn(t: Table, ids: set<RunId>, now: Time): Table {
    map id | id in t :: if id in ids then CancelledRow(t[id], now) else t[id]
  }

  /** The lifecycle every row keeps: finished exactly when terminal, started when running. */
  predicate Lifecycle(row: Row) {
    && (row.finishedAt.Some? <==> Terminal(row.status))
    && (row.status.Running? ==> row.startedAt.Some?)
    && (row.status.Queued? ==> row.startedAt.None?)
  }

  datatype CancelledRun = CancelledRun(id: RunId, run: Row, wasRunning: bool)

  predicate Distinct<T(==)>(xs: seq<T>) {
    forall i, j :: 0 <= i < j < |xs| ==> xs[i] != xs[j]
  }

  predicate Mentions(cs: seq<CancelledRun>, id: RunId) {
    exists i :: 0 <= i < |cs| && cs[i].id == id
  }

  /** What one CancelActiveRuns call promises about the runs it returns and the table it leaves. */
  ghost predicate CancelPost(before: Table, cs: seq<CancelledRun>, after: Table, now: Time) {
    && (forall i, j :: 0 <= i < j < |cs| ==> cs[i].id != cs[j].id)
    && (forall id :: Mentions(cs, id) <==> id in ActiveIds(before))
    && (forall i :: 0 <= i < |cs| ==>
          && cs[i].id in before && cs[i].id in after
          && cs[i].run == after[cs[i].id]
          && (cs[i].wasRunning <==> before[cs[i].id].status.Running?))
    && after == CancelledIn(before, ActiveIds(before), now)
  }

  /** The table as the object both services write to. */
  class JobRunsTable {
    var rows: Table

    constructor ()
      ensures rows == map[]
    {
      rows := map[];
    }

    method InsertJobRun(id: RunId, jobType: string, params: string, now: Time) returns (run: Row)
      requires id !in rows  // gen_random_uuid
      modifies this
      ensures rows == Inserted(old(rows), id, jobType, params, now)
      ensures rows.Keys == old(rows).Keys + {id}
      ensures forall other :: other in old(rows) && other != id ==> rows[other] == old(rows)[other]
      ensures run == rows[id] == Row(jobType, params, Queued, now, None, None, None, None, None, None, None)
    {
      run := Row(jobType, params, Queued, now, None, None, None, None, None, None, None);
      rows := rows[id := run];
    }

    method MarkRunning(id: RunId, now: Time) returns (claimed: bool)
      modifies this
      ensures claimed <==> id in old(rows) && old(rows)[id].status == Queued
      ensures claimed == Claimable(old(rows), id) && rows == MarkedRunning(old(rows), id, now)
      ensures !claimed ==> rows == old(rows)
      ensures rows.Keys == old(rows).Keys
      ensures forall other :: other in old(rows) && other != id ==> rows[other] == old(rows)[other]
      ensures claimed ==> rows[id] == old(rows)[id].(status := Running, startedAt := Some(now))
    {
      claimed := id in rows && rows[id].status == Queued;
      if claimed {
        rows := rows[id := rows[id].(status := Running, startedAt := Some(now))];
      }
    }

    method MarkTerminal(id: RunId, r: Report, now: Time)
      modifies this
      ensures rows == MarkedTerminal(old(rows), id, r, now)
      ensures rows.Keys == old(rows).Keys
      ensures forall other :: other in old(rows) && other != id ==> rows[other] == old(rows)[other]
      ensures id in rows ==>
        && rows[id].status == r.status && rows[id].error == r.error && rows[id].exitCode == r.exitCode
        && rows[id].logOutput == Some(r.log) && rows[id].rowsProcessed == r.rowsProcessed
        && rows[id].metrics == r.metrics && rows[id].finishedAt == Some(now)
        && rows[id].startedAt == old(rows)[id].startedAt && rows[id].submittedAt == old(rows)[id].submittedAt
        && rows[id].jobType == old(rows)[id].jobType && rows[id].params == old(rows)[id].params
    {
      if id in rows {
        rows := rows[id := rows[id].(status := r.status, finishedAt := Some(now), exitCode := r.exitCode,
                                     error := r.error, logOutput := Some(r.log), rowsProcessed := r.rowsProcessed,
                                     metrics := r.metrics)];
      }
    }

    method MarkFailed(id: RunId, message: string, now: Time)
      modifies this
      ensures rows == MarkedFailed(old(rows), id, message, now)
      ensures rows.Keys == old(rows).Keys
      ensures forall other :: other in old(rows) && other != id ==> rows[other] == old(rows)[other]
      ensures id in rows ==>
        rows[id] == old(rows)[id].(status := Failed, finishedAt := Some(now), error := Some(message))
    {
      if id in rows {
        rows := rows[id := rows[id].(status := Failed, finishedAt := Some(now), error := Some(message))];
      }
    }

    method ClearTerminalRuns()
      modifies this
      ensures rows == Cleared(old(rows))
      ensures forall id :: id in rows <==>
        id in old(rows) && (old(rows)[id].status == Queued || old(rows)[id].status == Running)
      ensures forall id :: id in rows ==> rows[id] == old(rows)[id]
    {
      rows := map id | id in rows && Active(rows[id].status) :: rows[id];
    }

    /** The rows of SELECT ... FOR UPDATE, in whatever order the database returns them. */
    method SelectActive() returns (ids: seq<RunId>, wasRunning: map<RunId, bool>)
      ensures Distinct(ids) && (forall id :: id in ids <==> id in ActiveIds(rows))
      ensures forall id :: id in ids <==> id in rows && (rows[id].status == Queued || rows[id].status == Running)
      ensures wasRunning.Keys == ActiveIds(rows)
      ensures forall id :: id in wasRunning ==> (wasRunning[id] <==> rows[id].status == Running)
    {
      var selected := ActiveIds(rows);
      ids, wasRunning := [], map[];
      while selected != {}
        invariant selected <= ActiveIds(rows)
        invariant Distinct(ids) && (forall id :: id in ids <==> id in ActiveIds(rows) && id !in selected)
        invariant wasRunning.Keys == ActiveIds(rows) - selected
        invariant forall id :: id in wasRunning ==> (wasRunning[id] <==> rows[id].status.Running?)
      {
        var id :| id in selected;
        ids := ids + [id];
        wasRunning := wasRunning[id := rows[id].status == Running];
        selected := selected - {id};
      }
    }

    /** One uncontended call: select the active rows, remember who was running, update by id,
        and pair each updated row with its status before the update. */
    method CancelActiveRuns(now: Time) returns (cancelled: seq<CancelledRun>)
      modifies this
      ensures CancelPost(old(rows), cancelled, rows, now)
      ensures rows.Keys == old(rows).Keys
      ensures forall id :: id in rows ==>
        rows[id] == if old(rows)[id].status == Queued || old(rows)[id].status == Running
          then old(rows)[id].(status := Cancelled, finishedAt := Some(now), error := Some("Cancelled by user"))
          else old(rows)[id]
    {
      var ids, wasRunning := SelectActive();
      rows := map id | id in rows :: if id in ids then CancelledRow(rows[id], now) else rows[id];
      assert rows == CancelledIn(old(rows), ActiveIds(old(rows)), now);

      cancelled := [];
      for k := 0 to |ids|
        invariant |cancelled| == k
        invariant forall i :: 0 <= i < k ==>
          ids[i] in rows && ids[i] in wasRunning
            && cancelled[i] == CancelledRun(ids[i], rows[ids[i]], wasRunning[ids[i]])
      {
        assert ids[k] in wasRunning.Keys;
        cancelled := cancelled + [CancelledRun(ids[k], rows[ids[k]], wasRunning[ids[k]])];
      }
      forall id | id in ids ensures Mentions(cancelled, id) {
        var i :| 0 <= i < |ids| && ids[i] == id;
        assert cancelled[i].id == id;
      }
    }
  }
}
