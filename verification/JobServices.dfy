/** The participants of the protocol as the sequential code each of them runs: the
    control-plane's Run and CancelAll handlers and the worker's handle_message, each proved against
    a function of the table before it. */
module JobServices {
  import opened JobProtocol
  import opened JobRuns
  import opened Options
  import opened Strings

  // ---- the worker ----

  /** What a handler returns: (status, error, log_lines, rows_processed, metrics). */
  datatype HandlerResult = HandlerResult(
    status: Status, error: Option<string>, logLines: seq<string>, rowsProcessed: Option<int>, metrics: Option<string>)

  /** How a handler's call ends; an exception leaves handle_message. */
  datatype Handling = Returned(result: HandlerResult) | Raised

  function ReportOf(h: HandlerResult): Report {
    var exitCode := if h.status.Succeeded? then 0 else 1;
    Report(h.status, Some(exitCode), h.error, Join(h.logLines, "\n"), h.rowsProcessed, h.metrics)
  }

  function LogEvents(id: RunId, lines: seq<string>): seq<JobEvent> {
    seq(|lines|, i requires 0 <= i < |lines| => LogEvent(id, lines[i]))
  }

  /** The table and the published events after handle_message; `live` are the lines the handler logs while it
      runs, which need not be those it returns. */
  function Handled(t: Table, id: RunId, jobType: string, how: Handling, live: seq<string>, t1: Time, t2: Time)
    : (Table, seq<JobEvent>)
  {
    if jobType !in JOB_TABLE then (MarkedTerminal(t, id, UnknownReport(jobType), t1), [])
    else if !Claimable(t, id) then (t, [])
    else
      var running, events := MarkedRunning(t, id, t1), [StatusEvent(id, Running)] + LogEvents(id, live);
      if how.Raised? then (running, events)
      else (MarkedTerminal(running, id, ReportOf(how.result), t2), events + [StatusEvent(id, how.result.status)])
  }

  /** What that is: an unknown type fails the row silently, a row that is not queued is left alone; otherwise the
      row starts, "running" and the live lines are published, and a handler that returned leaves its whole report
      in the row and its status as the last event. */
  lemma {:induction false} HandledMeans(
    t: Table, id: RunId, jobType: string, how: Handling, live: seq<string>, t1: Time, t2: Time)
    ensures var (after, events) := Handled(t, id, jobType, how, live, t1, t2);
      if jobType !in {"ingest", "silver", "gold", "features", "train", "reset", "replay"} then
        && events == [] && after.Keys == t.Keys
        && (id in t ==> after[id] == t[id].(
              status := Failed, error := Some("unknown job_type: " + jobType), exitCode := None, logOutput := Some(""),
              rowsProcessed := None, metrics := None, finishedAt := Some(t1)))
      else if !(id in t && t[id].status == Queued) then after == t && events == []
      else
        && after.Keys == t.Keys && |events| == 1 + |live| + (if how.Raised? then 0 else 1)
        && events[0] == StatusEvent(id, Running)
        && (forall i :: 0 <= i < |live| ==> events[1 + i] == LogEvent(id, live[i]))
        && if how.Raised? then after[id] == t[id].(status := Running, startedAt := Some(t1)) else
             && events[|events| - 1] == StatusEvent(id, how.result.status)
             && after[id] == t[id].(
                  status := how.result.status, startedAt := Some(t1), finishedAt := Some(t2),
                  exitCode := Some(if how.result.status == Succeeded then 0 else 1), error := how.result.error,
                  logOutput := Some(Join(how.result.logLines, "\n")), rowsProcessed := how.result.rowsProcessed,
                  metrics := how.result.metrics)
  {}

  class Worker {
    const table: JobRunsTable
    var published: seq<JobEvent>

    constructor (table: JobRunsTable)
      ensures this.table == table && published == []
    {
      this.table := table;
      published := [];
    }

    /** The handler's calls of on_log_line while it runs. */
    method PublishLines(id: RunId, live: seq<string>)
      modifies this`published
      ensures published == old(published) + LogEvents(id, live)
    {
      for i := 0 to |live|
        invariant published == old(published) + LogEvents(id, live)[..i]
      {
        published := published + [LogEvent(id, live[i])];
      }
    }

    method HandleMessage(id: RunId, jobType: string, how: Handling, live: seq<string>, t1: Time, t2: Time)
      returns (escaped: bool)
      modifies this, table
      ensures table.rows == Handled(old(table.rows), id, jobType, how, live, t1, t2).0
      ensures published == old(published) + Handled(old(table.rows), id, jobType, how, live, t1, t2).1
      ensures escaped <==> jobType in JOB_TABLE && Claimable(old(table.rows), id) && how.Raised?
    {
      escaped := false;
      if jobType !in JOB_TABLE {
        table.MarkTerminal(id, UnknownReport(jobType), t1);
        return;
      }
      var claimed := table.MarkRunning(id, t1);
      if !claimed {
        return;
      }
      published := published + [StatusEvent(id, Running)];
      PublishLines(id, live);
      if how.Raised? {
        return true;
      }
      table.MarkTerminal(id, ReportOf(how.result), t2);
      published := published + [StatusEvent(id, how.result.status)];
    }
  }

  // ---- the control-plane's handlers ----

  /** What a call to Postgres or Redis answers: an error does not tell whether the server had acted on it. */
  datatype Answer = Ok | Err(message: string, applied: bool)

  predicate Applied(a: Answer) { a.Ok? || a.applied }

  /** 404, 500, a panic that the router's Recoverer answers with 500, or 202. */
  datatype RunReply = NotFound | InternalError(message: string) | Panicked | Accepted(id: RunId, run: Row)

  function StoredParams(body: string): string { if body == "" then "{}" else body }

  predicate JsonBlank(c: char) { c == ' ' || c == '\t' || c == '\n' || c == '\r' }

  /** The body is JSON's null: the column stores it, and decoding it leaves a nil map without an error. */
  predicate IsJsonNull(body: string)
    decreases |body|
  {
    if body != "" && JsonBlank(body[0]) then IsJsonNull(body[1..])
    else if body != "" && JsonBlank(body[|body| - 1]) then IsJsonNull(body[..|body| - 1])
    else body == "null"
  }

  function EnqueueFailure(enqueue: Answer): string
    requires enqueue.Err?
  {
    "failed to enqueue: " + enqueue.message
  }

  /** How the three calls of one Run are answered; `t1` and `t2` are the times of the INSERT and of MarkFailed. */
  datatype RunCall = RunCall(id: RunId, jobType: string, body: string, t1: Time, t2: Time,
                             insert: Answer, enqueue: Answer, mark: Answer) {
    /** The handler gets past the INSERT. */
    predicate Entered() { jobType in CATALOG && insert.Ok? }

    /** The message is put on the stream. */
    predicate Streams() { Entered() && !IsJsonNull(body) && Applied(enqueue) }

    /** ... and the handler is told so. */
    predicate Acknowledged() { Entered() && !IsJsonNull(body) && enqueue.Ok? }
  }

  /** The table after Run. An INSERT that fails, as on a body the JSONB column refuses, adds no row unless only
      its answer was lost. */
  function Triggered(t: Table, c: RunCall): Table {
    if c.jobType !in CATALOG || !Applied(c.insert) then t
    else
      var inserted := Inserted(t, c.id, c.jobType, StoredParams(c.body), c.t1);
      if c.insert.Err? || IsJsonNull(c.body) || c.enqueue.Ok? || !Applied(c.mark) then inserted
      else MarkedFailed(inserted, c.id, EnqueueFailure(c.enqueue), c.t2)
  }

  class ControlPlane {
    const table: JobRunsTable
    var stream: seq<(RunId, string)>
    var published: seq<JobEvent>
    var restarts: nat

    constructor (table: JobRunsTable)
      ensures this.table == table && stream == [] && published == [] && restarts == 0
    {
      this.table := table;
      stream, published, restarts := [], [], 0;
    }

    /** POST /api/jobs/{type}/run: insert, then enqueue; a failed enqueue marks the row failed, and the reply
        says failed too, whether or not that update got through. A row is left queued with no acknowledged
        enqueue exactly for a null body, which panics, and for two failures in a row. */
    method Run(c: RunCall) returns (reply: RunReply)
      requires c.id !in table.rows
      modifies this, table
      ensures table.rows == Triggered(old(table.rows), c)
      ensures reply.NotFound? <==>
        c.jobType !in {"ingest", "silver", "gold", "features", "train", "replay", "reset"}
      ensures reply.InternalError? <==> c.jobType in CATALOG && c.insert.Err?
      ensures reply.Panicked? <==> c.Entered() && IsJsonNull(c.body)
      ensures c.Entered() ==>
        && c.id in table.rows && Lifecycle(table.rows[c.id])
        && (table.rows[c.id].status.Queued? && !c.Acknowledged()
            <==> IsJsonNull(c.body) || (c.enqueue.Err? && !Applied(c.mark)))
      ensures reply.Accepted? ==>
        && reply.id == c.id && reply.run.status == (if c.enqueue.Ok? then Queued else Failed)
        && reply.run.params == (if c.body == "" then "{}" else c.body) && reply.run.jobType == c.jobType
        && reply.run.error == (if c.enqueue.Ok? then None else Some("failed to enqueue: " + c.enqueue.message))
        && (reply.run.status == table.rows[c.id].status <==> c.enqueue.Ok? || Applied(c.mark))
        && (reply.run.error == table.rows[c.id].error <==> c.enqueue.Ok? || Applied(c.mark))
      ensures stream == old(stream) + (if c.Streams() then [(c.id, c.jobType)] else [])
      ensures published == old(published) && restarts == old(restarts)
    {
      if c.jobType !in CATALOG {
        return NotFound;
      }
      var run;
      if Applied(c.insert) {
        run := table.InsertJobRun(c.id, c.jobType, StoredParams(c.body), c.t1);
      }
      if c.insert.Err? {
        return InternalError(c.insert.message);
      }
      if IsJsonNull(c.body) {
        return Panicked;
      }
      if Applied(c.enqueue) {
        stream := stream + [(c.id, c.jobType)];
      }
      if c.enqueue.Err? {
        var message := EnqueueFailure(c.enqueue);
        if Applied(c.mark) {
          table.MarkFailed(c.id, message, c.t2);
        }
        run := run.(status := Failed, error := Some(message));
      }
      return Accepted(c.id, run);
    }

    /** POST /api/jobs/cancel-all with nothing else going on: every active row is cancelled and
        announced once, and the worker is restarted iff one of them was running. */
    method CancelAll(now: Time) returns (runs: seq<CancelledRun>)
      modifies this, table
      ensures CancelPost(old(table.rows), runs, table.rows, now)
      ensures published == old(published) + CancelEvents(runs)
      ensures restarts == old(restarts) + (if SomeRunning(old(table.rows)) then 1 else 0)
      ensures stream == old(stream)
    {
      ghost var before := table.rows;
      runs := table.CancelActiveRuns(now);
      var hadRunning := PublishCancelled(runs);
      HadRunningMeans(before, runs, table.rows, now, hadRunning);
      if hadRunning {
        restarts := restarts + 1;
      }
    }

    /** The loop over the cancelled runs. */
    method PublishCancelled(runs: seq<CancelledRun>) returns (hadRunning: bool)
      modifies this`published
      ensures published == old(published) + CancelEvents(runs)
      ensures hadRunning <==> exists k :: 0 <= k < |runs| && runs[k].wasRunning
    {
      hadRunning := false;
      for i := 0 to |runs|
        invariant published == old(published) + CancelEvents(runs[..i])
        invariant hadRunning <==> exists k :: 0 <= k < i && runs[k].wasRunning
      {
        if runs[i].wasRunning {
          hadRunning := true;
        }
        published := published + [StatusEvent(runs[i].id, Cancelled)];
        assert runs[..i + 1][..i] == runs[..i];
      }
      assert runs[..|runs|] == runs;
    }
  }

  /** One cancelled event per returned run, in order. */
  function CancelEvents(runs: seq<CancelledRun>): seq<JobEvent> {
    if runs == [] then [] else CancelEvents(runs[..|runs| - 1]) + [StatusEvent(runs[|runs| - 1].id, Cancelled)]
  }

  lemma {:induction false} CancelEventsAre(runs: seq<CancelledRun>)
    ensures |CancelEvents(runs)| == |runs|
    ensures forall i :: 0 <= i < |runs| ==> CancelEvents(runs)[i] == StatusEvent(runs[i].id, Cancelled)
  {
    if runs != [] {
      CancelEventsAre(runs[..|runs| - 1]);
    }
  }

  /** JSON's null, and nothing but JSON's blanks around it. */
  lemma {:induction false} JsonNullExactly(body: string)
    ensures IsJsonNull(body) <==> exists i: nat :: NullAt(body, i)
    decreases |body|
  {
    if body != "" && JsonBlank(body[0]) {
      var rest := body[1..];
      JsonNullExactly(rest);
      if i: nat :| NullAt(rest, i) {
        assert body[i + 1..i + 5] == rest[i..i + 4];
        assert NullAt(body, i + 1);
      }
      if i: nat :| NullAt(body, i) {
        assert i > 0 && rest[i - 1..i + 3] == body[i..i + 4];
        assert NullAt(rest, i - 1);
      }
    } else if body != "" && JsonBlank(body[|body| - 1]) {
      var rest := body[..|body| - 1];
      JsonNullExactly(rest);
      if i: nat :| NullAt(rest, i) {
        assert body[i..i + 4] == rest[i..i + 4];
        assert NullAt(body, i);
      }
      if i: nat :| NullAt(body, i) {
        assert body[i + 3] == body[i..i + 4][3] == 'l';
        assert rest[i..i + 4] == body[i..i + 4];
        assert NullAt(rest, i);
      }
    } else {
      if i: nat :| NullAt(body, i) {
        assert i == 0 && |body| == 4;
        assert body[0..4] == body;
      }
      if body == "null" {
        assert body[0..4] == body;
        assert NullAt(body, 0);
      }
    }
  }

  ghost predicate NullAt(body: string, i: nat) {
    && i + 4 <= |body| && body[i..i + 4] == "null"
    && forall k :: 0 <= k < |body| && !(i <= k < i + 4) ==>
      body[k] == ' ' || body[k] == '\t' || body[k] == '\n' || body[k] == '\r'
  }

  predicate SomeRunning(t: Table) { exists id :: id in t && t[id].status.Running? }

  lemma {:induction false} HadRunningMeans(
    before: Table, runs: seq<CancelledRun>, after: Table, now: Time, hadRunning: bool)
    requires CancelPost(before, runs, after, now)
    requires hadRunning <==> exists k :: 0 <= k < |runs| && runs[k].wasRunning
    ensures hadRunning <==> SomeRunning(before)
    ensures hadRunning <==> exists id :: id in before && before[id].status == Running
  {
    if id :| id in before && before[id].status.Running? {
      assert id in ActiveIds(before);
      assert Mentions(runs, id);
    }
    if hadRunning {
      var k :| 0 <= k < |runs| && runs[k].wasRunning;
      assert runs[k].id in before && before[runs[k].id].status.Running?;
    }
  }
}
