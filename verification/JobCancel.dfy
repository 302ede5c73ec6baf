/** CancelAll against everything else: its transaction is atomic, a run it cancels while
    queued stays cancelled, and the rows left running are bounded by the workers' deaths. */
module JobCancel {
  import opened JobRuns
  import opened JobProtocol
  import opened JobSafety
  import opened JobTheorems
  import opened Options

  // ---- the two-phase cancel is atomic ----

  /** At its commit, in any reachable state: the rows it returns are exactly the rows of its
      snapshot that are still active, each recorded with its true status; those and no others
      change; and a restart is wanted iff one of them was running. */
  lemma {:induction false} CommitIsExact(s: State, call: CallId, now: Time)
    requires Inv(s) && CanCancel(s, call, Commit(now))
    ensures var c := s.cancels[call]; var t := AfterCancel(s, call, Commit(now));
      && (forall id :: id in c.locked <==> id in c.snapshot && ActiveRow(s.rows, id))
      && (forall id :: id in c.locked ==> c.locked[id] == s.rows[id].status)
      && t.rows == CancelledIn(s.rows, c.locked.Keys, now)
      && t.cancels[call] == Notifying(c.locked.Keys, exists id :: id in c.locked && s.rows[id].status.Running?)
  {
    var c := s.cancels[call];
    assert forall id :: id in c.locked ==> LockedBy(s.cancels, call, id);
  }

  /** The rows it changes become cancelled, finished and carry the user's message; every other row is kept. */
  lemma {:induction false} CommitRows(s: State, call: CallId, now: Time, id: RunId)
    requires CanCancel(s, call, Commit(now)) && id in s.rows
    ensures var t := AfterCancel(s, call, Commit(now));
      && t.rows.Keys == s.rows.Keys
      && t.rows[id] == if id in s.cancels[call].locked
           then s.rows[id].(status := Cancelled, finishedAt := Some(now), error := Some("Cancelled by user"))
           else s.rows[id]
  {}

  ghost predicate CallQuiet(r: Run, call: CallId, b: int, k: int)
    requires IsRun(r) && 0 <= b
  {
    forall m :: b < m < k && m < |r.events| && r.events[m].Cancel? && r.events[m].call == call ==>
      r.events[m].cancel.Lock?
  }

  lemma {:induction false} CollectingStep(s: State, e: Event, call: CallId)
    requires call in s.cancels && s.cancels[call].Collecting? && Can(s, e)
    requires e.Cancel? && e.call == call ==> e.cancel.Lock?
    ensures var t := Apply(s, e);
      call in t.cancels && t.cancels[call].Collecting? && t.cancels[call].snapshot == s.cancels[call].snapshot
  {
    match e
    case Api(a) =>
    case Work(w, a) => WorkFrame(s, w, a);
    case Cancel(c, a) => CollectingCancel(s, c, a, call);
    case Browser(a) =>
  }

  lemma {:induction false} CollectingCancel(s: State, c: CallId, a: CancelAction, call: CallId)
    requires call in s.cancels && s.cancels[call].Collecting? && CanCancel(s, c, a)
    requires c == call ==> a.Lock?
    ensures var t := AfterCancel(s, c, a);
      call in t.cancels && t.cancels[call].Collecting? && t.cancels[call].snapshot == s.cancels[call].snapshot
  {}

  lemma {:induction false} SnapshotPersists(r: Run, call: CallId, b: nat, k: nat)
    requires IsRun(r) && b < k <= |r.events| && r.events[b] == Cancel(call, Begin) && CallQuiet(r, call, b, k)
    ensures call in r.states[k].cancels && r.states[k].cancels[call].Collecting?
    ensures r.states[k].cancels[call].snapshot == ActiveIds(r.states[b].rows)
    decreases k
  {
    if k == b + 1 {
      assert StepAt(r, b);
      assert r.states[k] == AfterCancel(r.states[b], call, Begin);
    } else {
      SnapshotPersists(r, call, b, k - 1);
      assert StepAt(r, k - 1);
      CollectingStep(r.states[k - 1], r.events[k - 1], call);
    }
  }

  /** Whatever runs between its SELECT at event b and its commit at event k, one CancelAll
      cancels exactly the rows that were active at both moments. */
  lemma {:induction false} CancelIsAtomic(r: Run, call: CallId, now: Time, b: nat, k: nat)
    requires IsRun(r) && b < k < |r.events| && r.events[b] == Cancel(call, Begin)
      && r.events[k] == Cancel(call, Commit(now))
    requires CallQuiet(r, call, b, k)
    ensures var hit := ActiveIds(r.states[b].rows) * ActiveIds(r.states[k].rows);
      && r.states[k + 1].rows == CancelledIn(r.states[k].rows, hit, now)
      && call in r.states[k + 1].cancels
      && r.states[k + 1].cancels[call] == Notifying(hit, exists id :: id in hit && r.states[k].rows[id].status.Running?)
  {
    SnapshotPersists(r, call, b, k);
    InvAlways(r, k);
    assert StepAt(r, k);
    CommitIsExact(r.states[k], call, now);
    var hit := ActiveIds(r.states[b].rows) * ActiveIds(r.states[k].rows);
    assert r.states[k].cancels[call].locked.Keys == hit;
  }

  // ---- a run cancelled while queued stays cancelled ----

  ghost predicate MarksFailed(e: Event, id: RunId) {
    e.Api? && e.api.MarkFailed? && e.api.id == id
  }

  ghost predicate Settled(s: State, id: RunId, status: Status) {
    Unclaimable(s, id) && (id in s.rows ==> s.rows[id].status == status)
  }

  lemma {:induction false} SettledStep(s: State, e: Event, id: RunId, status: Status)
    requires Inv(s) && Can(s, e) && Settled(s, id, status) && !MarksFailed(e, id) && Terminal(status)
    ensures Settled(Apply(s, e), id, status)
  {
    UnclaimableStep(s, e, id);
    match e
    case Api(a) =>
    case Work(w, a) => WorkSettled(s, w, a, id);
    case Cancel(call, a) => CancelSettled(s, call, a, id);
    case Browser(a) =>
  }

  lemma {:induction false} WorkSettled(s: State, w: WorkerId, a: WorkerAction, id: RunId)
    requires Inv(s) && CanWork(s, w, a) && Unclaimable(s, id)
    ensures var t := AfterWork(s, w, a); id in t.rows ==> id in s.rows && t.rows[id] == s.rows[id]
  {}

  lemma {:induction false} CancelSettled(s: State, call: CallId, a: CancelAction, id: RunId)
    requires LocksTrue(s) && CanCancel(s, call, a) && (id in s.rows ==> Terminal(s.rows[id].status))
    ensures var t := AfterCancel(s, call, a); id in t.rows ==> id in s.rows && t.rows[id] == s.rows[id]
  {
    assert !LockedBy(s.cancels, call, id);
  }

  lemma {:induction false} CommitSettles(s: State, call: CallId, now: Time, id: RunId)
    requires Inv(s) && CanCancel(s, call, Commit(now)) && id in s.cancels[call].locked && Claimable(s.rows, id)
    ensures Settled(AfterCancel(s, call, Commit(now)), id, Cancelled)
  {}

  lemma {:induction false} FailureSettles(s: State, e: Event, id: RunId)
    requires Can(s, e) && Settled(s, id, Cancelled) && MarksFailed(e, id)
    ensures Settled(Apply(s, e), id, Failed) && id !in Apply(s, e).requests
  {
    assert Apply(s, e) == AfterApi(s, e.api);
  }

  lemma {:induction false} RequestDoneStep(s: State, e: Event, id: RunId)
    requires Can(s, e) && id in s.used && id !in s.requests
    ensures id in Apply(s, e).used && id !in Apply(s, e).requests
  {
    match e
    case Api(a) =>
    case Work(w, a) => WorkFrame(s, w, a);
    case Cancel(call, a) => CancelFrame(s, call, a);
    case Browser(a) =>
  }

  ghost predicate NoFailure(r: Run, i: int, j: int, id: RunId)
    requires IsRun(r) && 0 <= i && j <= |r.events|
  {
    forall k :: i < k < j ==> !MarksFailed(r.events[k], id)
  }

  ghost predicate Fate(s: State, id: RunId, quiet: bool) {
    if quiet then Settled(s, id, Cancelled) else Settled(s, id, Failed) && id !in s.requests
  }

  /** From the cancel on, the row is cancelled until a MarkFailed of it, and failed after. */
  lemma {:induction false} CancelledFate(r: Run, i: nat, j: nat, id: RunId)
    requires IsRun(r) && CancelledQueuedAt(r, i, id) && i < j < |r.states|
    ensures Fate(r.states[j], id, NoFailure(r, i, j, id))
    decreases j
  {
    if j == i + 1 {
      CancelledAtOnce(r, i, id);
    } else {
      InvAlways(r, j - 1);
      CancelledFate(r, i, j - 1, id);
      assert StepAt(r, j - 1);
      FateStep(r.states[j - 1], r.events[j - 1], id, NoFailure(r, i, j - 1, id));
      assert NoFailure(r, i, j, id) <==> NoFailure(r, i, j - 1, id) && !MarksFailed(r.events[j - 1], id);
    }
  }

  lemma {:induction false} CancelledAtOnce(r: Run, i: nat, id: RunId)
    requires IsRun(r) && CancelledQueuedAt(r, i, id)
    ensures Settled(r.states[i + 1], id, Cancelled)
  {
    InvAlways(r, i);
    var s, e := r.states[i], r.events[i];
    CommitSettles(s, e.call, e.cancel.now, id);
    assert r.states[i + 1] == AfterCancel(s, e.call, e.cancel);
  }

  lemma {:induction false} FateStep(s: State, e: Event, id: RunId, quiet: bool)
    requires Inv(s) && Can(s, e) && Fate(s, id, quiet)
    ensures Fate(Apply(s, e), id, quiet && !MarksFailed(e, id))
  {
    if !MarksFailed(e, id) {
      SettledStep(s, e, id, if quiet then Cancelled else Failed);
      if !quiet { RequestDoneStep(s, e, id); }
    } else {
      FailureSettles(s, e, id);
    }
  }

  /** As long as it is not cleared, a row cancelled while queued is still cancelled exactly if
      the Run handler that inserted it has not since marked it failed. */
  lemma {:induction false} CancelledStaysCancelled(r: Run, i: nat, j: nat, id: RunId)
    requires IsRun(r) && CancelledQueuedAt(r, i, id) && i < j < |r.states| && id in r.states[j].rows
    ensures r.states[j].rows[id].status == Cancelled <==> NoFailure(r, i, j, id)
  {
    CancelledFate(r, i, j, id);
  }

  lemma {:induction false} RequestDoneForever(r: Run, i: nat, j: nat, id: RunId)
    requires IsRun(r) && i <= j < |r.states| && id in r.states[i].used && id !in r.states[i].requests
    ensures id in r.states[j].used && id !in r.states[j].requests
    decreases j
  {
    if i < j {
      RequestDoneForever(r, i, j - 1, id);
      assert StepAt(r, j - 1);
      RequestDoneStep(r.states[j - 1], r.events[j - 1], id);
    }
  }

  /** In particular once its enqueue has been acknowledged: then it stays cancelled. */
  lemma {:induction false} EnqueuedStaysCancelled(r: Run, i: nat, j: nat, id: RunId)
    requires IsRun(r) && CancelledQueuedAt(r, i, id) && i < j < |r.states| && id in r.states[j].rows
    requires id !in r.states[i].requests
    ensures r.states[j].rows[id].status == Cancelled
  {
    InvAlways(r, i);
    forall k | i < k < j ensures !MarksFailed(r.events[k], id) {
      RequestDoneForever(r, i, k, id);
      assert StepAt(r, k);
    }
    CancelledStaysCancelled(r, i, j, id);
  }

  /** The other case does occur: cancelled before the enqueue, which then fails. */
  lemma {:induction false} FailedEnqueueOverwritesCancelled() returns (r: Run)
    ensures IsRun(r) && CancelledQueuedAt(r, 3, 0)
    ensures |r.events| == 6 && 0 in r.states[6].rows && r.states[6].rows[0].status == Failed
  {
    r := CancelledBeforeEnqueue();
    r := Extend(r, Api(Enqueue(0, false, false)));
    r := Extend(r, Api(ApiAction.MarkFailed(0, "failed to enqueue", 3)));
  }

  lemma {:induction false} SelectedBeforeEnqueue() returns (r: Run)
    ensures IsRun(r) && |r.events| == 2
    ensures var s := Last(r);
      && s.rows.Keys == {0} && s.rows[0].status.Queued? && s.requests == map[0 := NeedsEnqueue("silver")]
      && s.cancels == map[7 := Collecting({0}, {0}, map[])]
  {
    r := Run([State(map[], {}, map[], map[], map[], map[], {}, Chain(0, Triggering, [], []), {}, {}, {}, 0)], []);
    r := Extend(r, Api(Insert(0, "silver", "{}", 1, false)));
    assert ActiveIds(Last(r).rows) == {0};
    r := Extend(r, Cancel(7, Begin));
  }

  lemma {:induction false} LockedBeforeEnqueue() returns (r: Run)
    ensures IsRun(r) && |r.events| == 3
    ensures var s := Last(r);
      && s.rows.Keys == {0} && s.rows[0].status.Queued? && s.requests == map[0 := NeedsEnqueue("silver")]
      && s.cancels == map[7 := Collecting({0}, {}, map[0 := Queued])]
  {
    r := SelectedBeforeEnqueue();
    r := Extend(r, Cancel(7, Lock(0)));
    assert Last(r).cancels[7].pending == {};
  }

  lemma {:induction false} CancelledBeforeEnqueue() returns (r: Run)
    ensures IsRun(r) && CancelledQueuedAt(r, 3, 0)
    ensures |r.events| == 4 && 0 in Last(r).rows
    ensures Last(r).requests == map[0 := NeedsEnqueue("silver")]
    ensures Last(r).cancels.Keys == {7} && Last(r).cancels[7].Notifying?
  {
    r := LockedBeforeEnqueue();
    r := Extend(r, Cancel(7, Commit(2)));
  }

  // ---- rows left running ----

  function RunningIds(t: Table): set<RunId> {
    set id | id in t && t[id].status.Running?
  }

  function HeldIds(workers: map<WorkerId, Worker>, ws: set<WorkerId>): set<RunId> {
    set w | w in ws && w in workers && Holds(workers[w]) :: workers[w].id
  }

  lemma {:induction false} HeldAtMostOneEach(workers: map<WorkerId, Worker>, ws: set<WorkerId>)
    ensures |HeldIds(workers, ws)| <= |ws|
  {
    if ws != {} {
      var w :| w in ws;
      HeldAtMostOneEach(workers, ws - {w});
      var one := if w in workers && Holds(workers[w]) then {workers[w].id} else {};
      assert HeldIds(workers, ws) == HeldIds(workers, ws - {w}) + one;
    }
  }

  lemma {:induction false} SubsetSize<T>(a: set<T>, b: set<T>)
    requires a <= b
    ensures |a| <= |b|
  {
    assert b == a + (b - a);
  }

  lemma {:induction false} RunningBounded(s: State)
    requires RunningAccounted(s)
    ensures |RunningIds(s.rows)| <= |s.workers| + s.deaths
  {
    var held := HeldIds(s.workers, s.workers.Keys);
    HeldAtMostOneEach(s.workers, s.workers.Keys);
    forall id | id in RunningIds(s.rows) ensures id in held + s.stranded {
      if id !in s.stranded {
        var w :| HeldBy(s.workers, w, id);
      }
    }
    SubsetSize(RunningIds(s.rows), held + s.stranded);
  }

  /** Restarts by CancelAll, crashes and exceptions that leave handle_message. */
  function Deaths(es: seq<Event>): nat {
    if es == [] then 0 else
      var e := es[|es| - 1];
      Deaths(es[..|es| - 1])
      + (if (e.Work? && e.work.Die?) || (e.Cancel? && e.cancel.RestartWorker?) then 1 else 0)
  }

  lemma {:induction false} DeathsCounted(r: Run, n: nat)
    requires IsRun(r) && n < |r.states|
    ensures r.states[n].deaths <= Deaths(r.events[..n])
  {
    if n > 0 {
      DeathsCounted(r, n - 1);
      assert r.events[..n][..n - 1] == r.events[..n - 1];
      assert StepAt(r, n - 1);
    }
  }

  /** With N workers the rows in running never exceed N plus the worker deaths so far. */
  lemma {:induction false} RunningNeverExceeds(r: Run, n: nat)
    requires IsRun(r) && n < |r.states|
    ensures |RunningIds(r.states[n].rows)| <= |r.states[0].workers| + Deaths(r.events[..n])
  {
    InvAlways(r, n);
    OnwardAlways(r, 0, n);
    DeathsCounted(r, n);
    RunningBounded(r.states[n]);
    assert |r.states[0].workers.Keys| == |r.states[n].workers.Keys|;
  }
}
