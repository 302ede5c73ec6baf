/** What holds over every run of the job-run protocol. */
module JobTheorems {
  import opened JobRuns
  import opened JobProtocol
  import opened JobSafety

  // ---- one action at a time ----

  /** A row keeps or raises its rank, a cleared id never comes back, and history only grows. */
  ghost predicate Onward(s: State, t: State) {
    && s.used <= t.used && s.claimed <= t.claimed && s.started <= t.started
    && s.workers.Keys == t.workers.Keys
    && (forall id :: id in s.used && id in t.rows ==>
          id in s.rows && Rank(s.rows[id].status) <= Rank(t.rows[id].status))
  }

  lemma {:induction false} OnwardStep(s: State, e: Event)
    requires OutcomesTerminal(s) && Can(s, e)
    ensures Onward(s, Apply(s, e))
  {
    match e
    case Api(a) => ApiOnward(s, a);
    case Work(w, a) => WorkOnward(s, w, a);
    case Cancel(call, a) => CancelOnward(s, call, a);
    case Browser(a) => BrowseOnward(s, a);
  }

  lemma {:induction false} ApiOnward(s: State, a: ApiAction)
    requires CanApi(s, a)
    ensures Onward(s, AfterApi(s, a))
  {}

  lemma {:induction false} BrowseOnward(s: State, a: ChainAction)
    requires CanBrowse(s, a)
    ensures Onward(s, AfterBrowse(s, a))
  {}

  lemma {:induction false} WorkOnward(s: State, w: WorkerId, a: WorkerAction)
    requires OutcomesTerminal(s) && CanWork(s, w, a)
    ensures Onward(s, AfterWork(s, w, a))
  {}

  lemma {:induction false} CancelOnward(s: State, call: CallId, a: CancelAction)
    requires CanCancel(s, call, a)
    ensures Onward(s, AfterCancel(s, call, a))
  {}

  // ---- every state of a run ----

  lemma {:induction false} InvAlways(r: Run, n: nat)
    requires IsRun(r) && n < |r.states|
    ensures Inv(r.states[n])
  {
    if n == 0 {
      InitInv(r.states[0]);
    } else {
      InvAlways(r, n - 1);
      assert StepAt(r, n - 1);
      InvStep(r.states[n - 1], r.events[n - 1]);
    }
  }

  lemma {:induction false} OutcomesAlways(r: Run, n: nat)
    requires IsRun(r) && n < |r.states|
    ensures OutcomesTerminal(r.states[n])
  {
    InvAlways(r, n);
  }

  lemma {:induction false} OnwardAlways(r: Run, i: nat, j: nat)
    requires IsRun(r) && i <= j < |r.states|
    ensures Onward(r.states[i], r.states[j])
    decreases j
  {
    if i < j {
      OnwardAlways(r, i, j - 1);
      OnwardNext(r, j - 1);
    }
  }

  lemma {:induction false} OnwardNext(r: Run, n: nat)
    requires IsRun(r) && n < |r.events|
    ensures Onward(r.states[n], r.states[n + 1])
  {
    OutcomesAlways(r, n);
    assert StepAt(r, n);
    OnwardStep(r.states[n], r.events[n]);
  }

  /** The rank of a row never decreases, although mark_terminal and MarkFailed are unguarded. */
  lemma {:induction false} RankNeverDecreases(r: Run, i: nat, j: nat, id: RunId)
    requires IsRun(r) && i <= j < |r.states|
    requires id in r.states[i].rows && id in r.states[j].rows
    ensures Rank(r.states[i].rows[id].status) <= Rank(r.states[j].rows[id].status)
    ensures r.states[i].rows[id].status == Running ==> r.states[j].rows[id].status != Queued
    ensures r.states[i].rows[id].status !in {Queued, Running} ==> r.states[j].rows[id].status !in {Queued, Running}
  {
    InvAlways(r, i);
    OnwardAlways(r, i, j);
  }

  /** finished_at is set exactly on terminal rows and every running row has started_at. */
  lemma {:induction false} LifecycleAlways(r: Run, n: nat, id: RunId)
    requires IsRun(r) && n < |r.states| && id in r.states[n].rows
    ensures r.states[n].rows[id].finishedAt.Some? <==> r.states[n].rows[id].status !in {Queued, Running}
    ensures r.states[n].rows[id].status == Running ==> r.states[n].rows[id].startedAt.Some?
    ensures r.states[n].rows[id].status == Queued ==> r.states[n].rows[id].startedAt.None?
  {
    InvAlways(r, n);
  }

  /** ClearRuns is enabled in every state, and removes exactly the rows that are neither queued nor running. */
  lemma {:induction false} ClearsExactly(s: State, id: RunId)
    ensures Can(s, Api(Clear))
    ensures var t := Apply(s, Api(Clear));
      && (id in t.rows <==> id in s.rows && (s.rows[id].status == Queued || s.rows[id].status == Running))
      && (id in t.rows ==> t.rows[id] == s.rows[id])
  {}

  /** What nothing may rule out: a worker's death at any point, repeated delivery of any message ever added, a
      request given up at any point, an enqueue that reaches the stream or does not, with or without an answer, a
      cancel call's transaction or connection ending at any point. */
  lemma {:induction false} NothingIsRuledOut(s: State, w: WorkerId, id: RunId, call: CallId)
    ensures w in s.workers ==> Can(s, Work(w, Die)) && Apply(s, Work(w, Die)).workers[w] == Idle
    ensures w in s.workers && s.workers[w] == Idle && id in s.stream ==> Can(s, Work(w, Take(id)))
    ensures id in s.requests ==> Can(s, Api(Abandon(id)))
    ensures id in s.requests && s.requests[id].NeedsEnqueue? ==>
      Can(s, Api(Enqueue(id, true, true))) && Can(s, Api(Enqueue(id, true, false)))
      && Can(s, Api(Enqueue(id, false, false)))
    ensures call in s.cancels ==> Can(s, Cancel(call, End))
    ensures call !in s.cancels ==> Can(s, Cancel(call, Begin))
  {}

  /** What the browser and the API may always do: run any known job under a fresh id, and for the chain the job of
      its stage; see any published status of the awaited run, or its row's; lose the connection. */
  lemma {:induction false} ClientsAreFree(
    s: State, id: RunId, jobType: string, params: string, now: Time, status: Status)
    ensures id !in s.used && jobType in {"ingest", "silver", "gold", "features", "train", "replay", "reset"} ==>
      Can(s, Api(Insert(id, jobType, params, now, false)))
    ensures id !in s.used && s.chain.pc == Triggering && s.chain.stage < 5 ==>
      Can(s, Api(Insert(id, ["ingest", "silver", "gold", "features", "train"][s.chain.stage], params, now, true)))
    ensures s.chain.pc == Posted(id) ==> Can(s, Browser(Response))
    ensures Can(s, Browser(Broken)) <==> s.chain.pc != Stopped && s.chain.pc != ChainPc.Done
    ensures s.chain.pc == Waiting(id) && (id, status) in s.published ==> Can(s, Browser(Observe(status, false)))
    ensures s.chain.pc == Waiting(id) && id in s.rows && s.rows[id].status == status ==>
      Can(s, Browser(Observe(status, true)))
  {}

  // ---- at most one start ----

  /** Event i is a worker calling the handler for id. */
  ghost predicate StartsAt(r: Run, i: int, id: RunId)
    requires IsRun(r)
  {
    && StepAt(r, i) && r.events[i].Work? && r.events[i].work.Start?
    && r.states[i].workers[r.events[i].w].id == id
  }

  /** Event i took id's row from queued to running. */
  ghost predicate ClaimsAt(r: Run, i: int, id: RunId)
    requires IsRun(r)
  {
    && StepAt(r, i) && Claimable(r.states[i].rows, id)
    && id in r.states[i + 1].rows && r.states[i + 1].rows[id].status.Running?
  }

  /** Event i commits a CancelAll that finds id's row queued. */
  ghost predicate CancelledQueuedAt(r: Run, i: int, id: RunId)
    requires IsRun(r)
  {
    && StepAt(r, i) && r.events[i].Cancel? && r.events[i].cancel.Commit?
    && id in r.states[i].cancels[r.events[i].call].locked
    && id in r.states[i].rows && r.states[i].rows[id].status.Queued?
  }

  /** In every interleaving, with any number of workers and repeated deliveries, a job's
      handler is called at most once. */
  lemma {:induction false} HandlerStartsAtMostOnce(r: Run, i: int, j: int, id: RunId)
    requires IsRun(r) && StartsAt(r, i, id) && StartsAt(r, j, id)
    ensures i == j
  {
    if i < j {
      InvAlways(r, j);
      OnwardAlways(r, i + 1, j);
    } else if j < i {
      InvAlways(r, i);
      OnwardAlways(r, j + 1, i);
    }
  }

  lemma {:induction false} ClaimedWasClaimed(r: Run, n: nat, id: RunId)
    requires IsRun(r) && n < |r.states| && id in r.states[n].claimed
    ensures exists k :: 0 <= k < n && ClaimsAt(r, k, id)
  {
    var s := r.states[n - 1];
    if id in s.claimed {
      ClaimedWasClaimed(r, n - 1, id);
      var k :| 0 <= k < n - 1 && ClaimsAt(r, k, id);
      assert 0 <= k < n && ClaimsAt(r, k, id);
    } else {
      assert StepAt(r, n - 1);
      assert r.states[n] == Apply(s, r.events[n - 1]);
      assert ClaimsAt(r, n - 1, id);
    }
  }

  /** ... and only after its row went from queued to running. */
  lemma {:induction false} StartFollowsClaim(r: Run, i: int, id: RunId)
    requires IsRun(r) && StartsAt(r, i, id)
    ensures exists k :: 0 <= k < i && ClaimsAt(r, k, id)
  {
    InvAlways(r, i);
    ClaimedWasClaimed(r, i, id);
  }

  /** Out of reach of every worker: not queued any more and never claimed. */
  ghost predicate Unclaimable(s: State, id: RunId) {
    id in s.used && id !in s.claimed && !Claimable(s.rows, id)
  }

  lemma {:induction false} UnclaimableStep(s: State, e: Event, id: RunId)
    requires OutcomesTerminal(s) && Can(s, e) && Unclaimable(s, id)
    ensures Unclaimable(Apply(s, e), id)
  {
    match e
    case Api(a) => ApiUnclaimable(s, a, id);
    case Work(w, a) => WorkUnclaimable(s, w, a, id);
    case Cancel(call, a) => CancelUnclaimable(s, call, a, id);
    case Browser(a) =>
  }

  lemma {:induction false} ApiUnclaimable(s: State, a: ApiAction, id: RunId)
    requires CanApi(s, a) && Unclaimable(s, id)
    ensures Unclaimable(AfterApi(s, a), id)
  {}

  lemma {:induction false} WorkUnclaimable(s: State, w: WorkerId, a: WorkerAction, id: RunId)
    requires OutcomesTerminal(s) && CanWork(s, w, a) && Unclaimable(s, id)
    ensures Unclaimable(AfterWork(s, w, a), id)
  {}

  lemma {:induction false} CancelUnclaimable(s: State, call: CallId, a: CancelAction, id: RunId)
    requires CanCancel(s, call, a) && Unclaimable(s, id)
    ensures Unclaimable(AfterCancel(s, call, a), id)
  {}

  lemma {:induction false} UnclaimableNext(r: Run, n: nat, id: RunId)
    requires IsRun(r) && n < |r.events| && Unclaimable(r.states[n], id)
    ensures Unclaimable(r.states[n + 1], id)
  {
    OutcomesAlways(r, n);
    assert StepAt(r, n);
    UnclaimableStep(r.states[n], r.events[n], id);
  }

  lemma {:induction false} UnclaimableForever(r: Run, i: nat, j: nat, id: RunId)
    requires IsRun(r) && i <= j < |r.states| && Unclaimable(r.states[i], id)
    ensures Unclaimable(r.states[j], id)
    decreases j
  {
    if i < j {
      UnclaimableForever(r, i, j - 1, id);
      UnclaimableNext(r, j - 1, id);
    }
  }

  lemma {:induction false} StarterClaimed(r: Run, j: int, id: RunId)
    requires IsRun(r) && StartsAt(r, j, id)
    ensures id in r.states[j].claimed
  {
    InvAlways(r, j);
  }

  lemma {:induction false} CancelledQueuedUnclaimed(r: Run, i: int, id: RunId)
    requires IsRun(r) && CancelledQueuedAt(r, i, id)
    ensures id !in r.states[i].claimed && Unclaimable(r.states[i + 1], id)
  {
    InvAlways(r, i);
  }

  /** A run cancelled while queued is never executed, neither before nor after. */
  lemma {:induction false} CancelledWhileQueuedNeverStarts(r: Run, i: int, j: int, id: RunId)
    requires IsRun(r) && CancelledQueuedAt(r, i, id)
    ensures !StartsAt(r, j, id)
  {
    if StartsAt(r, j, id) {
      StarterClaimed(r, j, id);
      CancelledQueuedUnclaimed(r, i, id);
      if j <= i {
        OnwardAlways(r, j, i);
      } else {
        UnclaimableForever(r, i + 1, j, id);
      }
    }
  }

  // ---- a row that nobody will pick up ----

  /** No message about it on the stream or in a worker's hands, and no handler left to send or fail it. */
  ghost predicate Forgotten(s: State, id: RunId) {
    && id in s.used && id !in s.requests && id !in s.stream && id !in s.claimed
    && forall w :: w in s.workers && !s.workers[w].Idle? ==> s.workers[w].id != id
  }

  ghost predicate CancelsQueued(s: State, e: Event, id: RunId) {
    e.Cancel? && e.cancel.Commit? && e.call in s.cancels && s.cancels[e.call].Collecting?
      && id in s.cancels[e.call].locked
  }

  /** Still forgotten, and still queued exactly if it was and is not being cancelled. */
  ghost predicate StillForgotten(s: State, t: State, id: RunId, cancels: bool) {
    Forgotten(t, id) && (Claimable(t.rows, id) <==> Claimable(s.rows, id) && !cancels)
  }

  lemma {:induction false} ForgottenStep(s: State, e: Event, id: RunId)
    requires Can(s, e) && Forgotten(s, id)
    ensures StillForgotten(s, Apply(s, e), id, CancelsQueued(s, e, id))
  {
    match e
    case Api(a) => ApiForgotten(s, a, id); assert Apply(s, e) == AfterApi(s, a);
    case Work(w, a) => WorkForgotten(s, w, a, id); assert Apply(s, e) == AfterWork(s, w, a);
    case Cancel(call, a) => CancelForgotten(s, call, a, id); assert Apply(s, e) == AfterCancel(s, call, a);
    case Browser(a) =>
  }

  lemma {:induction false} ApiForgotten(s: State, a: ApiAction, id: RunId)
    requires CanApi(s, a) && Forgotten(s, id)
    ensures StillForgotten(s, AfterApi(s, a), id, false)
  {}

  lemma {:induction false} WorkForgotten(s: State, w: WorkerId, a: WorkerAction, id: RunId)
    requires CanWork(s, w, a) && Forgotten(s, id)
    ensures StillForgotten(s, AfterWork(s, w, a), id, false)
  {}

  lemma {:induction false} CancelForgotten(s: State, call: CallId, a: CancelAction, id: RunId)
    requires CanCancel(s, call, a) && Forgotten(s, id)
    ensures StillForgotten(s, AfterCancel(s, call, a), id, CancelsQueued(s, Cancel(call, a), id))
  {}

  lemma {:induction false} ForgottenNext(r: Run, n: nat, id: RunId)
    requires IsRun(r) && n < |r.events| && Forgotten(r.states[n], id)
    ensures StillForgotten(r.states[n], r.states[n + 1], id, CancelsQueued(r.states[n], r.events[n], id))
  {
    assert StepAt(r, n);
    ForgottenStep(r.states[n], r.events[n], id);
  }

  /** No CancelAll commits from state i to state j with id's row under its locks. */
  ghost predicate Uncancelled(r: Run, i: nat, j: nat, id: RunId)
    requires |r.states| == |r.events| + 1 && j < |r.states|
  {
    forall m :: i <= m < j ==> !CancelsQueued(r.states[m], r.events[m], id)
  }

  lemma {:induction false} UncancelledNext(r: Run, i: nat, j: nat, id: RunId)
    requires |r.states| == |r.events| + 1 && i <= j && j + 1 < |r.states|
    ensures Uncancelled(r, i, j + 1, id) <==> Uncancelled(r, i, j, id) && !CancelsQueued(r.states[j], r.events[j], id)
  {}

  /** Such a queued row is never claimed, and stays queued exactly until some CancelAll cancels it. */
  lemma {:induction false} ForgottenWaits(r: Run, i: nat, j: nat, id: RunId)
    requires IsRun(r) && i <= j < |r.states| && Forgotten(r.states[i], id) && Claimable(r.states[i].rows, id)
    ensures Forgotten(r.states[j], id) && (Claimable(r.states[j].rows, id) <==> Uncancelled(r, i, j, id))
    decreases j
  {
    if i < j {
      ForgottenWaits(r, i, j - 1, id);
      ForgottenNext(r, j - 1, id);
      UncancelledNext(r, i, j - 1, id);
    }
  }
}
