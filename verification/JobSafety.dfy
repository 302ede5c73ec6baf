/** Invariants of every interleaving of the job-run protocol, and the theorems about whole
    runs that follow from them. */
module JobSafety {
  import opened JobRuns
  import opened JobProtocol

  // ---- invariants ----

  ghost predicate IdsUsed(s: State) {
    && s.rows.Keys <= s.used && s.requests.Keys <= s.used && s.stream.Keys <= s.used && s.claimed <= s.used
    && (forall w :: w in s.workers && !s.workers[w].Idle? ==> s.workers[w].id in s.used)
  }

  /** Every job type in flight is one the worker has a handler for. */
  ghost predicate TypesKnown(s: State) {
    && (forall id :: id in s.requests && s.requests[id].NeedsEnqueue? ==> s.requests[id].jobType in JOB_TABLE)
    && (forall id :: id in s.stream ==> s.stream[id] in JOB_TABLE)
    && (forall w :: w in s.workers && s.workers[w].Took? ==> s.workers[w].jobType in JOB_TABLE)
  }

  ghost predicate OutcomesTerminal(s: State) {
    forall w :: w in s.workers && (s.workers[w].Reporting? || s.workers[w].Publishing?) ==>
      Terminal(s.workers[w].outcome)
  }

  ghost predicate LifecycleKept(s: State) {
    forall id :: id in s.rows ==> Lifecycle(s.rows[id])
  }

  /** A claimed row is never queued again. */
  ghost predicate ClaimedLeftQueue(s: State) {
    forall id :: id in s.claimed && id in s.rows ==> !s.rows[id].status.Queued?
  }

  ghost predicate HoldersClaimed(s: State) {
    && s.started <= s.claimed
    && (forall w :: w in s.workers && (Holds(s.workers[w]) || s.workers[w].Publishing?) ==>
      s.workers[w].id in s.claimed)
  }

  ghost predicate HeldBy(workers: map<WorkerId, Worker>, w: WorkerId, id: RunId) {
    w in workers && Holds(workers[w]) && workers[w].id == id
  }

  ghost predicate HoldersDistinct(s: State) {
    forall v, w, id :: HeldBy(s.workers, v, id) && HeldBy(s.workers, w, id) ==> v == w
  }

  ghost predicate NotYetStarted(s: State) {
    forall w :: w in s.workers && (s.workers[w].Claimed? || s.workers[w].Announced?) ==> s.workers[w].id !in s.started
  }

  /** What a cancel call holds a lock on is active, with the status it read. */
  ghost predicate LocksTrue(s: State) {
    forall c, id :: LockedBy(s.cancels, c, id) ==>
      id in s.rows && Active(s.rows[id].status) && s.rows[id].status == s.cancels[c].locked[id]
  }

  ghost predicate LocksExclusive(s: State) {
    forall c, d, id :: LockedBy(s.cancels, c, id) && LockedBy(s.cancels, d, id) ==> c == d
  }

  ghost predicate ActiveRow(t: Table, id: RunId) { id in t && Active(t[id].status) }

  /** A row of a cancel call's snapshot is still to be visited, or locked, or finished. */
  ghost predicate SnapshotCovered(s: State) {
    forall c :: c in s.cancels && s.cancels[c].Collecting? ==>
      && s.cancels[c].snapshot <= s.used
      && s.cancels[c].pending + s.cancels[c].locked.Keys <= s.cancels[c].snapshot
      && (forall id :: id in s.cancels[c].snapshot && ActiveRow(s.rows, id) ==>
            id in s.cancels[c].pending || id in s.cancels[c].locked)
  }

  /** A running row is in some worker's hands or was dropped by a worker's death. */
  ghost predicate RunningAccounted(s: State) {
    && (forall id :: id in s.rows && s.rows[id].status.Running? ==>
          id in s.stranded || exists w :: HeldBy(s.workers, w, id))
    && |s.stranded| <= s.deaths
  }

  ghost predicate Inv(s: State) {
    && IdsUsed(s) && TypesKnown(s) && OutcomesTerminal(s) && LifecycleKept(s)
    && ClaimedLeftQueue(s) && HoldersClaimed(s) && HoldersDistinct(s) && NotYetStarted(s)
    && LocksTrue(s) && LocksExclusive(s) && SnapshotCovered(s) && RunningAccounted(s)
  }

  lemma {:induction false} InitInv(s: State)
    requires Init(s)
    ensures Inv(s)
  {}

  // ---- each participant's actions keep them ----

  lemma {:induction false} WorkFrame(s: State, w: WorkerId, a: WorkerAction)
    requires CanWork(s, w, a)
    ensures var t := AfterWork(s, w, a);
      t.used == s.used && t.requests == s.requests && t.stream == s.stream && t.cancels == s.cancels
        && t.chain == s.chain
  {}

  lemma {:induction false} CancelFrame(s: State, call: CallId, a: CancelAction)
    requires CanCancel(s, call, a)
    ensures var t := AfterCancel(s, call, a);
      && t.used == s.used && t.requests == s.requests && t.stream == s.stream && t.chain == s.chain
      && t.claimed == s.claimed && t.started == s.started
  {}

  lemma {:induction false} ApiKeepsRows(s: State, a: ApiAction)
    requires IdsUsed(s) && TypesKnown(s) && OutcomesTerminal(s) && LifecycleKept(s) && ClaimedLeftQueue(s)
      && CanApi(s, a)
    ensures var t := AfterApi(s, a);
      IdsUsed(t) && TypesKnown(t) && OutcomesTerminal(t) && LifecycleKept(t) && ClaimedLeftQueue(t)
  {}

  lemma {:induction false} ApiKeepsHolders(s: State, a: ApiAction)
    requires Inv(s) && CanApi(s, a)
    ensures var t := AfterApi(s, a); HoldersClaimed(t) && HoldersDistinct(t) && NotYetStarted(t) && RunningAccounted(t)
  {}

  lemma {:induction false} ApiKeepsLocks(s: State, a: ApiAction)
    requires IdsUsed(s) && LocksTrue(s) && LocksExclusive(s) && SnapshotCovered(s) && CanApi(s, a)
    ensures var t := AfterApi(s, a); LocksTrue(t) && LocksExclusive(t) && SnapshotCovered(t)
  {
    var t := AfterApi(s, a);
    assert t.cancels == s.cancels;
  }

  lemma {:induction false} WorkKeepsIds(s: State, w: WorkerId, a: WorkerAction)
    requires IdsUsed(s) && CanWork(s, w, a)
    ensures IdsUsed(AfterWork(s, w, a))
  {}

  lemma {:induction false} WorkKeepsTypes(s: State, w: WorkerId, a: WorkerAction)
    requires TypesKnown(s) && CanWork(s, w, a)
    ensures TypesKnown(AfterWork(s, w, a))
  {}

  lemma {:induction false} WorkKeepsOutcomes(s: State, w: WorkerId, a: WorkerAction)
    requires OutcomesTerminal(s) && CanWork(s, w, a)
    ensures OutcomesTerminal(AfterWork(s, w, a))
  {}

  lemma {:induction false} WorkKeepsRows(s: State, w: WorkerId, a: WorkerAction)
    requires IdsUsed(s) && OutcomesTerminal(s) && LifecycleKept(s) && ClaimedLeftQueue(s) && CanWork(s, w, a)
    ensures LifecycleKept(AfterWork(s, w, a)) && ClaimedLeftQueue(AfterWork(s, w, a))
  {}

  lemma {:induction false} OtherHolders(s: State, w: WorkerId, a: WorkerAction)
    requires CanWork(s, w, a)
    ensures forall v, id :: v != w ==> (HeldBy(AfterWork(s, w, a).workers, v, id) <==> HeldBy(s.workers, v, id))
    ensures forall id :: HeldBy(AfterWork(s, w, a).workers, w, id) ==> HeldBy(s.workers, w, id) || Claimable(s.rows, id)
  {}

  lemma {:induction false} WorkKeepsClaims(s: State, w: WorkerId, a: WorkerAction)
    requires HoldersClaimed(s) && CanWork(s, w, a)
    ensures HoldersClaimed(AfterWork(s, w, a))
  {}

  lemma {:induction false} WorkKeepsHolders(s: State, w: WorkerId, a: WorkerAction)
    requires HoldersClaimed(s) && ClaimedLeftQueue(s) && HoldersDistinct(s) && NotYetStarted(s) && CanWork(s, w, a)
    ensures HoldersDistinct(AfterWork(s, w, a)) && NotYetStarted(AfterWork(s, w, a))
  {
    OtherHolders(s, w, a);
    if a.Start? {
      forall v | v in s.workers && v != w && (s.workers[v].Claimed? || s.workers[v].Announced?)
        ensures s.workers[v].id != s.workers[w].id
      {
        assert HeldBy(s.workers, v, s.workers[v].id) && HeldBy(s.workers, w, s.workers[w].id);
      }
    }
  }

  lemma {:induction false} WorkKeepsRunning(s: State, w: WorkerId, a: WorkerAction)
    requires RunningAccounted(s) && OutcomesTerminal(s) && CanWork(s, w, a)
    ensures RunningAccounted(AfterWork(s, w, a))
  {
    var t := AfterWork(s, w, a);
    OtherHolders(s, w, a);
    forall id | id in t.rows && t.rows[id].status.Running? && id !in t.stranded
      ensures exists v :: HeldBy(t.workers, v, id)
    {
      if id in s.rows && s.rows[id].status.Running? {
        var v :| HeldBy(s.workers, v, id);
        assert HeldBy(t.workers, v, id);
      } else {
        assert HeldBy(t.workers, w, id);
      }
    }
  }

  lemma {:induction false} WorkKeepsLocks(s: State, w: WorkerId, a: WorkerAction)
    requires LocksTrue(s) && LocksExclusive(s) && OutcomesTerminal(s) && CanWork(s, w, a)
    ensures LocksTrue(AfterWork(s, w, a)) && LocksExclusive(AfterWork(s, w, a))
  {
    assert AfterWork(s, w, a).cancels == s.cancels;
  }

  lemma {:induction false} WorkKeepsSnapshots(s: State, w: WorkerId, a: WorkerAction)
    requires SnapshotCovered(s) && OutcomesTerminal(s) && CanWork(s, w, a)
    ensures SnapshotCovered(AfterWork(s, w, a))
  {}

  lemma {:induction false} CancelKeepsRows(s: State, call: CallId, a: CancelAction)
    requires IdsUsed(s) && OutcomesTerminal(s) && LifecycleKept(s) && ClaimedLeftQueue(s) && CanCancel(s, call, a)
    ensures var t := AfterCancel(s, call, a); IdsUsed(t) && LifecycleKept(t) && ClaimedLeftQueue(t)
  {}

  lemma {:induction false} CancelKeepsWorkers(s: State, call: CallId, a: CancelAction)
    requires TypesKnown(s) && OutcomesTerminal(s) && HoldersClaimed(s) && CanCancel(s, call, a)
    ensures TypesKnown(AfterCancel(s, call, a)) && OutcomesTerminal(AfterCancel(s, call, a))
      && HoldersClaimed(AfterCancel(s, call, a))
  {}

  lemma {:induction false} CancelReleases(s: State, call: CallId, a: CancelAction)
    requires CanCancel(s, call, a)
    ensures forall v, id :: HeldBy(AfterCancel(s, call, a).workers, v, id) ==> HeldBy(s.workers, v, id)
  {}

  lemma {:induction false} CancelKeepsHolders(s: State, call: CallId, a: CancelAction)
    requires HoldersDistinct(s) && NotYetStarted(s) && CanCancel(s, call, a)
    ensures HoldersDistinct(AfterCancel(s, call, a)) && NotYetStarted(AfterCancel(s, call, a))
  {
    CancelReleases(s, call, a);
  }

  lemma {:induction false} CancelKeepsRunning(s: State, call: CallId, a: CancelAction)
    requires RunningAccounted(s) && CanCancel(s, call, a)
    ensures RunningAccounted(AfterCancel(s, call, a))
  {
    var t := AfterCancel(s, call, a);
    forall id | id in t.rows && t.rows[id].status.Running? && id !in t.stranded
      ensures exists v :: HeldBy(t.workers, v, id)
    {
      var v :| HeldBy(s.workers, v, id);
      assert HeldBy(t.workers, v, id);
    }
  }

  lemma {:induction false} CancelKeepsLocks(s: State, call: CallId, a: CancelAction)
    requires LocksTrue(s) && LocksExclusive(s) && SnapshotCovered(s) && CanCancel(s, call, a)
    ensures LocksTrue(AfterCancel(s, call, a)) && LocksExclusive(AfterCancel(s, call, a))
  {
    var t := AfterCancel(s, call, a);
    forall c, id | LockedBy(t.cancels, c, id)
      ensures LockedBy(s.cancels, c, id) || (c == call && a == Lock(id) && ActiveRow(s.rows, id))
      ensures id in t.rows && t.rows[id] == s.rows[id] && t.cancels[c].locked[id] == s.rows[id].status
    {
      if LockedBy(s.cancels, c, id) && a.Commit? {
        assert !LockedBy(s.cancels, call, id);
      }
    }
  }

  lemma {:induction false} CancelKeepsSnapshots(s: State, call: CallId, a: CancelAction)
    requires IdsUsed(s) && SnapshotCovered(s) && CanCancel(s, call, a)
    ensures SnapshotCovered(AfterCancel(s, call, a))
  {}

  lemma {:induction false} BrowseKeepsInv(s: State, a: ChainAction)
    requires Inv(s) && CanBrowse(s, a)
    ensures Inv(AfterBrowse(s, a))
  {}

  lemma {:induction false} ApiKeepsInv(s: State, a: ApiAction)
    requires Inv(s) && CanApi(s, a)
    ensures Inv(AfterApi(s, a))
  {
    ApiKeepsRows(s, a); ApiKeepsHolders(s, a); ApiKeepsLocks(s, a);
  }

  lemma {:induction false} WorkKeepsInv(s: State, w: WorkerId, a: WorkerAction)
    requires Inv(s) && CanWork(s, w, a)
    ensures Inv(AfterWork(s, w, a))
  {
    WorkKeepsIds(s, w, a); WorkKeepsTypes(s, w, a); WorkKeepsOutcomes(s, w, a); WorkKeepsRows(s, w, a);
    WorkKeepsClaims(s, w, a); WorkKeepsHolders(s, w, a); WorkKeepsRunning(s, w, a);
    WorkKeepsLocks(s, w, a); WorkKeepsSnapshots(s, w, a);
  }

  lemma {:induction false} CancelKeepsInv(s: State, call: CallId, a: CancelAction)
    requires Inv(s) && CanCancel(s, call, a)
    ensures Inv(AfterCancel(s, call, a))
  {
    CancelKeepsRows(s, call, a); CancelKeepsWorkers(s, call, a); CancelKeepsHolders(s, call, a);
    CancelKeepsRunning(s, call, a);
    CancelKeepsLocks(s, call, a); CancelKeepsSnapshots(s, call, a);
  }

  /** Every action of every participant keeps the invariant. */
  lemma {:induction false} InvStep(s: State, e: Event)
    requires Inv(s) && Can(s, e)
    ensures Inv(Apply(s, e))
  {
    match e
    case Api(a) => ApiKeepsInv(s, a);
    case Work(w, a) => WorkKeepsInv(s, w, a);
    case Cancel(call, a) => CancelKeepsInv(s, call, a);
    case Browser(a) => BrowseKeepsInv(s, a);
  }
}
