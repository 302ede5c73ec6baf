/** Run All over the whole stack: browser chain, WebSocket backfill or relayed event, worker,
    cancel and clear, in any interleaving. A stage is triggered only after the previous
    stage's row was committed as succeeded or partial, with one exception that the code
    allows: a row cancelled and cleared from under the worker that was still running it. */
module RunAll {
  import opened Options
  import opened JobRuns
  import opened JobProtocol
  import opened JobSafety
  import opened JobTheorems

  /** The statuses that rows have had, and the ids whose rows were cleared in flight. */
  type Held = iset<(RunId, Status)>
  type Gone = iset<RunId>

  ghost predicate HasStatus(s: State, id: RunId, status: Status) {
    id in s.rows && s.rows[id].status == status
  }

  /** This ClearRuns deletes a row whose job is still in a worker's hands. */
  ghost predicate ClearsInFlight(s: State, e: Event, id: RunId) {
    e == Api(Clear) && id in s.rows && Terminal(s.rows[id].status) && exists w :: HeldBy(s.workers, w, id)
  }

  /** The chain's own bookkeeping: its stages are a prefix of PIPELINE_ORDER. */
  ghost predicate ChainShape(s: State) {
    var c := s.chain;
    && |c.ids| == |c.types| <= |PIPELINE_ORDER| && c.types == PIPELINE_ORDER[..|c.types|]
    && c.stage <= |c.ids|
    && (c.pc.Triggering? ==> c.stage == |c.ids| < |PIPELINE_ORDER|)
    && (c.pc.Posted? || c.pc.Waiting? ==> c.stage + 1 == |c.ids| && c.ids[c.stage] == c.pc.id)
    && (c.pc.Done? ==> c.stage == |PIPELINE_ORDER|)
    && (forall k :: 0 <= k < |c.ids| ==>
          c.ids[k] in s.used && (c.ids[k] in s.rows ==> s.rows[c.ids[k]].jobType == c.types[k]))
  }

  /** Every terminal status that is published, or about to be, was held by the row (is in
      `held`), or the row was cleared in flight (is in `gone`); so were the chain's stages. */
  ghost predicate Truthful(s: State, held: Held, gone: Gone) {
    && PublishedTrue(s, held, gone) && ReportsTrue(s, held, gone) && NoticesTrue(s, held)
    && HoldersTrue(s, gone) && StagesTrue(s, held, gone)
  }

  ghost predicate PublishedTrue(s: State, held: Held, gone: Gone) {
    forall id, st :: (id, st) in s.published && Terminal(st) ==> (id, st) in held || id in gone
  }

  ghost predicate ReportsTrue(s: State, held: Held, gone: Gone) {
    forall w :: w in s.workers && s.workers[w].Publishing? ==>
      (s.workers[w].id, s.workers[w].outcome) in held || s.workers[w].id in gone
  }

  ghost predicate NoticesTrue(s: State, held: Held) {
    forall c, id :: c in s.cancels && s.cancels[c].Notifying? && id in s.cancels[c].left ==> (id, Cancelled) in held
  }

  ghost predicate HoldersTrue(s: State, gone: Gone) {
    forall w, id :: HeldBy(s.workers, w, id) && id !in s.rows ==> id in gone
  }

  ghost predicate StagesTrue(s: State, held: Held, gone: Gone) {
    forall k :: 0 <= k < s.chain.stage && k < |s.chain.ids| ==> StageDone(s.chain.ids[k], held, gone)
  }

  ghost predicate StageDone(id: RunId, held: Held, gone: Gone) {
    (id, Succeeded) in held || (id, Partial) in held || id in gone
  }

  ghost predicate Records(s: State, held: Held) {
    forall id :: id in s.rows ==> (id, s.rows[id].status) in held
  }

  /** What a status does to the waiting chain: succeeded or partial moves it to the next stage, failed or
      cancelled stops it, and it goes on waiting otherwise. */
  lemma {:induction false} StatusMovesChain(s: State, status: Status, backfill: bool)
    requires Can(s, Browser(Observe(status, backfill))) && s.chain.stage < 5
    ensures var c, d := s.chain, Apply(s, Browser(Observe(status, backfill))).chain;
      && d.ids == c.ids && d.types == c.types
      && (status == Succeeded || status == Partial ==>
            d.stage == c.stage + 1 && d.pc == if c.stage == 4 then ChainPc.Done else Triggering)
      && (status == Failed || status == Cancelled ==> d.stage == c.stage && d.pc == Stopped)
      && (status == Queued || status == Running ==> d == c)
  {}

  lemma {:induction false} ShapeStep(s: State, e: Event)
    requires Inv(s) && ChainShape(s) && Can(s, e)
    ensures ChainShape(Apply(s, e))
  {
    match e
    case Api(a) => ApiShape(s, a);
    case Work(w, a) => WorkFrame(s, w, a); WorkTypes(s, w, a);
    case Cancel(call, a) => CancelFrame(s, call, a); CancelTypes(s, call, a);
    case Browser(a) => BrowseShape(s, a);
  }

  ghost predicate SameTypes(s: State, t: State) {
    forall id :: id in t.rows ==> id in s.rows && s.rows[id].jobType == t.rows[id].jobType
  }

  lemma {:induction false} WorkTypes(s: State, w: WorkerId, a: WorkerAction)
    requires CanWork(s, w, a)
    ensures SameTypes(s, AfterWork(s, w, a))
  {}

  lemma {:induction false} CancelTypes(s: State, call: CallId, a: CancelAction)
    requires CanCancel(s, call, a)
    ensures SameTypes(s, AfterCancel(s, call, a))
  {}

  lemma {:induction false} ApiShape(s: State, a: ApiAction)
    requires ChainShape(s) && CanApi(s, a)
    ensures ChainShape(AfterApi(s, a))
  {}

  lemma {:induction false} BrowseShape(s: State, a: ChainAction)
    requires ChainShape(s) && CanBrowse(s, a)
    ensures ChainShape(AfterBrowse(s, a))
  {}

  lemma {:induction false} ApiTruth(s: State, a: ApiAction, held: Held, gone: Gone)
    requires Inv(s) && ChainShape(s) && Truthful(s, held, gone) && CanApi(s, a)
    requires forall id :: ClearsInFlight(s, Api(a), id) ==> id in gone
    ensures Truthful(AfterApi(s, a), held, gone)
  {}

  lemma {:induction false} WorkTruth(s: State, w: WorkerId, a: WorkerAction, held: Held, gone: Gone)
    requires Inv(s) && Truthful(s, held, gone) && CanWork(s, w, a) && Records(AfterWork(s, w, a), held)
    ensures Truthful(AfterWork(s, w, a), held, gone)
  {
    WorkFrame(s, w, a);
    WorkPublishes(s, w, a, held, gone);
    WorkReports(s, w, a, held, gone);
    WorkHolders(s, w, a, gone);
  }

  lemma {:induction false} WorkPublishes(s: State, w: WorkerId, a: WorkerAction, held: Held, gone: Gone)
    requires PublishedTrue(s, held, gone) && ReportsTrue(s, held, gone) && CanWork(s, w, a)
    ensures PublishedTrue(AfterWork(s, w, a), held, gone)
  {}

  lemma {:induction false} WorkReports(s: State, w: WorkerId, a: WorkerAction, held: Held, gone: Gone)
    requires ReportsTrue(s, held, gone) && HoldersTrue(s, gone) && CanWork(s, w, a) && Records(AfterWork(s, w, a), held)
    ensures ReportsTrue(AfterWork(s, w, a), held, gone)
  {
    if a.MarkTerminal? {
      assert HeldBy(s.workers, w, s.workers[w].id);
      assert s.workers[w].id in s.rows ==> AfterWork(s, w, a).rows[s.workers[w].id].status == a.report.status;
    }
  }

  lemma {:induction false} WorkHolders(s: State, w: WorkerId, a: WorkerAction, gone: Gone)
    requires HoldersTrue(s, gone) && CanWork(s, w, a)
    ensures HoldersTrue(AfterWork(s, w, a), gone)
  {
    OtherHolders(s, w, a);
    assert AfterWork(s, w, a).rows.Keys == s.rows.Keys;
  }

  lemma {:induction false} CancelTruth(s: State, call: CallId, a: CancelAction, held: Held, gone: Gone)
    requires Inv(s) && Truthful(s, held, gone) && CanCancel(s, call, a) && Records(AfterCancel(s, call, a), held)
    ensures Truthful(AfterCancel(s, call, a), held, gone)
  {
    CancelFrame(s, call, a);
    CancelPublishes(s, call, a, held, gone);
    CancelNotices(s, call, a, held);
    CancelHolders(s, call, a, gone);
  }

  lemma {:induction false} CancelPublishes(s: State, call: CallId, a: CancelAction, held: Held, gone: Gone)
    requires PublishedTrue(s, held, gone) && NoticesTrue(s, held) && ReportsTrue(s, held, gone) && CanCancel(s, call, a)
    ensures PublishedTrue(AfterCancel(s, call, a), held, gone) && ReportsTrue(AfterCancel(s, call, a), held, gone)
  {}

  lemma {:induction false} CancelNotices(s: State, call: CallId, a: CancelAction, held: Held)
    requires LocksTrue(s) && NoticesTrue(s, held) && CanCancel(s, call, a) && Records(AfterCancel(s, call, a), held)
    ensures NoticesTrue(AfterCancel(s, call, a), held)
  {
    var t := AfterCancel(s, call, a);
    if a.Commit? {
      forall id | id in s.cancels[call].locked ensures (id, Cancelled) in held {
        assert LockedBy(s.cancels, call, id);
        assert t.rows[id].status == Cancelled;
      }
    }
  }

  lemma {:induction false} CancelHolders(s: State, call: CallId, a: CancelAction, gone: Gone)
    requires HoldersTrue(s, gone) && CanCancel(s, call, a)
    ensures HoldersTrue(AfterCancel(s, call, a), gone)
  {
    var t := AfterCancel(s, call, a);
    assert t.rows.Keys == s.rows.Keys;
    CancelReleases(s, call, a);
  }

  lemma {:induction false} BrowseTruth(s: State, a: ChainAction, held: Held, gone: Gone)
    requires ChainShape(s) && Truthful(s, held, gone) && Records(s, held) && CanBrowse(s, a)
    ensures Truthful(AfterBrowse(s, a), held, gone)
  {}

  lemma {:induction false} TruthStep(s: State, e: Event, held: Held, gone: Gone)
    requires Inv(s) && ChainShape(s) && Truthful(s, held, gone) && Can(s, e)
    requires Records(s, held) && Records(Apply(s, e), held) && (forall id :: ClearsInFlight(s, e, id) ==> id in gone)
    ensures Truthful(Apply(s, e), held, gone)
  {
    match e
    case Api(a) => ApiTruth(s, a, held, gone);
    case Work(w, a) => WorkTruth(s, w, a, held, gone);
    case Cancel(call, a) => CancelTruth(s, call, a, held, gone);
    case Browser(a) => BrowseTruth(s, a, held, gone);
  }

  lemma {:induction false} TruthGrows(s: State, held: Held, gone: Gone, held': Held, gone': Gone)
    requires Truthful(s, held, gone) && held <= held' && gone <= gone'
    ensures Truthful(s, held', gone')
  {}

  // ---- over a run ----

  /** Some state up to n had id's row in this status. */
  ghost predicate HeldUpTo(r: Run, n: int, id: RunId, status: Status) {
    exists k :: 0 <= k <= n && k < |r.states| && HasStatus(r.states[k], id, status)
  }

  /** Some event before n cleared id's row while a worker still had the job in hand. */
  ghost predicate ClearedInFlightBefore(r: Run, n: int, id: RunId) {
    exists m :: 0 <= m < n && m < |r.events| && m < |r.states| && ClearsInFlight(r.states[m], r.events[m], id)
  }

  ghost function HeldSet(r: Run, n: int): Held {
    iset id: RunId, status: Status | HeldUpTo(r, n, id, status) :: (id, status)
  }

  ghost function GoneSet(r: Run, n: int): Gone {
    iset id: RunId | ClearedInFlightBefore(r, n, id)
  }

  lemma {:induction false} TruthAlways(r: Run, n: nat)
    requires IsRun(r) && n < |r.states|
    ensures ChainShape(r.states[n]) && Truthful(r.states[n], HeldSet(r, n), GoneSet(r, n))
  {
    if n > 0 {
      TruthAlways(r, n - 1);
      TruthNext(r, n - 1);
    }
  }

  lemma {:induction false} TruthNext(r: Run, n: nat)
    requires IsRun(r) && n < |r.events|
    requires ChainShape(r.states[n]) && Truthful(r.states[n], HeldSet(r, n), GoneSet(r, n))
    ensures ChainShape(r.states[n + 1]) && Truthful(r.states[n + 1], HeldSet(r, n + 1), GoneSet(r, n + 1))
  {
    var s, e := r.states[n], r.events[n];
    InvAlways(r, n);
    assert StepAt(r, n);
    ShapeStep(s, e);
    HistoryGrows(r, n);
    TruthGrows(s, HeldSet(r, n), GoneSet(r, n), HeldSet(r, n + 1), GoneSet(r, n + 1));
    TruthStep(s, e, HeldSet(r, n + 1), GoneSet(r, n + 1));
  }

  lemma {:induction false} HistoryGrows(r: Run, n: nat)
    requires |r.states| == |r.events| + 1 && n < |r.events|
    ensures HeldSet(r, n) <= HeldSet(r, n + 1) && GoneSet(r, n) <= GoneSet(r, n + 1)
    ensures Records(r.states[n], HeldSet(r, n + 1)) && Records(r.states[n + 1], HeldSet(r, n + 1))
    ensures forall id :: ClearsInFlight(r.states[n], r.events[n], id) ==> id in GoneSet(r, n + 1)
  {
    forall id | id in r.states[n].rows ensures HeldUpTo(r, n + 1, id, r.states[n].rows[id].status) {
      assert HasStatus(r.states[n], id, r.states[n].rows[id].status);
    }
    var t := r.states[n + 1];
    forall id | id in t.rows ensures HeldUpTo(r, n + 1, id, t.rows[id].status) {
      assert HasStatus(t, id, t.rows[id].status);
    }
  }

  /** The stages Run All inserts are a prefix of PIPELINE_ORDER, and when it inserts one, every
      earlier stage's row had been committed as succeeded or partial, or had been cleared while
      a worker was still running it. */
  lemma {:induction false} StageFollowsSuccess(r: Run, j: nat)
    requires IsRun(r) && j < |r.events| && r.events[j].Api? && r.events[j].api.Insert? && r.events[j].api.byChain
    ensures var c := r.states[j].chain;
      && c.types + [r.events[j].api.jobType] <= ["ingest", "silver", "gold", "features", "train"]
      && |c.types| == |c.ids|
      && (forall k :: 0 <= k < |c.ids| ==>
            || HeldUpTo(r, j, c.ids[k], Succeeded) || HeldUpTo(r, j, c.ids[k], Partial)
            || ClearedInFlightBefore(r, j, c.ids[k]))
  {
    TruthAlways(r, j);
    assert StepAt(r, j);
  }

  // ---- and the exception is exact ----

  /** Claimed, and in no worker's hands any more. */
  ghost predicate Released(s: State, id: RunId) {
    id in s.claimed && forall w :: !HeldBy(s.workers, w, id)
  }

  ghost predicate DoneReleased(s: State) {
    forall id :: HasStatus(s, id, Succeeded) || HasStatus(s, id, Partial) ==> Released(s, id)
  }

  lemma {:induction false} ReleasedStep(s: State, e: Event, id: RunId)
    requires ClaimedLeftQueue(s) && Can(s, e) && Released(s, id)
    ensures Released(Apply(s, e), id)
  {
    match e
    case Api(a) =>
    case Work(w, a) => OtherHolders(s, w, a); assert id in AfterWork(s, w, a).claimed;
    case Cancel(call, a) => CancelFrame(s, call, a); CancelReleases(s, call, a);
    case Browser(a) =>
  }

  lemma {:induction false} DoneStep(s: State, e: Event, id: RunId)
    requires Inv(s) && DoneReleased(s) && Can(s, e)
    requires HasStatus(Apply(s, e), id, Succeeded) || HasStatus(Apply(s, e), id, Partial)
    ensures Released(Apply(s, e), id)
  {
    if HasStatus(s, id, Succeeded) || HasStatus(s, id, Partial) {
      ReleasedStep(s, e, id);
    } else {
      OnlyReportsFinish(s, e, id);
      OtherHolders(s, e.w, e.work);
      assert HeldBy(s.workers, e.w, id);
    }
  }

  lemma {:induction false} OnlyReportsFinish(s: State, e: Event, id: RunId)
    requires Can(s, e) && !HasStatus(s, id, Succeeded) && !HasStatus(s, id, Partial)
    requires HasStatus(Apply(s, e), id, Succeeded) || HasStatus(Apply(s, e), id, Partial)
    ensures e.Work? && e.work.MarkTerminal? && s.workers[e.w].id == id
  {
    match e
    case Api(a) =>
    case Work(w, a) => if !(a.MarkTerminal? && s.workers[w].id == id) { WorkFinishesByReport(s, w, a, id); }
    case Cancel(call, a) => CancelNeverFinishes(s, call, a, id);
    case Browser(a) =>
  }

  lemma {:induction false} WorkFinishesByReport(s: State, w: WorkerId, a: WorkerAction, id: RunId)
    requires CanWork(s, w, a) && !(a.MarkTerminal? && s.workers[w].id == id)
    ensures HasStatus(AfterWork(s, w, a), id, Succeeded) ==> HasStatus(s, id, Succeeded)
    ensures HasStatus(AfterWork(s, w, a), id, Partial) ==> HasStatus(s, id, Partial)
  {}

  lemma {:induction false} CancelNeverFinishes(s: State, call: CallId, a: CancelAction, id: RunId)
    requires CanCancel(s, call, a)
    ensures HasStatus(AfterCancel(s, call, a), id, Succeeded) ==> HasStatus(s, id, Succeeded)
    ensures HasStatus(AfterCancel(s, call, a), id, Partial) ==> HasStatus(s, id, Partial)
  {}

  lemma {:induction false} DoneAlways(r: Run, n: nat)
    requires IsRun(r) && n < |r.states|
    ensures DoneReleased(r.states[n])
  {
    if n > 0 {
      DoneAlways(r, n - 1);
      InvAlways(r, n - 1);
      var t := r.states[n];
      forall id | HasStatus(t, id, Succeeded) || HasStatus(t, id, Partial) ensures Released(t, id) {
        assert StepAt(r, n - 1);
        DoneStep(r.states[n - 1], r.events[n - 1], id);
      }
    }
  }

  lemma {:induction false} ReleasedForever(r: Run, i: nat, j: nat, id: RunId)
    requires IsRun(r) && i <= j < |r.states| && Released(r.states[i], id)
    ensures Released(r.states[j], id)
    decreases j
  {
    if i < j {
      ReleasedForever(r, i, j - 1, id);
      ReleasedNext(r, j - 1, id);
    }
  }

  lemma {:induction false} ReleasedNext(r: Run, n: nat, id: RunId)
    requires IsRun(r) && n < |r.events| && Released(r.states[n], id)
    ensures Released(r.states[n + 1], id)
  {
    InvAlways(r, n);
    assert StepAt(r, n);
    ReleasedStep(r.states[n], r.events[n], id);
  }

  lemma {:induction false} ClearedStaysAway(r: Run, m: nat, n: nat, id: RunId)
    requires IsRun(r) && m < n < |r.states| && ClearsInFlight(r.states[m], r.events[m], id)
    ensures id !in r.states[n].rows
  {
    InvAlways(r, m);
    assert StepAt(r, m);
    assert r.states[m + 1] == AfterApi(r.states[m], Clear);
    OnwardAlways(r, m + 1, n);
  }

  /** A run cleared while in a worker's hands never was, and never will be, succeeded or partial. */
  lemma {:induction false} ClearedInFlightNeverDone(r: Run, m: nat, k: nat, id: RunId)
    requires IsRun(r) && m < |r.events| && k < |r.states| && ClearsInFlight(r.states[m], r.events[m], id)
    ensures !HasStatus(r.states[k], id, Succeeded) && !HasStatus(r.states[k], id, Partial)
  {
    InvAlways(r, m);
    if k <= m {
      DoneAlways(r, k);
      if HasStatus(r.states[k], id, Succeeded) || HasStatus(r.states[k], id, Partial) {
        ReleasedForever(r, k, m, id);
      }
    } else {
      ClearedStaysAway(r, m, k, id);
    }
  }

  /** For every stage the chain has passed: its row had been committed as succeeded or partial
      if and only if no ClearRuns removed it while a worker still had the job in hand. */
  lemma {:induction false} StageDoneExactly(r: Run, n: nat, k: nat)
    requires IsRun(r) && n < |r.states| && k < r.states[n].chain.stage
    ensures k < |r.states[n].chain.ids|
    ensures var id := r.states[n].chain.ids[k];
      HeldUpTo(r, n, id, Succeeded) || HeldUpTo(r, n, id, Partial) <==> !ClearedInFlightBefore(r, n, id)
  {
    TruthAlways(r, n);
    var id := r.states[n].chain.ids[k];
    assert StageDone(id, HeldSet(r, n), GoneSet(r, n));
    if ClearedInFlightBefore(r, n, id) {
      var m :| 0 <= m < n && m < |r.events| && m < |r.states| && ClearsInFlight(r.states[m], r.events[m], id);
      forall i | 0 <= i <= n && i < |r.states|
        ensures !HasStatus(r.states[i], id, Succeeded) && !HasStatus(r.states[i], id, Partial)
      {
        ClearedInFlightNeverDone(r, m, i, id);
      }
    }
  }

  lemma {:induction false} HeldOrGone(r: Run, n: nat, w: WorkerId, id: RunId)
    requires IsRun(r) && n < |r.states| && HeldBy(r.states[n].workers, w, id)
    ensures id in r.states[n].rows || ClearedInFlightBefore(r, n, id)
  {
    TruthAlways(r, n);
  }

  /** mark_terminal finds no row exactly if a ClearRuns removed it while a worker had the job in hand. */
  lemma {:induction false} ReportMissesExactly(r: Run, n: nat)
    requires IsRun(r) && n < |r.events| && r.events[n].Work? && r.events[n].work.MarkTerminal?
    ensures r.events[n].w in r.states[n].workers && r.states[n].workers[r.events[n].w].Reporting?
    ensures var id := r.states[n].workers[r.events[n].w].id;
      id !in r.states[n].rows <==> ClearedInFlightBefore(r, n, id)
  {
    assert StepAt(r, n);
    var id := r.states[n].workers[r.events[n].w].id;
    HeldOrGone(r, n, r.events[n].w, id);
    if ClearedInFlightBefore(r, n, id) {
      var m :| 0 <= m < n && m < |r.events| && m < |r.states| && ClearsInFlight(r.states[m], r.events[m], id);
      ClearedStaysAway(r, m, n, id);
    }
  }

  // ---- the exception does occur ----

  /** Row 0 was never committed as succeeded or partial. */
  ghost predicate NeverDone(r: Run) {
    forall k :: 0 <= k < |r.states| ==> !HasStatus(r.states[k], 0, Succeeded) && !HasStatus(r.states[k], 0, Partial)
  }

  lemma {:induction false} ExtendUndone(r: Run, e: Event) returns (r': Run)
    requires IsRun(r) && NeverDone(r) && Can(Last(r), e)
    requires var t := Apply(Last(r), e); !HasStatus(t, 0, Succeeded) && !HasStatus(t, 0, Partial)
    ensures IsRun(r') && NeverDone(r') && |r'.events| == |r.events| + 1 && r'.events[|r.events|] == e
    ensures Last(r') == Apply(Last(r), e)
  {
    r' := Extend(r, e);
  }

  lemma {:induction false} IngestPosted() returns (r: Run)
    ensures IsRun(r) && NeverDone(r)
    ensures var s := Last(r);
      && s.workers == map[0 := Idle] && s.chain == Chain(0, Posted(0), [0], ["ingest"])
        && s.stream == map[0 := "ingest"]
      && s.rows.Keys == {0} && s.rows[0].status.Queued? && s.cancels == map[] && s.used == {0}
  {
    r := Run([State(map[], {}, map[], map[], map[0 := Idle], map[], {}, Chain(0, Triggering, [], []), {}, {}, {}, 0)],
           []);
    r := ExtendUndone(r, Api(Insert(0, "ingest", "{}", 1, true)));
    r := ExtendUndone(r, Api(Enqueue(0, true, true)));
  }

  lemma {:induction false} IngestClaimed() returns (r: Run)
    ensures IsRun(r) && NeverDone(r)
    ensures var s := Last(r);
      && s.workers == map[0 := Claimed(0)] && s.chain == Chain(0, Waiting(0), [0], ["ingest"])
      && s.rows.Keys == {0} && s.rows[0].status.Running? && s.cancels == map[] && s.used == {0}
  {
    r := IngestPosted();
    r := ExtendUndone(r, Browser(Response));
    r := ExtendUndone(r, Work(0, Take(0)));
    r := ExtendUndone(r, Work(0, WorkerAction.MarkRunning(2)));
  }

  lemma {:induction false} IngestExecuting() returns (r: Run)
    ensures IsRun(r) && NeverDone(r)
    ensures var s := Last(r);
      && s.workers == map[0 := Executing(0)] && s.chain == Chain(0, Waiting(0), [0], ["ingest"])
      && s.rows.Keys == {0} && s.rows[0].status.Running? && s.cancels == map[] && s.used == {0}
  {
    r := IngestClaimed();
    r := ExtendUndone(r, Work(0, Announce));
    r := ExtendUndone(r, Work(0, Start));
  }

  lemma {:induction false} IngestLocked() returns (r: Run)
    ensures IsRun(r) && NeverDone(r)
    ensures var s := Last(r);
      && s.workers == map[0 := Executing(0)] && s.chain == Chain(0, Waiting(0), [0], ["ingest"])
      && s.rows.Keys == {0} && s.cancels == map[7 := Collecting({0}, {}, map[0 := Running])] && s.used == {0}
      && s.rows[0].status.Running?
  {
    r := IngestExecuting();
    var s := Last(r);
    assert ActiveIds(s.rows) == {0};
    r := ExtendUndone(r, Cancel(7, Begin));
    assert Last(r).cancels[7] == Collecting({0}, {0}, map[]);
    r := ExtendUndone(r, Cancel(7, Lock(0)));
    assert Last(r).cancels[7].pending == {};
  }

  lemma {:induction false} IngestCancelledAndCleared() returns (r: Run)
    ensures IsRun(r) && NeverDone(r)
    ensures var s := Last(r);
      && s.workers == map[0 := Executing(0)] && s.chain == Chain(0, Waiting(0), [0], ["ingest"])
      && s.rows == map[] && s.cancels.Keys == {7} && s.cancels[7].Notifying? && s.used == {0}
  {
    r := IngestLocked();
    r := ExtendUndone(r, Cancel(7, Commit(3)));
    r := ExtendUndone(r, Api(Clear));
  }

  lemma {:induction false} IngestReported() returns (r: Run)
    ensures IsRun(r) && NeverDone(r)
    ensures var s := Last(r);
      && s.chain == Chain(0, Waiting(0), [0], ["ingest"]) && s.rows == map[] && s.used == {0}
      && (0, Succeeded) in s.published
  {
    r := IngestCancelledAndCleared();
    r := ExtendUndone(r, Work(0, Finish(Succeeded)));
    r := ExtendUndone(r, Work(0, WorkerAction.MarkTerminal(Report(Succeeded, Some(0), None, "", None, None), 4)));
    r := ExtendUndone(r, Work(0, PublishOutcome));
  }

  /** The worker finishes a job whose row CancelAll and ClearRuns have removed; its
      mark_terminal updates nothing, its "succeeded" event still moves the chain on. */
  lemma {:induction false} ClearedRowLetsChainContinue() returns (r: Run)
    ensures IsRun(r) && |r.events| > 0 && r.events[|r.events| - 1] == Api(Insert(1, "silver", "{}", 5, true))
    ensures !HeldUpTo(r, |r.events|, 0, Succeeded) && !HeldUpTo(r, |r.events|, 0, Partial)
    ensures Last(r).chain.ids == [0, 1]
  {
    r := IngestReported();
    r := ExtendUndone(r, Browser(Observe(Succeeded, false)));
    r := ExtendUndone(r, Api(Insert(1, "silver", "{}", 5, true)));
  }
}
