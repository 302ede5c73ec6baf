/** The job-run protocol as a step system over the shared table: the control-plane's Run,
    CancelAll and ClearRuns handlers, any number of worker processes, the dispatch stream,
    the published status events and one browser's Run All chain. Every event is one atomic
    action of one participant, so a run is an arbitrary interleaving; messages may be
    delivered repeatedly and a worker may die between any two actions. */
module JobProtocol {
  import opened Options
  import opened JobRuns

  /** The types the control-plane accepts, and the types the worker has a handler for. */
  const CATALOG: set<string> := {"ingest", "silver", "gold", "features", "train", "replay", "reset"}
  const JOB_TABLE: set<string> := {"ingest", "silver", "gold", "features", "train", "reset", "replay"}

  const PIPELINE_ORDER: seq<string> := ["ingest", "silver", "gold", "features", "train"]

  type WorkerId = nat
  type CallId = nat

  /** Where one worker stands inside handle_message. */
  datatype Worker =
    | Idle
    | Took(id: RunId, jobType: string)
    | Claimed(id: RunId)                        // mark_running returned True
    | Announced(id: RunId)                      // "running" published
    | Executing(id: RunId)                      // inside the handler
    | Reporting(id: RunId, outcome: Status)     // handler returned
    | Publishing(id: RunId, outcome: Status)    // mark_terminal committed

  /** A job is in hand and its terminal status is not yet written. */
  predicate Holds(w: Worker) { w.Claimed? || w.Announced? || w.Executing? || w.Reporting? }

  /** Where one POST /run handler stands after its INSERT. */
  datatype Request = NeedsEnqueue(jobType: string) | NeedsMarkFailed

  /** One CancelAll call: inside the database transaction, or publishing after its commit.
      `pending` are the rows of its SELECT still to be visited, `locked` those it holds a row
      lock on with the status it read under that lock. */
  datatype CancelCall =
    | Collecting(snapshot: set<RunId>, pending: set<RunId>, locked: map<RunId, Status>)
    | Notifying(left: set<RunId>, restart: bool)

  datatype ChainPc = Triggering | Posted(id: RunId) | Waiting(id: RunId) | Stopped | Done

  /** The Run All loop: `stage` is the loop index, `ids`/`types` the runs inserted for it. */
  datatype Chain = Chain(stage: nat, pc: ChainPc, ids: seq<RunId>, types: seq<string>)

  datatype State = State(
    rows: Table,
    used: set<RunId>,                  // ids ever generated; UUIDs never repeat
    requests: map<RunId, Request>,
    stream: map<RunId, string>,        // messages ever added, with their job type
    workers: map<WorkerId, Worker>,
    cancels: map<CallId, CancelCall>,
    published: set<(RunId, Status)>,
    chain: Chain,
    // history, read by no step
    claimed: set<RunId>,               // mark_running has returned True
    started: set<RunId>,               // the handler has been called
    stranded: set<RunId>,              // a worker died holding it
    deaths: nat)                       // deaths of a worker holding a job

  /** What the control-plane's Run and ClearRuns handlers do. */
  datatype ApiAction =
    | Insert(id: RunId, jobType: string, params: string, now: Time, byChain: bool)
    | Enqueue(id: RunId, appended: bool, acknowledged: bool)
    | MarkFailed(id: RunId, message: string, now: Time)
    | Abandon(id: RunId)
    | Clear

  /** What one worker does. */
  datatype WorkerAction =
    | Take(id: RunId)
    | RejectUnknown(now: Time)
    | MarkRunning(now: Time)
    | Announce
    | Start
    | Finish(outcome: Status)
    | MarkTerminal(report: Report, now: Time)
    | PublishOutcome
    | Die

  /** What one CancelAll call does. */
  datatype CancelAction =
    | Begin
    | Lock(id: RunId)
    | Commit(now: Time)
    | End                       // rolled back, or answered
    | PublishCancelled(id: RunId)
    | RestartWorker(w: WorkerId)

  /** What the browser's Run All chain sees. */
  datatype ChainAction =
    | Response
    | Observe(status: Status, backfill: bool)
    | Broken

  datatype Event =
    | Api(api: ApiAction)
    | Work(w: WorkerId, work: WorkerAction)
    | Cancel(call: CallId, cancel: CancelAction)
    | Browser(browser: ChainAction)

  predicate LockedBy(cancels: map<CallId, CancelCall>, call: CallId, id: RunId) {
    call in cancels && cancels[call].Collecting? && id in cancels[call].locked
  }

  predicate Unlocked(cancels: map<CallId, CancelCall>, id: RunId) {
    forall call :: call in cancels ==> !LockedBy(cancels, call, id)
  }

  function UnknownReport(jobType: string): Report {
    Report(Failed, None, Some("unknown job_type: " + jobType), "", None, None)
  }

  // ---- which actions can happen next; an UPDATE whose WHERE matches a row that another
  // ---- transaction has locked waits, so it is not enabled until that transaction ends

  predicate CanApi(s: State, a: ApiAction) {
    match a
    case Insert(id, jobType, _, _, byChain) =>
      && id !in s.used && jobType in CATALOG
      && (byChain ==> s.chain.pc.Triggering? && s.chain.stage < |PIPELINE_ORDER|
                      && jobType == PIPELINE_ORDER[s.chain.stage])
    case Enqueue(id, appended, acknowledged) =>
      id in s.requests && s.requests[id].NeedsEnqueue? && (acknowledged ==> appended)
    case MarkFailed(id, _, _) => id in s.requests && s.requests[id].NeedsMarkFailed? && Unlocked(s.cancels, id)
    case Abandon(id) => id in s.requests
    case Clear => true
  }

  predicate CanWork(s: State, w: WorkerId, a: WorkerAction) {
    && w in s.workers
    && match a
       case Take(id) => s.workers[w].Idle? && id in s.stream
       case RejectUnknown(_) =>
         s.workers[w].Took? && s.workers[w].jobType !in JOB_TABLE && Unlocked(s.cancels, s.workers[w].id)
       case MarkRunning(_) =>
         && s.workers[w].Took? && s.workers[w].jobType in JOB_TABLE
         && (Claimable(s.rows, s.workers[w].id) ==> Unlocked(s.cancels, s.workers[w].id))
       case Announce => s.workers[w].Claimed?
       case Start => s.workers[w].Announced?
       case Finish(outcome) => s.workers[w].Executing? && Terminal(outcome)
       case MarkTerminal(report, _) =>
         && s.workers[w].Reporting? && report.status == s.workers[w].outcome
         && report.exitCode == Some(if report.status.Succeeded? then 0 else 1)
         && Unlocked(s.cancels, s.workers[w].id)
       case PublishOutcome => s.workers[w].Publishing?
       case Die => true
  }

  predicate CanCancel(s: State, call: CallId, a: CancelAction) {
    if a.Begin? then call !in s.cancels else
      && call in s.cancels
      && match a
         case Lock(id) => s.cancels[call].Collecting? && id in s.cancels[call].pending && Unlocked(s.cancels, id)
         case Commit(_) => s.cancels[call].Collecting? && s.cancels[call].pending == {}
         case PublishCancelled(id) => s.cancels[call].Notifying? && id in s.cancels[call].left
         case RestartWorker(w) =>
           s.cancels[call].Notifying? && s.cancels[call].left == {} && s.cancels[call].restart && w in s.workers
         case _ => true
  }

  predicate CanBrowse(s: State, a: ChainAction) {
    match a
    case Response => s.chain.pc.Posted?
    case Observe(status, backfill) =>
      && s.chain.pc.Waiting?
      && (if backfill then s.chain.pc.id in s.rows && s.rows[s.chain.pc.id].status == status
          else (s.chain.pc.id, status) in s.published)
    case Broken => !s.chain.pc.Stopped? && !s.chain.pc.Done?
  }

  predicate Can(s: State, e: Event) {
    match e
    case Api(a) => CanApi(s, a)
    case Work(w, a) => CanWork(s, w, a)
    case Cancel(call, a) => CanCancel(s, call, a)
    case Browser(a) => CanBrowse(s, a)
  }

  // ---- what they do ----

  function AfterApi(s: State, a: ApiAction): State
    requires CanApi(s, a)
  {
    match a
    case Insert(id, jobType, params, now, byChain) =>
      s.(rows := Inserted(s.rows, id, jobType, params, now), used := s.used + {id},
         requests := s.requests[id := NeedsEnqueue(jobType)],
         chain := if byChain then s.chain.(pc := Posted(id), ids := s.chain.ids + [id],
           types := s.chain.types + [jobType])
                  else s.chain)
    case Enqueue(id, appended, acknowledged) =>
      s.(stream := if appended then s.stream[id := s.requests[id].jobType] else s.stream,
         requests := if acknowledged then s.requests - {id} else s.requests[id := NeedsMarkFailed])
    case MarkFailed(id, message, now) =>
      s.(rows := MarkedFailed(s.rows, id, message, now), requests := s.requests - {id})
    case Abandon(id) => s.(requests := s.requests - {id})
    case Clear => s.(rows := Cleared(s.rows))
  }

  function Killed(s: State, w: WorkerId): State
    requires w in s.workers
  {
    if Holds(s.workers[w])
    then s.(workers := s.workers[w := Idle], stranded := s.stranded + {s.workers[w].id}, deaths := s.deaths + 1)
    else s.(workers := s.workers[w := Idle])
  }

  function AfterWork(s: State, w: WorkerId, a: WorkerAction): State
    requires CanWork(s, w, a)
  {
    match a
    case Take(id) => s.(workers := s.workers[w := Took(id, s.stream[id])])
    case RejectUnknown(now) =>
      s.(rows := MarkedTerminal(s.rows, s.workers[w].id, UnknownReport(s.workers[w].jobType), now),
         workers := s.workers[w := Idle])
    case MarkRunning(now) =>
      var id := s.workers[w].id;
      if Claimable(s.rows, id)
      then s.(rows := MarkedRunning(s.rows, id, now), workers := s.workers[w := Claimed(id)],
        claimed := s.claimed + {id})
      else s.(workers := s.workers[w := Idle])
    case Announce =>
      s.(workers := s.workers[w := Announced(s.workers[w].id)], published := s.published + {(s.workers[w].id, Running)})
    case Start =>
      s.(workers := s.workers[w := Executing(s.workers[w].id)], started := s.started + {s.workers[w].id})
    case Finish(outcome) => s.(workers := s.workers[w := Reporting(s.workers[w].id, outcome)])
    case MarkTerminal(report, now) =>
      var id := s.workers[w].id;
      s.(rows := MarkedTerminal(s.rows, id, report, now), workers := s.workers[w := Publishing(id, report.status)])
    case PublishOutcome =>
      s.(workers := s.workers[w := Idle], published := s.published + {(s.workers[w].id, s.workers[w].outcome)})
    case Die => Killed(s, w)
  }

  /** hadRunning: some cancelled run was running under its lock. */
  predicate RestartWanted(locked: map<RunId, Status>) {
    exists id :: id in locked && locked[id].Running?
  }

  function AfterCancel(s: State, call: CallId, a: CancelAction): State
    requires CanCancel(s, call, a)
  {
    match a
    case Begin => s.(cancels := s.cancels[call := Collecting(ActiveIds(s.rows), ActiveIds(s.rows), map[])])
    case Lock(id) =>
      var c := s.cancels[call];
      s.(cancels := s.cancels[call := c.(pending := c.pending - {id},
          locked := if id in s.rows && Active(s.rows[id].status) then c.locked[id := s.rows[id].status] else c.locked)])
    case Commit(now) =>
      var c := s.cancels[call];
      s.(rows := CancelledIn(s.rows, c.locked.Keys, now),
         cancels := s.cancels[call := Notifying(c.locked.Keys, RestartWanted(c.locked))])
    case End => s.(cancels := s.cancels - {call})
    case PublishCancelled(id) =>
      s.(cancels := s.cancels[call := s.cancels[call].(left := s.cancels[call].left - {id})],
         published := s.published + {(id, Cancelled)})
    case RestartWorker(w) => Killed(s.(cancels := s.cancels - {call}), w)
  }

  /** A resolved waitForRunTerminal stops the chain on failed/cancelled and otherwise
      moves it to the next stage. */
  function ChainResolved(c: Chain, status: Status): Chain {
    if Active(status) then c
    else if status.Failed? || status.Cancelled? then c.(pc := Stopped)
    else c.(stage := c.stage + 1, pc := if c.stage + 1 == |PIPELINE_ORDER| then Done else Triggering)
  }

  function AfterBrowse(s: State, a: ChainAction): State
    requires CanBrowse(s, a)
  {
    match a
    case Response => s.(chain := s.chain.(pc := Waiting(s.chain.pc.id)))
    case Observe(status, _) => s.(chain := ChainResolved(s.chain, status))
    case Broken => s.(chain := s.chain.(pc := Stopped))
  }

  function Apply(s: State, e: Event): State
    requires Can(s, e)
  {
    match e
    case Api(a) => AfterApi(s, a)
    case Work(w, a) => AfterWork(s, w, a)
    case Cancel(call, a) => AfterCancel(s, call, a)
    case Browser(a) => AfterBrowse(s, a)
  }

  ghost predicate Init(s: State) {
    && s.rows == map[] && s.used == {} && s.requests == map[] && s.stream == map[] && s.cancels == map[]
    && (forall w :: w in s.workers ==> s.workers[w].Idle?)
    && s.published == {} && s.chain == Chain(0, Triggering, [], [])
    && s.claimed == {} && s.started == {} && s.stranded == {} && s.deaths == 0
  }

  datatype Run = Run(states: seq<State>, events: seq<Event>)

  /** Event i is enabled in state i and leads to the next state. */
  ghost predicate StepAt(r: Run, i: int) {
    && 0 <= i < |r.events| && i + 1 < |r.states|
    && Can(r.states[i], r.events[i]) && r.states[i + 1] == Apply(r.states[i], r.events[i])
  }

  /** A run: any sequence of enabled actions from an initial state. */
  ghost predicate IsRun(r: Run) {
    && |r.states| == |r.events| + 1
    && Init(r.states[0])
    && (forall i :: 0 <= i < |r.events| ==> StepAt(r, i))
  }

  ghost function Last(r: Run): State
    requires IsRun(r)
  {
    r.states[|r.events|]
  }

  lemma {:induction false} Extend(r: Run, e: Event) returns (r': Run)
    requires IsRun(r) && Can(Last(r), e)
    ensures IsRun(r') && r' == Run(r.states + [Apply(Last(r), e)], r.events + [e]) && Last(r') == Apply(Last(r), e)
  {
    r' := Run(r.states + [Apply(Last(r), e)], r.events + [e]);
    forall i | 0 <= i < |r'.events|
      ensures StepAt(r', i)
    {
      assert i < |r.events| ==> StepAt(r, i);
    }
  }
}
