/** Each service's sequential code as consecutive steps of the interleaving protocol, from any state of it: the
    theorems over all runs therefore cover that code with nobody, or anybody, in between. */
module JobServiceSteps {
  import opened JobProtocol
  import opened JobRuns
  import opened JobSafety
  import opened JobServices
  import opened JobTheorems
  import opened Options

  /** Where these events lead from s, if each is enabled in its turn. */
  function Through(s: State, es: seq<Event>): Option<State> {
    if es == [] then Some(s) else
      var before := Through(s, es[..|es| - 1]);
      var last := es[|es| - 1];
      if before.Some? && Can(before.value, last) then Some(Apply(before.value, last)) else None
  }

  lemma {:induction false} Then(s: State, es: seq<Event>, m: State, e: Event)
    requires Through(s, es) == Some(m) && Can(m, e)
    ensures Through(s, es + [e]) == Some(Apply(m, e))
  {
    assert (es + [e])[..|es|] == es;
  }

  lemma {:induction false} ThenWork(s: State, es: seq<Event>, m: State, w: WorkerId, a: WorkerAction)
    requires Through(s, es) == Some(m) && CanWork(m, w, a)
    ensures Through(s, es + [Work(w, a)]) == Some(AfterWork(m, w, a))
  {
    Then(s, es, m, Work(w, a));
  }

  lemma {:induction false} ThenCancel(s: State, es: seq<Event>, m: State, call: CallId, a: CancelAction)
    requires Through(s, es) == Some(m) && CanCancel(m, call, a)
    ensures Through(s, es + [Cancel(call, a)]) == Some(AfterCancel(m, call, a))
  {
    Then(s, es, m, Cancel(call, a));
  }

  lemma {:induction false} ThenApi(s: State, es: seq<Event>, m: State, a: ApiAction)
    requires Through(s, es) == Some(m) && CanApi(m, a)
    ensures Through(s, es + [Api(a)]) == Some(AfterApi(m, a))
  {
    Then(s, es, m, Api(a));
  }

  function StatusesOf(events: seq<JobEvent>): set<(RunId, Status)> {
    set e | e in events && e.StatusEvent? :: (e.id, e.status)
  }

  // ---- handle_message ----

  function ClaimSteps(w: WorkerId, id: RunId, t1: Time): seq<Event> {
    [] + [Work(w, Take(id))] + [Work(w, WorkerAction.MarkRunning(t1))] + [Work(w, Announce)] + [Work(w, Start)]
  }

  /** The worker's steps for one message with these arguments, when nobody else acts in between. */
  function MessageSteps(s: State, w: WorkerId, id: RunId, how: Handling, t1: Time, t2: Time): seq<Event>
    requires id in s.stream
  {
    if s.stream[id] !in JOB_TABLE then [] + [Work(w, Take(id))] + [Work(w, RejectUnknown(t1))]
    else if !Claimable(s.rows, id) then [] + [Work(w, Take(id))] + [Work(w, WorkerAction.MarkRunning(t1))]
    else if how.Raised? then ClaimSteps(w, id, t1) + [Work(w, Die)]
    else
      ClaimSteps(w, id, t1) + [Work(w, Finish(how.result.status))]
      + [Work(w, WorkerAction.MarkTerminal(ReportOf(how.result), t2))] + [Work(w, PublishOutcome)]
  }

  /** The state of a worker that has called the handler. */
  function Called(s: State, w: WorkerId, id: RunId, t1: Time): State {
    s.(rows := MarkedRunning(s.rows, id, t1), workers := s.workers[w := Executing(id)], claimed := s.claimed + {id},
       started := s.started + {id}, published := s.published + {(id, Running)})
  }

  ghost predicate Ready(s: State, w: WorkerId, id: RunId) {
    w in s.workers && s.workers[w].Idle? && id in s.stream && Unlocked(s.cancels, id)
  }

  lemma {:induction false} ClaimStates(s: State, s1: State, s2: State, s3: State, w: WorkerId, id: RunId, t1: Time)
    requires Ready(s, w, id) && s.stream[id] in JOB_TABLE && Claimable(s.rows, id)
    requires s1 == s.(workers := s.workers[w := Took(id, s.stream[id])])
    requires s2 == s.(rows := MarkedRunning(s.rows, id, t1), workers := s.workers[w := Claimed(id)],
                      claimed := s.claimed + {id})
    requires s3 == s2.(workers := s.workers[w := Announced(id)], published := s.published + {(id, Running)})
    ensures CanWork(s, w, Take(id)) && s1 == AfterWork(s, w, Take(id))
    ensures CanWork(s1, w, WorkerAction.MarkRunning(t1)) && s2 == AfterWork(s1, w, WorkerAction.MarkRunning(t1))
    ensures CanWork(s2, w, Announce) && s3 == AfterWork(s2, w, Announce)
    ensures CanWork(s3, w, Start) && Called(s, w, id, t1) == AfterWork(s3, w, Start)
  {}

  lemma {:induction false} ClaimLeadsTo(s: State, w: WorkerId, id: RunId, t1: Time)
    requires Ready(s, w, id) && s.stream[id] in JOB_TABLE && Claimable(s.rows, id)
    ensures Through(s, ClaimSteps(w, id, t1)) == Some(Called(s, w, id, t1))
  {
    var s1 := s.(workers := s.workers[w := Took(id, s.stream[id])]);
    var s2 := s.(rows := MarkedRunning(s.rows, id, t1), workers := s.workers[w := Claimed(id)],
                 claimed := s.claimed + {id});
    var s3 := s2.(workers := s.workers[w := Announced(id)], published := s.published + {(id, Running)});
    ClaimStates(s, s1, s2, s3, w, id, t1);
    var two := [] + [Work(w, Take(id))] + [Work(w, WorkerAction.MarkRunning(t1))];
    ThenWork(s, [], s, w, Take(id));
    ThenWork(s, [] + [Work(w, Take(id))], s1, w, WorkerAction.MarkRunning(t1));
    ThenWork(s, two, s2, w, Announce);
    ThenWork(s, two + [Work(w, Announce)], s3, w, Start);
  }

  /** The state after a handler that returned: reported and published. */
  function Reported(s: State, w: WorkerId, id: RunId, h: HandlerResult, t1: Time, t2: Time): State {
    var c := Called(s, w, id, t1);
    c.(rows := MarkedTerminal(c.rows, id, ReportOf(h), t2), workers := s.workers[w := Idle],
       published := c.published + {(id, h.status)})
  }

  lemma {:induction false} ReportStates(
    c: State, c1: State, c2: State, t: State, w: WorkerId, id: RunId, h: HandlerResult, t2: Time)
    requires w in c.workers && c.workers[w] == Executing(id) && id in c.rows && Unlocked(c.cancels, id)
      && Terminal(h.status)
    requires c1 == c.(workers := c.workers[w := Reporting(id, h.status)])
    requires c2 == c.(rows := MarkedTerminal(c.rows, id, ReportOf(h), t2),
      workers := c.workers[w := Publishing(id, h.status)])
    requires t == c2.(workers := c.workers[w := Idle], published := c.published + {(id, h.status)})
    ensures CanWork(c, w, Finish(h.status)) && c1 == AfterWork(c, w, Finish(h.status))
    ensures CanWork(c1, w, WorkerAction.MarkTerminal(ReportOf(h), t2))
    ensures c2 == AfterWork(c1, w, WorkerAction.MarkTerminal(ReportOf(h), t2))
    ensures CanWork(c2, w, PublishOutcome) && t == AfterWork(c2, w, PublishOutcome)
  {}

  lemma {:induction false} ReportLeadsTo(s: State, w: WorkerId, id: RunId, h: HandlerResult, t1: Time, t2: Time)
    requires Ready(s, w, id) && s.stream[id] in JOB_TABLE && Claimable(s.rows, id) && Terminal(h.status)
    ensures Through(s, MessageSteps(s, w, id, Returned(h), t1, t2)) == Some(Reported(s, w, id, h, t1, t2))
  {
    var c, es, report := Called(s, w, id, t1), ClaimSteps(w, id, t1), WorkerAction.MarkTerminal(ReportOf(h), t2);
    var c1 := c.(workers := c.workers[w := Reporting(id, h.status)]);
    var c2 := c.(rows := MarkedTerminal(c.rows, id, ReportOf(h), t2),
      workers := c.workers[w := Publishing(id, h.status)]);
    ClaimLeadsTo(s, w, id, t1);
    ReportStates(c, c1, c2, Reported(s, w, id, h, t1, t2), w, id, h, t2);
    ThenWork(s, es, c, w, Finish(h.status));
    ThenWork(s, es + [Work(w, Finish(h.status))], c1, w, report);
    ThenWork(s, es + [Work(w, Finish(h.status))] + [Work(w, report)], c2, w, PublishOutcome);
  }

  /** The state after a handler that raised: the row stays running, and nothing tells the browser. */
  function Escaped(s: State, w: WorkerId, id: RunId, t1: Time): State {
    var c := Called(s, w, id, t1);
    c.(workers := s.workers[w := Idle], stranded := s.stranded + {id}, deaths := s.deaths + 1)
  }

  lemma {:induction false} RaiseLeadsTo(s: State, w: WorkerId, id: RunId, t1: Time, t2: Time)
    requires Ready(s, w, id) && s.stream[id] in JOB_TABLE && Claimable(s.rows, id)
    ensures Through(s, MessageSteps(s, w, id, Raised, t1, t2)) == Some(Escaped(s, w, id, t1))
  {
    ClaimLeadsTo(s, w, id, t1);
    var c := Called(s, w, id, t1);
    assert CanWork(c, w, Die) && AfterWork(c, w, Die) == Escaped(s, w, id, t1);
    ThenWork(s, ClaimSteps(w, id, t1), c, w, Die);
  }

  /** An unknown type fails its row; a row that is not queued is left alone and the worker moves on. */
  lemma {:induction false} SkipLeadsTo(s: State, w: WorkerId, id: RunId, how: Handling, t1: Time, t2: Time)
    requires Ready(s, w, id) && (s.stream[id] !in JOB_TABLE || !Claimable(s.rows, id))
    ensures Through(s, MessageSteps(s, w, id, how, t1, t2))
         == Some(s.(rows := if s.stream[id] in JOB_TABLE then s.rows
                            else MarkedTerminal(s.rows, id, UnknownReport(s.stream[id]), t1)))
  {
    var s1 := s.(workers := s.workers[w := Took(id, s.stream[id])]);
    assert CanWork(s, w, Take(id)) && s1 == AfterWork(s, w, Take(id));
    assert s.workers[w := Idle] == s.workers;
    ThenWork(s, [], s, w, Take(id));
    if s.stream[id] in JOB_TABLE {
      assert s1.workers[w := Idle] == s.workers;
      assert AfterWork(s1, w, WorkerAction.MarkRunning(t1)) == s;
      ThenWork(s, [] + [Work(w, Take(id))], s1, w, WorkerAction.MarkRunning(t1));
      assert s == s.(rows := s.rows);
    } else {
      var t := s.(rows := MarkedTerminal(s.rows, id, UnknownReport(s.stream[id]), t1));
      assert s1.workers[w := Idle] == s.workers;
      assert AfterWork(s1, w, RejectUnknown(t1)) == t;
      ThenWork(s, [] + [Work(w, Take(id))], s1, w, RejectUnknown(t1));
    }
  }

  lemma {:induction false} StatusesHandled(id: RunId, live: seq<string>, last: seq<JobEvent>)
    requires |last| <= 1 && forall e :: e in last ==> e.StatusEvent? && e.id == id
    ensures StatusesOf([StatusEvent(id, Running)] + LogEvents(id, live) + last)
         == {(id, Running)} + (if last == [] then {} else {(id, last[0].status)})
  {
    var events := [StatusEvent(id, Running)] + LogEvents(id, live) + last;
    assert events[0] == StatusEvent(id, Running);
    assert forall e :: e in LogEvents(id, live) ==> e.LogEvent?;
    if last != [] {
      assert events[|events| - 1] == last[0] && last[0] in last;
    }
  }

  /** handle_message on any path is those steps of the protocol: same table, same published statuses, and
      everybody else untouched. */
  lemma {:induction false} HandleMessageIsProtocol(
    s: State, w: WorkerId, id: RunId, how: Handling, live: seq<string>, t1: Time, t2: Time) returns (t: State)
    requires Ready(s, w, id) && (how.Returned? ==> Terminal(how.result.status))
    ensures Through(s, MessageSteps(s, w, id, how, t1, t2)) == Some(t)
    ensures t.workers == s.workers && t.cancels == s.cancels && t.requests == s.requests && t.chain == s.chain
    ensures t.rows == Handled(s.rows, id, s.stream[id], how, live, t1, t2).0
    ensures t.published == s.published + StatusesOf(Handled(s.rows, id, s.stream[id], how, live, t1, t2).1)
  {
    assert s.workers[w := Idle] == s.workers;
    if s.stream[id] !in JOB_TABLE || !Claimable(s.rows, id) {
      SkipLeadsTo(s, w, id, how, t1, t2);
      t := Through(s, MessageSteps(s, w, id, how, t1, t2)).value;
    } else if how.Raised? {
      RaiseLeadsTo(s, w, id, t1, t2);
      t := Escaped(s, w, id, t1);
      StatusesHandled(id, live, []);
      assert [StatusEvent(id, Running)] + LogEvents(id, live) + [] == [StatusEvent(id, Running)] + LogEvents(id, live);
    } else {
      ReportLeadsTo(s, w, id, how.result, t1, t2);
      t := Reported(s, w, id, how.result, t1, t2);
      StatusesHandled(id, live, [StatusEvent(id, how.result.status)]);
    }
  }

  // ---- Run ----

  /** The steps of one Run call. After a lost answer to the INSERT, a panic, or a MarkFailed that did not get
      through, nobody is left to act for the row. */
  function RunSteps(c: RunCall): seq<Event> {
    if c.jobType !in CATALOG || !Applied(c.insert) then []
    else
      var insert := [] + [Api(InsertOf(c))];
      if c.insert.Err? || IsJsonNull(c.body) then insert + [Api(Abandon(c.id))]
      else if c.enqueue.Ok? then insert + [Api(Enqueue(c.id, true, true))]
      else insert + [Api(Enqueue(c.id, c.enqueue.applied, false))] + [Api(LastResort(c))]
  }

  function InsertOf(c: RunCall): ApiAction { Insert(c.id, c.jobType, StoredParams(c.body), c.t1, false) }

  function LastResort(c: RunCall): ApiAction
    requires c.enqueue.Err?
  {
    if Applied(c.mark) then ApiAction.MarkFailed(c.id, EnqueueFailure(c.enqueue), c.t2) else Abandon(c.id)
  }

  /** After the INSERT. */
  function Entered(s: State, c: RunCall): State {
    s.(rows := Inserted(s.rows, c.id, c.jobType, StoredParams(c.body), c.t1), used := s.used + {c.id},
       requests := s.requests[c.id := NeedsEnqueue(c.jobType)])
  }

  /** After an enqueue that failed, whether or not the message got there. */
  function Unenqueued(s: State, c: RunCall): State
    requires c.enqueue.Err?
  {
    Entered(s, c).(stream := if c.enqueue.applied then s.stream[c.id := c.jobType] else s.stream,
                   requests := s.requests[c.id := NeedsMarkFailed])
  }

  /** After the call, its request gone. */
  function Answered(s: State, c: RunCall): State {
    s.(rows := Triggered(s.rows, c), stream := if c.Streams() then s.stream[c.id := c.jobType] else s.stream,
       used := if c.jobType in CATALOG && Applied(c.insert) then s.used + {c.id} else s.used)
  }

  ghost predicate CanRun(s: State, c: RunCall) {
    c.id !in s.used && c.id !in s.requests && Unlocked(s.cancels, c.id)
  }

  lemma {:induction false} InsertStep(s: State, c: RunCall)
    requires CanRun(s, c) && c.jobType in CATALOG
    ensures CanApi(s, InsertOf(c)) && AfterApi(s, InsertOf(c)) == Entered(s, c)
  {}

  lemma {:induction false} AbandonStep(s: State, c: RunCall)
    requires CanRun(s, c) && c.jobType in CATALOG && Applied(c.insert) && (c.insert.Err? || IsJsonNull(c.body))
    ensures CanApi(Entered(s, c), Abandon(c.id)) && AfterApi(Entered(s, c), Abandon(c.id)) == Answered(s, c)
  {
    assert Entered(s, c).requests - {c.id} == s.requests;
  }

  lemma {:induction false} EnqueueStep(s: State, c: RunCall)
    requires CanRun(s, c) && c.Acknowledged()
    ensures CanApi(Entered(s, c), Enqueue(c.id, true, true))
    ensures AfterApi(Entered(s, c), Enqueue(c.id, true, true)) == Answered(s, c)
  {
    assert Entered(s, c).requests - {c.id} == s.requests;
  }

  lemma {:induction false} FailedEnqueueStep(s: State, c: RunCall)
    requires CanRun(s, c) && c.Entered() && c.enqueue.Err?
    ensures var failed := Enqueue(c.id, c.enqueue.applied, false);
      CanApi(Entered(s, c), failed) && AfterApi(Entered(s, c), failed) == Unenqueued(s, c)
  {}

  lemma {:induction false} LastResortStep(s: State, c: RunCall)
    requires CanRun(s, c) && c.Entered() && !IsJsonNull(c.body) && c.enqueue.Err?
    ensures CanApi(Unenqueued(s, c), LastResort(c))
    ensures AfterApi(Unenqueued(s, c), LastResort(c)) == Answered(s, c)
  {
    assert Unenqueued(s, c).requests - {c.id} == s.requests;
  }

  /** Run is those steps on every path: the same table, the message on the stream exactly if it got there, and no
      request left. */
  lemma {:induction false} RunIsProtocol(s: State, c: RunCall) returns (t: State)
    requires CanRun(s, c)
    ensures Through(s, RunSteps(c)) == Some(t)
    ensures t.rows == Triggered(s.rows, c)
    ensures t.stream == if c.Streams() then s.stream[c.id := c.jobType] else s.stream
    ensures t.used == if c.jobType in CATALOG && Applied(c.insert) then s.used + {c.id} else s.used
    ensures t.workers == s.workers && t.cancels == s.cancels && t.requests == s.requests && t.chain == s.chain
      && t.claimed == s.claimed
  {
    t := Answered(s, c);
    if c.jobType in CATALOG && Applied(c.insert) {
      var insert, entered := [] + [Api(InsertOf(c))], Entered(s, c);
      InsertStep(s, c);
      ThenApi(s, [], s, InsertOf(c));
      if c.insert.Err? || IsJsonNull(c.body) {
        AbandonStep(s, c);
        ThenApi(s, insert, entered, Abandon(c.id));
      } else if c.enqueue.Ok? {
        EnqueueStep(s, c);
        ThenApi(s, insert, entered, Enqueue(c.id, true, true));
      } else {
        FailedEnqueueStep(s, c);
        LastResortStep(s, c);
        var failed := Enqueue(c.id, c.enqueue.applied, false);
        ThenApi(s, insert, entered, failed);
        ThenApi(s, insert + [Api(failed)], Unenqueued(s, c), LastResort(c));
      }
    }
  }

  /** A call leaves its row queued where no worker will ever find it exactly if the row was inserted and: the
      answer to the INSERT was lost, or the body was null, or neither the message nor the failure got through. */
  lemma {:induction false} RunForgetsExactly(s: State, c: RunCall)
    requires Inv(s) && CanRun(s, c)
    ensures Through(s, RunSteps(c)).Some?
    ensures var t := Through(s, RunSteps(c)).value;
      && (c.jobType in CATALOG && Applied(c.insert) ==>
        (Forgotten(t, c.id) && Claimable(t.rows, c.id)
         <==> c.insert.Err? || IsJsonNull(c.body) || (!Applied(c.enqueue) && !Applied(c.mark))))
  {
    var t := RunIsProtocol(s, c);
    if c.jobType in CATALOG && Applied(c.insert) {
      assert c.id !in s.rows && c.id !in s.stream;
      if !(c.insert.Err? || IsJsonNull(c.body)) {
        assert c.id in t.stream <==> Applied(c.enqueue);
      }
    }
  }

  /** The null body, whose three calls all succeed, is such a call. */
  lemma {:induction false} NullBodyForgotten(s: State, c: RunCall)
    requires Inv(s) && CanRun(s, c) && c.jobType in CATALOG && c.body == "null"
    requires c.insert.Ok? && c.enqueue.Ok? && c.mark.Ok?
    ensures Through(s, RunSteps(c)).Some?
    ensures var t := Through(s, RunSteps(c)).value; Forgotten(t, c.id) && Claimable(t.rows, c.id)
  {
    assert IsJsonNull("null");
    RunForgetsExactly(s, c);
  }

  // ---- CancelAll ----

  function LockSteps(call: CallId, ids: seq<RunId>): seq<Event> {
    if ids == [] then [] + [Cancel(call, Begin)]
    else LockSteps(call, ids[..|ids| - 1]) + [Cancel(call, Lock(ids[|ids| - 1]))]
  }

  function PublishSteps(call: CallId, ids: seq<RunId>): seq<Event> {
    if ids == [] then [] else PublishSteps(call, ids[..|ids| - 1]) + [Cancel(call, PublishCancelled(ids[|ids| - 1]))]
  }

  /** The cancel call after its select, with these rows locked so far. */
  function Locking(s: State, call: CallId, ids: seq<RunId>): State {
    var active := ActiveIds(s.rows);
    var locked := map id | id in ids && id in s.rows :: s.rows[id].status;
    s.(cancels := s.cancels[call := Collecting(active, active - (set id | id in ids), locked)])
  }

  /** A list of the active rows, none of them locked by another call. */
  ghost predicate FreeRows(s: State, call: CallId, ids: seq<RunId>) {
    && call !in s.cancels && Distinct(ids)
    && forall id :: id in ids ==> id in ActiveIds(s.rows) && Unlocked(s.cancels, id)
  }

  lemma {:induction false} LastIsNew(ids: seq<RunId>, id: RunId)
    requires Distinct(ids + [id])
    ensures id !in ids && id in ids + [id]
  {
    assert (ids + [id])[|ids|] == id;
    forall i | 0 <= i < |ids|
      ensures ids[i] != id
    {
      assert (ids + [id])[i] == ids[i];
    }
  }

  lemma {:induction false} LockNext(s: State, call: CallId, ids: seq<RunId>, id: RunId)
    requires FreeRows(s, call, ids + [id])
    ensures CanCancel(Locking(s, call, ids), call, Lock(id))
    ensures AfterCancel(Locking(s, call, ids), call, Lock(id)) == Locking(s, call, ids + [id])
  {
    var m, t := Locking(s, call, ids), Locking(s, call, ids + [id]);
    LastIsNew(ids, id);
    assert m.cancels[call].pending - {id} == t.cancels[call].pending;
    assert m.cancels[call].locked[id := s.rows[id].status] == t.cancels[call].locked;
    assert m.cancels[call := t.cancels[call]] == t.cancels;
  }

  lemma {:induction false} LocksLeadTo(s: State, call: CallId, ids: seq<RunId>)
    requires FreeRows(s, call, ids)
    ensures Through(s, LockSteps(call, ids)) == Some(Locking(s, call, ids))
  {
    if ids == [] {
      assert Locking(s, call, []).cancels[call] == Collecting(ActiveIds(s.rows), ActiveIds(s.rows), map[]);
      ThenCancel(s, [], s, call, Begin);
    } else {
      var front, last := ids[..|ids| - 1], ids[|ids| - 1];
      assert ids == front + [last];
      LocksLeadTo(s, call, front);
      LockNext(s, call, front, last);
      ThenCancel(s, LockSteps(call, front), Locking(s, call, front), call, Lock(last));
    }
  }

  /** The cancel call after its commit, with these rows' events published so far. */
  function Notified(s: State, call: CallId, now: Time, ids: seq<RunId>): State {
    var active := ActiveIds(s.rows);
    s.(rows := CancelledIn(s.rows, active, now),
       cancels := s.cancels[call := Notifying(active - (set id | id in ids), SomeRunning(s.rows))],
       published := s.published + set id | id in ids :: (id, Cancelled))
  }

  lemma {:induction false} CommitLeadsTo(s: State, call: CallId, now: Time, ids: seq<RunId>)
    requires FreeRows(s, call, ids) && forall id :: id in ActiveIds(s.rows) ==> id in ids
    ensures CanCancel(Locking(s, call, ids), call, Commit(now))
    ensures AfterCancel(Locking(s, call, ids), call, Commit(now)) == Notified(s, call, now, [])
  {
    var m, t := Locking(s, call, ids), Notified(s, call, now, []);
    var c := m.cancels[call];
    assert c.pending == {};
    assert c.locked.Keys == ActiveIds(s.rows);
    assert RestartWanted(c.locked) == SomeRunning(s.rows) by {
      if id :| id in s.rows && s.rows[id].status.Running? {
        assert id in ActiveIds(s.rows) && id in c.locked;
      }
    }
    assert t.cancels[call] == Notifying(ActiveIds(s.rows), SomeRunning(s.rows)) by {
      assert ActiveIds(s.rows) - (set id | id in []) == ActiveIds(s.rows);
    }
    assert m.cancels[call := t.cancels[call]] == t.cancels;
    assert t.published == s.published;
  }

  lemma {:induction false} PublishNext(s: State, call: CallId, now: Time, ids: seq<RunId>, id: RunId)
    requires FreeRows(s, call, ids + [id])
    ensures CanCancel(Notified(s, call, now, ids), call, PublishCancelled(id))
    ensures AfterCancel(Notified(s, call, now, ids), call, PublishCancelled(id)) == Notified(s, call, now, ids + [id])
  {
    var m, t := Notified(s, call, now, ids), Notified(s, call, now, ids + [id]);
    LastIsNew(ids, id);
    assert m.cancels[call].left - {id} == t.cancels[call].left;
    assert m.cancels[call := t.cancels[call]] == t.cancels;
    assert m.published + {(id, Cancelled)} == t.published;
  }

  lemma {:induction false} PublishLeadsTo(s: State, before: seq<Event>, call: CallId, now: Time, ids: seq<RunId>)
    requires FreeRows(s, call, ids) && Through(s, before) == Some(Notified(s, call, now, []))
    ensures Through(s, before + PublishSteps(call, ids)) == Some(Notified(s, call, now, ids))
  {
    if ids == [] {
      assert before + [] == before;
    } else {
      var front, last := ids[..|ids| - 1], ids[|ids| - 1];
      assert ids == front + [last];
      PublishLeadsTo(s, before, call, now, front);
      PublishNext(s, call, now, front, last);
      ThenCancel(s, before + PublishSteps(call, front), Notified(s, call, now, front), call, PublishCancelled(last));
      assert before + PublishSteps(call, ids)
          == before + PublishSteps(call, front) + [Cancel(call, PublishCancelled(last))];
    }
  }

  /** The steps of one CancelAll call that cancels these rows: select, lock each, commit, announce each, and
      restart a worker if some row was running. */
  function CancelSteps(s: State, call: CallId, now: Time, ids: seq<RunId>, w: WorkerId): seq<Event> {
    LockSteps(call, ids) + [Cancel(call, Commit(now))] + PublishSteps(call, ids)
    + [Cancel(call, if SomeRunning(s.rows) then RestartWorker(w) else End)]
  }

  /** CancelAll is those steps: what CancelActiveRuns returns and leaves in the table, the statuses announced,
      and a restart exactly if one was running. */
  lemma {:induction false} CancelAllIsProtocol(
    s: State, call: CallId, now: Time, runs: seq<CancelledRun>, after: Table, w: WorkerId) returns (t: State)
    requires call !in s.cancels && w in s.workers && CancelPost(s.rows, runs, after, now)
    requires forall id :: id in ActiveIds(s.rows) ==> Unlocked(s.cancels, id)
    ensures Through(s, CancelSteps(s, call, now, Ids(runs), w)) == Some(t)
    ensures t.rows == after && t.cancels == s.cancels && t.stream == s.stream && t.requests == s.requests
    ensures t.published == s.published + set id | id in Ids(runs) :: (id, Cancelled)
    ensures t.workers == if SomeRunning(s.rows) then s.workers[w := Idle] else s.workers
  {
    var ids := Ids(runs);
    IdsAreActive(s.rows, runs, after, now);
    var locks, m := LockSteps(call, ids), Notified(s, call, now, ids);
    LocksLeadTo(s, call, ids);
    CommitLeadsTo(s, call, now, ids);
    ThenCancel(s, locks, Locking(s, call, ids), call, Commit(now));
    PublishLeadsTo(s, locks + [Cancel(call, Commit(now))], call, now, ids);
    t := LastCancelStep(s, m, call, now, ids, w);
    ThenCancel(s, locks + [Cancel(call, Commit(now))] + PublishSteps(call, ids), m, call,
               if SomeRunning(s.rows) then RestartWorker(w) else End);
  }

  lemma {:induction false} LastCancelStep(
    s: State, m: State, call: CallId, now: Time, ids: seq<RunId>, w: WorkerId) returns (t: State)
    requires call !in s.cancels && w in s.workers && m == Notified(s, call, now, ids)
    requires forall id :: id in ActiveIds(s.rows) ==> id in ids
    ensures var a := if SomeRunning(s.rows) then RestartWorker(w) else End;
      CanCancel(m, call, a) && t == AfterCancel(m, call, a)
    ensures t.rows == m.rows && t.cancels == s.cancels && t.published == m.published
    ensures t.stream == s.stream && t.requests == s.requests
    ensures t.workers == if SomeRunning(s.rows) then s.workers[w := Idle] else s.workers
  {
    assert m.cancels[call].left == {};
    assert m.cancels - {call} == s.cancels;
    t := AfterCancel(m, call, if SomeRunning(s.rows) then RestartWorker(w) else End);
  }

  function Ids(runs: seq<CancelledRun>): seq<RunId> { seq(|runs|, i requires 0 <= i < |runs| => runs[i].id) }

  lemma {:induction false} IdsAreActive(t: Table, runs: seq<CancelledRun>, after: Table, now: Time)
    requires CancelPost(t, runs, after, now)
    ensures Distinct(Ids(runs)) && forall id :: id in Ids(runs) <==> id in ActiveIds(t)
  {
    var ids := Ids(runs);
    forall id
      ensures id in ids <==> id in ActiveIds(t)
    {
      if id in ids {
        var i :| 0 <= i < |ids| && ids[i] == id;
        assert runs[i].id == id && Mentions(runs, id);
      }
      if id in ActiveIds(t) {
        assert Mentions(runs, id);
        var i :| 0 <= i < |runs| && runs[i].id == id;
        assert ids[i] == id;
      }
    }
  }
}
