/** One run watched over its WebSocket: the server's backfill-then-relay handler, the
    browser's waitForRunTerminal, what the two do together, and the Run All loop that awaits
    them stage after stage. */
module RunEvents {
  import opened Options
  import opened JobRuns
  import opened JobProtocol

  /** A frame as the browser sees it: the row on connect, then events. */
  datatype Frame = Backfill(status: Status) | StatusFrame(status: Status) | LogFrame(line: string)

  /** The server's own notion of terminal, which leaves cancelled out. */
  predicate ServerTerminal(s: Status) { s.Succeeded? || s.Partial? || s.Failed? }

  predicate EndsRelay(f: Frame) { f.StatusFrame? && ServerTerminal(f.status) }

  /** The events up to and including the first one the server closes on. */
  function Relayed(events: seq<Frame>): seq<Frame> {
    if events == [] then [] else if EndsRelay(events[0]) then [events[0]] else [events[0]] + Relayed(events[1..])
  }

  /** Everything the server sends for a run found with this status. */
  function ServerFrames(status: Status, events: seq<Frame>): seq<Frame> {
    [Backfill(status)] + (if ServerTerminal(status) then [] else Relayed(events))
  }

  lemma {:induction false} RelayedSteps(events: seq<Frame>, k: nat)
    requires k < |events| && forall i :: 0 <= i < k ==> !EndsRelay(events[i])
    ensures k < |Relayed(events)| && Relayed(events)[..k] == events[..k] && Relayed(events)[k] == events[k]
    ensures EndsRelay(events[k]) ==> Relayed(events) == events[..k + 1]
    ensures k + 1 == |events| ==> Relayed(events) == events
  {
    if k > 0 {
      RelayedSteps(events[1..], k - 1);
      assert events == [events[0]] + events[1..];
    }
  }

  /** Everything the server sends for a lookup that may find no run. */
  function SentFrames(run: Option<Status>, events: seq<Frame>): seq<Frame> {
    if run.None? then [] else ServerFrames(run.value, events)
  }

  /** Whether the server itself ends the connection: "job not found", or a status it takes as terminal. */
  predicate Closes(run: Option<Status>, events: seq<Frame>) {
    run.None? || ServerTerminal(run.value) || exists i :: 0 <= i < |events| && EndsRelay(events[i])
  }

  /** The relay loop. `writes` is how many events get written before the client is gone or a write fails,
      None if neither happens. */
  method RelayEvents(events: seq<Frame>, writes: Option<nat>) returns (sent: seq<Frame>, closed: bool)
    ensures sent <= Relayed(events) && sent <= events
    ensures forall i :: 0 <= i < |sent| - 1 && sent[i].StatusFrame? ==>
      sent[i].status in {Queued, Running, Cancelled}
    ensures closed ==>
      sent != [] && sent[|sent| - 1].StatusFrame? && sent[|sent| - 1].status in {Succeeded, Partial, Failed}
    ensures writes.None? && !closed ==>
      sent == events && forall i :: 0 <= i < |events| && events[i].StatusFrame? ==>
        events[i].status in {Queued, Running, Cancelled}
    ensures writes.None? || writes.value >= |Relayed(events)| ==>
      sent == Relayed(events) && (closed <==> exists i :: 0 <= i < |events| && EndsRelay(events[i]))
    ensures writes.Some? && writes.value < |Relayed(events)| ==> |sent| == writes.value && !closed
  {
    sent, closed := [], false;
    for k := 0 to |events|
      invariant sent == events[..k] && (writes.None? || writes.value >= k)
      invariant forall i :: 0 <= i < k ==> !EndsRelay(events[i])
    {
      RelayedSteps(events, k);
      if writes == Some(k) {
        return;
      }
      sent := sent + [events[k]];
      assert sent == events[..k + 1];
      if EndsRelay(events[k]) {
        closed := true;
        return;
      }
    }
    assert events[..|events|] == events;
    if events != [] {
      RelayedSteps(events, |events| - 1);
    }
  }

  /** HandleJobWS over the events that arrive while it is subscribed; `writes` as above, the backfill
      included. */
  method HandleJobWS(run: Option<Status>, events: seq<Frame>, writes: Option<nat>)
    returns (frames: seq<Frame>, closed: bool)
    requires forall i :: 0 <= i < |events| ==> !events[i].Backfill?
    ensures frames <= SentFrames(run, events)
    ensures run == None ==> frames == [] && closed
    ensures run.Some? && frames != [] ==> frames[0] == Backfill(run.value) && frames[1..] <= events
    ensures run.Some? && writes != Some(0) && run.value in {Succeeded, Partial, Failed} ==> |frames| == 1 && closed
    ensures run.Some? && run.value in {Queued, Running, Cancelled} && closed ==>
      && frames != [] && frames[|frames| - 1].StatusFrame?
      && frames[|frames| - 1].status in {Succeeded, Partial, Failed}
    ensures run.Some? && run.value in {Queued, Running, Cancelled} && writes.None? && !closed ==>
      && frames != [] && frames[1..] == events
      && forall i :: 0 <= i < |events| && events[i].StatusFrame? ==> events[i].status in {Queued, Running, Cancelled}
    ensures writes.None? || writes.value >= |SentFrames(run, events)| ==>
      frames == SentFrames(run, events) && closed == Closes(run, events)
    ensures writes.Some? && writes.value < |SentFrames(run, events)| ==> |frames| == writes.value && !closed
  {
    if run.None? {
      return [], true;
    }
    if writes == Some(0) {
      return [], false;
    }
    frames := [Backfill(run.value)];
    if ServerTerminal(run.value) {
      return frames, true;
    }
    var sent;
    sent, closed := RelayEvents(events, if writes.None? then None else Some(writes.value - 1));
    frames := frames + sent;
  }

  /** The state a frame carries for waitForRunTerminal, if it is one it resolves on. */
  function Resolving(f: Frame): Option<Status> {
    if f.LogFrame? || Active(f.status) then None else Some(f.status)
  }

  /** The first terminal state in a stream of frames, cancelled included. */
  function FirstTerminal(frames: seq<Frame>): Option<Status> {
    if frames == [] then None
    else if Resolving(frames[0]).Some? then Resolving(frames[0])
    else FirstTerminal(frames[1..])
  }

  /** The state is that of the first backfill or status frame with one of the four states that
      waitForRunTerminal lists, cancelled among them. */
  lemma {:induction false} FirstTerminalExactly(frames: seq<Frame>, k: nat)
    requires k < |frames| && (frames[k].Backfill? || frames[k].StatusFrame?)
    requires frames[k].status in {Succeeded, Partial, Failed, Cancelled}
    requires forall i :: 0 <= i < k && !frames[i].LogFrame? ==> frames[i].status in {Queued, Running}
    ensures FirstTerminal(frames) == Some(frames[k].status)
  {
    if k > 0 {
      FirstTerminalExactly(frames[1..], k - 1);
    }
  }

  /** How the promise stands: still pending, resolved to a state, or rejected by onerror. */
  datatype Promise = Unsettled | Resolved(state: Status) | RejectedByError

  /** waitForRunTerminal: resolves on the first frame with a terminal state and closes. `errorAfter` is how
      many frames arrive before the socket reports an error, if it does; a plain close settles nothing. */
  method WaitForRunTerminal(frames: seq<Frame>, errorAfter: Option<nat>) returns (promise: Promise, used: nat)
    ensures var seen := if errorAfter.Some? && errorAfter.value < |frames| then frames[..errorAfter.value] else frames;
      && (promise.Resolved? <==> FirstTerminal(seen).Some?)
      && (promise.Resolved? ==> promise.state == FirstTerminal(seen).value && used > 0)
      && (promise.RejectedByError? <==> FirstTerminal(seen).None? && errorAfter.Some? && errorAfter.value <= |frames|)
      && used <= |seen|
      && (!promise.Resolved? ==>
            forall i :: 0 <= i < |seen| && !seen[i].LogFrame? ==> seen[i].status in {Queued, Running})
      && (promise.Resolved? ==>
            && seen[used - 1] in {Backfill(promise.state), StatusFrame(promise.state)}
            && promise.state in {Succeeded, Partial, Failed, Cancelled}
            && forall i :: 0 <= i < used - 1 && !seen[i].LogFrame? ==> seen[i].status in {Queued, Running})
  {
    var last := if errorAfter.Some? && errorAfter.value < |frames| then errorAfter.value else |frames|;
    ghost var seen := frames[..last];
    assert last == |frames| ==> seen == frames;
    used := 0;
    while used < last
      invariant used <= last && forall i :: 0 <= i < used ==> Resolving(seen[i]).None?
      invariant FirstTerminal(seen[used..]) == FirstTerminal(seen)
    {
      var state := Resolving(frames[used]);
      used := used + 1;
      if state.Some? {
        return Resolved(state.value), used;
      }
      assert seen[used - 1..][1..] == seen[used..];
    }
    promise := if errorAfter == Some(last) then RejectedByError else Unsettled;
  }

  lemma {:induction false} RelayKeepsFirstTerminal(events: seq<Frame>)
    ensures FirstTerminal(Relayed(events)) == FirstTerminal(events)
  {
    if events != [] && !EndsRelay(events[0]) {
      RelayKeepsFirstTerminal(events[1..]);
      assert ([events[0]] + Relayed(events[1..]))[1..] == Relayed(events[1..]);
    }
  }

  /** Server and browser together: although the server's terminal test omits cancelled and it
      stops relaying early, the browser resolves exactly to the first terminal status of the
      row and the whole event stream. */
  lemma {:induction false} WatchResolvesToFirstTerminal(status: Status, events: seq<Frame>)
    ensures FirstTerminal(ServerFrames(status, events)) == FirstTerminal([Backfill(status)] + events)
  {
    RelayKeepsFirstTerminal(events);
    assert ([Backfill(status)] + events)[1..] == events;
    assert ServerFrames(status, events)[1..] == (if ServerTerminal(status) then [] else Relayed(events));
  }

  /** When the server closes on a status, the browser has resolved. */
  lemma {:induction false} ServerCloseMeansResolved(status: Status, events: seq<Frame>, k: nat)
    requires ServerTerminal(status) || (k < |events| && EndsRelay(events[k]))
    ensures FirstTerminal(ServerFrames(status, events)).Some?
  {
    WatchResolvesToFirstTerminal(status, events);
    assert ([Backfill(status)] + events)[1..] == events;
    if !ServerTerminal(status) {
      SomeTerminal(events, k);
    }
  }

  /** After any close by the server, the browser has resolved exactly if the run was found. */
  lemma {:induction false} CloseResolvesExactly(run: Option<Status>, events: seq<Frame>)
    requires Closes(run, events)
    ensures FirstTerminal(SentFrames(run, events)).Some? <==> run.Some?
  {
    if run.Some? {
      if ServerTerminal(run.value) {
        ServerCloseMeansResolved(run.value, events, 0);
      } else {
        var k :| 0 <= k < |events| && EndsRelay(events[k]);
        ServerCloseMeansResolved(run.value, events, k);
      }
    }
  }

  /** The failing case: a run that is not found is closed without a frame, and the promise, which has no
      close handler, stays unsettled. */
  method NotFoundNeverSettles() returns (closed: bool, promise: Promise)
    ensures closed && promise == Unsettled
  {
    var frames;
    frames, closed := HandleJobWS(None, [], None);
    var used;
    promise, used := WaitForRunTerminal(frames, None);
  }

  lemma {:induction false} SomeTerminal(frames: seq<Frame>, k: nat)
    requires k < |frames| && (frames[k].Backfill? || frames[k].StatusFrame?)
    requires frames[k].status in {Succeeded, Partial, Failed, Cancelled}
    ensures FirstTerminal(frames).Some?
  {
    if k > 0 {
      SomeTerminal(frames[1..], k - 1);
    }
  }

  // ---- the Run All loop ----

  /** How one stage's two awaits end: either promise rejects, or the run reaches a state. */
  datatype StageOutcome = Rejected | Ended(state: Status)

  predicate Passes(o: StageOutcome) { o.Ended? && (o.state.Succeeded? || o.state.Partial?) }

  datatype RunAllState =
    | RunningStage(stepIndex: nat)
    | StoppedAt(stepIndex: nat, jobType: string, finalState: Status)
    | AllDone

  /** The number of leading stages that pass. */
  function Passed(outcomes: seq<StageOutcome>): nat {
    if outcomes == [] || !Passes(outcomes[0]) then 0 else 1 + Passed(outcomes[1..])
  }

  lemma {:induction false} PassedIs(outcomes: seq<StageOutcome>, n: nat)
    requires n <= |outcomes| && forall i :: 0 <= i < n ==> Passes(outcomes[i])
    ensures Passed(outcomes) >= n && (n < |outcomes| && !Passes(outcomes[n]) ==> Passed(outcomes) == n)
    ensures n == |outcomes| ==> Passed(outcomes) == n
  {
    if n > 0 {
      PassedIs(outcomes[1..], n - 1);
    }
  }

  /** runAll against the outcomes its stages will have: it triggers one stage more than pass
      (all five if all pass) and ends done, stopped at the first stage that failed or was
      cancelled, or still showing the stage whose promise rejected. */
  method RunAllJobs(outcomes: seq<StageOutcome>) returns (state: RunAllState, triggered: seq<string>)
    requires |outcomes| == |PIPELINE_ORDER| && forall i :: 0 <= i < |outcomes| && outcomes[i].Ended? ==>
      Terminal(outcomes[i].state)
    ensures var p := Passed(outcomes);
      && p <= |PIPELINE_ORDER|
      && triggered == PIPELINE_ORDER[..if p < |PIPELINE_ORDER| then p + 1 else p]
      && state == (if p == |PIPELINE_ORDER| then AllDone
                   else if outcomes[p].Rejected? then RunningStage(p)
                   else StoppedAt(p, PIPELINE_ORDER[p], outcomes[p].state))
      && (forall i :: 0 <= i < p ==> outcomes[i] in {Ended(Succeeded), Ended(Partial)})
      && (p < 5 ==> outcomes[p] in {Rejected, Ended(Failed), Ended(Cancelled)})
      && triggered <= ["ingest", "silver", "gold", "features", "train"]
  {
    triggered, state := [], AllDone;
    for i := 0 to |PIPELINE_ORDER|
      invariant triggered == PIPELINE_ORDER[..i]
      invariant forall k :: 0 <= k < i ==> Passes(outcomes[k])
    {
      var jobType := PIPELINE_ORDER[i];
      state := RunningStage(i);
      triggered := triggered + [jobType];
      assert triggered == PIPELINE_ORDER[..i + 1];
      PassedIs(outcomes, i);
      if outcomes[i].Rejected? {
        return;
      }
      var finalState := outcomes[i].state;
      if finalState == Failed || finalState == Cancelled {
        state := StoppedAt(i, jobType, finalState);
        return;
      }
    }
    PassedIs(outcomes, |outcomes|);
    state := AllDone;
  }
}
