/** The per-job hub under every interleaving of its relay loop with tabs that arrive, leave
    and read: an event's snapshot and each of its sends are separate steps. */
module HubRuns {
  import opened Options
  import opened Channels
  import opened JobRuns
  import WsHubs

  const BUFFER: nat := WsHubs.BUFFER

  /** A subscription: its channel's own history and contents, and which events were already
      relayed when it arrived and when it left. */
  datatype Tab = Tab(job: RunId, log: seq<Local<JobEvent>>, contents: Contents<JobEvent>, since: nat,
      until: Option<nat>) {
    predicate Closed() { until.Some? }
  }

  datatype Relay = Idle | Sending(event: JobEvent, pending: seq<nat>)

  /** tabs are numbered in order of arrival; relayed holds every event a snapshot was taken for.
      crashed: the process died sending on a closed channel. */
  datatype State = State(tabs: seq<Tab>, conns: map<RunId, seq<nat>>, relay: Relay, relayed: seq<JobEvent>,
      crashed: bool)

  datatype Step = Arrive(job: RunId) | Leave(tab: nat) | Snapshot(event: JobEvent) | SendNext | Finish | Read(tab: nat)

  const INITIAL := State([], map[], Idle, [], false)

  function Listed(s: State, job: RunId): seq<nat> { if job in s.conns then s.conns[job] else [] }

  /** A tab leaves once: its handler defers a single unsubscribe. Nothing happens after a crash. */
  predicate Can(s: State, step: Step) {
    && !s.crashed
    && match step
       case Arrive(job) => true
       case Leave(k) => k < |s.tabs| && !s.tabs[k].Closed()
       case Snapshot(e) => s.relay.Idle?
       case SendNext => s.relay.Sending? && s.relay.pending != [] && s.relay.pending[0] < |s.tabs|
       case Finish => s.relay.Sending? && s.relay.pending == []
       case Read(k) => k < |s.tabs|
  }

  function Did(t: Tab, step: Local<JobEvent>): Tab {
    t.(log := t.log + [step], contents := Applied(t.contents, step, BUFFER))
  }

  function After(s: State, step: Step): State
    requires Can(s, step)
  {
    match step
    case Arrive(job) =>
      s.(tabs := s.tabs + [Tab(job, [], Contents([], []), |s.relayed|, None)],
        conns := s.conns[job := Listed(s, job) + [|s.tabs|]])
    case Leave(k) =>
      var job := s.tabs[k].job;
      var left := WsHubs.Without<nat>(Listed(s, job), k);
      s.(tabs := s.tabs[k := s.tabs[k].(until := Some(|s.relayed|))],
         conns := if left == [] then s.conns - {job} else s.conns[job := left])
    case Snapshot(e) => s.(relay := Sending(e, Listed(s, e.id)), relayed := s.relayed + [e])
    case SendNext =>
      var k := s.relay.pending[0];
      if s.tabs[k].Closed() then s.(crashed := true)
      else s.(tabs := s.tabs[k := Did(s.tabs[k], Offer(s.relay.event))],
        relay := Sending(s.relay.event, s.relay.pending[1..]))
    case Finish => s.(relay := Idle)
    case Read(k) => s.(tabs := s.tabs[k := Did(s.tabs[k], Take)])
  }

  /** The events for one job, in order. */
  function ForJob(events: seq<JobEvent>, job: RunId): seq<JobEvent> {
    if events == [] then [] else
      ForJob(events[..|events| - 1], job) + (if events[|events| - 1].id == job then [events[|events| - 1]] else [])
  }

  // ---- what every step keeps ----

  predicate Pending(s: State, k: nat) { s.relay.Sending? && k in s.relay.pending }

  function Until(t: Tab, relayed: seq<JobEvent>): nat { if t.until.Some? then t.until.value else |relayed| }

  /** The events of a tab's job relayed while it was subscribed. */
  function Due(t: Tab, relayed: seq<JobEvent>): seq<JobEvent>
    requires t.since <= Until(t, relayed) <= |relayed|
  {
    ForJob(relayed[t.since..Until(t, relayed)], t.job)
  }

  /** A tab was offered exactly what was due to it, in order, except the one event the relay is
      still about to send it; and its contents are its own history's. */
  predicate TabOk(t: Tab, relayed: seq<JobEvent>, owed: seq<JobEvent>) {
    && t.contents == Replay(t.log, BUFFER)
    && t.since <= Until(t, relayed) <= |relayed|
    && Offers(t.log) + owed == Due(t, relayed)
  }

  function Owed(s: State, k: nat): seq<JobEvent> { if Pending(s, k) then [s.relay.event] else [] }

  predicate TabsOk(s: State) {
    forall k :: 0 <= k < |s.tabs| ==> TabOk(s.tabs[k], s.relayed, Owed(s, k))
  }

  /** The open tabs of a job, in order of arrival. */
  function OpenFor(tabs: seq<Tab>, job: RunId): seq<nat> {
    if tabs == [] then [] else
      var n := |tabs| - 1;
      OpenFor(tabs[..n], job) + (if tabs[n].job == job && !tabs[n].Closed() then [n] else [])
  }

  /** The hub lists exactly the open tabs, each under its own job. */
  ghost predicate ListsOk(s: State) { forall job :: Listed(s, job) == OpenFor(s.tabs, job) }

  /** Whoever is still to be sent the current event was subscribed when it was relayed. */
  predicate RelayOk(s: State) {
    s.relay.Sending? ==>
      && Distinct(s.relay.pending)
      && forall k :: k in s.relay.pending ==> k < |s.tabs| && Until(s.tabs[k], s.relayed) == |s.relayed|
  }

  ghost predicate Inv(s: State) { ListsOk(s) && RelayOk(s) && TabsOk(s) }

  // ---- the lists ----

  lemma {:induction false} OpenForMembers(tabs: seq<Tab>, job: RunId)
    ensures forall k: nat :: k in OpenFor(tabs, job) <==> k < |tabs| && tabs[k].job == job && !tabs[k].Closed()
  {
    if tabs != [] {
      OpenForMembers(tabs[..|tabs| - 1], job);
    }
  }

  lemma {:induction false} OpenForDistinct(tabs: seq<Tab>, job: RunId)
    ensures Distinct(OpenFor(tabs, job))
  {
    if tabs != [] {
      var n := |tabs| - 1;
      OpenForDistinct(tabs[..n], job);
      OpenForMembers(tabs[..n], job);
      assert n !in OpenFor(tabs[..n], job);
    }
  }

  lemma {:induction false} OpenForSame(before: seq<Tab>, after: seq<Tab>, job: RunId)
    requires |before| == |after|
    requires forall k :: 0 <= k < |before| ==> before[k].job == after[k].job && before[k].Closed() == after[k].Closed()
    ensures OpenFor(before, job) == OpenFor(after, job)
  {
    if before != [] {
      OpenForSame(before[..|before| - 1], after[..|after| - 1], job);
    }
  }

  /** A tab with another job or already closed does not change a job's list. */
  lemma {:induction false} OpenForOther(before: seq<Tab>, after: seq<Tab>, k: nat, job: RunId)
    requires |before| == |after| && k < |before| && before[k].job == after[k].job != job
    requires forall i :: 0 <= i < |before| && i != k ==> before[i] == after[i]
    ensures OpenFor(before, job) == OpenFor(after, job)
  {
    var n := |before| - 1;
    if k == n {
      assert before[..n] == after[..n];
    } else {
      OpenForOther(before[..n], after[..n], k, job);
    }
  }

  lemma {:induction false} OpenForLeft(before: seq<Tab>, after: seq<Tab>, k: nat, job: RunId)
    requires |before| == |after| && k < |before| && before[k].job == after[k].job == job
    requires !before[k].Closed() && after[k].Closed()
    requires forall i :: 0 <= i < |before| && i != k ==> before[i] == after[i]
    ensures OpenFor(after, job) == WsHubs.Without<nat>(OpenFor(before, job), k)
  {
    var n := |before| - 1;
    OpenForMembers(before[..n], job);
    if k == n {
      assert before[..n] == after[..n];
      assert OpenFor(before, job) == OpenFor(before[..n], job) + [n];
      assert OpenFor(after, job) == OpenFor(after[..n], job);
      WsHubs.WithoutLast<nat>(OpenFor(before[..n], job), n);
    } else {
      OpenForLeft(before[..n], after[..n], k, job);
      if before[n].job == job && !before[n].Closed() {
        WsHubs.WithoutAppend<nat>(OpenFor(before[..n], job), n, k);
      } else {
        assert OpenFor(before, job) == OpenFor(before[..n], job);
        assert OpenFor(after, job) == OpenFor(after[..n], job);
      }
    }
  }

  lemma {:induction false} ArriveKeepsLists(s: State, job: RunId)
    requires ListsOk(s) && Can(s, Arrive(job))
    ensures ListsOk(After(s, Arrive(job)))
  {
    var r := After(s, Arrive(job));
    assert r.tabs[..|s.tabs|] == s.tabs;
    forall other
      ensures Listed(r, other) == OpenFor(r.tabs, other)
    {
      assert Listed(s, other) == OpenFor(s.tabs, other);
    }
  }

  lemma {:induction false} LeaveKeepsLists(s: State, k: nat)
    requires ListsOk(s) && Can(s, Leave(k))
    ensures ListsOk(After(s, Leave(k)))
  {
    var r := After(s, Leave(k));
    forall other
      ensures Listed(r, other) == OpenFor(r.tabs, other)
    {
      assert Listed(s, other) == OpenFor(s.tabs, other);
      if other == s.tabs[k].job {
        OpenForLeft(s.tabs, r.tabs, k, other);
      } else {
        OpenForOther(s.tabs, r.tabs, k, other);
      }
    }
  }

  lemma {:induction false} ListsKept(s: State, step: Step)
    requires ListsOk(s) && Can(s, step)
    ensures ListsOk(After(s, step))
  {
    if step.Arrive? {
      ArriveKeepsLists(s, step.job);
    } else if step.Leave? {
      LeaveKeepsLists(s, step.tab);
    } else {
      var r := After(s, step);
      forall job
        ensures Listed(r, job) == OpenFor(r.tabs, job)
      {
        assert Listed(s, job) == OpenFor(s.tabs, job);
        OpenForSame(s.tabs, r.tabs, job);
      }
    }
  }

  lemma {:induction false} SnapshotKeepsRelay(s: State, e: JobEvent)
    requires ListsOk(s) && Can(s, Snapshot(e))
    ensures RelayOk(After(s, Snapshot(e)))
  {
    var r := After(s, Snapshot(e));
    OpenForMembers(s.tabs, e.id);
    OpenForDistinct(s.tabs, e.id);
    assert r.relay.pending == Listed(s, e.id) == OpenFor(s.tabs, e.id);
    forall k | k in r.relay.pending
      ensures k < |r.tabs| && Until(r.tabs[k], r.relayed) == |r.relayed|
    {
      assert k in OpenFor(s.tabs, e.id);
    }
  }

  lemma {:induction false} RelayKept(s: State, step: Step)
    requires ListsOk(s) && RelayOk(s) && Can(s, step)
    ensures RelayOk(After(s, step))
  {
    match step
    case Snapshot(e) => SnapshotKeepsRelay(s, e);
    case SendNext => SendKeepsRelay(s);
    case Leave(k) => LeaveKeepsRelay(s, k);
    case _ =>
  }

  lemma {:induction false} SendKeepsRelay(s: State)
    requires RelayOk(s) && Can(s, SendNext)
    ensures RelayOk(After(s, SendNext))
  {
    var rest := s.relay.pending[1..];
    assert forall k :: k in rest ==> k in s.relay.pending;
    assert Distinct(rest);
  }

  lemma {:induction false} LeaveKeepsRelay(s: State, k: nat)
    requires RelayOk(s) && Can(s, Leave(k))
    ensures RelayOk(After(s, Leave(k)))
  {
    var r := After(s, Leave(k));
    assert r.relay == s.relay;
    forall i | r.relay.Sending? && i in r.relay.pending
      ensures i < |r.tabs| && Until(r.tabs[i], r.relayed) == |r.relayed|
    {
      assert i in s.relay.pending;
    }
  }

  // ---- what each tab is offered ----

  lemma {:induction false} ForJobNext(events: seq<JobEvent>, e: JobEvent, job: RunId)
    ensures ForJob(events + [e], job) == ForJob(events, job) + (if e.id == job then [e] else [])
  {
    assert (events + [e])[..|events|] == events;
  }

  /** A snapshot of e makes e due to the open tabs of its job and to no others. */
  lemma {:induction false} SnapshotTab(t: Tab, relayed: seq<JobEvent>, e: JobEvent)
    requires TabOk(t, relayed, [])
    ensures TabOk(t, relayed + [e], if t.job == e.id && !t.Closed() then [e] else [])
  {
    var after := relayed + [e];
    if t.Closed() {
      assert after[t.since..t.until.value] == relayed[t.since..t.until.value];
    } else {
      assert after[t.since..|after|] == relayed[t.since..] + [e];
      assert relayed[t.since..|relayed|] == relayed[t.since..];
      ForJobNext(relayed[t.since..], e, t.job);
    }
  }

  lemma {:induction false} SnapshotKeepsTabs(s: State, e: JobEvent)
    requires Inv(s) && Can(s, Snapshot(e))
    ensures TabsOk(After(s, Snapshot(e)))
  {
    var r := After(s, Snapshot(e));
    OpenForMembers(s.tabs, e.id);
    assert Listed(s, e.id) == OpenFor(s.tabs, e.id);
    forall k | 0 <= k < |r.tabs|
      ensures TabOk(r.tabs[k], r.relayed, Owed(r, k))
    {
      assert TabOk(s.tabs[k], s.relayed, Owed(s, k));
      SnapshotTab(s.tabs[k], s.relayed, e);
    }
  }

  lemma {:induction false} SendKeepsTabs(s: State)
    requires Inv(s) && Can(s, SendNext)
    ensures TabsOk(After(s, SendNext))
  {
    var r := After(s, SendNext);
    var k0, e := s.relay.pending[0], s.relay.event;
    forall k | 0 <= k < |r.tabs|
      ensures TabOk(r.tabs[k], r.relayed, Owed(r, k))
    {
      var t := s.tabs[k];
      assert TabOk(t, s.relayed, Owed(s, k));
      ReplayNext(t.log, Offer(e), BUFFER);
      assert k != k0 ==> (k in s.relay.pending <==> k in s.relay.pending[1..]);
      assert k0 !in s.relay.pending[1..];
    }
  }

  lemma {:induction false} NewcomerOk(job: RunId, relayed: seq<JobEvent>)
    ensures TabOk(Tab(job, [], Contents([], []), |relayed|, None), relayed, [])
  {
    assert relayed[|relayed|..|relayed|] == [];
  }

  lemma {:induction false} ArriveKeepsTabs(s: State, job: RunId)
    requires Inv(s) && Can(s, Arrive(job))
    ensures TabsOk(After(s, Arrive(job)))
  {
    var r := After(s, Arrive(job));
    NewcomerOk(job, s.relayed);
    assert r.relay == s.relay && r.relayed == s.relayed;
    forall k | 0 <= k < |r.tabs|
      ensures TabOk(r.tabs[k], r.relayed, Owed(r, k))
    {
      if k < |s.tabs| {
        assert TabOk(s.tabs[k], s.relayed, Owed(s, k));
      } else {
        assert !Pending(r, k);
      }
    }
  }

  lemma {:induction false} LeaveKeepsTabs(s: State, k: nat)
    requires Inv(s) && Can(s, Leave(k))
    ensures TabsOk(After(s, Leave(k)))
  {
    var r := After(s, Leave(k));
    forall i | 0 <= i < |r.tabs|
      ensures TabOk(r.tabs[i], r.relayed, Owed(r, i))
    {
      assert TabOk(s.tabs[i], s.relayed, Owed(s, i));
    }
  }

  lemma {:induction false} ReadKeepsTabs(s: State, k: nat)
    requires Inv(s) && Can(s, Read(k))
    ensures TabsOk(After(s, Read(k)))
  {
    var r := After(s, Read(k));
    ReplayNext(s.tabs[k].log, Take, BUFFER);
    assert Offers(s.tabs[k].log) + [] == Offers(s.tabs[k].log);
    forall i | 0 <= i < |r.tabs|
      ensures TabOk(r.tabs[i], r.relayed, Owed(r, i))
    {
      assert TabOk(s.tabs[i], s.relayed, Owed(s, i));
    }
  }

  lemma {:induction false} FinishKeepsTabs(s: State)
    requires Inv(s) && Can(s, Finish)
    ensures TabsOk(After(s, Finish))
  {
    var r := After(s, Finish);
    forall i | 0 <= i < |r.tabs|
      ensures TabOk(r.tabs[i], r.relayed, Owed(r, i))
    {
      assert TabOk(s.tabs[i], s.relayed, Owed(s, i));
    }
  }

  lemma {:induction false} InvStep(s: State, step: Step)
    requires Inv(s) && Can(s, step)
    ensures Inv(After(s, step))
  {
    ListsKept(s, step);
    RelayKept(s, step);
    match step
    case Arrive(job) => ArriveKeepsTabs(s, job);
    case Leave(k) => LeaveKeepsTabs(s, k);
    case Snapshot(e) => SnapshotKeepsTabs(s, e);
    case SendNext => SendKeepsTabs(s);
    case Finish => FinishKeepsTabs(s);
    case Read(k) => ReadKeepsTabs(s, k);
  }

  // ---- whole runs ----

  /** Where the steps lead from s, if each is possible in its turn. */
  function Final(s: State, steps: seq<Step>): Option<State> {
    if steps == [] then Some(s) else
      var before := Final(s, steps[..|steps| - 1]);
      var last := steps[|steps| - 1];
      if before.Some? && Can(before.value, last) then Some(After(before.value, last)) else None
  }

  lemma {:induction false} FinalNext(s: State, steps: seq<Step>, step: Step)
    requires Final(s, steps).Some? && Can(Final(s, steps).value, step)
    ensures Final(s, steps + [step]) == Some(After(Final(s, steps).value, step))
  {
    assert (steps + [step])[..|steps|] == steps;
  }

  lemma {:induction false} InvAlways(steps: seq<Step>)
    requires Final(INITIAL, steps).Some?
    ensures Inv(Final(INITIAL, steps).value)
  {
    if steps == [] {
      assert forall job :: Listed(INITIAL, job) == OpenFor([], job);
    } else {
      InvAlways(steps[..|steps| - 1]);
      InvStep(Final(INITIAL, steps[..|steps| - 1]).value, steps[|steps| - 1]);
    }
  }

  /** What a tab has got at any moment of any run: an in-order subsequence of its own job's events
      relayed while it was subscribed; at most 16 waiting; and, once the relay owes it nothing, all of
      those events exactly if none of them met a full buffer. It has been offered exactly those events, but for
      the one the relay is still about to send it. */
  lemma {:induction false} Delivery(steps: seq<Step>, k: nat)
    requires Final(INITIAL, steps).Some? && k < |Final(INITIAL, steps).value.tabs|
    ensures var s := Final(INITIAL, steps).value; var t := s.tabs[k];
      && t.since <= Until(t, s.relayed) <= |s.relayed|
      && Offers(t.log) + Owed(s, k) == Due(t, s.relayed)
      && IsSubsequence(t.contents.Delivered(), Due(t, s.relayed))
      && |t.contents.buffer| <= 16
      && (!Pending(s, k) ==> (t.contents.Delivered() == Due(t, s.relayed) <==> NeverFull(t.log, 16)))
  {
    InvAlways(steps);
    var s := Final(INITIAL, steps).value;
    var t := s.tabs[k];
    assert TabOk(t, s.relayed, Owed(s, k));
    DeliveredIsSubsequence(t.log, BUFFER);
    BufferBounded(t.log, BUFFER);
    NothingLostExactly(t.log, BUFFER);
    if Pending(s, k) {
      SubsequenceKeep(t.contents.Delivered(), Offers(t.log), s.relay.event);
    } else {
      assert Offers(t.log) + [] == Offers(t.log);
    }
  }

  // ---- a slow reader does not matter to the others ----

  /** The run without any other tab's reads. */
  function OthersStalled(steps: seq<Step>, k: nat): seq<Step> {
    if steps == [] then [] else
      var last := steps[|steps| - 1];
      OthersStalled(steps[..|steps| - 1], k) + (if last.Read? && last.tab != k then [] else [last])
  }

  /** Equal but for what the other tabs have read and still hold. */
  predicate SameFor(k: nat, s: State, r: State) {
    && s.conns == r.conns && s.relay == r.relay && s.relayed == r.relayed && s.crashed == r.crashed
      && |s.tabs| == |r.tabs|
    && (forall i :: 0 <= i < |s.tabs| ==>
          s.tabs[i].job == r.tabs[i].job && s.tabs[i].since == r.tabs[i].since && s.tabs[i].until == r.tabs[i].until)
    && (k < |s.tabs| ==> s.tabs[k] == r.tabs[k])
  }

  lemma {:induction false} SameForStep(k: nat, s: State, r: State, step: Step)
    requires SameFor(k, s, r) && Can(s, step)
    ensures step.Read? && step.tab != k ==> SameFor(k, After(s, step), r)
    ensures !(step.Read? && step.tab != k) ==> Can(r, step) && SameFor(k, After(s, step), After(r, step))
  {}

  /** However slowly every other tab reads, a tab has the same history and the same contents. */
  lemma {:induction false} SlowReadersDoNotMatter(steps: seq<Step>, k: nat)
    requires Final(INITIAL, steps).Some?
    ensures Final(INITIAL, OthersStalled(steps, k)).Some?
    ensures SameFor(k, Final(INITIAL, steps).value, Final(INITIAL, OthersStalled(steps, k)).value)
  {
    if steps != [] {
      var n := |steps| - 1;
      SlowReadersDoNotMatter(steps[..n], k);
      var before := OthersStalled(steps[..n], k);
      SameForStep(k, Final(INITIAL, steps[..n]).value, Final(INITIAL, before).value, steps[n]);
      if steps[n].Read? && steps[n].tab != k {
        assert OthersStalled(steps, k) == before;
      } else {
        assert OthersStalled(steps, k) == before + [steps[n]];
        FinalNext(INITIAL, before, steps[n]);
      }
    }
  }

  // ---- nor does a tab that leaves, short of a crash ----

  predicate LeavesOther(step: Step, k: nat) { step.Leave? && step.tab != k }

  /** A run without its sends and without the other tabs' leaving. */
  function Kept(steps: seq<Step>, k: nat): seq<Step> {
    if steps == [] then [] else
      var last := steps[|steps| - 1];
      Kept(steps[..|steps| - 1], k) + (if last.SendNext? || LeavesOther(last, k) then [] else [last])
  }

  /** Nobody but tab k leaves in r, whose relay sends the same event and owes it to tab k exactly if s's does. */
  ghost predicate StayedFor(k: nat, s: State, r: State) {
    && !r.crashed && |s.tabs| == |r.tabs| && s.relayed == r.relayed
    && (forall i :: 0 <= i < |s.tabs| ==> s.tabs[i].job == r.tabs[i].job && (i != k ==> !r.tabs[i].Closed()))
    && (k < |s.tabs| ==> s.tabs[k] == r.tabs[k])
    && (if s.relay.Idle? then r.relay.Idle? else r.relay.Sending? && r.relay.event == s.relay.event)
    && (Pending(s, k) <==> Pending(r, k))
  }

  /** r is where these steps lead, in which nobody but tab k leaves. */
  ghost predicate Stays(steps: seq<Step>, r: State, k: nat) {
    && Final(INITIAL, steps) == Some(r)
    && (forall i :: 0 <= i < |steps| ==> !LeavesOther(steps[i], k))
  }

  lemma {:induction false} StaysNext(steps: seq<Step>, r: State, k: nat, step: Step)
    requires Stays(steps, r, k) && Can(r, step) && !LeavesOther(step, k)
    ensures Stays(steps + [step], After(r, step), k)
    ensures Kept(steps + [step], k) == Kept(steps, k) + (if step.SendNext? then [] else [step])
  {
    FinalNext(INITIAL, steps, step);
    assert (steps + [step])[..|steps|] == steps;
  }

  /** One send to a tab other than k that never left. */
  lemma {:induction false} SendToOther(k: nat, s: State, r: State)
    requires StayedFor(k, s, r) && Inv(r) && Can(r, SendNext) && r.relay.pending[0] != k
    ensures StayedFor(k, s, After(r, SendNext))
  {
    var pending := r.relay.pending;
    assert Pending(After(r, SendNext), k) <==> k in pending[1..];
    assert pending == [pending[0]] + pending[1..];
  }

  /** The relay goes on sending until it is tab k's turn, or nobody is left. */
  lemma {:induction false} SendOthers(k: nat, s: State, steps: seq<Step>, r: State) returns (more: seq<Step>, q: State)
    requires Stays(steps, r, k) && StayedFor(k, s, r) && s.relay.Sending?
    ensures Stays(more, q, k) && StayedFor(k, s, q) && Kept(more, k) == Kept(steps, k)
    ensures if Pending(s, k) then q.relay.pending != [] && q.relay.pending[0] == k else q.relay.pending == []
    decreases |r.relay.pending|
  {
    InvAlways(steps);
    if r.relay.pending == [] || r.relay.pending[0] == k {
      more, q := steps, r;
      if r.relay.pending != [] {
        assert k in r.relay.pending;
      }
    } else {
      assert r.relay.pending[0] in r.relay.pending;
      StaysNext(steps, r, k, SendNext);
      SendToOther(k, s, r);
      more, q := SendOthers(k, s, steps + [SendNext], After(r, SendNext));
    }
  }

  /** Both relays send tab k the event. */
  lemma {:induction false} SendToBoth(k: nat, s: State, r: State)
    requires StayedFor(k, s, r) && Inv(s) && Inv(r) && Can(s, SendNext) && Can(r, SendNext)
    requires s.relay.pending[0] == k == r.relay.pending[0] && !s.tabs[k].Closed()
    ensures StayedFor(k, After(s, SendNext), After(r, SendNext))
  {
    assert k !in s.relay.pending[1..] && k !in r.relay.pending[1..];
  }

  lemma {:induction false} OtherLeaves(k: nat, s: State, r: State, i: nat)
    requires StayedFor(k, s, r) && Can(s, Leave(i)) && i != k
    ensures StayedFor(k, After(s, Leave(i)), r)
  {
    assert Pending(After(s, Leave(i)), k) <==> Pending(s, k);
  }

  lemma {:induction false} SentToOther(k: nat, s: State, r: State)
    requires StayedFor(k, s, r) && Can(s, SendNext) && s.relay.pending[0] != k && !After(s, SendNext).crashed
    ensures StayedFor(k, After(s, SendNext), r)
  {
    var pending := s.relay.pending;
    assert pending == [pending[0]] + pending[1..];
    assert Pending(After(s, SendNext), k) <==> k in pending[1..];
  }

  lemma {:induction false} SnapshotBoth(k: nat, s: State, r: State, e: JobEvent)
    requires StayedFor(k, s, r) && Inv(s) && Inv(r) && Can(s, Snapshot(e))
    ensures Can(r, Snapshot(e)) && StayedFor(k, After(s, Snapshot(e)), After(r, Snapshot(e)))
  {
    OpenForMembers(s.tabs, e.id);
    OpenForMembers(r.tabs, e.id);
    assert Listed(s, e.id) == OpenFor(s.tabs, e.id) && Listed(r, e.id) == OpenFor(r.tabs, e.id);
  }

  lemma {:induction false} ArriveBoth(k: nat, s: State, r: State, job: RunId)
    requires StayedFor(k, s, r) && Can(s, Arrive(job))
    ensures StayedFor(k, After(s, Arrive(job)), After(r, Arrive(job)))
  {
    assert Pending(After(s, Arrive(job)), k) <==> Pending(s, k);
    assert Pending(After(r, Arrive(job)), k) <==> Pending(r, k);
  }

  lemma {:induction false} ReadBoth(k: nat, s: State, r: State, i: nat)
    requires StayedFor(k, s, r) && Can(s, Read(i))
    ensures StayedFor(k, After(s, Read(i)), After(r, Read(i)))
  {
    assert Pending(After(s, Read(i)), k) <==> Pending(s, k);
    assert Pending(After(r, Read(i)), k) <==> Pending(r, k);
  }

  lemma {:induction false} LeaveBoth(k: nat, s: State, r: State)
    requires StayedFor(k, s, r) && Can(s, Leave(k))
    ensures StayedFor(k, After(s, Leave(k)), After(r, Leave(k)))
  {
    assert Pending(After(s, Leave(k)), k) <==> Pending(s, k);
    assert Pending(After(r, Leave(k)), k) <==> Pending(r, k);
  }

  /** For every run that does not crash there is one in which the other tabs stay to the end, all else but the
      sends is the same in the same order, and this tab has the same history and the same contents. */
  lemma {:induction false} LeavingDoesNotMatter(steps: seq<Step>, k: nat) returns (stay: seq<Step>, r: State)
    requires Final(INITIAL, steps).Some? && !Final(INITIAL, steps).value.crashed
    ensures Stays(stay, r, k) && Kept(stay, k) == Kept(steps, k)
    ensures StayedFor(k, Final(INITIAL, steps).value, r)
  {
    if steps == [] {
      stay, r := [], INITIAL;
    } else {
      var front, step := steps[..|steps| - 1], steps[|steps| - 1];
      var s := Final(INITIAL, front).value;
      stay, r := LeavingDoesNotMatter(front, k);
      InvAlways(front);
      if LeavesOther(step, k) {
        OtherLeaves(k, s, r, step.tab);
      } else if step.SendNext? && s.relay.pending[0] != k {
        SentToOther(k, s, r);
      } else {
        stay, r := StayNext(k, s, stay, r, step);
      }
    }
  }

  /** What r does for a step of s that concerns tab k or the relay. */
  lemma {:induction false} StayNext(k: nat, s: State, stay0: seq<Step>, r0: State, step: Step)
    returns (stay: seq<Step>, r: State)
    requires Stays(stay0, r0, k) && StayedFor(k, s, r0) && Inv(s) && Can(s, step) && !After(s, step).crashed
    requires !LeavesOther(step, k) && (step.SendNext? ==> s.relay.pending[0] == k)
    ensures Stays(stay, r, k) && StayedFor(k, After(s, step), r)
    ensures Kept(stay, k) == Kept(stay0, k) + (if step.SendNext? then [] else [step])
  {
    stay, r := stay0, r0;
    if step.SendNext? || step.Finish? {
      assert step.SendNext? ==> Pending(s, k);
      stay, r := SendOthers(k, s, stay0, r0);
    }
    InvAlways(stay);
    match step {
      case Arrive(job) => ArriveBoth(k, s, r, job);
      case Leave(_) => LeaveBoth(k, s, r);
      case Snapshot(e) => SnapshotBoth(k, s, r, e);
      case SendNext => SendToBoth(k, s, r);
      case Finish =>
      case Read(i) => ReadBoth(k, s, r, i);
    }
    StaysNext(stay, r, k, step);
    stay, r := stay + [step], After(r, step);
  }

  // ---- when the relay sends on a closed channel ----

  /** No tab left while the relay still had to send it the current event. */
  predicate LeavesClear(steps: seq<Step>)
    requires Final(INITIAL, steps).Some?
  {
    steps == [] ||
      (LeavesClear(steps[..|steps| - 1])
       && (steps[|steps| - 1].Leave? ==> !Pending(Final(INITIAL, steps[..|steps| - 1]).value, steps[|steps| - 1].tab)))
  }

  ghost predicate PendingOpen(s: State) { forall k: nat :: Pending(s, k) && k < |s.tabs| ==> !s.tabs[k].Closed() }

  lemma {:induction false} ClearMeansOpen(steps: seq<Step>)
    requires Final(INITIAL, steps).Some?
    ensures var s := Final(INITIAL, steps).value; LeavesClear(steps) <==> !s.crashed && PendingOpen(s)
  {
    if steps != [] {
      var before := steps[..|steps| - 1];
      var s := Final(INITIAL, before).value;
      ClearMeansOpen(before);
      InvAlways(before);
      ClearStep(s, steps[|steps| - 1]);
    }
  }

  lemma {:induction false} PendingOpenSame(s: State, r: State)
    requires RelayOk(s) && r.relay == s.relay && |s.tabs| <= |r.tabs|
    requires forall k :: 0 <= k < |s.tabs| ==> s.tabs[k].Closed() == r.tabs[k].Closed()
    ensures PendingOpen(s) <==> PendingOpen(r)
  {
    forall k: nat | Pending(s, k) && k < |s.tabs|
      ensures PendingOpen(r) ==> !s.tabs[k].Closed()
    {
      assert Pending(r, k);
    }
    forall k: nat | Pending(r, k) && k < |r.tabs|
      ensures PendingOpen(s) ==> !r.tabs[k].Closed()
    {
      assert Pending(s, k);
    }
  }

  lemma {:induction false} ClearLeave(s: State, k0: nat)
    requires RelayOk(s) && Can(s, Leave(k0))
    ensures PendingOpen(After(s, Leave(k0))) <==> PendingOpen(s) && !Pending(s, k0)
  {
    var r := After(s, Leave(k0));
    assert r.tabs[k0].Closed();
    assert Pending(r, k0) <==> Pending(s, k0);
    if Pending(r, k0) {
      assert !PendingOpen(r);
    } else {
      forall k: nat | Pending(s, k) && k < |s.tabs|
        ensures PendingOpen(r) ==> !s.tabs[k].Closed()
      {
        assert Pending(r, k);
      }
      forall k: nat | Pending(r, k) && k < |r.tabs|
        ensures PendingOpen(s) ==> !r.tabs[k].Closed()
      {
        assert Pending(s, k);
      }
    }
  }

  lemma {:induction false} ClearSend(s: State)
    requires RelayOk(s) && Can(s, SendNext)
    ensures !After(s, SendNext).crashed && PendingOpen(After(s, SendNext)) <==> PendingOpen(s)
  {
    var r := After(s, SendNext);
    var k0 := s.relay.pending[0];
    assert Pending(s, k0);
    if !s.tabs[k0].Closed() {
      forall k: nat | Pending(s, k) && k < |s.tabs|
        ensures PendingOpen(r) ==> !s.tabs[k].Closed()
      {
        assert k != k0 ==> Pending(r, k);
      }
      forall k: nat | Pending(r, k) && k < |r.tabs|
        ensures PendingOpen(s) ==> !r.tabs[k].Closed()
      {
        assert Pending(s, k);
      }
    }
  }

  lemma {:induction false} ClearStep(s: State, step: Step)
    requires Inv(s) && Can(s, step)
    ensures !After(s, step).crashed && PendingOpen(After(s, step))
      <==> PendingOpen(s) && (step.Leave? ==> !Pending(s, step.tab))
  {
    match step
    case Arrive(job) => PendingOpenSame(s, After(s, step));
    case Leave(k) => ClearLeave(s, k);
    case Snapshot(e) =>
      OpenForMembers(s.tabs, e.id);
      assert Listed(s, e.id) == OpenFor(s.tabs, e.id);
    case SendNext => ClearSend(s);
    case Finish =>
    case Read(k) => PendingOpenSame(s, After(s, step));
  }

  /** At the end of an event, or of the process: the relay has sent on a closed channel exactly if
      some tab left between an event's snapshot and its own turn to be sent it. */
  lemma {:induction false} CrashExactly(steps: seq<Step>)
    requires Final(INITIAL, steps).Some?
    requires var s := Final(INITIAL, steps).value; s.crashed || s.relay.Idle?
    ensures Final(INITIAL, steps).value.crashed <==> !LeavesClear(steps)
  {
    ClearMeansOpen(steps);
  }

  /** A tab that arrives, is listed by the snapshot of an event of its job, and leaves. */
  const ARRIVED := State([Tab(1, [], Contents([], []), 0, None)], map[1 := [0]], Idle, [], false)
  const EVENT := StatusEvent(1, Running)
  const LISTED := State([Tab(1, [], Contents([], []), 0, None)], map[1 := [0]], Sending(EVENT, [0]), [EVENT], false)
  const LEFT := State([Tab(1, [], Contents([], []), 0, Some(1))], map[], Sending(EVENT, [0]), [EVENT], false)

  lemma {:induction false} ArrivedListedLeft()
    ensures After(INITIAL, Arrive(1)) == ARRIVED
    ensures After(ARRIVED, Snapshot(EVENT)) == LISTED
    ensures After(LISTED, Leave(0)) == LEFT
  {
    assert Listed(INITIAL, 1) + [|INITIAL.tabs|] == [0];
    assert After(INITIAL, Arrive(1)).conns == ARRIVED.conns;
    assert After(INITIAL, Arrive(1)).tabs == ARRIVED.tabs;
    assert WsHubs.Without<nat>([0], 0) == [];
  }

  /** A run in which the relay does send on a closed channel. */
  lemma {:induction false} LeavingMidFanOutCrashes() returns (steps: seq<Step>)
    ensures Final(INITIAL, steps).Some? && Final(INITIAL, steps).value.crashed
  {
    ArrivedListedLeft();
    var one, two := [Arrive(1)], [Arrive(1), Snapshot(EVENT)];
    var three := [Arrive(1), Snapshot(EVENT), Leave(0)];
    FinalNext(INITIAL, [], Arrive(1));
    assert [] + [Arrive(1)] == one;
    FinalNext(INITIAL, one, Snapshot(EVENT));
    assert one + [Snapshot(EVENT)] == two;
    FinalNext(INITIAL, two, Leave(0));
    assert two + [Leave(0)] == three;
    FinalNext(INITIAL, three, SendNext);
    steps := three + [SendNext];
  }
}
