/** The hub's own data structures against the step system: a process that runs the relay loop over Go slices
    and channels, step by step, does exactly what HubRuns says of abstract lists. */
module HubRefinement {
  import opened Channels
  import opened HubRuns
  import opened JobRuns
  import opened Options
  import WsHubs

  type Listener = WsHubs.Listener

  /** The channels with these numbers. */
  function ChannelsOf(chans: seq<Listener>, ids: seq<nat>): seq<Listener> {
    if ids == [] then [] else (if ids[0] < |chans| then [chans[ids[0]]] else []) + ChannelsOf(chans, ids[1..])
  }

  predicate InRange(ids: seq<nat>, n: nat) { forall i :: 0 <= i < |ids| ==> ids[i] < n }

  lemma {:induction false} ChannelsGrow(chans: seq<Listener>, ch: Listener, ids: seq<nat>)
    requires InRange(ids, |chans|)
    ensures ChannelsOf(chans + [ch], ids) == ChannelsOf(chans, ids)
  {
    if ids != [] {
      ChannelsGrow(chans, ch, ids[1..]);
    }
  }

  lemma {:induction false} ChannelsAppend(chans: seq<Listener>, ids: seq<nat>, k: nat)
    requires k < |chans|
    ensures ChannelsOf(chans, ids + [k]) == ChannelsOf(chans, ids) + [chans[k]]
  {
    if ids != [] {
      assert (ids + [k])[1..] == ids[1..] + [k];
      ChannelsAppend(chans, ids[1..], k);
    }
  }

  lemma {:induction false} ChannelsWithout(chans: seq<Listener>, ids: seq<nat>, k: nat)
    requires Distinct(chans) && InRange(ids, |chans|) && k < |chans|
    ensures ChannelsOf(chans, WsHubs.Without<nat>(ids, k)) == WsHubs.Without(ChannelsOf(chans, ids), chans[k])
  {
    if ids != [] {
      var rest := ChannelsOf(chans, ids[1..]);
      assert ([chans[ids[0]]] + rest)[1..] == rest;
      if ids[0] != k {
        ChannelsWithout(chans, ids[1..], k);
        assert ([ids[0]] + WsHubs.Without<nat>(ids[1..], k))[1..] == WsHubs.Without<nat>(ids[1..], k);
      }
    }
  }

  lemma {:induction false} ListedInRange(steps: seq<Step>, s: State, id: RunId)
    requires Final(INITIAL, steps) == Some(s)
    ensures InRange(Listed(s, id), |s.tabs|)
  {
    InvAlways(steps);
    OpenForMembers(s.tabs, id);
    var ids := Listed(s, id);
    assert ids == OpenFor(s.tabs, id);
    forall i | 0 <= i < |ids|
      ensures ids[i] < |s.tabs|
    {
      assert ids[i] in OpenFor(s.tabs, id);
    }
  }

  lemma {:induction false} PendingInRange(steps: seq<Step>, s: State)
    requires Final(INITIAL, steps) == Some(s) && s.relay.Sending?
    ensures InRange(s.relay.pending, |s.tabs|)
  {
    InvAlways(steps);
    var ids := s.relay.pending;
    forall i | 0 <= i < |ids|
      ensures ids[i] < |s.tabs|
    {
      assert ids[i] in ids;
    }
  }

  /** The first pending tab is the channel at the head of what is left of the snapshot. */
  lemma {:induction false} NextChannel(chans: seq<Listener>, ids: seq<nat>)
    requires ids != [] && InRange(ids, |chans|)
    ensures ChannelsOf(chans, ids) == [chans[ids[0]]] + ChannelsOf(chans, ids[1..])
  {}

  // ---- the lists ----

  predicate Reached(steps: seq<Step>, s: State) { Final(INITIAL, steps) == Some(s) }

  /** Every job's slice holds the channels of the tabs listed for it, in the same order. */
  ghost predicate ListsMirrored(hub: WsHubs.Hub, chans: seq<Listener>, s: State)
    requires hub.Valid()
    reads hub, hub.Arrays()
  {
    forall id :: hub.Listeners(id) == ChannelsOf(chans, Listed(s, id))
  }

  lemma {:induction false} ArriveListed(
    chans: seq<Listener>, ch: Listener, steps: seq<Step>, s: State, id: RunId, other: RunId)
    requires Reached(steps, s) && |chans| == |s.tabs| && Can(s, Arrive(id))
    ensures ChannelsOf(chans + [ch], Listed(After(s, Arrive(id)), other))
         == ChannelsOf(chans, Listed(s, other)) + (if other == id then [ch] else [])
  {
    ListedInRange(steps, s, other);
    ChannelsGrow(chans, ch, Listed(s, other));
    if other == id {
      ChannelsAppend(chans + [ch], Listed(s, id), |chans|);
    }
  }

  lemma {:induction false} LeaveListed(chans: seq<Listener>, steps: seq<Step>, s: State, k: nat, other: RunId)
    requires Reached(steps, s) && |chans| == |s.tabs| && Distinct(chans) && Can(s, Leave(k))
    ensures ChannelsOf(chans, Listed(After(s, Leave(k)), other))
         == if other == s.tabs[k].job then WsHubs.Without(ChannelsOf(chans, Listed(s, other)), chans[k])
            else ChannelsOf(chans, Listed(s, other))
  {
    ListedInRange(steps, s, other);
    ChannelsWithout(chans, Listed(s, other), k);
  }

  // ---- the whole process ----

  /** A channel object as a tab of the step system. */
  ghost predicate Mirrors(ch: Listener, t: Tab)
    reads ch
  {
    && ch.Valid() && ch.capacity == BUFFER && ch.log == t.log && ch.closed == t.Closed()
    && ch.buffer == t.contents.buffer && ch.received == t.contents.received
  }

  /** Whom the relay still has to send the current event to. */
  function ToSend(s: State): seq<nat> { if s.relay.Sending? then s.relay.pending else [] }

  /** The process as the state these steps lead to: every tab has a channel of its own with the same history and
      contents, every job's slice lists the channels of its open tabs, and what is left of the relay's snapshot
      are the channels it still has to send to. */
  ghost predicate Tied(hub: WsHubs.Hub, chans: seq<Listener>, left: seq<Listener>, steps: seq<Step>, s: State)
    reads hub, hub.Arrays(), chans
  {
    && Reached(steps, s) && hub.Valid() && Distinct(chans) && |chans| == |s.tabs| && ListsMirrored(hub, chans, s)
    && (forall k :: 0 <= k < |chans| ==> Mirrors(chans[k], s.tabs[k]))
    && left == ChannelsOf(chans, ToSend(s))
  }

  lemma {:induction false} ReachedNext(steps: seq<Step>, s: State, step: Step)
    requires Reached(steps, s) && Can(s, step)
    ensures Reached(steps + [step], After(s, step))
  {
    FinalNext(INITIAL, steps, step);
  }

  lemma {:induction false} ToSendInRange(steps: seq<Step>, s: State)
    requires Reached(steps, s)
    ensures InRange(ToSend(s), |s.tabs|)
  {
    if s.relay.Sending? {
      PendingInRange(steps, s);
    }
  }

  lemma {:induction false} ListsUnchanged(hub: WsHubs.Hub, chans: seq<Listener>, s: State, t: State)
    requires hub.Valid() && ListsMirrored(hub, chans, s) && s.conns == t.conns
    ensures ListsMirrored(hub, chans, t)
  {
    forall id
      ensures hub.Listeners(id) == ChannelsOf(chans, Listed(t, id))
    {
      assert hub.Listeners(id) == ChannelsOf(chans, Listed(s, id));
    }
  }

  /** What a newcomer changes besides the lists. */
  lemma {:induction false} NewcomerJoins(chans: seq<Listener>, ch: Listener, steps: seq<Step>, s: State, id: RunId)
    requires Reached(steps, s) && Distinct(chans) && ch !in chans && |chans| == |s.tabs| && Can(s, Arrive(id))
    ensures Distinct(chans + [ch]) && Reached(steps + [Arrive(id)], After(s, Arrive(id)))
    ensures ChannelsOf(chans + [ch], ToSend(After(s, Arrive(id)))) == ChannelsOf(chans, ToSend(s))
  {
    ReachedNext(steps, s, Arrive(id));
    ToSendInRange(steps, s);
    ChannelsGrow(chans, ch, ToSend(s));
  }

  /** Subscribe is Arrive: the new tab's channel is the one it returns. */
  method Subscribe(hub: WsHubs.Hub, id: RunId, ghost left: seq<Listener>, ghost chans: seq<Listener>,
      ghost steps: seq<Step>, ghost s: State)
    returns (ch: Listener)
    requires Tied(hub, chans, left, steps, s) && Can(s, Arrive(id))
    modifies hub, hub.Arrays()
    ensures fresh(ch) && Tied(hub, chans + [ch], left, steps + [Arrive(id)], After(s, Arrive(id)))
    ensures forall a :: a in hub.Arrays() ==> a in old(hub.Arrays()) || fresh(a)
  {
    ch := hub.Subscribe(id);
    forall other
      ensures hub.Listeners(other) == ChannelsOf(chans + [ch], Listed(After(s, Arrive(id)), other))
    {
      assert old(hub.Listeners(other)) == ChannelsOf(chans, Listed(s, other));
      ArriveListed(chans, ch, steps, s, id, other);
    }
    NewcomerJoins(chans, ch, steps, s, id);
    forall k | 0 <= k < |chans|
      ensures Mirrors(chans[k], s.tabs[k])
    {
      assert old(Mirrors(chans[k], s.tabs[k]));
    }
  }

  /** Unsubscribe is Leave, for the job and the channel the closure captured. */
  method Unsubscribe(
    hub: WsHubs.Hub, id: RunId, ch: Listener, ghost k: nat, ghost left: seq<Listener>, ghost chans: seq<Listener>,
      ghost steps: seq<Step>, ghost s: State)
    requires Tied(hub, chans, left, steps, s)
    requires Can(s, Leave(k)) && chans[k] == ch && s.tabs[k].job == id
    modifies hub, hub.Arrays(), ch`closed
    ensures Tied(hub, chans, left, steps + [Leave(k)], After(s, Leave(k))) && hub.Arrays() <= old(hub.Arrays())
  {
    assert Mirrors(chans[k], s.tabs[k]);
    hub.Unsubscribe(id, ch);
    forall other
      ensures hub.Listeners(other) == ChannelsOf(chans, Listed(After(s, Leave(k)), other))
    {
      assert old(hub.Listeners(other)) == ChannelsOf(chans, Listed(s, other));
      LeaveListed(chans, steps, s, k, other);
    }
    ReachedNext(steps, s, Leave(k));
    forall i | 0 <= i < |chans|
      ensures Mirrors(chans[i], After(s, Leave(k)).tabs[i])
    {
      assert old(Mirrors(chans[i], s.tabs[i]));
    }
  }

  /** The relay's snapshot is Snapshot: its array holds the channels the step system's relay will send to. */
  method Snapshot(hub: WsHubs.Hub, e: JobEvent, ghost chans: seq<Listener>, ghost steps: seq<Step>, ghost s: State)
    returns (subs: array<Listener>)
    requires Tied(hub, chans, [], steps, s) && Can(s, Step.Snapshot(e))
    ensures fresh(subs) && Tied(hub, chans, subs[..], steps + [Step.Snapshot(e)], After(s, Step.Snapshot(e)))
  {
    subs := hub.Snapshot(e.id);
    ListsUnchanged(hub, chans, s, After(s, Step.Snapshot(e)));
    ReachedNext(steps, s, Step.Snapshot(e));
  }

  /** One pass of the loop over the snapshot, `left` being what remains of it: SendNext sends to the same
      channel, and crashes exactly where sending on a closed channel panics. */
  method SendNextTo(left: seq<Listener>, e: JobEvent, ghost hub: WsHubs.Hub, ghost chans: seq<Listener>,
      ghost steps: seq<Step>, ghost s: State)
    returns (panicked: bool, rest: seq<Listener>)
    requires Tied(hub, chans, left, steps, s) && Can(s, SendNext) && s.relay.event == e
    modifies chans[s.relay.pending[0]]
    ensures panicked == After(s, SendNext).crashed && Tied(hub, chans, rest, steps + [SendNext], After(s, SendNext))
  {
    ghost var k := s.relay.pending[0];
    PendingInRange(steps, s);
    NextChannel(chans, s.relay.pending);
    ReachedNext(steps, s, SendNext);
    assert Mirrors(chans[k], s.tabs[k]);
    var ch := left[0];
    ghost var t := After(s, SendNext);
    if ch.closed {
      ListsUnchanged(hub, chans, s, t);
      return true, left;
    }
    ch.TrySend(e);
    ListsUnchanged(hub, chans, s, t);
    forall i | 0 <= i < |chans|
      ensures Mirrors(chans[i], t.tabs[i])
    {
      assert old(Mirrors(chans[i], s.tabs[i]));
    }
    return false, left[1..];
  }

  /** The end of that loop is Finish. */
  lemma {:induction false} LoopEnds(hub: WsHubs.Hub, chans: seq<Listener>, left: seq<Listener>, steps: seq<Step>,
      s: State)
    requires Tied(hub, chans, left, steps, s) && Can(s, Finish)
    ensures left == [] && Tied(hub, chans, [], steps + [Finish], After(s, Finish))
  {
    ReachedNext(steps, s, Finish);
    ListsUnchanged(hub, chans, s, After(s, Finish));
  }

  /** A tab's receive is Read. */
  method ReadFrom(ch: Listener, ghost k: nat, ghost hub: WsHubs.Hub, ghost left: seq<Listener>,
      ghost chans: seq<Listener>, ghost steps: seq<Step>, ghost s: State)
    returns (r: Option<JobEvent>)
    requires Tied(hub, chans, left, steps, s) && Can(s, Read(k)) && chans[k] == ch
    modifies ch`buffer, ch`received, ch`log
    ensures Tied(hub, chans, left, steps + [Read(k)], After(s, Read(k)))
  {
    assert Mirrors(chans[k], s.tabs[k]);
    r := ch.TryReceive();
    ReachedNext(steps, s, Read(k));
    ListsUnchanged(hub, chans, s, After(s, Read(k)));
    forall i | 0 <= i < |chans|
      ensures Mirrors(chans[i], After(s, Read(k)).tabs[i])
    {
      assert old(Mirrors(chans[i], s.tabs[i]));
    }
  }

  /** The operation of one step. */
  method Do(hub: WsHubs.Hub, step: Step, chans: seq<Listener>, left: seq<Listener>, ghost steps: seq<Step>, s: State)
    returns (chans': seq<Listener>, left': seq<Listener>, panicked: bool)
    requires Tied(hub, chans, left, steps, s) && Can(s, step)
    modifies hub, hub.Arrays(), chans
    ensures Tied(hub, chans', left', steps + [step], After(s, step)) && panicked == After(s, step).crashed
    ensures forall a :: a in hub.Arrays() ==> a in old(hub.Arrays()) || fresh(a)
    ensures forall c :: c in chans' ==> c in chans || fresh(c)
  {
    chans', left', panicked := chans, left, false;
    match step
    case Arrive(id) =>
      var ch := Subscribe(hub, id, left, chans, steps, s);
      chans' := chans + [ch];
    case Leave(k) => Unsubscribe(hub, s.tabs[k].job, chans[k], k, left, chans, steps, s);
    case Snapshot(e) =>
      var subs := Snapshot(hub, e, chans, steps, s);
      left' := subs[..];
    case SendNext =>
      PendingInRange(steps, s);
      panicked, left' := SendNextTo(left, s.relay.event, hub, chans, steps, s);
    case Finish =>
      LoopEnds(hub, chans, left, steps, s);
    case Read(k) =>
      var r := ReadFrom(chans[k], k, hub, left, chans, steps, s);
  }

  /** A whole run on a new hub, one atomic operation after the other: whatever the interleaving, the slices, the
      channels and the snapshot end as the step system says, and the relay has panicked exactly if it says so. */
  method Play(steps: seq<Step>) returns (hub: WsHubs.Hub, chans: seq<Listener>, left: seq<Listener>, panicked: bool)
    requires Final(INITIAL, steps).Some?
    ensures Tied(hub, chans, left, steps, Final(INITIAL, steps).value)
    ensures panicked == Final(INITIAL, steps).value.crashed
    ensures fresh(hub) && fresh(hub.Arrays()) && fresh(set c | c in chans)
  {
    if steps == [] {
      hub := new WsHubs.Hub();
      chans, left, panicked := [], [], false;
    } else {
      var front, step := steps[..|steps| - 1], steps[|steps| - 1];
      assert steps == front + [step];
      hub, chans, left, panicked := Play(front);
      chans, left, panicked := Do(hub, step, chans, left, front, Final(INITIAL, front).value);
    }
  }
}
