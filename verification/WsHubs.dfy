/** The per-job hub's own data: a map from job ids to Go slices of channels, appended to and
    cut in place, and the snapshot that one event's fan-out walks over. */
module WsHubs {
  import opened Channels
  import opened JobRuns

  const BUFFER: nat := 16

  type Listener = Channel<JobEvent>

  /** A slice that starts at its array's first element, as every slice here does. */
  datatype Slice = Slice(data: array<Listener>, len: nat)

  /** A list without its first occurrence of x. */
  function Without<T(==)>(s: seq<T>, x: T): seq<T> {
    if s == [] then [] else if s[0] == x then s[1..] else [s[0]] + Without(s[1..], x)
  }

  lemma {:induction false} WithoutAt<T>(s: seq<T>, x: T, i: nat)
    requires i < |s| && s[i] == x && x !in s[..i]
    ensures Without(s, x) == s[..i] + s[i + 1..]
  {
    if i > 0 {
      assert s[1..][..i - 1] == s[1..i];
      WithoutAt(s[1..], x, i - 1);
    }
  }

  lemma {:induction false} WithoutAbsent<T>(s: seq<T>, x: T)
    requires x !in s
    ensures Without(s, x) == s
  {
    if s != [] {
      WithoutAbsent(s[1..], x);
    }
  }

  lemma {:induction false} WithoutAppend<T>(s: seq<T>, last: T, x: T)
    requires x in s
    ensures Without(s + [last], x) == Without(s, x) + [last]
  {
    assert (s + [last])[1..] == s[1..] + [last];
    if s[0] != x {
      WithoutAppend(s[1..], last, x);
    }
  }

  lemma {:induction false} WithoutLast<T>(s: seq<T>, x: T)
    requires x !in s
    ensures Without(s + [x], x) == s
  {
    assert (s + [x])[1..] == (if s == [] then [] else s[1..] + [x]);
    if s != [] {
      WithoutLast(s[1..], x);
    }
  }

  /** append(s, ch): in place while the array has room, otherwise into a larger copy. */
  method Append(s: Slice, ch: Listener) returns (t: Slice)
    requires s.len <= s.data.Length
    modifies s.data
    ensures t.data == s.data || fresh(t.data)
    ensures 0 < t.len == s.len + 1 <= t.data.Length && t.data[..t.len] == old(s.data[..s.len]) + [ch]
  {
    if s.len < s.data.Length {
      s.data[s.len] := ch;
      assert s.data[..s.len + 1] == s.data[..s.len] + [ch];
      return Slice(s.data, s.len + 1);
    }
    var slack: nat :| slack >= 0;
    var items := s.data[..s.len] + [ch];
    var data := new Listener[|items| + slack](i requires i >= 0 => if i < |items| then items[i] else ch);
    t := Slice(data, |items|);
    assert data[..|items|] == items;
  }

  /** The first place of ch in s, or s.len. */
  method Find(s: Slice, ch: Listener) returns (i: nat)
    requires s.len <= s.data.Length
    ensures i <= s.len && ch !in s.data[..i]
    ensures i < s.len ==> s.data[i] == ch
  {
    i := 0;
    while i < s.len && s.data[i] != ch
      invariant 0 <= i <= s.len
      invariant ch !in s.data[..i]
    {
      i := i + 1;
    }
  }

  /** append(s[:i], s[i+1:]...): the tail moves one place left inside the same array. */
  method Cut(s: Slice, i: nat)
    requires i < s.len <= s.data.Length
    modifies s.data
    ensures s.data[..s.len - 1] == old(s.data[..i] + s.data[i + 1..s.len])
  {
    var j := i + 1;
    while j < s.len
      invariant i < j <= s.len
      invariant s.data[..i] == old(s.data[..i])
      invariant s.data[i..j - 1] == old(s.data[i + 1..j])
      invariant s.data[j..s.len] == old(s.data[j..s.len])
    {
      s.data[j - 1] := s.data[j];
      j := j + 1;
    }
    assert s.data[..s.len - 1] == s.data[..i] + s.data[i..s.len - 1];
  }

  /** The loop over subs: cuts out ch where it is found. */
  method Remove(s: Slice, ch: Listener) returns (t: Slice)
    requires s.len <= s.data.Length
    modifies s.data
    ensures t.data == s.data && t.len <= s.len && t.data[..t.len] == Without(old(s.data[..s.len]), ch)
  {
    var i := Find(s, ch);
    ghost var listed := s.data[..s.len];
    if i < s.len {
      assert listed[..i] == s.data[..i] && listed[i + 1..] == s.data[i + 1..s.len];
      WithoutAt(listed, ch, i);
      Cut(s, i);
      t := Slice(s.data, s.len - 1);
    } else {
      WithoutAbsent(listed, ch);
      t := s;
    }
  }

  class Hub {
    var conns: map<RunId, Slice>

    ghost function Arrays(): set<array<Listener>>
      reads this
    {
      set id | id in conns :: conns[id].data
    }

    /** Each job's slice is non-empty and has its own array. */
    ghost predicate Valid()
      reads this
    {
      && (forall id :: id in conns ==> 0 < conns[id].len <= conns[id].data.Length)
      && (forall a, b :: a in conns && b in conns && a != b ==> conns[a].data != conns[b].data)
    }

    /** Who is subscribed to a job, in subscription order. */
    ghost function Listeners(id: RunId): seq<Listener>
      requires Valid()
      reads this, Arrays()
    {
      if id in conns then conns[id].data[..conns[id].len] else []
    }

    constructor ()
      ensures Valid() && conns == map[]
    {
      conns := map[];
    }

    method Subscribe(id: RunId) returns (ch: Listener)
      requires Valid()
      modifies this, Arrays()
      ensures Valid() && fresh(ch) && ch.Valid() && !ch.closed && ch.capacity == 16 && ch.log == []
      ensures Listeners(id) == old(Listeners(id)) + [ch]
      ensures forall other :: other != id ==> Listeners(other) == old(Listeners(other))
      ensures forall a :: a in Arrays() ==> a in old(Arrays()) || fresh(a)
    {
      ch := new Channel(BUFFER);
      var s;
      if id in conns {
        s := conns[id];
      } else {
        var none := new Listener[0];
        s := Slice(none, 0);
      }
      var t := Append(s, ch);
      conns := conns[id := t];
    }

    /** Removes one channel from its job's slice, drops the job once nobody is left, and closes the
        channel; closing a closed channel would panic. */
    method Unsubscribe(id: RunId, ch: Listener)
      requires Valid() && !ch.closed
      modifies this, Arrays(), ch`closed
      ensures Valid() && ch.closed
      ensures Listeners(id) == Without(old(Listeners(id)), ch)
      ensures id in conns <==> Listeners(id) != []
      ensures forall other :: other != id ==> Listeners(other) == old(Listeners(other))
      ensures Arrays() <= old(Arrays())
    {
      if id in conns {
        var s := Remove(conns[id], ch);
        conns := if s.len == 0 then conns - {id} else conns[id := s];
      }
      ch.Close();
    }

    /** append([]chan(nil), h.conns[id]...): a copy in an array of its own. */
    method Snapshot(id: RunId) returns (subs: array<Listener>)
      requires Valid()
      ensures fresh(subs) && subs[..] == Listeners(id)
    {
      if id in conns {
        var s := conns[id];
        subs := new Listener[s.len](i requires 0 <= i < s.len && s.len <= s.data.Length reads s.data => s.data[i]);
      } else {
        subs := new Listener[0];
      }
    }
  }

  /** The sends of one event over its snapshot. */
  method SendAll(subs: seq<Listener>, event: JobEvent)
    requires Distinct(subs)
    requires forall ch :: ch in subs ==> ch.Valid() && !ch.closed
    modifies set ch | ch in subs
    ensures forall ch :: ch in subs ==> ch.Valid() && !ch.closed && ch.Told(event)
  {
    for i := 0 to |subs|
      invariant forall ch :: ch in subs ==> ch.Valid() && !ch.closed
      invariant forall j :: 0 <= j < i ==> subs[j].Told(event)
      invariant forall j :: i <= j < |subs| ==> unchanged(subs[j])
    {
      subs[i].TrySend(event);
    }
  }

  /** One turn of Run that nothing interrupts: each subscriber of the event's job is sent it
      once, without blocking. The channels being open is what a concurrent unsubscribe can break. */
  method Relay(hub: Hub, event: JobEvent)
    requires hub.Valid() && Distinct(hub.Listeners(event.id))
    requires forall ch :: ch in hub.Listeners(event.id) ==> ch.Valid() && !ch.closed
    modifies set ch | ch in hub.Listeners(event.id)
    ensures hub.Valid() && hub.Listeners(event.id) == old(hub.Listeners(event.id))
    ensures forall ch :: ch in hub.Listeners(event.id) ==> ch.Valid() && !ch.closed && ch.Told(event)
  {
    var subs := hub.Snapshot(event.id);
    SendAll(subs[..], event);
  }

  /** A tab that leaves between an event's snapshot and its sends: the removal shifts the
      hub's array in place, and the snapshot still lists everyone subscribed when it was taken. */
  method LeaveDuringFanOut(hub: Hub, id: RunId, ch: Listener) returns (subs: array<Listener>)
    requires hub.Valid() && !ch.closed
    modifies hub, hub.Arrays(), ch`closed
    ensures hub.Valid() && subs[..] == old(hub.Listeners(id))
    ensures hub.Listeners(id) == Without(old(hub.Listeners(id)), ch)
  {
    subs := hub.Snapshot(id);
    hub.Unsubscribe(id, ch);
  }

  /** A tab that arrives between the snapshot and the sends is not offered that event. */
  method ArriveDuringFanOut(hub: Hub, id: RunId) returns (subs: array<Listener>, ch: Listener)
    requires hub.Valid()
    modifies hub, hub.Arrays()
    ensures hub.Valid() && subs[..] == old(hub.Listeners(id))
    ensures hub.Listeners(id) == old(hub.Listeners(id)) + [ch] && fresh(ch)
  {
    subs := hub.Snapshot(id);
    ch := hub.Subscribe(id);
  }
}
