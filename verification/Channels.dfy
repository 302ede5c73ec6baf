/** A bounded Go channel that is only ever offered events without blocking (select with a
    default branch): its contents follow from its own history alone. */
module Channels {
  import opened Options

  /** One step of a channel's history: an event offered by the hub, or a receive by its reader. */
  datatype Local<T> = Offer(item: T) | Take

  datatype Contents<T> = Contents(buffer: seq<T>, received: seq<T>) {
    /** Everything that got in: what the reader has had, then what waits for it. */
    function Delivered(): seq<T> { received + buffer }
  }

  /** A non-blocking send: dropped exactly when the buffer is full. */
  function Offered<T>(c: Contents<T>, x: T, capacity: nat): Contents<T> {
    if |c.buffer| < capacity then Contents(c.buffer + [x], c.received) else c
  }

  function Taken<T>(c: Contents<T>): Contents<T> {
    if c.buffer == [] then c else Contents(c.buffer[1..], c.received + [c.buffer[0]])
  }

  function Applied<T>(c: Contents<T>, step: Local<T>, capacity: nat): Contents<T> {
    match step
    case Offer(x) => Offered(c, x, capacity)
    case Take => Taken(c)
  }

  /** The channel as a function of its own history. */
  function Replay<T>(log: seq<Local<T>>, capacity: nat): Contents<T> {
    if log == [] then Contents([], []) else Applied(Replay(log[..|log| - 1], capacity), log[|log| - 1], capacity)
  }

  function Offers<T>(log: seq<Local<T>>): seq<T> {
    if log == [] then [] else
      var last := log[|log| - 1];
      Offers(log[..|log| - 1]) + (if last.Offer? then [last.item] else [])
  }

  /** Every offer of the history found room. */
  predicate NeverFull<T>(log: seq<Local<T>>, capacity: nat) {
    forall i :: 0 <= i < |log| && log[i].Offer? ==> |Replay(log[..i], capacity).buffer| < capacity
  }

  // ---- in-order subsequences ----

  ghost predicate IsSubsequence<T>(a: seq<T>, b: seq<T>) {
    || a == []
    || (b != [] && IsSubsequence(a, b[..|b| - 1]))
    || (b != [] && a[|a| - 1] == b[|b| - 1] && IsSubsequence(a[..|a| - 1], b[..|b| - 1]))
  }

  lemma {:induction false} SubsequenceKeep<T>(a: seq<T>, b: seq<T>, x: T)
    requires IsSubsequence(a, b)
    ensures IsSubsequence(a + [x], b + [x]) && IsSubsequence(a, b + [x])
  {
    assert (a + [x])[..|a|] == a && (b + [x])[..|b|] == b;
  }

  /** A subsequence sits at increasing positions. */
  lemma {:induction false} SubsequencePositions<T>(a: seq<T>, b: seq<T>) returns (at: seq<nat>)
    requires IsSubsequence(a, b)
    ensures |at| == |a|
    ensures forall i :: 0 <= i < |at| ==> at[i] < |b| && a[i] == b[at[i]]
    ensures forall i, j :: 0 <= i < j < |at| ==> at[i] < at[j]
  {
    if a == [] {
      at := [];
    } else if IsSubsequence(a, b[..|b| - 1]) {
      at := SubsequencePositions(a, b[..|b| - 1]);
    } else {
      var before := SubsequencePositions(a[..|a| - 1], b[..|b| - 1]);
      at := before + [|b| - 1];
    }
  }

  // ---- what a history delivers ----

  lemma {:induction false} BufferBounded<T>(log: seq<Local<T>>, capacity: nat)
    ensures |Replay(log, capacity).buffer| <= capacity
  {
    if log != [] {
      BufferBounded(log[..|log| - 1], capacity);
    }
  }

  /** What got in is an in-order subsequence of what was offered. */
  lemma {:induction false} DeliveredIsSubsequence<T>(log: seq<Local<T>>, capacity: nat)
    ensures IsSubsequence(Replay(log, capacity).Delivered(), Offers(log))
  {
    if log != [] {
      var n := |log| - 1;
      var c := Replay(log[..n], capacity);
      DeliveredIsSubsequence(log[..n], capacity);
      match log[n] {
        case Offer(x) =>
          SubsequenceKeep(c.Delivered(), Offers(log[..n]), x);
          assert c.received + (c.buffer + [x]) == c.Delivered() + [x];
        case Take =>
          assert Taken(c).Delivered() == c.Delivered();
          assert Offers(log) == Offers(log[..n]);
      }
    }
  }

  lemma {:induction false} DeliveredWithinOffers<T>(log: seq<Local<T>>, capacity: nat)
    ensures |Replay(log, capacity).Delivered()| <= |Offers(log)|
  {
    if log != [] {
      DeliveredWithinOffers(log[..|log| - 1], capacity);
    }
  }

  lemma {:induction false} AppendedAlike<T>(a: seq<T>, b: seq<T>, x: T)
    ensures a + [x] == b + [x] <==> a == b
  {
    if a + [x] == b + [x] {
      assert a == (a + [x])[..|a|] == b;
    }
  }

  lemma {:induction false} NeverFullNext<T>(log: seq<Local<T>>, step: Local<T>, capacity: nat)
    ensures NeverFull(log + [step], capacity)
      <==> NeverFull(log, capacity) && (step.Offer? ==> |Replay(log, capacity).buffer| < capacity)
  {
    var next := log + [step];
    assert forall i :: 0 <= i <= |log| ==> next[..i] == log[..i];
    assert log[..|log|] == log && next[|log|] == step;
    if NeverFull(next, capacity) {
      assert forall i :: 0 <= i < |log| ==> next[i] == log[i];
    }
  }

  /** Nothing is lost exactly when every offer found room. */
  lemma {:induction false} NothingLostExactly<T>(log: seq<Local<T>>, capacity: nat)
    ensures Replay(log, capacity).Delivered() == Offers(log) <==> NeverFull(log, capacity)
  {
    if log != [] {
      var n := |log| - 1;
      NothingLostExactly(log[..n], capacity);
      NothingLostNext(log[..n], log[n], capacity);
      NeverFullNext(log[..n], log[n], capacity);
      assert log[..n] + [log[n]] == log;
    }
  }

  lemma {:induction false} NothingLostNext<T>(log: seq<Local<T>>, step: Local<T>, capacity: nat)
    ensures Replay(log + [step], capacity).Delivered() == Offers(log + [step])
      <==> (Replay(log, capacity).Delivered() == Offers(log)
            && (step.Offer? ==> |Replay(log, capacity).buffer| < capacity))
  {
    var c := Replay(log, capacity);
    ReplayNext(log, step, capacity);
    DeliveredWithinOffers(log, capacity);
    if step.Offer? {
      AppendedAlike(c.Delivered(), Offers(log), step.item);
      assert c.received + (c.buffer + [step.item]) == c.Delivered() + [step.item];
    } else {
      assert Taken(c).Delivered() == c.Delivered();
      assert Offers(log + [step]) == Offers(log);
    }
  }

  lemma {:induction false} ReplayNext<T>(log: seq<Local<T>>, step: Local<T>, capacity: nat)
    ensures Replay(log + [step], capacity) == Applied(Replay(log, capacity), step, capacity)
    ensures Offers(log + [step]) == Offers(log) + (if step.Offer? then [step.item] else [])
  {
    assert (log + [step])[..|log|] == log;
  }

  /** A channel object: sending on it or closing it once closed would panic. */
  class Channel<T> {
    const capacity: nat
    var buffer: seq<T>
    var closed: bool
    ghost var received: seq<T>
    ghost var log: seq<Local<T>>

    ghost predicate Valid() reads this { Contents(buffer, received) == Replay(log, capacity) }

    constructor (capacity: nat)
      ensures Valid() && this.capacity == capacity && !closed && buffer == [] && log == []
    {
      this.capacity := capacity;
      buffer, closed, received, log := [], false, [], [];
    }

    /** The whole effect of one non-blocking send. */
    twostate predicate Told(x: T)
      reads this
    {
      && Offers(log) == old(Offers(log)) + [x]
      && received == old(received)
      && buffer == (if |old(buffer)| < capacity then old(buffer) + [x] else old(buffer))
    }

    /** select { case ch <- x: default: } */
    method TrySend(x: T)
      requires Valid() && !closed
      modifies this
      ensures Valid() && !closed && log == old(log) + [Offer(x)] && Told(x)
    {
      ReplayNext(log, Offer(x), capacity);
      log := log + [Offer(x)];
      if |buffer| < capacity {
        buffer := buffer + [x];
      }
    }

    /** A receive; a closed channel still drains. */
    method TryReceive() returns (r: Option<T>)
      requires Valid()
      modifies this`buffer, this`received, this`log
      ensures Valid() && Offers(log) == old(Offers(log)) && log == old(log) + [Take]
      ensures r == (if old(buffer) == [] then None else Some(old(buffer)[0]))
      ensures received + buffer == old(received + buffer)
        && received == old(received) + (if r.Some? then [r.value] else [])
    {
      ReplayNext(log, Take, capacity);
      log := log + [Take];
      if buffer == [] {
        return None;
      }
      r := Some(buffer[0]);
      received := received + [buffer[0]];
      buffer := buffer[1..];
    }

    method Close()
      requires !closed
      modifies this`closed
      ensures closed
    {
      closed := true;
    }
  }

  /** A send to each of some channels, in whatever order. That TrySend's precondition holds at each call is
      the absence of sends on closed channels. */
  method OfferAll<T>(chans: set<Channel<T>>, x: T)
    requires forall ch :: ch in chans ==> ch.Valid() && !ch.closed
    modifies chans
    ensures forall ch :: ch in chans ==> ch.Valid() && !ch.closed && ch.Told(x)
  {
    var todo := chans;
    while todo != {}
      invariant todo <= chans
      invariant forall ch :: ch in chans ==> ch.Valid() && !ch.closed
      invariant forall ch :: ch in todo ==> unchanged(ch)
      invariant forall ch :: ch in chans - todo ==> ch.Told(x)
    {
      var ch :| ch in todo;
      ch.TrySend(x);
      todo := todo - {ch};
    }
  }
}
