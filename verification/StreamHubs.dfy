/** The live-feed hub: every subscriber is offered every frame broadcast while it is
    subscribed, under one lock, so a send never meets a closed channel. */
module StreamHubs {
  import opened Options
  import opened Channels

  const BUFFER: nat := 32

  class StreamHub<Frame(!new)> {
    var subs: set<Channel<Frame>>
    /** Every frame broadcast so far, and how many there were when a channel subscribed. */
    ghost var frames: seq<Frame>
    ghost var since: map<Channel<Frame>, nat>

    /** A subscribed channel is open, and has been offered exactly the frames broadcast since it
        subscribed, in order: no other subscriber has any influence on that. */
    ghost predicate Serves(ch: Channel<Frame>)
      reads this, ch
    {
      && ch.Valid() && !ch.closed && ch.capacity == 32
      && ch in since && since[ch] <= |frames| && Offers(ch.log) == frames[since[ch]..]
    }

    ghost predicate Valid()
      reads this, subs
    {
      forall ch :: ch in subs ==> Serves(ch)
    }

    constructor ()
      ensures Valid() && subs == {} && frames == []
    {
      subs, frames, since := {}, [], map[];
    }

    method Subscribe() returns (ch: Channel<Frame>)
      requires Valid()
      modifies this`subs, this`since
      ensures Valid() && fresh(ch) && subs == old(subs) + {ch}
      ensures ch.buffer == [] && ch.received == [] && since == old(since)[ch := |frames|]
    {
      ch := new Channel(BUFFER);
      assert ch !in subs;
      subs, since := subs + {ch}, since[ch := |frames|];
    }

    /** Idempotent: leaving twice is leaving once. The channel keeps what it already holds. */
    method Unsubscribe(ch: Channel<Frame>)
      requires Valid()
      modifies this`subs, ch`closed
      ensures Valid() && subs == old(subs) - {ch}
      ensures ch.closed == (old(ch.closed) || ch in old(subs))
    {
      if ch in subs {
        subs := subs - {ch};
        ch.Close();
      }
    }

    /** Offers the frame to every subscriber, whatever the map's iteration order; the lock is held, so every
        channel it meets is open. */
    method Broadcast(frame: Frame)
      requires Valid()
      modifies this`frames, subs
      ensures Valid() && frames == old(frames) + [frame]
      ensures forall ch :: ch in subs ==> ch.Told(frame)
    {
      OfferAll(subs, frame);
      frames := frames + [frame];
      StillServed(frame);
    }

    twostate lemma {:induction false} StillServed(frame: Frame)
      requires old(Valid()) && subs == old(subs) && since == old(since) && frames == old(frames) + [frame]
      requires forall ch :: ch in subs ==> ch.Valid() && !ch.closed && ch.Told(frame)
      ensures Valid()
    {
      forall ch | ch in subs
        ensures Serves(ch)
      {
        assert old(Serves(ch));
        assert frames[since[ch]..] == old(frames)[since[ch]..] + [frame];
      }
    }

    /** What the owner of a subscription sees at any time: an in-order subsequence of the frames
        since it subscribed, all of them if no offer met a full buffer, and never more than 32 waiting. */
    lemma {:induction false} Delivery(ch: Channel<Frame>)
      requires Valid() && ch in subs
      ensures since[ch] <= |frames| && IsSubsequence(ch.received + ch.buffer, frames[since[ch]..])
      ensures |ch.buffer| <= 32
      ensures ch.received + ch.buffer == frames[since[ch]..] <==> NeverFull(ch.log, 32)
    {
      DeliveredIsSubsequence(ch.log, BUFFER);
      BufferBounded(ch.log, BUFFER);
      NothingLostExactly(ch.log, BUFFER);
      assert Replay(ch.log, BUFFER).Delivered() == ch.received + ch.buffer;
    }
  }

  /** A subscriber reading its own channel leaves the hub valid and every other channel alone. */
  method Read<Frame(!new)>(hub: StreamHub<Frame>, ch: Channel<Frame>) returns (r: Option<Frame>)
    requires hub.Valid() && ch.Valid()
    modifies ch`buffer, ch`received, ch`log
    ensures hub.Valid() && ch.Valid()
    ensures r == (if old(ch.buffer) == [] then None else Some(old(ch.buffer)[0]))
  {
    r := ch.TryReceive();
  }
}
