/** The streaming consumer: trips, malformed messages, read errors and ticks in any order,
    folded into one aggregate per tick and broadcast as frames. Money and time are reals. */
module StreamingWindow {
  import opened Options

  datatype Trip = Trip(totalAmount: real, fareAmount: real, tripDistance: real)

  datatype Aggregate = Aggregate(
    tripCount: nat, messagesPerSecond: real, totalRevenue: real, avgFare: real, avgDistance: real, windowEndedAt: real)

  datatype Frame = WindowFrame(window: Aggregate) | TripFrame(trip: Trip)

  /** What the select loop can see next; None is a message that does not decode. */
  datatype Input = Tick(now: real) | Message(trip: Option<Trip>) | ReadError

  /** The trips since the last flush, added up, and when that flush was. */
  datatype Sums = Sums(count: nat, revenue: real, fare: real, distance: real, since: real)

  function Plus(w: Sums, t: Trip): Sums {
    Sums(w.count + 1, w.revenue + t.totalAmount, w.fare + t.fareAmount, w.distance + t.tripDistance, w.since)
  }

  function Elapsed(from: real, to: real): (e: real)
    ensures e > 0.0
  {
    if to - from <= 0.0 then 0.001 else to - from
  }

  class WindowAccumulator {
    var count: nat
    var totalRevenue: real
    var totalFare: real
    var totalDistance: real
    var windowStart: real

    constructor (now: real)
      ensures Value() == Sums(0, 0.0, 0.0, 0.0, now)
    {
      count, totalRevenue, totalFare, totalDistance, windowStart := 0, 0.0, 0.0, 0.0, now;
    }

    function Value(): Sums
      reads this
    {
      Sums(count, totalRevenue, totalFare, totalDistance, windowStart)
    }

    method Add(trip: Trip)
      modifies this
      ensures Value() == Plus(old(Value()), trip)
      ensures count == old(count) + 1 && windowStart == old(windowStart)
      ensures totalRevenue == old(totalRevenue) + trip.totalAmount
      ensures totalFare == old(totalFare) + trip.fareAmount
      ensures totalDistance == old(totalDistance) + trip.tripDistance
    {
      count := count + 1;
      totalRevenue := totalRevenue + trip.totalAmount;
      totalFare := totalFare + trip.fareAmount;
      totalDistance := totalDistance + trip.tripDistance;
    }

    /** Empty windows are flushed too, and the next one starts where this one ended. */
    method Flush(now: real) returns (agg: Aggregate)
      modifies this
      ensures Summarises(agg, old(Value())) && agg.windowEndedAt == now
      ensures agg.tripCount == old(count) && agg.totalRevenue == old(totalRevenue)
      ensures agg.messagesPerSecond * (if now > old(windowStart) then now - old(windowStart) else 0.001)
        == old(count) as real
      ensures if old(count) == 0 then agg.avgFare == agg.avgDistance == 0.0 else
        agg.avgFare * old(count) as real == old(totalFare) && agg.avgDistance * old(count) as real == old(totalDistance)
      ensures Value() == Sums(0, 0.0, 0.0, 0.0, now)
    {
      var elapsed := now - windowStart;
      if elapsed <= 0.0 {
        elapsed := 0.001;
      }
      var perSecond := count as real / elapsed;
      assert perSecond * elapsed == count as real;
      var avgFare, avgDistance := 0.0, 0.0;
      if count > 0 {
        avgFare, avgDistance := totalFare / count as real, totalDistance / count as real;
        assert avgFare * count as real == totalFare && avgDistance * count as real == totalDistance;
      }
      agg := Aggregate(count, perSecond, totalRevenue, avgFare, avgDistance, now);
      count, totalRevenue, totalFare, totalDistance, windowStart := 0, 0.0, 0.0, 0.0, now;
    }
  }

  /** messagesPerSecond times the time since `from` is the trip count. */
  predicate RateIsOver(a: Aggregate, from: real) {
    a.messagesPerSecond * Elapsed(from, a.windowEndedAt) == a.tripCount as real
  }

  /** The aggregate accounts for these sums over the time since they were last flushed. */
  predicate Summarises(a: Aggregate, w: Sums) {
    && a.tripCount == w.count && a.totalRevenue == w.revenue
    && RateIsOver(a, w.since)
    && (if w.count > 0 then a.avgFare * w.count as real == w.fare && a.avgDistance * w.count as real == w.distance
        else a.avgFare == 0.0 && a.avgDistance == 0.0)
  }

  /** The sums of the trip frames after the last window frame. */
  function Pending(frames: seq<Frame>, start: real): Sums {
    if frames == [] then Sums(0, 0.0, 0.0, 0.0, start) else
      match frames[|frames| - 1]
      case WindowFrame(a) => Sums(0, 0.0, 0.0, 0.0, a.windowEndedAt)
      case TripFrame(t) => Plus(Pending(frames[..|frames| - 1], start), t)
  }

  /** Every window frame accounts for the trip frames since the one before it. */
  predicate Honest(frames: seq<Frame>, start: real) {
    frames == [] ||
      (Honest(frames[..|frames| - 1], start)
       && var f := frames[|frames| - 1]; f.WindowFrame? ==>
         Summarises(f.window, Pending(frames[..|frames| - 1], start)))
  }

  function Trips(frames: seq<Frame>): seq<Trip> {
    if frames == [] then [] else
      Trips(frames[..|frames| - 1]) + (if frames[|frames| - 1].TripFrame? then [frames[|frames| - 1].trip] else [])
  }

  function WindowEnds(frames: seq<Frame>): seq<real> {
    if frames == [] then [] else
      WindowEnds(frames[..|frames| - 1])
      + (if frames[|frames| - 1].WindowFrame? then [frames[|frames| - 1].window.windowEndedAt] else [])
  }

  function Decoded(inputs: seq<Input>): seq<Trip> {
    if inputs == [] then [] else
      var i := inputs[|inputs| - 1];
      Decoded(inputs[..|inputs| - 1]) + (if i.Message? && i.trip.Some? then [i.trip.value] else [])
  }

  function Ticks(inputs: seq<Input>): seq<real> {
    if inputs == [] then [] else
      var i := inputs[|inputs| - 1];
      Ticks(inputs[..|inputs| - 1]) + (if i.Tick? then [i.now] else [])
  }

  /** What arrives decoded, and the ticks, input by input. */
  lemma {:induction false} ArrivalsNext(inputs: seq<Input>, input: Input)
    ensures Decoded(inputs + [input])
      == Decoded(inputs) + (if input.Message? && input.trip.Some? then [input.trip.value] else [])
    ensures Ticks(inputs + [input]) == Ticks(inputs) + (if input.Tick? then [input.now] else [])
    ensures Decoded([]) == [] && Ticks([]) == []
  {
    assert (inputs + [input])[..|inputs|] == inputs;
  }

  lemma {:induction false} Appended(frames: seq<Frame>, f: Frame, start: real)
    ensures Pending(frames + [f], start) ==
      if f.WindowFrame? then Sums(0, 0.0, 0.0, 0.0, f.window.windowEndedAt) else Plus(Pending(frames, start), f.trip)
    ensures Honest(frames + [f], start) <==>
      Honest(frames, start) && (f.WindowFrame? ==> Summarises(f.window, Pending(frames, start)))
    ensures Trips(frames + [f]) == Trips(frames) + (if f.TripFrame? then [f.trip] else [])
    ensures WindowEnds(frames + [f]) == WindowEnds(frames) + (if f.WindowFrame? then [f.window.windowEndedAt] else [])
  {
    assert (frames + [f])[..|frames|] == frames;
  }

  /** What one turn of the select loop broadcasts and leaves in the accumulator. */
  predicate Turned(before: Sums, input: Input, out: Option<Frame>, after: Sums) {
    match input
    case Tick(now) =>
      && out.Some? && out.value.WindowFrame? && out.value.window.windowEndedAt == now
      && Summarises(out.value.window, before) && after == Sums(0, 0.0, 0.0, 0.0, now)
    case Message(Some(trip)) => out == Some(TripFrame(trip)) && after == Plus(before, trip)
    case _ => out == None && after == before
  }

  method ConsumerTurn(window: WindowAccumulator, input: Input) returns (out: Option<Frame>)
    modifies window
    ensures Turned(old(window.Value()), input, out, window.Value())
    ensures out == None <==> input == ReadError || input == Message(None)
    ensures input.Message? && input.trip.Some? ==>
      out == Some(TripFrame(input.trip.value)) && window.count == old(window.count) + 1
    ensures input.Tick? ==>
      out.Some? && out.value.WindowFrame? && out.value.window.tripCount == old(window.count) && window.count == 0
  {
    out := None;
    match input {
      case Tick(now) =>
        var agg := window.Flush(now);
        out := Some(WindowFrame(agg));
      case Message(Some(trip)) =>
        window.Add(trip);
        out := Some(TripFrame(trip));
      case _ =>
    }
  }

  /** These frames, and these sums still pending, are what the inputs so far come to. */
  ghost predicate Consumed(inputs: seq<Input>, frames: seq<Frame>, pending: Sums, start: real) {
    && Honest(frames, start) && pending == Pending(frames, start)
    && Trips(frames) == Decoded(inputs) && WindowEnds(frames) == Ticks(inputs)
  }

  function Broadcast(frames: seq<Frame>, out: Option<Frame>): seq<Frame> {
    if out.Some? then frames + [out.value] else frames
  }

  lemma {:induction false} TurnKeeps(
    inputs: seq<Input>, frames: seq<Frame>, before: Sums, start: real, input: Input, out: Option<Frame>, after: Sums)
    requires Consumed(inputs, frames, before, start) && Turned(before, input, out, after)
    ensures Consumed(inputs + [input], Broadcast(frames, out), after, start)
  {
    ArrivalsNext(inputs, input);
    if out.Some? {
      Appended(frames, out.value, start);
    }
  }

  /** Consumer.Run over whatever arrives before its context ends: one trip frame per decoded
      message, one window frame per tick, each accounting for the trips since the last. */
  method ConsumerRun(inputs: seq<Input>, start: real) returns (frames: seq<Frame>, window: WindowAccumulator)
    ensures Consumed(inputs, frames, window.Value(), start)
  {
    window := new WindowAccumulator(start);
    frames := [];
    for k := 0 to |inputs|
      invariant fresh(window) && Consumed(inputs[..k], frames, window.Value(), start)
    {
      ghost var before := window.Value();
      var out := ConsumerTurn(window, inputs[k]);
      TurnKeeps(inputs[..k], frames, before, start, inputs[k], out, window.Value());
      assert inputs[..k + 1] == inputs[..k] + [inputs[k]];
      frames := Broadcast(frames, out);
    }
    assert inputs[..|inputs|] == inputs;
  }

  // ---- conservation ----

  function Revenue(trips: seq<Trip>): real {
    if trips == [] then 0.0 else Revenue(trips[..|trips| - 1]) + trips[|trips| - 1].totalAmount
  }

  function FareSum(trips: seq<Trip>): real {
    if trips == [] then 0.0 else FareSum(trips[..|trips| - 1]) + trips[|trips| - 1].fareAmount
  }

  function DistanceSum(trips: seq<Trip>): real {
    if trips == [] then 0.0 else DistanceSum(trips[..|trips| - 1]) + trips[|trips| - 1].tripDistance
  }

  /** What these sums are: one trip's own amounts, and trips after trips. */
  lemma {:induction false} SumsOfOne(t: Trip)
    ensures Revenue([t]) == t.totalAmount && FareSum([t]) == t.fareAmount && DistanceSum([t]) == t.tripDistance
  {
    assert [t][..0] == [];
  }

  lemma {:induction false} SumsOfConcat(a: seq<Trip>, b: seq<Trip>)
    ensures Revenue(a + b) == Revenue(a) + Revenue(b) && FareSum(a + b) == FareSum(a) + FareSum(b)
    ensures DistanceSum(a + b) == DistanceSum(a) + DistanceSum(b)
  {
    if b == [] {
      assert a + b == a;
    } else {
      SumsOfConcat(a, b[..|b| - 1]);
      assert (a + b)[..|a + b| - 1] == a + b[..|b| - 1];
    }
  }

  /** Trips counted, and revenue totalled, by all windows so far. */
  function Flushed(frames: seq<Frame>): (nat, real) {
    if frames == [] then (0, 0.0) else
      var before := Flushed(frames[..|frames| - 1]);
      match frames[|frames| - 1]
      case WindowFrame(a) => (before.0 + a.tripCount, before.1 + a.totalRevenue)
      case TripFrame(_) => before
  }

  /** Nothing is lost or counted twice: flushed plus pending is everything decoded. */
  lemma {:induction false} FlushedPlusPendingIsAll(frames: seq<Frame>, start: real)
    requires Honest(frames, start)
    ensures Flushed(frames).0 + Pending(frames, start).count == |Trips(frames)|
    ensures Flushed(frames).1 + Pending(frames, start).revenue == Revenue(Trips(frames))
  {
    if frames != [] {
      var before, f := frames[..|frames| - 1], frames[|frames| - 1];
      FlushedPlusPendingIsAll(before, start);
      if f.TripFrame? {
        assert Trips(frames)[..|Trips(frames)| - 1] == Trips(before);
      } else {
        assert Trips(frames) == Trips(before);
      }
    }
  }

  lemma {:induction false} PendingSince(frames: seq<Frame>, start: real, i: int)
    requires 0 <= i < |frames| && frames[i].WindowFrame? && forall k :: i < k < |frames| ==> frames[k].TripFrame?
    ensures var w := Pending(frames, start);
      && w.since == frames[i].window.windowEndedAt && w.count == |frames| - i - 1
      && w.count == |Trips(frames[i + 1..])| && w.revenue == Revenue(Trips(frames[i + 1..]))
      && w.fare == FareSum(Trips(frames[i + 1..])) && w.distance == DistanceSum(Trips(frames[i + 1..]))
  {
    var n := |frames| - 1;
    if i == n {
      assert frames[i + 1..] == [];
    } else {
      PendingSince(frames[..n], start, i);
      var later := frames[i + 1..];
      assert later[..|later| - 1] == frames[..n][i + 1..] && later[|later| - 1] == frames[n];
      assert Trips(later)[..|Trips(later)| - 1] == Trips(frames[..n][i + 1..]);
    }
  }

  lemma {:induction false} HonestPrefix(frames: seq<Frame>, start: real, j: nat)
    requires Honest(frames, start) && j < |frames| && frames[j].WindowFrame?
    ensures Summarises(frames[j].window, Pending(frames[..j], start))
  {
    var n := |frames| - 1;
    if j < n {
      HonestPrefix(frames[..n], start, j);
      assert frames[..n][..j] == frames[..j];
    }
  }

  /** Between two consecutive window frames the trip frames number exactly the later window's
      tripCount and total its revenue. */
  lemma {:induction false} WindowAccountsForItsTrips(frames: seq<Frame>, start: real, i: int, j: int)
    requires Honest(frames, start) && 0 <= i < j < |frames| && frames[i].WindowFrame? && frames[j].WindowFrame?
    requires forall k :: i < k < j ==> frames[k].TripFrame?
    ensures frames[j].window.tripCount == j - i - 1 == |Trips(frames[i + 1..j])|
    ensures frames[j].window.totalRevenue == Revenue(Trips(frames[i + 1..j]))
  {
    var upTo := frames[..j];
    PendingSince(upTo, start, i);
    assert upTo[i + 1..] == frames[i + 1..j];
    HonestPrefix(frames, start, j);
  }

  /** An aggregate's averages are those of these trips, 0 without any. */
  predicate AveragesOf(a: Aggregate, trips: seq<Trip>) {
    if trips == [] then a.avgFare == a.avgDistance == 0.0 else
      a.avgFare * |trips| as real == FareSum(trips) && a.avgDistance * |trips| as real == DistanceSum(trips)
  }

  /** ... and average to its averages. */
  lemma {:induction false} WindowAverages(frames: seq<Frame>, start: real, i: int, j: int)
    requires Honest(frames, start) && 0 <= i < j < |frames| && frames[i].WindowFrame? && frames[j].WindowFrame?
    requires forall k :: i < k < j ==> frames[k].TripFrame?
    ensures AveragesOf(frames[j].window, Trips(frames[i + 1..j]))
  {
    var upTo := frames[..j];
    PendingSince(upTo, start, i);
    assert upTo[i + 1..] == frames[i + 1..j];
    HonestPrefix(frames, start, j);
    AveragesMean(frames[j].window, Pending(upTo, start), Trips(frames[i + 1..j]));
  }

  lemma {:induction false} AveragesMean(a: Aggregate, w: Sums, trips: seq<Trip>)
    requires Summarises(a, w) && w.count == |trips| && w.fare == FareSum(trips) && w.distance == DistanceSum(trips)
    ensures AveragesOf(a, trips)
  {}

  /** Windows tile time: a window starts where the previous one ended, and its rate is over exactly the time
      in between. */
  lemma {:induction false} WindowsTileTime(frames: seq<Frame>, start: real, i: int, j: int)
    requires Honest(frames, start) && 0 <= i < j < |frames| && frames[i].WindowFrame? && frames[j].WindowFrame?
    requires forall k :: i < k < j ==> frames[k].TripFrame?
    ensures Pending(frames[..j], start).since == frames[i].window.windowEndedAt
    ensures RateIsOver(frames[j].window, frames[i].window.windowEndedAt)
  {
    PendingSince(frames[..j], start, i);
    HonestPrefix(frames, start, j);
  }

  lemma {:induction false} PendingFromStart(frames: seq<Frame>, start: real)
    requires forall k :: 0 <= k < |frames| ==> frames[k].TripFrame?
    ensures var w := Pending(frames, start);
      w.since == start && w.count == |frames| == |Trips(frames)| && w.revenue == Revenue(Trips(frames))
  {
    if frames != [] {
      var n := |frames| - 1;
      PendingFromStart(frames[..n], start);
      assert Trips(frames)[..n] == Trips(frames[..n]);
    }
  }

  /** The first window starts when the accumulator was made, and accounts for every trip before it. */
  lemma {:induction false} FirstWindow(frames: seq<Frame>, start: real, j: int)
    requires Honest(frames, start) && 0 <= j < |frames| && frames[j].WindowFrame?
    requires forall k :: 0 <= k < j ==> frames[k].TripFrame?
    ensures Pending(frames[..j], start).since == start && RateIsOver(frames[j].window, start)
    ensures frames[j].window.tripCount == j == |Trips(frames[..j])|
    ensures frames[j].window.totalRevenue == Revenue(Trips(frames[..j]))
  {
    PendingFromStart(frames[..j], start);
    HonestPrefix(frames, start, j);
  }
}
