/** Silver validation of one Bronze period: the vectorised masks, against a per-row
    first-match classifier in which a comparison with a null is false. */
module Silver {
  import opened Options

  type Stamp = int  // seconds

  const MAX_TRIP_DISTANCE_MILES := 100.0

  /** The remaining Bronze columns of a row, which only the comparison of whole rows looks at. */
  type Columns = seq<Option<string>>

  datatype Trip = Trip(
    pickup: Option<Stamp>, dropoff: Option<Stamp>, distance: Option<real>, passengers: Option<real>,
    fare: Option<real>, total: Option<real>, tip: Option<real>, congestion: Option<real>, zone: Option<int>,
    ratecode: Option<real>, storeFlag: Option<string>, airportFee: Option<real>, others: Columns)

  /** An accepted trip with its two annotations. */
  datatype SilverTrip = SilverTrip(trip: Trip, pickupYearMismatch: bool, dropoffYearMismatch: bool)

  // ---- the rules, row by row ----

  datatype Class = Accepted | Timestamps | Distance | Passengers | Fare | Total

  predicate Below(v: Option<real>, bound: real) { v.Some? && v.value < bound }
  predicate Above(v: Option<real>, bound: real) { v.Some? && v.value > bound }
  predicate AtMost(v: Option<real>, bound: real) { v.Some? && v.value <= bound }

  /** The first rule a row breaks, timestamp > distance > passenger > fare > total. */
  function Classify(t: Trip): Class {
    if t.pickup.None? || t.dropoff.None? || t.dropoff.value <= t.pickup.value then Timestamps
    else if Below(t.distance, 0.0) || Above(t.distance, MAX_TRIP_DISTANCE_MILES) then Distance
    else if AtMost(t.passengers, 0.0) then Passengers
    else if Below(t.fare, 0.0) then Fare
    else if Below(t.total, 0.0) then Total
    else Accepted
  }

  /** The reject tier: structurally invalid rows. */
  predicate Rejected(t: Trip) { Classify(t).Timestamps? || (Classify(t).Distance? && Below(t.distance, 0.0)) }

  /** Which rows are accepted, and which are rejected rather than quarantined. */
  lemma {:induction false} AcceptedExactly(t: Trip)
    ensures Classify(t).Accepted? <==>
      && t.pickup.Some? && t.dropoff.Some? && t.pickup.value < t.dropoff.value
      && (t.distance.Some? ==> 0.0 <= t.distance.value <= 100.0) && (t.passengers.Some? ==> t.passengers.value > 0.0)
      && (t.fare.Some? ==> t.fare.value >= 0.0) && (t.total.Some? ==> t.total.value >= 0.0)
    ensures Rejected(t) <==>
      || t.pickup.None? || t.dropoff.None? || t.dropoff.value <= t.pickup.value
      || (t.distance.Some? && t.distance.value < 0.0)
  {}

  /** The first broken rule decides: in order of times, distance, passengers, fare and total. */
  lemma {:induction false} FirstBrokenRule(t: Trip)
    ensures (t.pickup.None? || t.dropoff.None? || t.dropoff.value <= t.pickup.value) <==> Classify(t) == Timestamps
    ensures t.distance.Some? && !(0.0 <= t.distance.value <= 100.0) ==> Classify(t) in {Timestamps, Distance}
    ensures t.passengers.Some? && t.passengers.value <= 0.0 ==> Classify(t) in {Timestamps, Distance, Passengers}
    ensures t.fare.Some? && t.fare.value < 0.0 ==> Classify(t) in {Timestamps, Distance, Passengers, Fare}
    ensures t.total.Some? && t.total.value < 0.0 ==> Classify(t) != Accepted
    ensures Classify(t) == Distance ==> t.distance.Some? && !(0.0 <= t.distance.value <= 100.0)
    ensures Classify(t) == Passengers ==> t.passengers.Some? && t.passengers.value <= 0.0
    ensures Classify(t) == Fare ==> t.fare.Some? && t.fare.value < 0.0
    ensures Classify(t) == Total ==> t.total.Some? && t.total.value < 0.0
  {}

  /** The rows of one class, in input order. */
  function Select(df: seq<Trip>, c: Class): seq<Trip> {
    if df == [] then [] else
      Select(df[..|df| - 1], c) + (if Classify(df[|df| - 1]) == c then [df[|df| - 1]] else [])
  }

  function RejectedRows(df: seq<Trip>): nat {
    if df == [] then 0 else RejectedRows(df[..|df| - 1]) + (if Rejected(df[|df| - 1]) then 1 else 0)
  }

  /** Accepted plus the five quarantine frames hold as many rows as the input; with
      FramesKeepOrder, which gives each frame its own positions, every row is in exactly one. */
  lemma {:induction false} FramesPartition(df: seq<Trip>)
    ensures |df| == |Select(df, Accepted)| + |Select(df, Timestamps)| + |Select(df, Distance)|
      + |Select(df, Passengers)| + |Select(df, Fare)| + |Select(df, Total)|
  {
    if df != [] {
      FramesPartition(df[..|df| - 1]);
    }
  }

  /** Where the rows of one class sit in the input. */
  function PositionsOf(df: seq<Trip>, c: Class): seq<nat> {
    if df == [] then [] else
      PositionsOf(df[..|df| - 1], c) + (if Classify(df[|df| - 1]) == c then [|df| - 1] else [])
  }

  lemma {:induction false} PositionsExact(df: seq<Trip>, c: Class)
    ensures forall k: nat :: k in PositionsOf(df, c) <==> k < |df| && Classify(df[k]) == c
  {
    if df != [] {
      PositionsExact(df[..|df| - 1], c);
    }
  }

  lemma {:induction false} PositionsIncrease(df: seq<Trip>, c: Class)
    ensures forall i :: 0 <= i < |PositionsOf(df, c)| ==> PositionsOf(df, c)[i] < |df|
    ensures forall i, j :: 0 <= i < j < |PositionsOf(df, c)| ==> PositionsOf(df, c)[i] < PositionsOf(df, c)[j]
  {
    if df != [] {
      PositionsIncrease(df[..|df| - 1], c);
    }
  }

  lemma {:induction false} PositionOfRow(df: seq<Trip>, c: Class, i: nat)
    requires i < |Select(df, c)|
    ensures i < |PositionsOf(df, c)| && PositionsOf(df, c)[i] < |df|
    ensures Select(df, c)[i] == df[PositionsOf(df, c)[i]]
  {
    var front := df[..|df| - 1];
    SameSize(front, c);
    PositionsIncrease(df, c);
    if i < |Select(front, c)| {
      PositionOfRow(front, c, i);
    }
  }

  lemma {:induction false} SameSize(df: seq<Trip>, c: Class)
    ensures |PositionsOf(df, c)| == |Select(df, c)|
  {
    if df != [] {
      SameSize(df[..|df| - 1], c);
    }
  }

  /** Each frame keeps input order: it holds exactly the rows of its class, at increasing positions. */
  lemma {:induction false} FramesKeepOrder(df: seq<Trip>, c: Class) returns (at: seq<nat>)
    ensures |at| == |Select(df, c)|
    ensures forall i :: 0 <= i < |at| ==> at[i] < |df| && Select(df, c)[i] == df[at[i]]
    ensures forall i, j :: 0 <= i < j < |at| ==> at[i] < at[j]
    ensures forall k: nat :: k in at <==> k < |df| && Classify(df[k]) == c
  {
    at := PositionsOf(df, c);
    SameSize(df, c);
    PositionsIncrease(df, c);
    PositionsExact(df, c);
    forall i | 0 <= i < |at|
      ensures Select(df, c)[i] == df[at[i]]
    {
      PositionOfRow(df, c, i);
    }
  }

  // ---- vectors ----

  type Mask = seq<bool>

  function Column(df: seq<Trip>, p: Trip -> bool): Mask { seq(|df|, i requires 0 <= i < |df| => p(df[i])) }

  function Or(a: Mask, b: Mask): Mask
    requires |a| == |b|
  {
    seq(|a|, i requires 0 <= i < |a| => a[i] || b[i])
  }

  function And(a: Mask, b: Mask): Mask
    requires |a| == |b|
  {
    seq(|a|, i requires 0 <= i < |a| => a[i] && b[i])
  }

  function Not(a: Mask): Mask { seq(|a|, i requires 0 <= i < |a| => !a[i]) }

  function Where(df: seq<Trip>, m: Mask): seq<Trip>
    requires |m| == |df|
  {
    if df == [] then [] else
      Where(df[..|df| - 1], m[..|df| - 1]) + (if m[|df| - 1] then [df[|df| - 1]] else [])
  }

  function Sum(m: Mask): nat {
    if m == [] then 0 else Sum(m[..|m| - 1]) + (if m[|m| - 1] then 1 else 0)
  }

  lemma {:induction false} WhereIsSelect(df: seq<Trip>, m: Mask, c: Class)
    requires |m| == |df| && forall i :: 0 <= i < |df| ==> (m[i] <==> Classify(df[i]) == c)
    ensures Where(df, m) == Select(df, c) && Sum(m) == |Select(df, c)|
  {
    if df != [] {
      WhereIsSelect(df[..|df| - 1], m[..|df| - 1], c);
    }
  }

  lemma {:induction false} SumIsRejected(df: seq<Trip>, m: Mask)
    requires |m| == |df| && forall i :: 0 <= i < |df| ==> (m[i] <==> Rejected(df[i]))
    ensures Sum(m) == RejectedRows(df)
  {
    if df != [] {
      SumIsRejected(df[..|df| - 1], m[..|df| - 1]);
    }
  }

  /** The three tiers cover the input: each row is accepted, rejected or quarantined. */
  lemma {:induction false} TiersCover(df: seq<Trip>, m: Masks)
    requires Refines(m, df)
    ensures |Select(df, Accepted)| + Sum(m.reject) + Sum(m.quarantine) == |df|
  {
    if df != [] {
      var n := |df| - 1;
      TiersCover(df[..n], Masks(m.timestamps[..n], m.distance[..n], m.passengers[..n], m.fare[..n], m.total[..n],
                                m.excluded[..n], m.reject[..n], m.quarantine[..n]));
    }
  }

  /** What the masks select and count, frame by frame. */
  lemma {:induction false} FramesAndCounts(df: seq<Trip>, m: Masks)
    requires Refines(m, df)
    ensures Where(df, Not(m.excluded)) == Select(df, Accepted)
    ensures Where(df, m.timestamps) == Select(df, Timestamps) && Sum(m.timestamps) == |Select(df, Timestamps)|
    ensures Where(df, m.distance) == Select(df, Distance) && Sum(m.distance) == |Select(df, Distance)|
    ensures Where(df, m.passengers) == Select(df, Passengers) && Sum(m.passengers) == |Select(df, Passengers)|
    ensures Where(df, m.fare) == Select(df, Fare) && Sum(m.fare) == |Select(df, Fare)|
    ensures Where(df, m.total) == Select(df, Total) && Sum(m.total) == |Select(df, Total)|
    ensures Sum(m.reject) == RejectedRows(df)
  {
    WhereIsSelect(df, Not(m.excluded), Accepted);
    WhereIsSelect(df, m.timestamps, Timestamps);
    WhereIsSelect(df, m.distance, Distance);
    WhereIsSelect(df, m.passengers, Passengers);
    WhereIsSelect(df, m.fare, Fare);
    WhereIsSelect(df, m.total, Total);
    SumIsRejected(df, m.reject);
  }

  /** The masks of process_period, each by its own vector expression. */
  datatype Masks = Masks(timestamps: Mask, distance: Mask, passengers: Mask, fare: Mask, total: Mask, excluded: Mask,
      reject: Mask, quarantine: Mask)

  /** Every row's masks are the first-match classifier's answers. */
  ghost predicate Refines(m: Masks, df: seq<Trip>) {
    && |m.timestamps| == |m.distance| == |m.passengers| == |m.fare| == |m.total| == |m.excluded| == |m.reject|
      == |m.quarantine| == |df|
    && (forall i :: 0 <= i < |df| ==> (m.timestamps[i] <==> Classify(df[i]).Timestamps?))
    && (forall i :: 0 <= i < |df| ==> (m.distance[i] <==> Classify(df[i]).Distance?))
    && (forall i :: 0 <= i < |df| ==> (m.passengers[i] <==> Classify(df[i]).Passengers?))
    && (forall i :: 0 <= i < |df| ==> (m.fare[i] <==> Classify(df[i]).Fare?))
    && (forall i :: 0 <= i < |df| ==> (m.total[i] <==> Classify(df[i]).Total?))
    && (forall i :: 0 <= i < |df| ==> (m.excluded[i] <==> !Classify(df[i]).Accepted?))
    && (forall i :: 0 <= i < |df| ==> (m.reject[i] <==> Rejected(df[i])))
    && (forall i :: 0 <= i < |df| ==> (m.quarantine[i] <==> !Classify(df[i]).Accepted? && !Rejected(df[i])))
  }

  /** The rules' own masks, before priorities, for each row of df. */
  datatype Rules = Rules(timestamps: Mask, negativeDistance: Mask, outlier: Mask, passengers: Mask, fare: Mask,
      total: Mask)

  ghost predicate RulesOf(r: Rules, df: seq<Trip>) {
    && |r.timestamps| == |r.negativeDistance| == |r.outlier| == |r.passengers| == |r.fare| == |r.total| == |df|
    && forall i :: 0 <= i < |df| ==>
      && (r.timestamps[i] <==> df[i].pickup.None? || df[i].dropoff.None? || df[i].dropoff.value <= df[i].pickup.value)
      && (r.negativeDistance[i] <==> Below(df[i].distance, 0.0))
      && (r.outlier[i] <==> Above(df[i].distance, MAX_TRIP_DISTANCE_MILES))
      && (r.passengers[i] <==> AtMost(df[i].passengers, 0.0))
      && (r.fare[i] <==> Below(df[i].fare, 0.0))
      && (r.total[i] <==> Below(df[i].total, 0.0))
  }

  /** The rule columns spelt out, null comparing false. */
  lemma {:induction false} RulesMean(r: Rules, df: seq<Trip>, i: nat)
    requires RulesOf(r, df) && i < |df|
    ensures r.negativeDistance[i] <==> df[i].distance.Some? && df[i].distance.value < 0.0
    ensures r.outlier[i] <==> df[i].distance.Some? && df[i].distance.value > 100.0
    ensures r.passengers[i] <==> df[i].passengers.Some? && df[i].passengers.value <= 0.0
    ensures r.fare[i] <==> df[i].fare.Some? && df[i].fare.value < 0.0
    ensures r.total[i] <==> df[i].total.Some? && df[i].total.value < 0.0
  {}

  /** Comparing columns, null comparing false. */
  method ComputeRules(df: seq<Trip>) returns (r: Rules)
    ensures RulesOf(r, df)
  {
    var pickupNull := Column(df, (t: Trip) => t.pickup.None?);
    var dropoffNull := Column(df, (t: Trip) => t.dropoff.None?);
    var notAfter := Column(df, (t: Trip) => t.dropoff.Some? && t.pickup.Some? && t.dropoff.value <= t.pickup.value);
    r := Rules(Or(Or(pickupNull, dropoffNull), notAfter),
               Column(df, (t: Trip) => Below(t.distance, 0.0)),
               Column(df, (t: Trip) => Above(t.distance, MAX_TRIP_DISTANCE_MILES)),
               Column(df, (t: Trip) => AtMost(t.passengers, 0.0)),
               Column(df, (t: Trip) => Below(t.fare, 0.0)), Column(df, (t: Trip) => Below(t.total, 0.0)));
  }

  /** Each category by its own vector expression, later ones minus the earlier ones. */
  method ComputeMasks(df: seq<Trip>) returns (m: Masks)
    ensures Refines(m, df)
  {
    var r := ComputeRules(df);
    var catTimestamps := r.timestamps;
    var catDistance := And(Or(r.negativeDistance, r.outlier), Not(catTimestamps));
    var catPassenger := And(And(r.passengers, Not(catTimestamps)), Not(catDistance));
    var catFare := And(And(And(r.fare, Not(catTimestamps)), Not(catDistance)), Not(catPassenger));
    var catTotal := And(And(And(And(r.total, Not(catTimestamps)), Not(catDistance)), Not(catPassenger)), Not(catFare));
    var excluded := Or(Or(Or(Or(catTimestamps, catDistance), catPassenger), catFare), catTotal);
    var reject := Or(catTimestamps, And(catDistance, r.negativeDistance));
    m := Masks(catTimestamps, catDistance, catPassenger, catFare, catTotal, excluded, reject,
      And(excluded, Not(reject)));
  }

  // ---- one period ----

  function Annotate(ts: seq<Trip>, year: int, yearOf: Stamp -> int): seq<SilverTrip> {
    seq(|ts|, i requires 0 <= i < |ts| => SilverTrip(ts[i],
      ts[i].pickup.None? || yearOf(ts[i].pickup.value) != year,
      ts[i].dropoff.Some? && yearOf(ts[i].dropoff.value) < year))
  }

  /** Null counts of the monitored columns: passenger_count, RatecodeID, store_and_fwd_flag, congestion_surcharge
      and Airport_fee. */
  datatype Nulls = Nulls(passengers: nat, ratecode: nat, storeFlag: nat, congestion: nat, airportFee: nat)

  function MissingValues(df: seq<Trip>): Nulls {
    Nulls(Sum(Column(df, (t: Trip) => t.passengers.None?)), Sum(Column(df, (t: Trip) => t.ratecode.None?)),
          Sum(Column(df, (t: Trip) => t.storeFlag.None?)), Sum(Column(df, (t: Trip) => t.congestion.None?)),
          Sum(Column(df, (t: Trip) => t.airportFee.None?)))
  }

  /** A mask's sum is the number of its true entries. */
  lemma {:induction false} SumIsCount(m: Mask)
    ensures Sum(m) == |set i | 0 <= i < |m| && m[i]|
  {
    if m != [] {
      var n := |m| - 1;
      SumIsCount(m[..n]);
      var before := set i | 0 <= i < n && m[..n][i];
      assert (set i | 0 <= i < |m| && m[i]) == before + (if m[n] then {n} else {});
    }
  }

  /** Where the rejected rows sit. */
  function RejectedAt(df: seq<Trip>): set<int> { set i | 0 <= i < |df| && Rejected(df[i]) }

  /** The report's rejected rows are those with missing or non-increasing times or a negative distance. */
  lemma {:induction false} RejectedIsCount(df: seq<Trip>)
    ensures RejectedRows(df) == |RejectedAt(df)|
  {
    var m := Column(df, Rejected);
    SumIsRejected(df, m);
    SumIsCount(m);
    assert RejectedAt(df) == set i | 0 <= i < |m| && m[i];
  }

  /** The report's null counts are the numbers of rows with a null in that column. */
  lemma {:induction false} MissingIsCount(df: seq<Trip>)
    ensures MissingValues(df).passengers == |set i | 0 <= i < |df| && df[i].passengers == None|
    ensures MissingValues(df).ratecode == |set i | 0 <= i < |df| && df[i].ratecode == None|
    ensures MissingValues(df).storeFlag == |set i | 0 <= i < |df| && df[i].storeFlag == None|
    ensures MissingValues(df).congestion == |set i | 0 <= i < |df| && df[i].congestion == None|
    ensures MissingValues(df).airportFee == |set i | 0 <= i < |df| && df[i].airportFee == None|
  {
    var m := MissingValues(df);
    assert m.passengers == |set i | 0 <= i < |df| && df[i].passengers == None| by {
      NullsCounted(df, (t: Trip) => t.passengers.None?, set i | 0 <= i < |df| && df[i].passengers == None);
    }
    assert m.ratecode == |set i | 0 <= i < |df| && df[i].ratecode == None| by {
      NullsCounted(df, (t: Trip) => t.ratecode.None?, set i | 0 <= i < |df| && df[i].ratecode == None);
    }
    assert m.storeFlag == |set i | 0 <= i < |df| && df[i].storeFlag == None| by {
      NullsCounted(df, (t: Trip) => t.storeFlag.None?, set i | 0 <= i < |df| && df[i].storeFlag == None);
    }
    assert m.congestion == |set i | 0 <= i < |df| && df[i].congestion == None| by {
      NullsCounted(df, (t: Trip) => t.congestion.None?, set i | 0 <= i < |df| && df[i].congestion == None);
    }
    assert m.airportFee == |set i | 0 <= i < |df| && df[i].airportFee == None| by {
      NullsCounted(df, (t: Trip) => t.airportFee.None?, set i | 0 <= i < |df| && df[i].airportFee == None);
    }
  }

  lemma {:induction false} NullsCounted(df: seq<Trip>, p: Trip -> bool, rows: set<int>)
    requires forall i :: i in rows <==> 0 <= i < |df| && p(df[i])
    ensures Sum(Column(df, p)) == |rows|
  {
    SumIsCount(Column(df, p));
    assert rows == set i | 0 <= i < |Column(df, p)| && Column(df, p)[i];
  }

  function PickupFlags(ts: seq<SilverTrip>): nat {
    if ts == [] then 0 else PickupFlags(ts[..|ts| - 1]) + (if ts[|ts| - 1].pickupYearMismatch then 1 else 0)
  }

  function DropoffFlags(ts: seq<SilverTrip>): nat {
    if ts == [] then 0 else DropoffFlags(ts[..|ts| - 1]) + (if ts[|ts| - 1].dropoffYearMismatch then 1 else 0)
  }

  lemma {:induction false} PickupFlagsIsCount(ts: seq<SilverTrip>)
    ensures PickupFlags(ts) == |set i | 0 <= i < |ts| && ts[i].pickupYearMismatch|
  {
    if ts != [] {
      var n := |ts| - 1;
      PickupFlagsIsCount(ts[..n]);
      var before := set i | 0 <= i < n && ts[..n][i].pickupYearMismatch;
      assert (set i | 0 <= i < |ts| && ts[i].pickupYearMismatch)
        == before + (if ts[n].pickupYearMismatch then {n} else {});
    }
  }

  lemma {:induction false} DropoffFlagsIsCount(ts: seq<SilverTrip>)
    ensures DropoffFlags(ts) == |set i | 0 <= i < |ts| && ts[i].dropoffYearMismatch|
  {
    if ts != [] {
      var n := |ts| - 1;
      DropoffFlagsIsCount(ts[..n]);
      var before := set i | 0 <= i < n && ts[..n][i].dropoffYearMismatch;
      assert (set i | 0 <= i < |ts| && ts[i].dropoffYearMismatch)
        == before + (if ts[n].dropoffYearMismatch then {n} else {});
    }
  }

  lemma {:induction false} PickupFlagsConcat(a: seq<SilverTrip>, b: seq<SilverTrip>)
    ensures PickupFlags(a + b) == PickupFlags(a) + PickupFlags(b)
  {
    if b == [] {
      assert a + b == a;
    } else {
      PickupFlagsConcat(a, b[..|b| - 1]);
      assert (a + b)[..|a + b| - 1] == a + b[..|b| - 1];
    }
  }

  /** df.duplicated().sum(): rows equal to an earlier one. */
  function Duplicates(df: seq<Trip>): nat {
    if df == [] then 0 else Duplicates(df[..|df| - 1]) + (if df[|df| - 1] in df[..|df| - 1] then 1 else 0)
  }

  lemma {:induction false} DuplicatesAndDistinct(df: seq<Trip>)
    ensures Duplicates(df) + |set t | t in df| == |df|
  {
    if df != [] {
      var n := |df| - 1;
      DuplicatesAndDistinct(df[..n]);
      var front := set t | t in df[..n];
      assert df == df[..n] + [df[n]];
      assert (set t | t in df) == front + {df[n]};
      if df[n] in df[..n] {
        assert df[n] in front && front + {df[n]} == front;
      } else {
        assert df[n] !in front && |front + {df[n]}| == |front| + 1;
      }
    }
  }

  datatype Report = Report(
    processed: nat, accepted: nat, rejected: nat, quarantined: nat, duplicates: nat, invalidTimestamps: nat,
    negativeFares: nat,
    invalidPassengers: nat, distanceOutliers: nat, negativeTotals: nat, flaggedPickup: nat, flaggedDropoff: nat,
    missing: Nulls)

  datatype Frames = Frames(timestamps: seq<Trip>, distance: seq<Trip>, passengers: seq<Trip>, fare: seq<Trip>,
      total: seq<Trip>)

  /** process_period up to its file writes: masks, accepted rows with flags, quarantine frames
      and the report. */
  method ProcessPeriod(df: seq<Trip>, year: int, yearOf: Stamp -> int)
    returns (accepted: seq<SilverTrip>, frames: Frames, report: Report)
    ensures accepted == Annotate(Select(df, Accepted), year, yearOf) && |accepted| == |Select(df, Accepted)|
    ensures forall i :: 0 <= i < |accepted| ==>
      && accepted[i].trip == Select(df, Accepted)[i]
      && accepted[i].trip.pickup.Some? && accepted[i].trip.dropoff.Some?
      && (accepted[i].pickupYearMismatch <==> yearOf(accepted[i].trip.pickup.value) != year)
      && (accepted[i].dropoffYearMismatch <==> yearOf(accepted[i].trip.dropoff.value) < year)
    ensures frames == Frames(Select(df, Timestamps), Select(df, Distance), Select(df, Passengers),
                             Select(df, Fare), Select(df, Total))
    ensures report.processed == |df| && report.accepted == |accepted|
    ensures report.rejected == RejectedRows(df)
    ensures report.processed == report.accepted + report.rejected + report.quarantined
    ensures report.invalidTimestamps == |frames.timestamps| && report.distanceOutliers == |frames.distance|
      && report.invalidPassengers == |frames.passengers| && report.negativeFares == |frames.fare|
      && report.negativeTotals == |frames.total|
    ensures report.invalidTimestamps + report.distanceOutliers + report.invalidPassengers + report.negativeFares
      + report.negativeTotals
      == report.rejected + report.quarantined
    ensures report.flaggedPickup == PickupFlags(accepted) && report.flaggedDropoff == DropoffFlags(accepted)
    ensures report.duplicates == |df| - |set t | t in df|
    ensures report.missing == MissingValues(df)
  {
    var m := ComputeMasks(df);
    FramesPartition(df);
    DuplicatesAndDistinct(df);
    FramesAndCounts(df, m);
    TiersCover(df, m);
    accepted := Annotate(Where(df, Not(m.excluded)), year, yearOf);
    AnnotatedRows(df, year, yearOf);
    frames := Frames(Where(df, m.timestamps), Where(df, m.distance), Where(df, m.passengers), Where(df, m.fare),
      Where(df, m.total));
    var missing := MissingValues(df);
    report := Report(|df|, |accepted|, Sum(m.reject), Sum(m.quarantine), Duplicates(df), Sum(m.timestamps), Sum(m.fare),
                     Sum(m.passengers), Sum(m.distance), Sum(m.total), PickupFlags(accepted), DropoffFlags(accepted),
                     missing);
  }

  /** Every Silver row has a pickup time, and a dropoff after it. */
  lemma {:induction false} AcceptedHavePickup(df: seq<Trip>, i: nat)
    requires i < |Select(df, Accepted)|
    ensures Select(df, Accepted)[i].pickup.Some? && Select(df, Accepted)[i].dropoff.Some?
    ensures Select(df, Accepted)[i].pickup.value < Select(df, Accepted)[i].dropoff.value
  {
    var at := FramesKeepOrder(df, Accepted);
    assert at[i] in at && Classify(df[at[i]]).Accepted?;
  }

  lemma {:induction false} AnnotatedRows(df: seq<Trip>, year: int, yearOf: Stamp -> int)
    ensures var rows := Annotate(Select(df, Accepted), year, yearOf);
      forall i :: 0 <= i < |rows| ==>
        && rows[i].trip == Select(df, Accepted)[i] && rows[i].trip.pickup.Some? && rows[i].trip.dropoff.Some?
        && (rows[i].pickupYearMismatch <==> yearOf(rows[i].trip.pickup.value) != year)
        && (rows[i].dropoffYearMismatch <==> yearOf(rows[i].trip.dropoff.value) < year)
  {
    forall i | 0 <= i < |Select(df, Accepted)|
      ensures Select(df, Accepted)[i].pickup.Some? && Select(df, Accepted)[i].dropoff.Some?
    {
      AcceptedHavePickup(df, i);
    }
  }

  /** The dropoff flag is described as a dropoff year outside the period but compares with < only: on an
      accepted row the two agree exactly if the dropoff is not in a later year. */
  lemma {:induction false} DropoffFlagExactly(df: seq<Trip>, year: int, yearOf: Stamp -> int, i: nat)
    requires i < |Select(df, Accepted)|
    ensures var row := Annotate(Select(df, Accepted), year, yearOf)[i];
      && row.trip.dropoff.Some?
      && ((row.dropoffYearMismatch <==> yearOf(row.trip.dropoff.value) != year)
        <==> yearOf(row.trip.dropoff.value) <= year)
  {
    AcceptedHavePickup(df, i);
  }

  /** A trip over New Year: accepted, dropped off outside its period's year, and not flagged. */
  lemma {:induction false} LaterDropoffUnflagged(year: int, yearOf: Stamp -> int, eve: Stamp, morning: Stamp)
      returns (t: Trip)
    requires eve < morning && yearOf(eve) == year && yearOf(morning) == year + 1
    ensures t.pickup == Some(eve) && t.dropoff == Some(morning) && Classify(t).Accepted?
    ensures Annotate(Select([t], Accepted), year, yearOf) == [SilverTrip(t, false, false)]
  {
    t := Trip(Some(eve), Some(morning), None, None, None, None, None, None, None, None, None, None, []);
    assert Select([t], Accepted) == Select([], Accepted) + [t] by {
      assert [t][..0] == [];
    }
  }

  // ---- all periods ----

  datatype Period = Period(year: int, bronze: seq<Trip>)

  /** The trips in the lake's silver/trips prefix once every period's file is written. */
  function Lake(periods: seq<Period>, yearOf: Stamp -> int): seq<SilverTrip> {
    if periods == [] then [] else
      var last := periods[|periods| - 1];
      Lake(periods[..|periods| - 1], yearOf) + Annotate(Select(last.bronze, Accepted), last.year, yearOf)
  }

  function AcceptedSum(reports: seq<Report>): nat {
    if reports == [] then 0 else AcceptedSum(reports[..|reports| - 1]) + reports[|reports| - 1].accepted
  }

  function FlaggedPickupSum(reports: seq<Report>): nat {
    if reports == [] then 0 else FlaggedPickupSum(reports[..|reports| - 1]) + reports[|reports| - 1].flaggedPickup
  }

  /** A report's row counts add up to the period it read. */
  predicate Balanced(r: Report, bronze: seq<Trip>) {
    && r.processed == |bronze| && r.rejected == RejectedRows(bronze)
    && r.processed == r.accepted + r.rejected + r.quarantined
  }

  predicate AccountFor(reports: seq<Report>, silver: seq<SilverTrip>) {
    AcceptedSum(reports) == |silver| && FlaggedPickupSum(reports) == PickupFlags(silver)
  }

  lemma {:induction false} AccountForNext(reports: seq<Report>, silver: seq<SilverTrip>, r: Report,
      accepted: seq<SilverTrip>)
    requires AccountFor(reports, silver) && r.accepted == |accepted| && r.flaggedPickup == PickupFlags(accepted)
    ensures AccountFor(reports + [r], silver + accepted)
  {
    PickupFlagsConcat(silver, accepted);
    assert (reports + [r])[..|reports|] == reports;
  }

  lemma {:induction false} LakeNext(periods: seq<Period>, yearOf: Stamp -> int, k: nat)
    requires k < |periods|
    ensures Lake(periods[..k + 1], yearOf)
      == Lake(periods[..k], yearOf) + Annotate(Select(periods[k].bronze, Accepted), periods[k].year, yearOf)
  {
    assert periods[..k + 1][..k] == periods[..k];
  }

  method ReportPeriod(p: Period, yearOf: Stamp -> int) returns (accepted: seq<SilverTrip>, report: Report)
    ensures accepted == Annotate(Select(p.bronze, Accepted), p.year, yearOf) && Balanced(report, p.bronze)
    ensures report.accepted == |accepted| && report.flaggedPickup == PickupFlags(accepted)
  {
    var frames;
    accepted, frames, report := ProcessPeriod(p.bronze, p.year, yearOf);
  }

  /** run: one report per period, in order, which together account for the whole lake. */
  method Run(periods: seq<Period>, yearOf: Stamp -> int) returns (silver: seq<SilverTrip>, reports: seq<Report>)
    ensures silver == Lake(periods, yearOf) && |reports| == |periods|
    ensures AccountFor(reports, silver)
    ensures forall i :: 0 <= i < |periods| ==> Balanced(reports[i], periods[i].bronze)
  {
    silver, reports := [], [];
    for k := 0 to |periods|
      invariant silver == Lake(periods[..k], yearOf) && |reports| == k
      invariant AccountFor(reports, silver)
      invariant forall i :: 0 <= i < k ==> Balanced(reports[i], periods[i].bronze)
    {
      var accepted, report := ReportPeriod(periods[k], yearOf);
      AccountForNext(reports, silver, report, accepted);
      LakeNext(periods, yearOf, k);
      silver, reports := silver + accepted, reports + [report];
    }
    assert periods[..|periods|] == periods;
  }

  /** Every row of the lake is an accepted row of one period, flagged against that period's year. */
  lemma {:induction false} LakeRowsHaveAPeriod(periods: seq<Period>, yearOf: Stamp -> int, i: nat) returns (p: nat)
    requires i < |Lake(periods, yearOf)|
    ensures p < |periods|
    ensures var row := Lake(periods, yearOf)[i];
      && row.trip.pickup.Some? && row.trip in periods[p].bronze && Classify(row.trip).Accepted?
      && (row.pickupYearMismatch <==> yearOf(row.trip.pickup.value) != periods[p].year)
  {
    var n := |periods| - 1;
    var before := Lake(periods[..n], yearOf);
    if i < |before| {
      p := LakeRowsHaveAPeriod(periods[..n], yearOf, i);
    } else {
      p := n;
      AcceptedHavePickup(periods[n].bronze, i - |before|);
      var at := FramesKeepOrder(periods[n].bronze, Accepted);
      assert periods[n].bronze[at[i - |before|]] in periods[n].bronze;
    }
  }
}
