/** The five tables built from the Silver trips, each by its own group-by, and the laws
    that tie them to each other and to the Silver reports. */
module Gold {
  import opened Options
  import opened Aggregates
  import Silver

  type Column = seq<Option<real>>
  type Rows = seq<Silver.SilverTrip>

  const DAY := 86400
  const HOUR := 3600

  // ---- columns ----

  function HourOf(t: Silver.Trip): Option<int> {
    if t.pickup.Some? then Some(t.pickup.value % DAY / HOUR) else None
  }

  function DateOf(t: Silver.Trip): Option<int> {
    if t.pickup.Some? then Some(t.pickup.value / DAY) else None
  }

  function Zones(df: Rows): (r: seq<Option<int>>)
    ensures |r| == |df|
  {
    seq(|df|, i requires 0 <= i < |df| => df[i].trip.zone)
  }

  function Hours(df: Rows): (r: seq<Option<int>>)
    ensures |r| == |df|
  {
    seq(|df|, i requires 0 <= i < |df| => HourOf(df[i].trip))
  }

  function Dates(df: Rows): (r: seq<Option<int>>)
    ensures |r| == |df|
  {
    seq(|df|, i requires 0 <= i < |df| => DateOf(df[i].trip))
  }

  function Fares(df: Rows): (r: Column)
    ensures |r| == |df|
  {
    seq(|df|, i requires 0 <= i < |df| => df[i].trip.fare)
  }

  function Totals(df: Rows): (r: Column)
    ensures |r| == |df|
  {
    seq(|df|, i requires 0 <= i < |df| => df[i].trip.total)
  }

  function Tips(df: Rows): (r: Column)
    ensures |r| == |df|
  {
    seq(|df|, i requires 0 <= i < |df| => df[i].trip.tip)
  }

  function Distances(df: Rows): (r: Column)
    ensures |r| == |df|
  {
    seq(|df|, i requires 0 <= i < |df| => df[i].trip.distance)
  }

  function Passengers(df: Rows): (r: Column)
    ensures |r| == |df|
  {
    seq(|df|, i requires 0 <= i < |df| => df[i].trip.passengers)
  }

  function Surcharges(df: Rows): (r: Column)
    ensures |r| == |df|
  {
    seq(|df|, i requires 0 <= i < |df| => df[i].trip.congestion)
  }

  /** filter(~flag_pickup_year_mismatch) */
  function Unflagged(df: Rows): Rows {
    if df == [] then [] else
      Unflagged(df[..|df| - 1]) + (if df[|df| - 1].pickupYearMismatch then [] else [df[|df| - 1]])
  }

  /** sum(has_congestion as int), where has_congestion is coalesce(congestion_surcharge, 0) > 0. */
  function CongestedAt(keys: seq<Option<int>>, surcharges: Column, k: Option<int>): nat
    requires |keys| == |surcharges|
  {
    if keys == [] then 0 else
      var n := |keys| - 1;
      CongestedAt(keys[..n], surcharges[..n], k) + (if keys[n] == k && OrZero(surcharges[n]) > 0.0 then 1 else 0)
  }

  // ---- tables ----

  datatype FeatureRow = FeatureRow(tripCount: nat, avgFare: Option<real>, avgDistance: Option<real>,
      avgTip: Option<real>, avgPassengers: Option<real>)
  datatype ZoneRow = ZoneRow(tripCount: nat, totalRevenue: Option<real>, avgFare: Option<real>,
      avgDistance: Option<real>, avgTip: Option<real>)
  datatype HourRow = HourRow(tripCount: nat, avgFare: Option<real>, avgDistance: Option<real>,
      avgPassengers: Option<real>)
  datatype DayRow = DayRow(tripCount: nat, totalRevenue: Option<real>, totalFare: Option<real>, totalTips: Option<real>,
      avgFare: Option<real>)
  datatype CongestionRow = CongestionRow(tripCount: nat, tripsWithCongestion: nat, totalSurcharge: Option<real>,
      pct: real)

  /** One group of each table. */
  function FeatureRowOf(df: Rows, k: (Option<int>, Option<int>)): FeatureRow {
    var keys := Zip(Zones(df), Hours(df));
    FeatureRow(CountAt(keys, k), SparkAvg(keys, Fares(df), k), SparkAvg(keys, Distances(df), k),
               SparkAvg(keys, Tips(df), k), SparkAvg(keys, Passengers(df), k))
  }

  function ZoneRowOf(df: Rows, k: Option<int>): ZoneRow {
    var keys := Zones(df);
    ZoneRow(CountAt(keys, k), SparkSum(keys, Totals(df), k), SparkAvg(keys, Fares(df), k),
            SparkAvg(keys, Distances(df), k), SparkAvg(keys, Tips(df), k))
  }

  function HourRowOf(df: Rows, k: Option<int>): HourRow {
    var keys := Hours(df);
    HourRow(CountAt(keys, k), SparkAvg(keys, Fares(df), k), SparkAvg(keys, Distances(df), k),
            SparkAvg(keys, Passengers(df), k))
  }

  function DayRowOf(df: Rows, k: Option<int>): DayRow {
    var keys := Dates(df);
    DayRow(CountAt(keys, k), SparkSum(keys, Totals(df), k), SparkSum(keys, Fares(df), k), SparkSum(keys, Tips(df), k),
           SparkAvg(keys, Fares(df), k))
  }

  function CongestionRowOf(df: Rows, k: Option<int>): CongestionRow
    requires k in Keys(Dates(df))
  {
    var keys := Dates(df);
    DatePresent(keys, k);
    var count, congested := CountAt(keys, k), CongestedAt(keys, Surcharges(df), k);
    CongestionRow(count, congested, SparkSum(keys, Surcharges(df), k), congested as real / count as real * 100.0)
  }

  /** build_features: one row per (zone, hour). */
  function BuildFeatures(df: Rows): map<(Option<int>, Option<int>), FeatureRow> {
    map k | k in Keys(Zip(Zones(df), Hours(df))) :: FeatureRowOf(df, k)
  }

  /** zone_stats */
  function BuildZoneStats(df: Rows): map<Option<int>, ZoneRow> { map k | k in Keys(Zones(df)) :: ZoneRowOf(df, k) }

  /** hourly_demand */
  function BuildHourlyDemand(df: Rows): map<Option<int>, HourRow> { map k | k in Keys(Hours(df)) :: HourRowOf(df, k) }

  /** daily_revenue: only rows whose pickup year is the period's. */
  function BuildDailyRevenue(silver: Rows): map<Option<int>, DayRow> {
    map k | k in Keys(Dates(Unflagged(silver))) :: DayRowOf(Unflagged(silver), k)
  }

  lemma {:induction false} DatePresent(keys: seq<Option<int>>, k: Option<int>)
    requires k in Keys(keys)
    ensures CountAt(keys, k) > 0
  {
    EveryKeyCounts(keys, k);
  }

  /** congestion_metrics: the same filter and keys as daily_revenue. */
  function BuildCongestion(silver: Rows): map<Option<int>, CongestionRow> {
    map k | k in Keys(Dates(Unflagged(silver))) :: CongestionRowOf(Unflagged(silver), k)
  }

  // ---- what the tables hold, in terms of the trips ----

  datatype TripColumns = TripColumns(zones: seq<Option<int>>, hours: seq<Option<int>>, dates: seq<Option<int>>,
      fares: Column, totals: Column, tips: Column, distances: Column, passengers: Column, surcharges: Column)

  /** These columns are the trips' own. */
  ghost predicate ColumnsOf(df: Rows, c: TripColumns) {
    && |c.zones| == |c.hours| == |c.dates| == |c.fares| == |c.totals| == |c.tips| == |c.distances| == |c.passengers|
      == |c.surcharges| == |df|
    && (forall i :: 0 <= i < |df| ==> c.zones[i] == df[i].trip.zone && c.fares[i] == df[i].trip.fare)
    && (forall i :: 0 <= i < |df| ==> c.totals[i] == df[i].trip.total && c.tips[i] == df[i].trip.tip)
    && (forall i :: 0 <= i < |df| ==> c.distances[i] == df[i].trip.distance)
    && (forall i :: 0 <= i < |df| ==> c.passengers[i] == df[i].trip.passengers)
    && (forall i :: 0 <= i < |df| ==> c.surcharges[i] == df[i].trip.congestion)
    && (forall i :: 0 <= i < |df| && df[i].trip.pickup == None ==> c.hours[i] == c.dates[i] == None)
    && (forall i :: 0 <= i < |df| && df[i].trip.pickup != None ==>
          && c.hours[i] == Some(df[i].trip.pickup.value % 86400 / 3600)
          && c.dates[i] == Some(df[i].trip.pickup.value / 86400))
  }

  lemma {:induction false} ColumnsAre(df: Rows, c: TripColumns)
    requires ColumnsOf(df, c)
    ensures Zones(df) == c.zones && Hours(df) == c.hours && Dates(df) == c.dates && Fares(df) == c.fares
      && Totals(df) == c.totals && Tips(df) == c.tips && Distances(df) == c.distances
      && Passengers(df) == c.passengers && Surcharges(df) == c.surcharges
  {}

  /** One row of each table: its trips counted, and their own columns summed and averaged. */
  lemma {:induction false} ZoneRowHolds(df: Rows, c: TripColumns, k: Option<int>)
    requires ColumnsOf(df, c)
    ensures ZoneRowOf(df, k) == ZoneRow(
      RowsAt(c.zones, k), SparkSum(c.zones, c.totals, k), SparkAvg(c.zones, c.fares, k),
      SparkAvg(c.zones, c.distances, k), SparkAvg(c.zones, c.tips, k))
  {
    ColumnsAre(df, c);
    CountIsSize(c.zones, k);
  }

  lemma {:induction false} HourRowHolds(df: Rows, c: TripColumns, k: Option<int>)
    requires ColumnsOf(df, c)
    ensures HourRowOf(df, k) == HourRow(
      RowsAt(c.hours, k), SparkAvg(c.hours, c.fares, k), SparkAvg(c.hours, c.distances, k),
      SparkAvg(c.hours, c.passengers, k))
  {
    ColumnsAre(df, c);
    CountIsSize(c.hours, k);
  }

  lemma {:induction false} FeatureRowHolds(df: Rows, c: TripColumns, k: (Option<int>, Option<int>))
    requires ColumnsOf(df, c)
    ensures var keys := Zip(c.zones, c.hours);
      FeatureRowOf(df, k) == FeatureRow(
        RowsAt(keys, k), SparkAvg(keys, c.fares, k), SparkAvg(keys, c.distances, k), SparkAvg(keys, c.tips, k),
        SparkAvg(keys, c.passengers, k))
  {
    ColumnsAre(df, c);
    CountIsSize(Zip(c.zones, c.hours), k);
  }

  lemma {:induction false} DayRowHolds(df: Rows, c: TripColumns, k: Option<int>)
    requires ColumnsOf(df, c)
    ensures DayRowOf(df, k) == DayRow(
      RowsAt(c.dates, k), SparkSum(c.dates, c.totals, k), SparkSum(c.dates, c.fares, k), SparkSum(c.dates, c.tips, k),
      SparkAvg(c.dates, c.fares, k))
  {
    ColumnsAre(df, c);
    CountIsSize(c.dates, k);
  }

  predicate Surcharged(v: Option<real>) { v.Some? && v.value > 0.0 }

  /** The rows of a group with a positive surcharge. */
  function SurchargedAt(keys: seq<Option<int>>, surcharges: Column, k: Option<int>): set<int>
    requires |keys| == |surcharges|
  {
    set i | 0 <= i < |keys| && keys[i] == k && Surcharged(surcharges[i])
  }

  lemma {:induction false} CongestedIsSize(keys: seq<Option<int>>, surcharges: Column, k: Option<int>)
    requires |keys| == |surcharges|
    ensures CongestedAt(keys, surcharges, k) == |SurchargedAt(keys, surcharges, k)|
  {
    if keys != [] {
      var n := |keys| - 1;
      CongestedIsSize(keys[..n], surcharges[..n], k);
      assert SurchargedAt(keys, surcharges, k)
        == SurchargedAt(keys[..n], surcharges[..n], k)
           + (if keys[n] == k && Surcharged(surcharges[n]) then {n} else {});
    }
  }

  lemma {:induction false} CongestionRowHolds(df: Rows, c: TripColumns, k: Option<int>)
    requires ColumnsOf(df, c) && k in c.dates
    ensures k in Keys(Dates(df))
    ensures var row := CongestionRowOf(df, k);
      && row.tripCount == RowsAt(c.dates, k) && row.totalSurcharge == SparkSum(c.dates, c.surcharges, k)
      && row.tripsWithCongestion == |SurchargedAt(c.dates, c.surcharges, k)|
      && row.pct * row.tripCount as real == 100.0 * row.tripsWithCongestion as real
  {
    ColumnsAre(df, c);
    CountIsSize(c.dates, k);
    CongestedIsSize(c.dates, c.surcharges, k);
    PercentageOf(df, k);
  }

  lemma {:induction false} PercentageOf(df: Rows, k: Option<int>)
    requires k in Keys(Dates(df))
    ensures var row := CongestionRowOf(df, k);
      row.pct * row.tripCount as real == 100.0 * row.tripsWithCongestion as real
  {
    DatePresent(Dates(df), k);
    PercentageIs(CongestedAt(Dates(df), Surcharges(df), k), CountAt(Dates(df), k));
  }

  /** Each table has exactly one such row per key that occurs; the dated tables after the filter. */
  lemma {:induction false} TablesHoldRows(df: Rows)
    ensures BuildZoneStats(df).Keys == Keys(Zones(df)) && BuildHourlyDemand(df).Keys == Keys(Hours(df))
    ensures BuildFeatures(df).Keys == Keys(Zip(Zones(df), Hours(df)))
    ensures BuildDailyRevenue(df).Keys == BuildCongestion(df).Keys == Keys(Dates(Unflagged(df)))
    ensures forall k :: k in BuildZoneStats(df) ==> BuildZoneStats(df)[k] == ZoneRowOf(df, k)
    ensures forall k :: k in BuildHourlyDemand(df) ==> BuildHourlyDemand(df)[k] == HourRowOf(df, k)
    ensures forall k :: k in BuildFeatures(df) ==> BuildFeatures(df)[k] == FeatureRowOf(df, k)
    ensures forall k :: k in BuildDailyRevenue(df) ==> BuildDailyRevenue(df)[k] == DayRowOf(Unflagged(df), k)
    ensures forall k :: k in BuildCongestion(df) ==> BuildCongestion(df)[k] == CongestionRowOf(Unflagged(df), k)
  {}

  lemma {:induction false} PercentageIs(part: nat, whole: nat)
    requires whole > 0
    ensures part as real / whole as real * 100.0 * whole as real == 100.0 * part as real
  {
    var ratio := part as real / whole as real;
    assert ratio * whole as real == part as real;
  }

  /** Unflagged keeps, in order, the rows whose pickup year is not flagged. */
  lemma {:induction false} UnflaggedConcat(a: Rows, b: Rows)
    ensures Unflagged(a + b) == Unflagged(a) + Unflagged(b)
    ensures |a| == 1 ==> Unflagged(a) == if a[0].pickupYearMismatch then [] else a
  {
    if b == [] {
      assert a + b == a;
    } else {
      UnflaggedConcat(a, b[..|b| - 1]);
      assert (a + b)[..|a + b| - 1] == a + b[..|b| - 1];
    }
    assert |a| == 1 ==> a[..0] == [];
  }

  // ---- the feature table against the one-key tables ----

  type Key = Option<int>
  type FeatureTable = map<(Key, Key), FeatureRow>

  datatype Measure = Fare | Distance | Tip | Passenger

  function Measured(df: Rows, m: Measure): (r: Column)
    ensures |r| == |df|
  {
    match m
    case Fare => Fares(df)
    case Distance => Distances(df)
    case Tip => Tips(df)
    case Passenger => Passengers(df)
  }

  function FeatureAvg(r: FeatureRow, m: Measure): Option<real> {
    match m
    case Fare => r.avgFare
    case Distance => r.avgDistance
    case Tip => r.avgTip
    case Passenger => r.avgPassengers
  }

  /** hourly_demand has no tip column, zone_stats no passenger column. */
  function HourAvg(r: HourRow, m: Measure): Option<real>
    requires !m.Tip?
  {
    match m
    case Fare => r.avgFare
    case Distance => r.avgDistance
    case Passenger => r.avgPassengers
  }

  function ZoneAvg(r: ZoneRow, m: Measure): Option<real>
    requires !m.Passenger?
  {
    match m
    case Fare => r.avgFare
    case Distance => r.avgDistance
    case Tip => r.avgTip
  }

  /** trip_count over the zones of one hour, and over the hours of one zone. */
  function CountsOverZones(t: FeatureTable, hour: Key): map<Key, real> {
    map z | z in FirstsWith(t.Keys, hour) :: t[(z, hour)].tripCount as real
  }

  function CountsOverHours(t: FeatureTable, zone: Key): map<Key, real> {
    map h | h in SecondsWith(t.Keys, zone) :: t[(zone, h)].tripCount as real
  }

  /** avg * (number of non-null values) over the zones of one hour, and over the hours of one zone. */
  function SumsOverZones(df: Rows, hour: Key, m: Measure): map<Key, real> {
    var t := BuildFeatures(df);
    map z | z in FirstsWith(t.Keys, hour) ::
      Regained(FeatureAvg(t[(z, hour)], m), ValuesAt(Zip(Zones(df), Hours(df)), Measured(df, m), (z, hour)))
  }

  function SumsOverHours(df: Rows, zone: Key, m: Measure): map<Key, real> {
    var t := BuildFeatures(df);
    map h | h in SecondsWith(t.Keys, zone) ::
      Regained(FeatureAvg(t[(zone, h)], m), ValuesAt(Zip(Zones(df), Hours(df)), Measured(df, m), (zone, h)))
  }

  lemma {:induction false} FeatureKeys(df: Rows)
    ensures BuildFeatures(df).Keys == Keys(Zip(Zones(df), Hours(df)))
  {}

  lemma {:induction false} FeatureCount(df: Rows, k: (Key, Key))
    requires k in BuildFeatures(df)
    ensures BuildFeatures(df)[k].tripCount as real == At(Zip(Zones(df), Hours(df)), Ones(|df|), k)
  {
    CountIsWeight(Zip(Zones(df), Hours(df)), k);
  }

  lemma {:induction false} FeatureAvgIs(df: Rows, k: (Key, Key), m: Measure)
    requires k in BuildFeatures(df)
    ensures FeatureAvg(BuildFeatures(df)[k], m) == SparkAvg(Zip(Zones(df), Hours(df)), Measured(df, m), k)
  {}

  lemma {:induction false} HourAvgIs(df: Rows, k: Key, m: Measure)
    requires k in BuildHourlyDemand(df) && !m.Tip?
    ensures HourAvg(BuildHourlyDemand(df)[k], m) == SparkAvg(Hours(df), Measured(df, m), k)
  {}

  lemma {:induction false} ZoneAvgIs(df: Rows, k: Key, m: Measure)
    requires k in BuildZoneStats(df) && !m.Passenger?
    ensures ZoneAvg(BuildZoneStats(df)[k], m) == SparkAvg(Zones(df), Measured(df, m), k)
  {}

  lemma {:induction false} CountsOverZonesAre(df: Rows, hour: Key)
    ensures CountsOverZones(BuildFeatures(df), hour) == OverFirsts(Zones(df), Hours(df), Ones(|df|), hour)
  {
    FeatureKeys(df);
    forall z | z in FirstsWith(BuildFeatures(df).Keys, hour)
      ensures CountsOverZones(BuildFeatures(df), hour)[z] == OverFirsts(Zones(df), Hours(df), Ones(|df|), hour)[z]
    {
      FeatureCount(df, (z, hour));
    }
  }

  lemma {:induction false} CountsOverHoursAre(df: Rows, zone: Key)
    ensures CountsOverHours(BuildFeatures(df), zone) == OverSeconds(Zones(df), Hours(df), Ones(|df|), zone)
  {
    FeatureKeys(df);
    forall h | h in SecondsWith(BuildFeatures(df).Keys, zone)
      ensures CountsOverHours(BuildFeatures(df), zone)[h] == OverSeconds(Zones(df), Hours(df), Ones(|df|), zone)[h]
    {
      FeatureCount(df, (zone, h));
    }
  }

  lemma {:induction false} HourCountIs(df: Rows, hour: Key)
    requires hour in BuildHourlyDemand(df)
    ensures BuildHourlyDemand(df)[hour].tripCount as real == At(Hours(df), Ones(|df|), hour)
  {
    CountIsWeight(Hours(df), hour);
  }

  lemma {:induction false} ZoneCountIs(df: Rows, zone: Key)
    requires zone in BuildZoneStats(df)
    ensures BuildZoneStats(df)[zone].tripCount as real == At(Zones(df), Ones(|df|), zone)
  {
    CountIsWeight(Zones(df), zone);
  }

  /** Feature counts, summed over the zones, are hourly demand. */
  lemma {:induction false} FeaturesSumToHourlyDemand(df: Rows, hour: Key)
    requires hour in BuildHourlyDemand(df)
    ensures Total(CountsOverZones(BuildFeatures(df), hour)) == BuildHourlyDemand(df)[hour].tripCount as real
  {
    HourCountIs(df, hour);
    CountsOverZonesAre(df, hour);
    FirstsMarginal(Zones(df), Hours(df), Ones(|df|), hour);
  }

  /** Feature counts, summed over the hours, are zone stats. */
  lemma {:induction false} FeaturesSumToZoneStats(df: Rows, zone: Key)
    requires zone in BuildZoneStats(df)
    ensures Total(CountsOverHours(BuildFeatures(df), zone)) == BuildZoneStats(df)[zone].tripCount as real
  {
    ZoneCountIs(df, zone);
    CountsOverHoursAre(df, zone);
    SecondsMarginal(Zones(df), Hours(df), Ones(|df|), zone);
  }

  lemma {:induction false} SumsOverZonesAre(df: Rows, hour: Key, m: Measure)
    ensures SumsOverZones(df, hour, m) == OverFirsts(Zones(df), Hours(df), Values(Measured(df, m)), hour)
  {
    FeatureKeys(df);
    forall z | z in FirstsWith(BuildFeatures(df).Keys, hour)
      ensures SumsOverZones(df, hour, m)[z] == OverFirsts(Zones(df), Hours(df), Values(Measured(df, m)), hour)[z]
    {
      FeatureAvgIs(df, (z, hour), m);
      AvgTimesCount(Zip(Zones(df), Hours(df)), Measured(df, m), (z, hour));
    }
  }

  lemma {:induction false} SumsOverHoursAre(df: Rows, zone: Key, m: Measure)
    ensures SumsOverHours(df, zone, m) == OverSeconds(Zones(df), Hours(df), Values(Measured(df, m)), zone)
  {
    FeatureKeys(df);
    forall h | h in SecondsWith(BuildFeatures(df).Keys, zone)
      ensures SumsOverHours(df, zone, m)[h] == OverSeconds(Zones(df), Hours(df), Values(Measured(df, m)), zone)[h]
    {
      FeatureAvgIs(df, (zone, h), m);
      AvgTimesCount(Zip(Zones(df), Hours(df)), Measured(df, m), (zone, h));
    }
  }

  /** The averages recombine over non-null values: the zones' sums are the hour's. */
  lemma {:induction false} AveragesRecombineToHours(df: Rows, hour: Key, m: Measure)
    requires hour in BuildHourlyDemand(df) && !m.Tip?
    ensures Total(SumsOverZones(df, hour, m))
      == Regained(HourAvg(BuildHourlyDemand(df)[hour], m), ValuesAt(Hours(df), Measured(df, m), hour))
  {
    HourAvgIs(df, hour, m);
    AvgTimesCount(Hours(df), Measured(df, m), hour);
    SumsOverZonesAre(df, hour, m);
    FirstsMarginal(Zones(df), Hours(df), Values(Measured(df, m)), hour);
  }

  lemma {:induction false} AveragesRecombineToZones(df: Rows, zone: Key, m: Measure)
    requires zone in BuildZoneStats(df) && !m.Passenger?
    ensures Total(SumsOverHours(df, zone, m))
      == Regained(ZoneAvg(BuildZoneStats(df)[zone], m), ValuesAt(Zones(df), Measured(df, m), zone))
  {
    ZoneAvgIs(df, zone, m);
    AvgTimesCount(Zones(df), Measured(df, m), zone);
    SumsOverHoursAre(df, zone, m);
    SecondsMarginal(Zones(df), Hours(df), Values(Measured(df, m)), zone);
  }

  // ---- totals ----

  function FeatureCounts(t: FeatureTable): map<(Key, Key), real> { map k | k in t :: t[k].tripCount as real }

  function ZoneCounts(t: map<Key, ZoneRow>): map<Key, real> { map k | k in t :: t[k].tripCount as real }

  function HourCounts(t: map<Key, HourRow>): map<Key, real> { map k | k in t :: t[k].tripCount as real }

  function DayCounts(t: map<Key, DayRow>): map<Key, real> { map k | k in t :: t[k].tripCount as real }

  /** A count column adds up to the number of rows grouped. */
  lemma {:induction false} CountsSumToRows<K(!new)>(keys: seq<K>, counts: map<K, real>)
    requires counts.Keys == Keys(keys) && forall k :: k in counts ==> counts[k] == CountAt(keys, k) as real
    ensures Total(counts) == |keys| as real
  {
    var ones := Ones(|keys|);
    GroupsSumToWhole(keys, ones, Keys(keys));
    WholeOnes(|keys|);
    forall k | k in counts
      ensures counts[k] == AllGroups(keys, ones, Keys(keys))[k]
    {
      CountIsWeight(keys, k);
    }
    assert counts == AllGroups(keys, ones, Keys(keys));
  }

  /** Each unfiltered table counts every Silver row once. */
  lemma {:induction false} EveryTableCountsEveryTrip(df: Rows)
    ensures Total(FeatureCounts(BuildFeatures(df))) == |df| as real
    ensures Total(ZoneCounts(BuildZoneStats(df))) == |df| as real
    ensures Total(HourCounts(BuildHourlyDemand(df))) == |df| as real
  {
    CountsSumToRows(Zip(Zones(df), Hours(df)), FeatureCounts(BuildFeatures(df)));
    CountsSumToRows(Zones(df), ZoneCounts(BuildZoneStats(df)));
    CountsSumToRows(Hours(df), HourCounts(BuildHourlyDemand(df)));
  }

  lemma {:induction false} UnflaggedSize(df: Rows)
    ensures |Unflagged(df)| + Silver.PickupFlags(df) == |df|
  {
    if df != [] {
      UnflaggedSize(df[..|df| - 1]);
    }
  }

  /** Daily revenue counts exactly the rows whose pickup year was not flagged. */
  lemma {:induction false} DailyTotalIsUnflagged(silver: Rows)
    ensures Total(DayCounts(BuildDailyRevenue(silver))) == (|silver| - Silver.PickupFlags(silver)) as real
  {
    UnflaggedSize(silver);
    CountsSumToRows(Dates(Unflagged(silver)), DayCounts(BuildDailyRevenue(silver)));
  }

  function ZoneRevenue(t: map<Key, ZoneRow>): map<Key, real> { map k | k in t :: OrZero(t[k].totalRevenue) }

  function DayRevenue(t: map<Key, DayRow>): map<Key, real> { map k | k in t :: OrZero(t[k].totalRevenue) }

  function DayFares(t: map<Key, DayRow>): map<Key, real> { map k | k in t :: OrZero(t[k].totalFare) }

  function DayTips(t: map<Key, DayRow>): map<Key, real> { map k | k in t :: OrZero(t[k].totalTips) }

  function DaySurcharges(t: map<Key, CongestionRow>): map<Key, real> { map k | k in t :: OrZero(t[k].totalSurcharge) }

  lemma {:induction false} SumsAddUp<K(!new)>(keys: seq<K>, column: Column, sums: map<K, real>)
    requires |keys| == |column| && sums.Keys == Keys(keys)
    requires forall k :: k in sums ==> sums[k] == OrZero(SparkSum(keys, column, k))
    ensures Total(sums) == Whole(Values(column))
  {
    GroupsSumToWhole(keys, Values(column), Keys(keys));
    forall k | k in sums
      ensures sums[k] == AllGroups(keys, Values(column), Keys(keys))[k]
    {
      SumOrZero(keys, column, k);
    }
    assert sums == AllGroups(keys, Values(column), Keys(keys));
  }

  /** Each table's sum columns, a null sum counting 0, add up to the whole non-null column. */
  lemma {:induction false} ZoneRevenueIsConserved(df: Rows)
    ensures Total(ZoneRevenue(BuildZoneStats(df))) == Whole(Values(Totals(df)))
  {
    SumsAddUp(Zones(df), Totals(df), ZoneRevenue(BuildZoneStats(df)));
  }

  lemma {:induction false} DailyMoneyIsConserved(silver: Rows)
    ensures Total(DayRevenue(BuildDailyRevenue(silver))) == Whole(Values(Totals(Unflagged(silver))))
    ensures Total(DayFares(BuildDailyRevenue(silver))) == Whole(Values(Fares(Unflagged(silver))))
    ensures Total(DayTips(BuildDailyRevenue(silver))) == Whole(Values(Tips(Unflagged(silver))))
  {
    var df := Unflagged(silver);
    SumsAddUp(Dates(df), Totals(df), DayRevenue(BuildDailyRevenue(silver)));
    SumsAddUp(Dates(df), Fares(df), DayFares(BuildDailyRevenue(silver)));
    SumsAddUp(Dates(df), Tips(df), DayTips(BuildDailyRevenue(silver)));
  }

  lemma {:induction false} SurchargesAreConserved(silver: Rows)
    ensures Total(DaySurcharges(BuildCongestion(silver))) == Whole(Values(Surcharges(Unflagged(silver))))
  {
    SumsAddUp(Dates(Unflagged(silver)), Surcharges(Unflagged(silver)), DaySurcharges(BuildCongestion(silver)));
  }

  // ---- congestion against daily revenue ----

  lemma {:induction false} CongestedWithinCount(keys: seq<Key>, surcharges: Column, k: Key)
    requires |keys| == |surcharges|
    ensures CongestedAt(keys, surcharges, k) <= CountAt(keys, k)
  {
    if keys != [] {
      CongestedWithinCount(keys[..|keys| - 1], surcharges[..|keys| - 1], k);
    }
  }

  /** The two per-date tables have the same dates and the same counts, and the percentage is one. */
  lemma {:induction false} CongestionAgreesWithDaily(silver: Rows)
    ensures BuildCongestion(silver).Keys == BuildDailyRevenue(silver).Keys
    ensures forall d :: d in BuildCongestion(silver) ==>
      && BuildCongestion(silver)[d].tripCount == BuildDailyRevenue(silver)[d].tripCount > 0
      && BuildCongestion(silver)[d].tripsWithCongestion <= BuildCongestion(silver)[d].tripCount
      && 0.0 <= BuildCongestion(silver)[d].pct <= 100.0
  {
    var keys := Dates(Unflagged(silver));
    forall d | d in BuildCongestion(silver)
      ensures BuildCongestion(silver)[d].tripCount == BuildDailyRevenue(silver)[d].tripCount > 0
      ensures BuildCongestion(silver)[d].tripsWithCongestion <= BuildCongestion(silver)[d].tripCount
      ensures 0.0 <= BuildCongestion(silver)[d].pct <= 100.0
    {
      DatePresent(keys, d);
      CongestedWithinCount(keys, Surcharges(Unflagged(silver)), d);
      PercentageRange(BuildCongestion(silver)[d].tripsWithCongestion, BuildCongestion(silver)[d].tripCount);
    }
  }

  lemma {:induction false} PercentageRange(part: nat, whole: nat)
    requires part <= whole && whole > 0
    ensures 0.0 <= part as real / whole as real * 100.0 <= 100.0
  {
    assert part as real / whole as real <= 1.0;
  }

  /** A day's average fare and total fare describe the same values. */
  lemma {:induction false} DailyAverageMatchesTotal(silver: Rows, d: Key)
    requires d in BuildDailyRevenue(silver)
    ensures var row, df := BuildDailyRevenue(silver)[d], Unflagged(silver);
      && (row.avgFare.None? <==> row.totalFare.None?)
      && Regained(row.avgFare, ValuesAt(Dates(df), Fares(df), d)) == OrZero(row.totalFare)
  {
    var df := Unflagged(silver);
    AvgTimesCount(Dates(df), Fares(df), d);
    SumOrZero(Dates(df), Fares(df), d);
  }

  // ---- from Bronze periods to the tables ----

  /** The tables against the Silver reports of the same run: unfiltered tables count the accepted
      rows, the dated ones the accepted minus the flagged. */
  lemma {:induction false} TablesMatchReports(silver: Rows, reports: seq<Silver.Report>)
    requires Silver.AccountFor(reports, silver)
    ensures Total(HourCounts(BuildHourlyDemand(silver))) == Silver.AcceptedSum(reports) as real
    ensures Total(ZoneCounts(BuildZoneStats(silver))) == Silver.AcceptedSum(reports) as real
    ensures Total(FeatureCounts(BuildFeatures(silver))) == Silver.AcceptedSum(reports) as real
    ensures Total(DayCounts(BuildDailyRevenue(silver)))
      == (Silver.AcceptedSum(reports) - Silver.FlaggedPickupSum(reports)) as real
  {
    EveryTableCountsEveryTrip(silver);
    DailyTotalIsUnflagged(silver);
  }

  lemma {:induction false} UnflaggedRow(df: Rows, i: nat) returns (j: nat)
    requires i < |Unflagged(df)|
    ensures j < |df| && Unflagged(df)[i] == df[j] && !df[j].pickupYearMismatch
  {
    var n := |df| - 1;
    if i < |Unflagged(df[..n])| {
      j := UnflaggedRow(df[..n], i);
    } else {
      j := n;
    }
  }

  /** No bogus revenue days: every date of daily_revenue is the pickup date of an accepted trip of
      some period whose year that pickup falls in. */
  lemma {:induction false} DatesBelongToPeriods(periods: seq<Silver.Period>, yearOf: Silver.Stamp -> int, d: Key)
    returns (p: nat, t: Silver.Trip)
    requires d in BuildDailyRevenue(Silver.Lake(periods, yearOf))
    ensures p < |periods| && t in periods[p].bronze && Silver.Classify(t).Accepted?
    ensures t.pickup.Some? && d == DateOf(t) && yearOf(t.pickup.value) == periods[p].year
  {
    var silver := Silver.Lake(periods, yearOf);
    var dates := Dates(Unflagged(silver));
    assert d in dates;
    var i :| 0 <= i < |dates| && dates[i] == d;
    var j := UnflaggedRow(silver, i);
    t := silver[j].trip;
    p := Silver.LakeRowsHaveAPeriod(periods, yearOf, j);
  }

  /** From accepted rows there is no null hour or date, and hours run 0 to 23. */
  lemma {:induction false} HoursOfTheDay(periods: seq<Silver.Period>, yearOf: Silver.Stamp -> int, h: Key)
    requires h in BuildHourlyDemand(Silver.Lake(periods, yearOf))
    ensures h.Some? && 0 <= h.value <= 23
  {
    var silver := Silver.Lake(periods, yearOf);
    assert h in Hours(silver);
    var i :| 0 <= i < |silver| && Hours(silver)[i] == h;
    var _ := Silver.LakeRowsHaveAPeriod(periods, yearOf, i);
    HourRange(silver[i].trip.pickup.value);
  }

  lemma {:induction false} HourRange(s: int)
    ensures 0 <= s % DAY / HOUR <= 23
  {
    assert s % DAY < 24 * HOUR;
  }
}
