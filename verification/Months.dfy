/** Month ranges, written three times in the repository: the worker's tuple loop, the
    control-plane's text loop, and the form's comparison of "YYYY-MM" strings. */
module Months {
  import opened Options
  import opened Strings

  datatype Month = Month(y: int, m: int)

  predicate Valid(p: Month) { 1 <= p.m <= 12 }

  /** Valid, and with the four-digit year the texts can carry. */
  predicate Writable(p: Month) { Valid(p) && 0 <= p.y <= 9999 }

  /** Months since year 0: the chronological order. */
  function Index(p: Month): int { 12 * p.y + p.m - 1 }

  /** Python's tuple comparison. */
  predicate AtOrBefore(a: Month, b: Month) { a.y < b.y || (a.y == b.y && a.m <= b.m) }

  function Following(p: Month): Month { if p.m + 1 > 12 then Month(p.y + 1, 1) else Month(p.y, p.m + 1) }

  function Range(p: Month, end: Month): seq<Month>
    decreases end.y - p.y, 13 - p.m
  {
    if AtOrBefore(p, end) then [p] + Range(Following(p), end) else []
  }

  lemma {:induction false} RangeStep(a: seq<Month>, p: Month, end: Month)
    requires AtOrBefore(p, end)
    ensures a + Range(p, end) == a + [p] + Range(Following(p), end)
  {}

  /** month_range, after the two texts are split into integers. */
  method MonthRange(start: Month, end: Month) returns (periods: seq<Month>)
    ensures periods == Range(start, end)
  {
    var y, m := start.y, start.m;
    periods := [];
    while AtOrBefore(Month(y, m), end)
      invariant periods + Range(Month(y, m), end) == Range(start, end)
      decreases end.y - y, 13 - m
    {
      RangeStep(periods, Month(y, m), end);
      periods := periods + [Month(y, m)];
      m := m + 1;
      if m > 12 {
        m := 1;
        y := y + 1;
      }
    }
  }

  /** The list is every month from start to end, once, in order, without a gap. */
  lemma {:induction false} RangeExactly(start: Month, end: Month)
    requires Valid(start) && Valid(end)
    ensures |Range(start, end)| == if Index(end) < Index(start) then 0 else Index(end) - Index(start) + 1
    ensures forall i :: 0 <= i < |Range(start, end)| ==>
      Valid(Range(start, end)[i]) && Index(Range(start, end)[i]) == Index(start) + i
    decreases end.y - start.y, 13 - start.m
  {
    if AtOrBefore(start, end) {
      RangeExactly(Following(start), end);
    }
  }

  /** A month number outside 1..12 is not rejected: the list is made of real months exactly if
      it is empty or its start is one, whatever the end says. */
  lemma {:induction false} RangeIsRealMonths(start: Month, end: Month)
    ensures (forall i :: 0 <= i < |Range(start, end)| ==> Valid(Range(start, end)[i]))
      <==> Range(start, end) == [] || Valid(start)
    decreases end.y - start.y, 13 - start.m
  {
    if AtOrBefore(start, end) {
      assert Range(start, end)[0] == start;
      if Valid(start) {
        RangeIsRealMonths(Following(start), end);
      }
    }
  }

  // ---- texts ----

  function Digit(n: int): char
    requires 0 <= n < 10
  {
    '0' + n as char
  }

  /** Decimal with leading zeros. */
  function Pad(n: nat, width: nat): (s: string)
    ensures |s| == width
  {
    if width == 0 then "" else Pad(n / 10, width - 1) + [Digit(n % 10)]
  }

  function Format(p: Month): string
    requires Writable(p)
  {
    Pad(p.y, 4) + "-" + Pad(p.m, 2)
  }

  predicate IsDigit(c: char) { '0' <= c <= '9' }

  function Number(s: string): Option<nat> {
    if s == "" then Some(0) else
      var high := Number(s[..|s| - 1]);
      if high.None? || !IsDigit(s[|s| - 1]) then None else Some(10 * high.value + (s[|s| - 1] as int - '0' as int))
  }

  /** time.Parse("2006-01", s). */
  function Parse(s: string): (r: Option<Month>)
    ensures r.Some? ==> Writable(r.value)
  {
    if |s| != 7 || s[4] != '-' then None else
      var y, m := Number(s[..4]), Number(s[5..]);
      if y.None? || m.None? || !(1 <= m.value <= 12) then None else NumberBound(s[..4]); Some(Month(y.value, m.value))
  }

  /** Padding writes the digits it is given. */
  lemma {:induction false} PadLast(tens: nat, unit: nat, width: nat)
    requires unit < 10 && width > 0
    ensures Pad(10 * tens + unit, width) == Pad(tens, width - 1) + [Digit(unit)]
    ensures Digit(unit) as int == 48 + unit
  {
    assert (10 * tens + unit) / 10 == tens && (10 * tens + unit) % 10 == unit;
  }

  /** The seven characters of a month: four digits, a dash, two digits. */
  lemma {:induction false} FormatIs(p: Month, a: nat, b: nat, c: nat, d: nat, e: nat, f: nat)
    requires Writable(p) && a < 10 && b < 10 && c < 10 && d < 10 && e < 10 && f < 10
    requires p.y == 1000 * a + 100 * b + 10 * c + d && p.m == 10 * e + f
    ensures var t := Format(p);
      && |t| == 7 && t[0] as int == 48 + a && t[1] as int == 48 + b && t[2] as int == 48 + c && t[3] as int == 48 + d
      && t[4] == '-' && t[5] as int == 48 + e && t[6] as int == 48 + f
  {
    PadLast(0, a, 1);
    PadLast(a, b, 2);
    PadLast(10 * a + b, c, 3);
    PadLast(100 * a + 10 * b + c, d, 4);
    PadLast(0, e, 1);
    PadLast(e, f, 2);
  }

  function Pow10(w: nat): nat { if w == 0 then 1 else 10 * Pow10(w - 1) }

  lemma {:induction false} NumberBound(s: string)
    ensures Number(s).Some? ==> Number(s).value < Pow10(|s|)
  {
    if s != "" { NumberBound(s[..|s| - 1]); }
  }

  lemma {:induction false} NumberOfPad(n: nat, width: nat)
    requires n < Pow10(width)
    ensures Number(Pad(n, width)) == Some(n)
  {
    if width > 0 {
      NumberOfPad(n / 10, width - 1);
      assert Pad(n, width)[..width - 1] == Pad(n / 10, width - 1);
    }
  }

  lemma {:induction false} ParseFormat(p: Month)
    requires Writable(p)
    ensures Parse(Format(p)) == Some(p)
  {
    assert Pow10(4) == 10000 && Pow10(2) == 100;
    NumberOfPad(p.y, 4);
    NumberOfPad(p.m, 2);
    assert Format(p)[..4] == Pad(p.y, 4) && Format(p)[5..] == Pad(p.m, 2);
  }

  /** A text parses exactly if it is the text of a month. */
  lemma {:induction false} ParsesExactly(s: string)
    ensures Parse(s).Some? ==> Format(Parse(s).value) == s
    ensures (exists p :: Writable(p) && s == Format(p)) <==> Parse(s).Some?
  {
    if Parse(s).Some? {
      NumberDigits(s[..4]);
      NumberDigits(s[5..]);
      assert s == s[..4] + "-" + s[5..];
    }
    if p :| Writable(p) && s == Format(p) {
      ParseFormat(p);
    }
  }

  lemma {:induction false} NumberDigits(s: string)
    requires Number(s).Some?
    ensures Pad(Number(s).value, |s|) == s
  {
    if s != "" {
      var c := s[|s| - 1];
      var unit := c as int - '0' as int;
      NumberDigits(s[..|s| - 1]);
      PadLast(Number(s[..|s| - 1]).value, unit, |s|);
      assert Digit(unit) == c && s == s[..|s| - 1] + [c];
    }
  }

  /** expandMonthRange: the control-plane's loop over first-of-month dates. */
  method ExpandMonthRange(start: string, end: string) returns (months: seq<string>)
    ensures months == Expanded(start, end)
  {
    var startT, endT := Parse(start), Parse(end);
    if startT.None? || endT.None? || Index(endT.value) < Index(startT.value) {
      return [];
    }
    months := FormatMonths(startT.value, endT.value);
  }

  method FormatMonths(startT: Month, endT: Month) returns (months: seq<string>)
    requires Writable(startT) && Writable(endT)
    ensures months == Texts(Range(startT, endT))
  {
    months := [];
    var t := startT;
    while Index(t) <= Index(endT)
      invariant Valid(t) && 0 <= t.y
      invariant months + Texts(Range(t, endT)) == Texts(Range(startT, endT))
      decreases Index(endT) - Index(t)
    {
      TextsNext(t, endT);
      months := months + [Format(t)];
      t := Following(t);
    }
    assert !AtOrBefore(t, endT);
  }

  lemma {:induction false} TextsNext(t: Month, endT: Month)
    requires Valid(t) && 0 <= t.y && Writable(endT) && Index(t) <= Index(endT)
    ensures Writable(t) && Texts(Range(t, endT)) == [Format(t)] + Texts(Range(Following(t), endT))
  {
    assert AtOrBefore(t, endT);
    TextsCons(t, Range(Following(t), endT));
  }

  function Texts(ps: seq<Month>): seq<string> {
    if ps == [] then [] else (if Writable(ps[0]) then [Format(ps[0])] else []) + Texts(ps[1..])
  }

  lemma {:induction false} TextsCons(p: Month, ps: seq<Month>)
    requires Writable(p)
    ensures Texts([p] + ps) == [Format(p)] + Texts(ps)
  {
    assert ([p] + ps)[1..] == ps;
  }

  /** What the control-plane must agree with: the worker's list, written out. */
  function Expanded(start: string, end: string): seq<string> {
    var a, b := Parse(start), Parse(end);
    if a.None? || b.None? then [] else Texts(Range(a.value, b.value))
  }

  lemma {:induction false} TextsExactly(ps: seq<Month>)
    requires forall i :: 0 <= i < |ps| ==> Writable(ps[i])
    ensures |Texts(ps)| == |ps| && forall i :: 0 <= i < |ps| ==> Texts(ps)[i] == Format(ps[i])
  {
    if ps != [] {
      TextsExactly(ps[1..]);
    }
  }

  lemma {:induction false} RangeWritable(a: Month, b: Month)
    requires Writable(a) && Writable(b)
    ensures forall i :: 0 <= i < |Range(a, b)| ==> Writable(Range(a, b)[i])
  {
    RangeExactly(a, b);
  }

  /** For every pair of texts the control-plane accepts, its list is the worker's, entry for
      entry. */
  lemma {:induction false} LoopsAgree(start: string, end: string)
    requires Parse(start).Some? && Parse(end).Some?
    ensures var ps := Range(Parse(start).value, Parse(end).value);
      && |Expanded(start, end)| == |ps|
      && forall i :: 0 <= i < |ps| ==> Parse(Expanded(start, end)[i]) == Some(ps[i])
  {
    var ps := Range(Parse(start).value, Parse(end).value);
    RangeWritable(Parse(start).value, Parse(end).value);
    TextsExactly(ps);
    forall i | 0 <= i < |ps| ensures Parse(Texts(ps)[i]) == Some(ps[i]) {
      ParseFormat(ps[i]);
    }
  }

  // ---- string order ----

  lemma {:induction false} PadOrder(n: nat, k: nat, width: nat, x: string, y: string)
    requires n < Pow10(width) && k < Pow10(width)
    ensures Less(Pad(n, width) + x, Pad(k, width) + y) <==> n < k || (n == k && Less(x, y))
  {
    if width == 0 {
      assert Pad(n, 0) + x == x && Pad(k, 0) + y == y;
    } else {
      var x', y' := [Digit(n % 10)] + x, [Digit(k % 10)] + y;
      assert Pad(n, width) + x == Pad(n / 10, width - 1) + x';
      assert Pad(k, width) + y == Pad(k / 10, width - 1) + y';
      PadOrder(n / 10, k / 10, width - 1, x', y');
      assert x'[1..] == x && y'[1..] == y;
    }
  }

  /** "YYYY-MM" order is chronological order. */
  lemma {:induction false} TextOrderIsChronological(a: Month, b: Month)
    requires Writable(a) && Writable(b)
    ensures Less(Format(a), Format(b)) <==> Index(a) < Index(b)
  {
    assert Pow10(4) == 10000 && Pow10(2) == 100;
    var x, y := "-" + Pad(a.m, 2), "-" + Pad(b.m, 2);
    assert Format(a) == Pad(a.y, 4) + x && Format(b) == Pad(b.y, 4) + y;
    PadOrder(a.y, b.y, 4, x, y);
    assert x[1..] == Pad(a.m, 2) + "" && y[1..] == Pad(b.m, 2) + "";
    PadOrder(a.m, b.m, 2, "", "");
  }

  // ---- the form ----

  datatype Choice = Choice(month: string, year: string)

  /** The form's `composed`: a field counts once both of its selects are set. */
  method Compose(fields: seq<string>, values: map<string, Choice>) returns (composed: map<string, string>)
    ensures composed == Composed(fields, values)
    ensures forall f :: f in composed <==>
      f in fields && f in values && values[f].month != "" && values[f].year != ""
    ensures forall f :: f in composed ==> composed[f] == values[f].year + "-" + values[f].month
  {
    composed := map[];
    for k := 0 to |fields|
      invariant composed == Composed(fields[..k], values)
    {
      var f := fields[k];
      if f in values && values[f].month != "" && values[f].year != "" {
        composed := composed[f := values[f].year + "-" + values[f].month];
      }
      assert forall g :: g in fields[..k + 1] <==> g in fields[..k] || g == f;
    }
    assert fields[..|fields|] == fields;
  }

  function Composed(fields: seq<string>, values: map<string, Choice>): map<string, string> {
    map f | f in fields && f in values && values[f].month != "" && values[f].year != "" ::
      values[f].year + "-" + values[f].month
  }

  /** composed.start && composed.end && composed.start > composed.end. */
  predicate RangeError(composed: map<string, string>) {
    "start" in composed && "end" in composed && Less(composed["end"], composed["start"])
  }

  predicate CanSubmit(fields: seq<string>, composed: map<string, string>, pending: bool) {
    (forall f :: f in fields ==> f in composed) && !RangeError(composed) && !pending
  }

  /** With both months chosen, the form accepts exactly the ranges that contain a month. */
  lemma {:induction false} FormAcceptsNonEmptyRanges(a: Month, b: Month, values: map<string, Choice>)
    requires Writable(a) && Writable(b)
    requires values == map["start" := Choice(Pad(a.m, 2), Pad(a.y, 4)), "end" := Choice(Pad(b.m, 2), Pad(b.y, 4))]
    ensures CanSubmit(["start", "end"], Composed(["start", "end"], values), false) <==> Range(a, b) != []
    ensures var c := Composed(["start", "end"], values); c == map["start" := Format(a), "end" := Format(b)]
  {
    var c := Composed(["start", "end"], values);
    assert "start" in values && "end" in values;
    assert c["start"] == Format(a) && c["end"] == Format(b);
    TextOrderIsChronological(b, a);
    RangeExactly(a, b);
  }

  /** Nothing can be submitted while a run is being started, or with a field left open. */
  lemma {:induction false} SubmitNeedsAll(fields: seq<string>, composed: map<string, string>, pending: bool)
    requires CanSubmit(fields, composed, pending)
    ensures !pending && forall f :: f in fields ==> f in composed
  {}

  // ---- months ingested ----

  /** One ingest run's params, None when they do not decode. */
  datatype Params = Params(start: string, end: string)

  function Covered(runs: seq<Option<Params>>): set<string> {
    if runs == [] then {} else
      var last := runs[|runs| - 1];
      Covered(runs[..|runs| - 1]) + (if last.None? then {} else set t | t in Expanded(last.value.start, last.value.end))
  }

  method AddAll(months: set<string>, texts: seq<string>) returns (months': set<string>)
    ensures months' == months + set t | t in texts
  {
    months' := months;
    for i := 0 to |texts|
      invariant months' == months + set t | t in texts[..i]
    {
      assert texts[..i + 1] == texts[..i] + [texts[i]];
      months' := months' + {texts[i]};
    }
    assert texts[..|texts|] == texts;
  }

  method IngestedMonthsCount(runs: seq<Option<Params>>) returns (count: nat)
    ensures count == |Covered(runs)|
  {
    var months: set<string> := {};
    for k := 0 to |runs|
      invariant months == Covered(runs[..k])
    {
      assert runs[..k + 1][..k] == runs[..k];
      if runs[k].Some? {
        var expanded := ExpandMonthRange(runs[k].value.start, runs[k].value.end);
        months := AddAll(months, expanded);
      }
    }
    assert runs[..|runs|] == runs;
    count := |months|;
  }

  predicate Covers(run: Option<Params>, p: Month) {
    && run.Some? && Parse(run.value.start).Some? && Parse(run.value.end).Some?
    && Index(Parse(run.value.start).value) <= Index(p) <= Index(Parse(run.value.end).value)
  }

  lemma {:induction false} ExpandedOnlyCovered(start: string, end: string, t: string)
    requires t in Expanded(start, end)
    ensures Parse(t).Some? && t == Format(Parse(t).value) && Covers(Some(Params(start, end)), Parse(t).value)
  {
    var ps := Range(Parse(start).value, Parse(end).value);
    RangeExactly(Parse(start).value, Parse(end).value);
    RangeWritable(Parse(start).value, Parse(end).value);
    TextsExactly(ps);
    var i :| 0 <= i < |Texts(ps)| && Texts(ps)[i] == t;
    ParseFormat(ps[i]);
  }

  lemma {:induction false} ExpandedAllCovered(start: string, end: string, p: Month)
    requires Writable(p) && Covers(Some(Params(start, end)), p)
    ensures Format(p) in Expanded(start, end)
  {
    var a, b := Parse(start).value, Parse(end).value;
    var ps := Range(a, b);
    RangeExactly(a, b);
    RangeWritable(a, b);
    TextsExactly(ps);
    var i := Index(p) - Index(a);
    assert Index(ps[i]) == Index(p) && ps[i] == p;
    assert Texts(ps)[i] == Format(p);
  }

  lemma {:induction false} ExpandedExactly(run: Option<Params>, p: Month)
    requires Writable(p) && run.Some?
    ensures Format(p) in Expanded(run.value.start, run.value.end) <==> Covers(run, p)
  {
    if Format(p) in Expanded(run.value.start, run.value.end) {
      ExpandedOnlyCovered(run.value.start, run.value.end, Format(p));
      ParseFormat(p);
    }
    if Covers(run, p) {
      ExpandedAllCovered(run.value.start, run.value.end, p);
    }
  }

  ghost predicate SomeRunCovers(runs: seq<Option<Params>>, p: Month) {
    exists i :: 0 <= i < |runs| && Covers(runs[i], p)
  }

  lemma {:induction false} SomeRunSplit(runs: seq<Option<Params>>, p: Month)
    requires runs != []
    ensures SomeRunCovers(runs, p) <==> SomeRunCovers(runs[..|runs| - 1], p) || Covers(runs[|runs| - 1], p)
  {
    var front := runs[..|runs| - 1];
    if i :| 0 <= i < |front| && Covers(front[i], p) {
      assert Covers(runs[i], p);
    }
    if i :| 0 <= i < |runs| && Covers(runs[i], p) {
      if i < |front| { assert Covers(front[i], p); }
    }
  }

  /** The counted set is the union over the runs: a month is in it iff some run's range
      contains it, and nothing else is. */
  lemma {:induction false} CoveredIsUnion(runs: seq<Option<Params>>, p: Month)
    requires Writable(p)
    ensures Format(p) in Covered(runs) <==> SomeRunCovers(runs, p)
  {
    if runs != [] {
      CoveredIsUnion(runs[..|runs| - 1], p);
      SomeRunSplit(runs, p);
      if runs[|runs| - 1].Some? {
        ExpandedExactly(runs[|runs| - 1], p);
      }
    }
  }

  lemma {:induction false} CoveredAreMonths(runs: seq<Option<Params>>, t: string)
    requires t in Covered(runs)
    ensures Parse(t).Some? && t == Format(Parse(t).value)
  {
    var last := runs[|runs| - 1];
    if t in Covered(runs[..|runs| - 1]) {
      CoveredAreMonths(runs[..|runs| - 1], t);
    } else {
      ExpandedOnlyCovered(last.value.start, last.value.end, t);
    }
  }
}
