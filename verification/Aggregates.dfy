/** Group-by aggregation over columns, as Spark computes it: one output row per distinct
    key, a null key being a key of its own; count counts rows; sum and avg skip nulls and are null on a
    group with no value. Sums are over exact reals. */
module Aggregates {
  import opened Options

  function Ones(n: nat): (r: seq<real>)
    ensures |r| == n
  {
    seq(n, i => 1.0)
  }

  /** A column's values, nulls as 0. */
  function Values(column: seq<Option<real>>): (r: seq<real>)
    ensures |r| == |column|
  {
    seq(|column|, i requires 0 <= i < |column| => if column[i].Some? then column[i].value else 0.0)
  }

  /** The total weight of the rows whose key is k. */
  function At<K(==)>(keys: seq<K>, ws: seq<real>, k: K): real
    requires |keys| == |ws|
  {
    if keys == [] then 0.0 else
      var n := |keys| - 1;
      At(keys[..n], ws[..n], k) + (if keys[n] == k then ws[n] else 0.0)
  }

  function Whole(ws: seq<real>): real {
    if ws == [] then 0.0 else Whole(ws[..|ws| - 1]) + ws[|ws| - 1]
  }

  function CountAt<K(==)>(keys: seq<K>, k: K): nat {
    if keys == [] then 0 else CountAt(keys[..|keys| - 1], k) + (if keys[|keys| - 1] == k then 1 else 0)
  }

  /** The non-null values of a group. */
  function NonNull<K(==)>(keys: seq<K>, column: seq<Option<real>>, k: K): nat
    requires |keys| == |column|
  {
    if keys == [] then 0 else
      var n := |keys| - 1;
      NonNull(keys[..n], column[..n], k) + (if keys[n] == k && column[n].Some? then 1 else 0)
  }

  function SparkSum<K(==)>(keys: seq<K>, column: seq<Option<real>>, k: K): Option<real>
    requires |keys| == |column|
  {
    if NonNull(keys, column, k) == 0 then None else Some(At(keys, Values(column), k))
  }

  function SparkAvg<K(==)>(keys: seq<K>, column: seq<Option<real>>, k: K): Option<real>
    requires |keys| == |column|
  {
    var n := NonNull(keys, column, k);
    if n == 0 then None else Some(At(keys, Values(column), k) / n as real)
  }

  function OrZero(v: Option<real>): real { if v.Some? then v.value else 0.0 }

  function Keys<K(==)>(keys: seq<K>): set<K> { set k | k in keys }

  function Zip<A, B>(xs: seq<A>, ys: seq<B>): (r: seq<(A, B)>)
    requires |xs| == |ys|
    ensures |r| == |xs|
  {
    seq(|xs|, i requires 0 <= i < |xs| => (xs[i], ys[i]))
  }

  // ---- adding up a table ----

  /** The sum of a table's column over all its rows. */
  ghost function Total<K>(m: map<K, real>): real
    decreases |m|
  {
    if m == map[] then 0.0 else
      var k :| k in m;
      m[k] + Total(m - {k})
  }

  lemma {:induction false} TotalRemove<K>(m: map<K, real>, k: K)
    requires k in m
    ensures Total(m) == m[k] + Total(m - {k})
    decreases |m|
  {
    var j :| j in m && Total(m) == m[j] + Total(m - {j});
    if j != k {
      TotalRemove(m - {j}, k);
      assert m - {j} - {k} == m - {k} - {j};
      TotalRemove(m - {k}, j);
    }
  }

  lemma {:induction false} TotalAdd<K>(m: map<K, real>, k: K, w: real)
    requires k in m
    ensures Total(m[k := m[k] + w]) == Total(m) + w
  {
    TotalRemove(m, k);
    TotalRemove(m[k := m[k] + w], k);
    assert m[k := m[k] + w] - {k} == m - {k};
  }

  lemma {:induction false} TotalZero<K>(m: map<K, real>)
    requires forall k :: k in m ==> m[k] == 0.0
    ensures Total(m) == 0.0
    decreases |m|
  {
    if m != map[] {
      var k :| k in m && Total(m) == m[k] + Total(m - {k});
      TotalZero(m - {k});
    }
  }

  // ---- marginals ----

  ghost function GroupsOf<A(!new), B(!new)>(xs: seq<A>, ys: seq<B>, ws: seq<real>, among: set<A>, y: B): map<A, real>
    requires |xs| == |ys| == |ws|
  {
    map x | x in among :: At(Zip(xs, ys), ws, (x, y))
  }

  /** Adding the (x, y) groups of a group-by over pairs, over every x that occurs with y, gives the y
      group of the group-by over y alone: no row is lost and none counted twice. */
  lemma {:induction false} Marginal<A(!new), B(!new)>(xs: seq<A>, ys: seq<B>, ws: seq<real>, among: set<A>, y: B)
    requires |xs| == |ys| == |ws|
    requires forall i :: 0 <= i < |xs| && ys[i] == y ==> xs[i] in among
    ensures Total(GroupsOf(xs, ys, ws, among, y)) == At(ys, ws, y)
  {
    var after := GroupsOf(xs, ys, ws, among, y);
    if xs == [] {
      TotalZero(after);
    } else {
      var n := |xs| - 1;
      var before := GroupsOf(xs[..n], ys[..n], ws[..n], among, y);
      Marginal(xs[..n], ys[..n], ws[..n], among, y);
      assert Zip(xs, ys)[..n] == Zip(xs[..n], ys[..n]);
      assert Zip(xs, ys)[n] == (xs[n], ys[n]);
      if ys[n] == y {
        TotalAdd(before, xs[n], ws[n]);
        assert after == before[xs[n] := before[xs[n]] + ws[n]];
      } else {
        assert after == before;
      }
    }
  }

  ghost function AllGroups<K(!new)>(keys: seq<K>, ws: seq<real>, among: set<K>): map<K, real>
    requires |keys| == |ws|
  {
    map k | k in among :: At(keys, ws, k)
  }

  /** A group-by over all the keys adds up to the whole column. */
  lemma {:induction false} GroupsSumToWhole<K(!new)>(keys: seq<K>, ws: seq<real>, among: set<K>)
    requires |keys| == |ws| && Keys(keys) <= among
    ensures Total(AllGroups(keys, ws, among)) == Whole(ws)
  {
    var after := AllGroups(keys, ws, among);
    if keys == [] {
      TotalZero(after);
      assert ws == [];
    } else {
      var n := |keys| - 1;
      var before := AllGroups(keys[..n], ws[..n], among);
      assert keys[n] in Keys(keys);
      assert forall k :: k in keys[..n] ==> k in keys;
      GroupsSumToWhole(keys[..n], ws[..n], among);
      TotalAdd(before, keys[n], ws[n]);
      assert after == before[keys[n] := before[keys[n]] + ws[n]];
    }
  }

  lemma {:induction false} Swapped<A, B>(xs: seq<A>, ys: seq<B>, ws: seq<real>, x: A, y: B)
    requires |xs| == |ys| == |ws|
    ensures At(Zip(xs, ys), ws, (x, y)) == At(Zip(ys, xs), ws, (y, x))
  {
    if xs != [] {
      var n := |xs| - 1;
      Swapped(xs[..n], ys[..n], ws[..n], x, y);
      assert Zip(xs, ys)[..n] == Zip(xs[..n], ys[..n]) && Zip(ys, xs)[..n] == Zip(ys[..n], xs[..n]);
    }
  }

  // ---- counts and averages as weights ----

  lemma {:induction false} CountIsWeight<K>(keys: seq<K>, k: K)
    ensures CountAt(keys, k) as real == At(keys, Ones(|keys|), k)
  {
    if keys != [] {
      CountIsWeight(keys[..|keys| - 1], k);
      assert Ones(|keys|)[..|keys| - 1] == Ones(|keys| - 1);
    }
  }

  lemma {:induction false} WholeOnes(n: nat)
    ensures Whole(Ones(n)) == n as real
  {
    if n > 0 {
      WholeOnes(n - 1);
      assert Ones(n)[..n - 1] == Ones(n - 1);
    }
  }

  lemma {:induction false} NonNullWithinCount<K>(keys: seq<K>, column: seq<Option<real>>, k: K)
    requires |keys| == |column|
    ensures NonNull(keys, column, k) <= CountAt(keys, k)
    ensures NonNull(keys, column, k) == 0 ==> At(keys, Values(column), k) == 0.0
  {
    if keys != [] {
      var n := |keys| - 1;
      NonNullWithinCount(keys[..n], column[..n], k);
      assert Values(column)[..n] == Values(column[..n]);
    }
  }

  // ---- what counts, sums and averages are ----

  /** The rows of a group, and those of them that have a value. */
  function RowsAt<K(==)>(keys: seq<K>, k: K): nat { |set i | 0 <= i < |keys| && keys[i] == k| }

  function ValuesAt<K(==)>(keys: seq<K>, column: seq<Option<real>>, k: K): nat
    requires |keys| == |column|
  {
    |set i | 0 <= i < |keys| && keys[i] == k && column[i].Some?|
  }

  /** The count of a group is its number of rows. */
  lemma {:induction false} CountIsSize<K>(keys: seq<K>, k: K)
    ensures CountAt(keys, k) == RowsAt(keys, k) == |set i | 0 <= i < |keys| && keys[i] == k|
  {
    if keys != [] {
      var n := |keys| - 1;
      CountIsSize(keys[..n], k);
      var before := set i | 0 <= i < n && keys[..n][i] == k;
      assert (set i | 0 <= i < |keys| && keys[i] == k) == before + (if keys[n] == k then {n} else {});
    }
  }

  /** The values an average divides by are the group's rows that are not null. */
  lemma {:induction false} NonNullIsSize<K>(keys: seq<K>, column: seq<Option<real>>, k: K)
    requires |keys| == |column|
    ensures NonNull(keys, column, k) == ValuesAt(keys, column, k)
      == |set i | 0 <= i < |keys| && keys[i] == k && column[i].Some?|
  {
    if keys != [] {
      var n := |keys| - 1;
      NonNullIsSize(keys[..n], column[..n], k);
      var before := set i | 0 <= i < n && keys[..n][i] == k && column[..n][i].Some?;
      assert (set i | 0 <= i < |keys| && keys[i] == k && column[i].Some?)
        == before + (if keys[n] == k && column[n].Some? then {n} else {});
    }
  }

  /** The sum of one row, and of rows after rows, which together say what every sum is. */
  lemma {:induction false} SumOfOne<K>(j: K, v: Option<real>, k: K)
    ensures SparkSum([j], [v], k) == (if j == k then v else None) && SparkSum<K>([], [], k) == None
  {
    var keys, column := [j], [v];
    assert keys[..0] == [] && column[..0] == [] && Values(column)[..0] == [];
    assert NonNull(keys, column, k) == if j == k && v.Some? then 1 else 0;
    assert v.Some? ==> At(keys, Values(column), k) == if j == k then v.value else 0.0;
  }

  lemma {:induction false} AtConcat<K>(keys: seq<K>, ws: seq<real>, keys': seq<K>, ws': seq<real>, k: K)
    requires |keys| == |ws| && |keys'| == |ws'|
    ensures At(keys + keys', ws + ws', k) == At(keys, ws, k) + At(keys', ws', k)
  {
    if keys' == [] {
      assert keys + keys' == keys && ws + ws' == ws;
    } else {
      var n := |keys'| - 1;
      AtConcat(keys, ws, keys'[..n], ws'[..n], k);
      assert (keys + keys')[..|keys| + n] == keys + keys'[..n] && (ws + ws')[..|ws| + n] == ws + ws'[..n];
    }
  }

  lemma {:induction false} NonNullConcat<K>(
    keys: seq<K>, column: seq<Option<real>>, keys': seq<K>, column': seq<Option<real>>, k: K)
    requires |keys| == |column| && |keys'| == |column'|
    ensures NonNull(keys + keys', column + column', k) == NonNull(keys, column, k) + NonNull(keys', column', k)
  {
    if keys' == [] {
      assert keys + keys' == keys && column + column' == column;
    } else {
      var n := |keys'| - 1;
      NonNullConcat(keys, column, keys'[..n], column'[..n], k);
      assert (keys + keys')[..|keys| + n] == keys + keys'[..n];
      assert (column + column')[..|column| + n] == column + column'[..n];
    }
  }

  lemma {:induction false} SumOfConcat<K>(
    keys: seq<K>, column: seq<Option<real>>, keys': seq<K>, column': seq<Option<real>>, k: K)
    requires |keys| == |column| && |keys'| == |column'|
    ensures var a, b := SparkSum(keys, column, k), SparkSum(keys', column', k);
      SparkSum(keys + keys', column + column', k)
      == if a == None then b else if b == None then a else Some(a.value + b.value)
  {
    AtConcat(keys, Values(column), keys', Values(column'), k);
    NonNullConcat(keys, column, keys', column', k);
    NonNullWithinCount(keys, column, k);
    NonNullWithinCount(keys', column', k);
    assert Values(column + column') == Values(column) + Values(column');
  }

  /** A whole column, nulls counting 0: one value, and values after values. */
  lemma {:induction false} WholeOfOne(v: Option<real>)
    ensures Whole(Values([v])) == (if v.Some? then v.value else 0.0) && Whole(Values([])) == 0.0
  {
    assert Values([v])[..0] == [];
  }

  lemma {:induction false} WholeOfConcat(a: seq<Option<real>>, b: seq<Option<real>>)
    ensures Whole(Values(a + b)) == Whole(Values(a)) + Whole(Values(b))
  {
    if b == [] {
      assert a + b == a;
    } else {
      var n := |b| - 1;
      WholeOfConcat(a, b[..n]);
      assert Values(a + b)[..|a| + n] == Values(a + b[..n]) && Values(b)[..n] == Values(b[..n]);
    }
  }

  /** What n values with this average sum to. */
  function Regained(avg: Option<real>, n: nat): real { OrZero(avg) * n as real }

  lemma {:induction false} NonNullZero<K>(keys: seq<K>, column: seq<Option<real>>, k: K)
    requires |keys| == |column|
    ensures NonNull(keys, column, k) == 0 <==> forall i :: 0 <= i < |keys| && keys[i] == k ==> column[i] == None
  {
    if keys != [] {
      var n := |keys| - 1;
      NonNullZero(keys[..n], column[..n], k);
      assert forall i :: 0 <= i < n ==> keys[..n][i] == keys[i] && column[..n][i] == column[i];
      if NonNull(keys, column, k) > 0 && NonNull(keys[..n], column[..n], k) > 0 {
        var i :| 0 <= i < n && keys[..n][i] == k && column[..n][i] != None;
        assert keys[i] == k && column[i] != None;
      }
    }
  }

  /** An average times the values it averages is the sum it came from, null or not. */
  lemma {:induction false} AvgTimesCount<K>(keys: seq<K>, column: seq<Option<real>>, k: K)
    requires |keys| == |column|
    ensures Regained(SparkAvg(keys, column, k), ValuesAt(keys, column, k)) == At(keys, Values(column), k)
    ensures SparkAvg(keys, column, k) == None <==> forall i :: 0 <= i < |keys| && keys[i] == k ==> column[i] == None
  {
    var n := NonNull(keys, column, k);
    NonNullIsSize(keys, column, k);
    NonNullZero(keys, column, k);
    if n == 0 {
      NonNullWithinCount(keys, column, k);
    } else {
      DivideThenMultiply(At(keys, Values(column), k), n);
    }
  }

  lemma {:induction false} DivideThenMultiply(sum: real, n: nat)
    requires n > 0
    ensures Regained(Some(sum / n as real), n) == sum
  {}

  lemma {:induction false} SumOrZero<K>(keys: seq<K>, column: seq<Option<real>>, k: K)
    requires |keys| == |column|
    ensures OrZero(SparkSum(keys, column, k)) == At(keys, Values(column), k)
  {
    NonNullWithinCount(keys, column, k);
  }

  lemma {:induction false} EveryKeyCounts<K>(keys: seq<K>, k: K)
    ensures k in keys <==> CountAt(keys, k) > 0
  {
    if keys != [] {
      EveryKeyCounts(keys[..|keys| - 1], k);
    }
  }

  // ---- marginals of a group-by over pairs, over the groups that occur ----

  /** The first components that occur with y. */
  function FirstsWith<A(==), B(==)>(keys: set<(A, B)>, y: B): set<A> { set k | k in keys && k.1 == y :: k.0 }

  function SecondsWith<A(==), B(==)>(keys: set<(A, B)>, x: A): set<B> { set k | k in keys && k.0 == x :: k.1 }

  lemma {:induction false} FirstsCover<A(!new), B(!new)>(xs: seq<A>, ys: seq<B>, y: B)
    requires |xs| == |ys|
    ensures forall i :: 0 <= i < |xs| && ys[i] == y ==> xs[i] in FirstsWith(Keys(Zip(xs, ys)), y)
  {
    forall i | 0 <= i < |xs| && ys[i] == y
      ensures xs[i] in FirstsWith(Keys(Zip(xs, ys)), y)
    {
      assert Zip(xs, ys)[i] in Zip(xs, ys);
      assert (xs[i], y) in Keys(Zip(xs, ys));
    }
  }

  lemma {:induction false} SecondsAreFirsts<A(!new), B(!new)>(xs: seq<A>, ys: seq<B>, x: A)
    requires |xs| == |ys|
    ensures SecondsWith(Keys(Zip(xs, ys)), x) == FirstsWith(Keys(Zip(ys, xs)), x)
  {
    forall y
      ensures y in SecondsWith(Keys(Zip(xs, ys)), x) <==> y in FirstsWith(Keys(Zip(ys, xs)), x)
    {
      if i :| 0 <= i < |xs| && xs[i] == x && ys[i] == y {
        assert Zip(xs, ys)[i] == (x, y) && Zip(ys, xs)[i] == (y, x);
        assert (x, y) in Keys(Zip(xs, ys)) && (y, x) in Keys(Zip(ys, xs));
      } else {
        assert (x, y) !in Keys(Zip(xs, ys)) && (y, x) !in Keys(Zip(ys, xs));
      }
    }
  }

  /** Weights of the groups (x, y), for the x that occur with y; and the mirror image. */
  ghost function OverFirsts<A(!new), B(!new)>(xs: seq<A>, ys: seq<B>, ws: seq<real>, y: B): map<A, real>
    requires |xs| == |ys| == |ws|
  {
    map x | x in FirstsWith(Keys(Zip(xs, ys)), y) :: At(Zip(xs, ys), ws, (x, y))
  }

  ghost function OverSeconds<A(!new), B(!new)>(xs: seq<A>, ys: seq<B>, ws: seq<real>, x: A): map<B, real>
    requires |xs| == |ys| == |ws|
  {
    map y | y in SecondsWith(Keys(Zip(xs, ys)), x) :: At(Zip(xs, ys), ws, (x, y))
  }

  lemma {:induction false} FirstsMarginal<A(!new), B(!new)>(xs: seq<A>, ys: seq<B>, ws: seq<real>, y: B)
    requires |xs| == |ys| == |ws|
    ensures Total(OverFirsts(xs, ys, ws, y)) == At(ys, ws, y)
  {
    var among := FirstsWith(Keys(Zip(xs, ys)), y);
    FirstsCover(xs, ys, y);
    Marginal(xs, ys, ws, among, y);
    assert OverFirsts(xs, ys, ws, y) == GroupsOf(xs, ys, ws, among, y);
  }

  lemma {:induction false} SecondsMarginal<A(!new), B(!new)>(xs: seq<A>, ys: seq<B>, ws: seq<real>, x: A)
    requires |xs| == |ys| == |ws|
    ensures Total(OverSeconds(xs, ys, ws, x)) == At(xs, ws, x)
  {
    FirstsMarginal(ys, xs, ws, x);
    SecondsAreFirsts(xs, ys, x);
    forall y | y in SecondsWith(Keys(Zip(xs, ys)), x)
      ensures OverSeconds(xs, ys, ws, x)[y] == OverFirsts(ys, xs, ws, x)[y]
    {
      Swapped(xs, ys, ws, x, y);
    }
    assert OverSeconds(xs, ys, ws, x) == OverFirsts(ys, xs, ws, x);
  }
}
