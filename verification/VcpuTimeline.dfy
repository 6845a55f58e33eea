/**
 The tail of the data-frame builder: sort by time, accumulate vCPUs, sort by time and
 accumulated vCPUs, accumulate again.
 */
module VcpuTimeline {

  datatype Row = Row(time: real, vcpus: int, instance: string)

  /** A row together with the cumulative column. */
  datatype Plotted = Plotted(row: Row, cumulative: int)

  // ---------------------------------------------------------------- stable sorting

  ghost predicate TotalPreorder<T(!new)>(le: (T, T) -> bool) {
    && (forall x, y :: le(x, y) || le(y, x))
    && (forall x, y, z :: le(x, y) && le(y, z) ==> le(x, z))
  }

  ghost predicate Sorted<T>(le: (T, T) -> bool, xs: seq<T>) {
    forall i, j :: 0 <= i < j < |xs| ==> le(xs[i], xs[j])
  }

  /** Put x in front of the first element that is not below it. */
  function Insert<T>(le: (T, T) -> bool, x: T, xs: seq<T>): seq<T> {
    if xs == [] || le(x, xs[0]) then [x] + xs else [xs[0]] + Insert(le, x, xs[1..])
  }

  /** sort_values(kind="stable") */
  function StableSort<T>(le: (T, T) -> bool, xs: seq<T>): seq<T> {
    if xs == [] then [] else Insert(le, xs[0], StableSort(le, xs[1..]))
  }

  /** The elements tied with k, in order. */
  function Tied<T>(le: (T, T) -> bool, k: T, xs: seq<T>): seq<T> {
    if xs == [] then []
    else (if le(k, xs[0]) && le(xs[0], k) then [xs[0]] else []) + Tied(le, k, xs[1..])
  }

  lemma {:induction false} InsertKeeps<T(!new)>(le: (T, T) -> bool, x: T, xs: seq<T>)
    ensures multiset(Insert(le, x, xs)) == multiset([x] + xs)
    ensures |Insert(le, x, xs)| == |xs| + 1
  {
    if xs != [] && !le(x, xs[0]) {
      InsertKeeps(le, x, xs[1..]);
      assert xs == [xs[0]] + xs[1..];
    }
  }

  lemma {:induction false} InsertSorted<T(!new)>(le: (T, T) -> bool, x: T, xs: seq<T>)
    requires TotalPreorder(le) && Sorted(le, xs)
    ensures Sorted(le, Insert(le, x, xs))
  {
    if xs != [] && !le(x, xs[0]) {
      var more := Insert(le, x, xs[1..]);
      InsertSorted(le, x, xs[1..]);
      InsertKeeps(le, x, xs[1..]);
      forall j | 0 <= j < |more| ensures le(xs[0], more[j]) {
        assert more[j] in multiset([x] + xs[1..]);
      }
    }
  }

  lemma {:induction false} InsertTied<T(!new)>(le: (T, T) -> bool, k: T, x: T, xs: seq<T>)
    requires TotalPreorder(le)
    ensures Tied(le, k, Insert(le, x, xs)) == Tied(le, k, [x] + xs)
  {
    assert ([x] + xs)[1..] == xs;
    if xs != [] && !le(x, xs[0]) {
      InsertTied(le, k, x, xs[1..]);
      assert ([xs[0]] + Insert(le, x, xs[1..]))[1..] == Insert(le, x, xs[1..]);
      assert ([x] + xs[1..])[1..] == xs[1..];
    }
  }

  /** The sort sorts, keeps every element, and keeps tied elements in their order. */
  lemma {:induction false} StableSortIsStable<T(!new)>(le: (T, T) -> bool, xs: seq<T>)
    requires TotalPreorder(le)
    ensures Sorted(le, StableSort(le, xs))
    ensures multiset(StableSort(le, xs)) == multiset(xs)
    ensures forall k :: Tied(le, k, StableSort(le, xs)) == Tied(le, k, xs)
  {
    if xs == [] {
    } else {
      StableSortIsStable(le, xs[1..]);
      var rest := StableSort(le, xs[1..]);
      InsertSorted(le, xs[0], rest);
      InsertKeeps(le, xs[0], rest);
      assert xs == [xs[0]] + xs[1..];
      forall k ensures Tied(le, k, StableSort(le, xs)) == Tied(le, k, xs) {
        InsertTied(le, k, xs[0], rest);
        assert ([xs[0]] + rest)[1..] == rest;
      }
    }
  }

  /** Sorting leaves a sequence alone exactly when it is sorted. */
  lemma {:induction false} SortFixes<T(!new)>(le: (T, T) -> bool, xs: seq<T>)
    requires TotalPreorder(le)
    ensures StableSort(le, xs) == xs <==> Sorted(le, xs)
  {
    if Sorted(le, xs) {
      SortedStays(le, xs);
    } else {
      StableSortIsStable(le, xs);
    }
  }

  lemma {:induction false} SortedStays<T(!new)>(le: (T, T) -> bool, xs: seq<T>)
    requires Sorted(le, xs)
    ensures StableSort(le, xs) == xs
  {
    if xs == [] {
    } else {
      SortedStays(le, xs[1..]);
      assert |xs| > 1 ==> le(xs[0], xs[1]);
      assert xs == [xs[0]] + xs[1..];
    }
  }

  // ---------------------------------------------------------------- uniqueness of a stable sort

  lemma {:induction false} TiedMembers<T(!new)>(le: (T, T) -> bool, k: T, xs: seq<T>)
    ensures forall x :: x in Tied(le, k, xs) <==> x in xs && le(k, x) && le(x, k)
  {
    if xs == [] {
    } else {
      TiedMembers(le, k, xs[1..]);
      assert xs == [xs[0]] + xs[1..];
    }
  }

  lemma {:induction false} TiedTail<T(!new)>(le: (T, T) -> bool, xs: seq<T>, ys: seq<T>)
    requires xs != [] && ys != [] && xs[0] == ys[0]
    requires forall k :: Tied(le, k, xs) == Tied(le, k, ys)
    ensures forall k :: Tied(le, k, xs[1..]) == Tied(le, k, ys[1..])
  {
    forall k ensures Tied(le, k, xs[1..]) == Tied(le, k, ys[1..]) {
      var head := if le(k, xs[0]) && le(xs[0], k) then [xs[0]] else [];
      assert Tied(le, k, xs) == head + Tied(le, k, xs[1..]);
      assert Tied(le, k, ys) == head + Tied(le, k, ys[1..]);
      assert Tied(le, k, xs)[|head|..] == Tied(le, k, ys)[|head|..];
    }
  }

  lemma {:induction false} TiedWithItself<T(!new)>(le: (T, T) -> bool, ys: seq<T>)
    requires TotalPreorder(le) && ys != []
    ensures Tied(le, ys[0], ys) != []
  {
    assert le(ys[0], ys[0]);
  }

  /** There is only one stable ordering, so it does not matter which algorithm produces it. */
  lemma {:induction false} StableOrderUnique<T(!new)>(le: (T, T) -> bool, xs: seq<T>, ys: seq<T>)
    requires TotalPreorder(le) && Sorted(le, xs) && Sorted(le, ys)
    requires forall k :: Tied(le, k, xs) == Tied(le, k, ys)
    ensures xs == ys
  {
    if xs == [] {
      if ys != [] {
        TiedWithItself(le, ys);
      }
    } else {
      TiedMembers(le, xs[0], xs);
      TiedMembers(le, xs[0], ys);
      assert xs[0] in Tied(le, xs[0], ys);
      FirstsAgree(le, xs, ys);
      TiedTail(le, xs, ys);
      StableOrderUnique(le, xs[1..], ys[1..]);
      assert xs == [xs[0]] + xs[1..] && ys == [ys[0]] + ys[1..];
    }
  }

  lemma {:induction false} FirstsAgree<T(!new)>(le: (T, T) -> bool, xs: seq<T>, ys: seq<T>)
    requires TotalPreorder(le) && Sorted(le, xs) && Sorted(le, ys) && xs != [] && ys != []
    requires forall k :: Tied(le, k, xs) == Tied(le, k, ys)
    ensures xs[0] == ys[0]
  {
    var x, y := xs[0], ys[0];
    TiedMembers(le, x, ys);
    TiedMembers(le, y, xs);
    assert x in Tied(le, x, xs) && y in Tied(le, y, ys);
    assert le(y, x) && le(x, y);
    assert Tied(le, x, xs)[0] == x && Tied(le, x, ys)[0] == y;
  }

  // ---------------------------------------------------------------- the pipeline

  predicate ByTime(a: Row, b: Row) {
    a.time <= b.time
  }

  predicate ByTimeThenCumulative(a: Plotted, b: Plotted) {
    a.row.time < b.row.time || (a.row.time == b.row.time && a.cumulative <= b.cumulative)
  }

  function Total(rows: seq<Row>): int {
    if rows == [] then 0 else Total(rows[..|rows| - 1]) + rows[|rows| - 1].vcpus
  }

  /** Each row with the sum of the vCPUs up to and including it. */
  function Accumulated(rows: seq<Row>): seq<Plotted> {
    seq(|rows|, i requires 0 <= i < |rows| => Plotted(rows[i], Total(rows[..i + 1])))
  }

  function Rows(ps: seq<Plotted>): seq<Row> {
    seq(|ps|, i requires 0 <= i < |ps| => ps[i].row)
  }

  /** cumsum, as a running total. */
  method CumSum(rows: seq<Row>) returns (ps: seq<Plotted>)
    ensures ps == Accumulated(rows)
  {
    ps := [];
    var sum := 0;
    for i := 0 to |rows|
      invariant sum == Total(rows[..i])
      invariant |ps| == i && forall j :: 0 <= j < i ==> ps[j] == Accumulated(rows)[j]
    {
      assert rows[..i + 1][..i] == rows[..i];
      sum := sum + rows[i].vcpus;
      ps := ps + [Plotted(rows[i], sum)];
    }
  }

  /** The four steps of the source. */
  function FourSteps(rows: seq<Row>): seq<Plotted> {
    Accumulated(Rows(StableSort(ByTimeThenCumulative, Accumulated(StableSort(ByTime, rows)))))
  }

  /** Rows tied in time never lower the running total. */
  ghost predicate TiesDoNotFall(rows: seq<Row>) {
    forall i :: 0 < i < |rows| && rows[i - 1].time == rows[i].time ==> rows[i].vcpus >= 0
  }

  lemma {:induction false} CumulativeStep(rows: seq<Row>, i: nat)
    requires 0 < i < |rows|
    ensures Accumulated(rows)[i].cumulative == Accumulated(rows)[i - 1].cumulative + rows[i].vcpus
  {
    assert rows[..i + 1][..i] == rows[..i];
  }

  lemma {:induction false} OrderedUpTo(rows: seq<Row>, i: nat, j: nat)
    requires Sorted(ByTime, rows) && TiesDoNotFall(rows) && i <= j < |rows|
    ensures ByTimeThenCumulative(Accumulated(rows)[i], Accumulated(rows)[j])
    decreases j - i
  {
    if i < j {
      OrderedUpTo(rows, i, j - 1);
      CumulativeStep(rows, j);
      assert ByTime(rows[j - 1], rows[j]);
    }
  }

  /** In rows sorted by time, the accumulated rows are sorted exactly when ties do not fall. */
  lemma {:induction false} AccumulatedSorted(rows: seq<Row>)
    requires Sorted(ByTime, rows)
    ensures Sorted(ByTimeThenCumulative, Accumulated(rows)) <==> TiesDoNotFall(rows)
  {
    var ps := Accumulated(rows);
    if TiesDoNotFall(rows) {
      forall i, j | 0 <= i < j < |ps| ensures ByTimeThenCumulative(ps[i], ps[j]) {
        OrderedUpTo(rows, i, j);
      }
    }
    if Sorted(ByTimeThenCumulative, ps) {
      forall i | 0 < i < |rows| && rows[i - 1].time == rows[i].time ensures rows[i].vcpus >= 0 {
        assert ByTimeThenCumulative(ps[i - 1], ps[i]);
        CumulativeStep(rows, i);
      }
    }
  }

  // ---------------------------------------------------------------- the condition on the input

  /** No row that has an earlier row of the same time has a negative count. */
  ghost predicate LaterTiesDoNotFall(rows: seq<Row>) {
    forall i, j :: 0 <= i < j < |rows| && rows[i].time == rows[j].time ==> rows[j].vcpus >= 0
  }

  lemma {:induction false} SortedTies(rows: seq<Row>)
    requires Sorted(ByTime, rows)
    ensures TiesDoNotFall(rows) <==> LaterTiesDoNotFall(rows)
  {
    if TiesDoNotFall(rows) {
      forall i, j | 0 <= i < j < |rows| && rows[i].time == rows[j].time ensures rows[j].vcpus >= 0 {
        assert i < j - 1 ==> ByTime(rows[i], rows[j - 1]);
        assert ByTime(rows[j - 1], rows[j]);
      }
    }
  }

  predicate TailDoesNotFall(rows: seq<Row>) {
    forall i :: 0 < i < |rows| ==> rows[i].vcpus >= 0
  }

  predicate NoneFalls(rows: seq<Row>) {
    forall i :: 0 <= i < |rows| ==> rows[i].vcpus >= 0
  }

  /** Every group of tied rows has a negative count at most in its first row. */
  ghost predicate GroupsDoNotFall(rows: seq<Row>) {
    forall k :: TailDoesNotFall(Tied(ByTime, k, rows))
  }

  lemma {:induction false} TailOf(x: Row, rows: seq<Row>)
    ensures TailDoesNotFall([x] + rows) <==> NoneFalls(rows)
  {
    if TailDoesNotFall([x] + rows) {
      forall i | 0 <= i < |rows| ensures rows[i].vcpus >= 0 {
        assert ([x] + rows)[i + 1] == rows[i];
      }
    }
  }

  /** The first row's ties among the others. */
  lemma {:induction false} FirstGroup(x: Row, rows: seq<Row>)
    ensures NoneFalls(Tied(ByTime, x, rows)) <==>
            forall j :: 0 <= j < |rows| && rows[j].time == x.time ==> rows[j].vcpus >= 0
  {
    var group := Tied(ByTime, x, rows);
    TiedMembers(ByTime, x, rows);
    if NoneFalls(group) {
      forall j | 0 <= j < |rows| && rows[j].time == x.time ensures rows[j].vcpus >= 0 {
        assert rows[j] in group;
      }
    } else {
      var i :| 0 <= i < |group| && group[i].vcpus < 0;
      assert group[i] in rows;
    }
  }

  lemma {:induction false} TiedSame(k: Row, x: Row, rows: seq<Row>)
    requires k.time == x.time
    ensures Tied(ByTime, k, rows) == Tied(ByTime, x, rows)
  {
    if rows == [] {
    } else {
      TiedSame(k, x, rows[1..]);
    }
  }

  lemma {:induction false} LaterTiesCons(x: Row, rows: seq<Row>)
    ensures LaterTiesDoNotFall([x] + rows) <==>
            LaterTiesDoNotFall(rows) && NoneFalls(Tied(ByTime, x, rows))
  {
    var all := [x] + rows;
    FirstGroup(x, rows);
    if LaterTiesDoNotFall(all) {
      forall i, j | 0 <= i < j < |rows| && rows[i].time == rows[j].time ensures rows[j].vcpus >= 0 {
        assert all[i + 1] == rows[i] && all[j + 1] == rows[j];
      }
      forall j | 0 <= j < |rows| && rows[j].time == x.time ensures rows[j].vcpus >= 0 {
        assert all[0] == x && all[j + 1] == rows[j];
      }
    }
  }

  lemma {:induction false} GroupsCons(x: Row, rows: seq<Row>)
    ensures GroupsDoNotFall([x] + rows) <==> GroupsDoNotFall(rows) && NoneFalls(Tied(ByTime, x, rows))
  {
    var all := [x] + rows;
    forall k
      ensures Tied(ByTime, k, all) ==
              if k.time == x.time then [x] + Tied(ByTime, x, rows) else Tied(ByTime, k, rows)
    {
      assert all[1..] == rows;
      if k.time == x.time {
        TiedSame(k, x, rows);
      } else {
        assert [] + Tied(ByTime, k, rows) == Tied(ByTime, k, rows);
      }
    }
    TailOf(x, Tied(ByTime, x, rows));
    forall k: Row ensures k.time == x.time ==> Tied(ByTime, k, rows) == Tied(ByTime, x, rows) {
      if k.time == x.time {
        TiedSame(k, x, rows);
      }
    }
    if GroupsDoNotFall(all) {
      assert TailDoesNotFall(Tied(ByTime, x, all));
      forall k ensures TailDoesNotFall(Tied(ByTime, k, rows)) {
        assert TailDoesNotFall(Tied(ByTime, k, all));
      }
    }
  }

  lemma {:induction false} TiesAreGroups(rows: seq<Row>)
    ensures LaterTiesDoNotFall(rows) <==> GroupsDoNotFall(rows)
  {
    if rows == [] {
    } else {
      TiesAreGroups(rows[1..]);
      assert rows == [rows[0]] + rows[1..];
      LaterTiesCons(rows[0], rows[1..]);
      GroupsCons(rows[0], rows[1..]);
    }
  }

  /** Sorting by time neither makes nor mends a falling tie. */
  lemma {:induction false} SortKeepsTies(rows: seq<Row>)
    ensures TiesDoNotFall(StableSort(ByTime, rows)) <==> LaterTiesDoNotFall(rows)
  {
    var byTime := StableSort(ByTime, rows);
    StableSortIsStable(ByTime, rows);
    SortedTies(byTime);
    TiesAreGroups(byTime);
    TiesAreGroups(rows);
    if GroupsDoNotFall(rows) {
      forall k ensures TailDoesNotFall(Tied(ByTime, k, byTime)) {
        assert TailDoesNotFall(Tied(ByTime, k, rows));
      }
    }
    if GroupsDoNotFall(byTime) {
      forall k ensures TailDoesNotFall(Tied(ByTime, k, rows)) {
        assert TailDoesNotFall(Tied(ByTime, k, byTime));
      }
    }
  }

  /**
   The second sort changes nothing exactly when no row that has an earlier row of the same time in
   the input has a negative count, and then the four steps amount to the first two.
   */
  lemma {:induction false} SecondSortIsNoOp(rows: seq<Row>)
    ensures var byTime := StableSort(ByTime, rows);
      && (StableSort(ByTimeThenCumulative, Accumulated(byTime)) == Accumulated(byTime) <==>
            LaterTiesDoNotFall(rows))
      && (LaterTiesDoNotFall(rows) ==> FourSteps(rows) == Accumulated(byTime))
  {
    var byTime := StableSort(ByTime, rows);
    StableSortIsStable(ByTime, rows);
    SortKeepsTies(rows);
    AccumulatedSorted(byTime);
    SortFixes(ByTimeThenCumulative, Accumulated(byTime));
    assert Rows(Accumulated(byTime)) == byTime;
  }

  lemma {:induction false} TotalRises(rows: seq<Row>, i: nat, j: nat)
    requires i <= j <= |rows| && forall k :: 0 <= k < |rows| ==> rows[k].vcpus >= 0
    ensures Total(rows[..i]) <= Total(rows[..j])
    decreases j - i
  {
    if i < j {
      TotalRises(rows, i, j - 1);
      assert rows[..j][..j - 1] == rows[..j - 1];
    }
  }

  lemma {:induction false} TotalAppend(a: seq<Row>, b: seq<Row>)
    ensures Total(a + b) == Total(a) + Total(b)
    decreases |b|
  {
    if b == [] {
      assert a + b == a;
    } else {
      var n := |b| - 1;
      assert (a + b)[..|a + b| - 1] == a + b[..n];
      TotalAppend(a, b[..n]);
    }
  }

  lemma {:induction false} InsertTotal(x: Row, xs: seq<Row>)
    ensures Total(Insert(ByTime, x, xs)) == x.vcpus + Total(xs)
  {
    assert Total([x]) == x.vcpus by { assert [x][..0] == []; }
    TotalAppend([x], xs);
    if xs != [] && !ByTime(x, xs[0]) {
      InsertTotal(x, xs[1..]);
      TotalAppend([xs[0]], Insert(ByTime, x, xs[1..]));
      TotalAppend([xs[0]], xs[1..]);
      assert xs == [xs[0]] + xs[1..];
    }
  }

  lemma {:induction false} SortKeepsTotal(rows: seq<Row>)
    ensures Total(StableSort(ByTime, rows)) == Total(rows)
  {
    if rows == [] {
    } else {
      SortKeepsTotal(rows[1..]);
      InsertTotal(rows[0], StableSort(ByTime, rows[1..]));
      assert Total([rows[0]]) == rows[0].vcpus by { assert [rows[0]][..0] == []; }
      TotalAppend([rows[0]], rows[1..]);
      assert rows == [rows[0]] + rows[1..];
    }
  }

  /**
   With non-negative counts the cumulative column never falls and its last value, which is also its
   maximum, is the sum over the rows given: what the summary reports as total vCPUs.
   */
  lemma {:induction false} ReportedTotal(rows: seq<Row>)
    requires rows != [] && forall k :: 0 <= k < |rows| ==> rows[k].vcpus >= 0
    ensures var ps := FourSteps(rows);
      && |ps| == |rows| && Rows(ps) == StableSort(ByTime, rows)
      && (forall i, j :: 0 <= i <= j < |ps| ==> ps[i].cumulative <= ps[j].cumulative)
      && ps[|ps| - 1].cumulative == Total(rows)
      && (forall i :: 0 <= i < |ps| ==> ps[i].cumulative <= Total(rows))
  {
    var byTime := StableSort(ByTime, rows);
    SortKeepsCounts(rows);
    SecondSortIsNoOp(rows);
    SortKeepsTotal(rows);
    ColumnRises(byTime);
    assert Rows(Accumulated(byTime)) == byTime;
  }

  lemma {:induction false} SortKeepsCounts(rows: seq<Row>)
    requires forall k :: 0 <= k < |rows| ==> rows[k].vcpus >= 0
    ensures var byTime := StableSort(ByTime, rows);
      |byTime| == |rows| && forall k :: 0 <= k < |byTime| ==> byTime[k].vcpus >= 0
  {
    var byTime := StableSort(ByTime, rows);
    StableSortIsStable(ByTime, rows);
    assert |multiset(byTime)| == |multiset(rows)|;
    forall k | 0 <= k < |byTime| ensures byTime[k].vcpus >= 0 {
      assert byTime[k] in multiset(rows);
    }
  }

  lemma {:induction false} ColumnRises(rows: seq<Row>)
    requires rows != [] && forall k :: 0 <= k < |rows| ==> rows[k].vcpus >= 0
    ensures var ps := Accumulated(rows);
      && (forall i, j :: 0 <= i <= j < |ps| ==> ps[i].cumulative <= ps[j].cumulative)
      && ps[|ps| - 1].cumulative == Total(rows)
  {
    var ps := Accumulated(rows);
    forall i, j | 0 <= i <= j < |ps| ensures ps[i].cumulative <= ps[j].cumulative {
      TotalRises(rows, i + 1, j + 1);
    }
    assert rows[..|rows|] == rows;
  }

  lemma {:induction false} RowsCons(p: Plotted, ps: seq<Plotted>)
    ensures Rows([p] + ps) == [p.row] + Rows(ps)
  {
  }

  lemma {:induction false} InsertRows(x: Plotted, xs: seq<Plotted>)
    ensures multiset(Rows(Insert(ByTimeThenCumulative, x, xs))) == multiset{x.row} + multiset(Rows(xs))
  {
    RowsCons(x, xs);
    if xs != [] && !ByTimeThenCumulative(x, xs[0]) {
      var more := xs[1..];
      InsertRows(x, more);
      RowsCons(xs[0], Insert(ByTimeThenCumulative, x, more));
      RowsCons(xs[0], more);
      assert xs == [xs[0]] + more;
    }
  }

  lemma {:induction false} SortKeepsRows(xs: seq<Plotted>)
    ensures multiset(Rows(StableSort(ByTimeThenCumulative, xs))) == multiset(Rows(xs))
  {
    if xs == [] {
    } else {
      SortKeepsRows(xs[1..]);
      InsertRows(xs[0], StableSort(ByTimeThenCumulative, xs[1..]));
      RowsCons(xs[0], xs[1..]);
      assert xs == [xs[0]] + xs[1..];
    }
  }

  lemma {:induction false} PlottedOrder()
    ensures TotalPreorder(ByTimeThenCumulative) && TotalPreorder(ByTime)
  {
  }

  lemma {:induction false} SumsCarried(rows: seq<Row>)
    ensures Rows(Accumulated(rows)) == rows
    ensures forall i :: 0 <= i < |rows| ==> Accumulated(rows)[i].cumulative == Total(rows[..i + 1])
  {
  }

  lemma {:induction false} RowsInOrder(ps: seq<Plotted>)
    requires Sorted(ByTimeThenCumulative, ps)
    ensures forall i, j :: 0 <= i < j < |ps| ==> Rows(ps)[i].time <= Rows(ps)[j].time
  {
    forall i, j | 0 <= i < j < |ps| ensures Rows(ps)[i].time <= Rows(ps)[j].time {
      assert ByTimeThenCumulative(ps[i], ps[j]);
    }
  }

  /**
   For every input the rows come out in the order of their times, every row comes out once, and each
   carries the sum of the counts up to and including its own, in the order they come out.
   */
  lemma {:induction false} TimelineOrdered(rows: seq<Row>)
    ensures var ps := FourSteps(rows);
      forall i :: 0 <= i < |ps| ==> ps[i].cumulative == Total(Rows(ps)[..i + 1])
    ensures var out := Rows(FourSteps(rows));
      && (forall i, j :: 0 <= i < j < |out| ==> out[i].time <= out[j].time)
      && multiset(out) == multiset(rows)
  {
    var byTime := StableSort(ByTime, rows);
    var again := StableSort(ByTimeThenCumulative, Accumulated(byTime));
    PlottedOrder();
    StableSortIsStable(ByTime, rows);
    StableSortIsStable(ByTimeThenCumulative, Accumulated(byTime));
    SortKeepsRows(Accumulated(byTime));
    SumsCarried(byTime);
    SumsCarried(Rows(again));
    RowsInOrder(again);
  }

  /** The pipeline as it runs; with non-negative counts its last row carries the reported total. */
  method Timeline(rows: seq<Row>) returns (ps: seq<Plotted>)
    ensures ps == FourSteps(rows)
    ensures rows != [] && (forall k :: 0 <= k < |rows| ==> rows[k].vcpus >= 0) ==>
      |ps| == |rows| && ps[|ps| - 1].cumulative == Total(rows)
  {
    var byTime := StableSort(ByTime, rows);
    var first := CumSum(byTime);
    var resorted := StableSort(ByTimeThenCumulative, first);
    ps := CumSum(Rows(resorted));
    if rows != [] && forall k :: 0 <= k < |rows| ==> rows[k].vcpus >= 0 {
      ReportedTotal(rows);
    }
  }
}
