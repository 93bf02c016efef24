/** The concurrency chart of a plan: stored and live minutes are merged, live ones winning,
    and summed up per minute over all instances. */
module PlanChart {
  import opened MapSums
  import opened ConcurrencySeries
  import opened ConcurrencyIntegral
  import opened Units

  datatype RowId = RowId(instance: nat, start: int)

  type Rows = map<RowId, Minute>

  /** One minute of the chart, before its times are divided into averages. */
  datatype Point = Point(observed: int, peak: int, times: map<UserID, int>)

  const BLANK: Point := Point(0, 0, map[])

  predicate Shown(m: Minute, from: int, until: int) {
    from <= m.start <= until
  }

  function IdOf(m: Minute): RowId {
    RowId(m.instance, m.start)
  }

  function Merged(rows: seq<Minute>, from: int, until: int): Rows {
    if rows == [] then map[] else
      var m := rows[|rows| - 1];
      var before := Merged(rows[..|rows| - 1], from, until);
      if Shown(m, from, until) then before[IdOf(m) := m] else before
  }

  /** The merging loop over the stored rows, then the live ones. */
  method MergeRows(stored: seq<Minute>, live: seq<Minute>, from: int, until: int) returns (merged: Rows)
    ensures merged == Merged(stored + live, from, until)
  {
    merged := map[];
    var rows := stored + live;
    for i := 0 to |rows|
      invariant merged == Merged(rows[..i], from, until)
    {
      assert rows[..i + 1][..i] == rows[..i];
      if from <= rows[i].start <= until {
        merged := merged[IdOf(rows[i]) := rows[i]];
      }
    }
    assert rows[..|rows|] == rows;
  }

  /** A live row replaces whatever is stored for the same instance and minute; a stored row
      without a live one is kept. */
  lemma {:induction false} LiveWins(stored: seq<Minute>, live: seq<Minute>, from: int, until: int, id: RowId)
    requires forall i, j :: 0 <= i < j < |live| ==> IdOf(live[i]) != IdOf(live[j])
    ensures forall m <- live :: Shown(m, from, until) && IdOf(m) == id ==> id in Merged(stored + live, from, until) && Merged(stored + live, from, until)[id] == m
    ensures (forall m <- live :: Shown(m, from, until) ==> IdOf(m) != id) ==>
      (id in Merged(stored + live, from, until) <==> id in Merged(stored, from, until))
      && (id in Merged(stored, from, until) ==> Merged(stored + live, from, until)[id] == Merged(stored, from, until)[id])
    decreases |live|
  {
    if live == [] {
      assert stored + live == stored;
    } else {
      var init, last := live[..|live| - 1], live[|live| - 1];
      assert (stored + live)[..|stored + live| - 1] == stored + init;
      assert live == init + [last];
      LiveWins(stored, init, from, until, id);
      if IdOf(last) == id {
        forall m | m in init ensures IdOf(m) != id {
          var i :| 0 <= i < |init| && init[i] == m;
          assert IdOf(live[i]) != IdOf(live[|live| - 1]);
        }
      }
    }
  }

  // ---- summing up one minute -------------------------------------------------------------

  ghost function ObservedAt(rows: Rows, at: int): map<RowId, int> {
    map id | id in rows && rows[id].start == at :: rows[id].observed
  }

  ghost function TimesAt(rows: Rows, at: int, u: UserID): map<RowId, int> {
    map id | id in rows && rows[id].start == at :: Get(rows[id].members, u)
  }

  function AddTimes(times: map<UserID, int>, members: map<UserID, int>): map<UserID, int> {
    map u | u in times.Keys + members.Keys :: Get(times, u) + Get(members, u)
  }

  function AddRow(p: Point, m: Minute): Point {
    Point(p.observed + m.observed, Max(p.peak, m.peak), AddTimes(p.times, m.members))
  }

  /** The point sums up exactly the rows of its minute. */
  ghost predicate SumsUp(p: Point, rows: Rows, at: int) {
    && p.observed == Sum(ObservedAt(rows, at))
    && (forall u :: Get(p.times, u) == Sum(TimesAt(rows, at, u)))
    && (forall id <- rows :: rows[id].start == at ==> rows[id].peak <= p.peak)
    && (p.peak == 0 || exists id :: id in rows && rows[id].start == at && rows[id].peak == p.peak)
  }

  /** Request time is at most peak times observed time: the average is at most the peak. */
  ghost predicate Bounded(p: Point) {
    0 <= p.observed && 0 <= p.peak && Sum(p.times) <= p.peak * p.observed
  }

  ghost predicate RowOk(m: Minute) {
    0 <= m.observed && 0 <= m.peak && AverageAtMostPeak(m)
  }

  lemma {:induction false} SumAddTimes(times: map<UserID, int>, members: map<UserID, int>)
    ensures Sum(AddTimes(times, members)) == Sum(times) + Sum(members)
    decreases members.Keys
  {
    if members == map[] {
      assert AddTimes(times, members) == times;
    } else {
      var u :| u in members;
      SumAddTimes(times, members - {u});
      SumRemove(members, u);
      AddTimesOne(times, members, u);
      hide AddTimes;
      var before := AddTimes(times, members - {u});
      SumPut(before, u, Get(before, u) + members[u]);
    }
  }

  lemma AddTimesOne(times: map<UserID, int>, members: map<UserID, int>, u: UserID)
    requires u in members
    ensures AddTimes(times, members) == AddTimes(times, members - {u})[u := Get(AddTimes(times, members - {u}), u) + members[u]]
  {
  }

  lemma BoundedSum(a: int, p: int, o: int, b: int, q: int, r: int)
    requires a <= p * o && b <= q * r && 0 <= o && 0 <= r
    ensures a + b <= Max(p, q) * (o + r)
  {
    var top := Max(p, q);
    assert p * o <= top * o by { Scale(p, top, o); }
    assert q * r <= top * r by { Scale(q, top, r); }
    assert top * (o + r) == top * o + top * r;
  }

  lemma AddRowKeeps(p: Point, rows: Rows, id: RowId, m: Minute)
    requires SumsUp(p, rows, m.start) && Bounded(p) && id !in rows && RowOk(m)
    ensures SumsUp(AddRow(p, m), rows[id := m], m.start) && Bounded(AddRow(p, m))
  {
    assert ObservedAt(rows[id := m], m.start) == ObservedAt(rows, m.start)[id := m.observed];
    SumPut(ObservedAt(rows, m.start), id, m.observed);
    forall u ensures Get(AddRow(p, m).times, u) == Sum(TimesAt(rows[id := m], m.start, u)) {
      AddTimeOf(p, rows, id, m, u);
    }
    AddRowPeak(p, rows, id, m);
    AddRowBounded(p, m);
    hide AddTimes, Sum, ObservedAt, TimesAt, RowOk;
  }

  lemma AddTimeOf(p: Point, rows: Rows, id: RowId, m: Minute, u: UserID)
    requires Get(p.times, u) == Sum(TimesAt(rows, m.start, u)) && id !in rows
    ensures Get(AddRow(p, m).times, u) == Sum(TimesAt(rows[id := m], m.start, u))
  {
    assert TimesAt(rows[id := m], m.start, u) == TimesAt(rows, m.start, u)[id := Get(m.members, u)];
    SumPut(TimesAt(rows, m.start, u), id, Get(m.members, u));
  }

  lemma AddRowPeak(p: Point, rows: Rows, id: RowId, m: Minute)
    requires SumsUp(p, rows, m.start) && Bounded(p) && id !in rows && RowOk(m)
    ensures var more, q := rows[id := m], AddRow(p, m);
            && (forall x <- more :: more[x].start == m.start ==> more[x].peak <= q.peak)
            && (q.peak == 0 || exists x :: x in more && more[x].start == m.start && more[x].peak == q.peak)
  {
    var more := rows[id := m];
    if m.peak >= p.peak {
      assert more[id] == m;
    } else if p.peak != 0 {
      var x :| x in rows && rows[x].start == m.start && rows[x].peak == p.peak;
      assert more[x] == rows[x];
    }
  }

  lemma AddRowBounded(p: Point, m: Minute)
    requires Bounded(p) && RowOk(m)
    ensures Bounded(AddRow(p, m))
  {
    SumAddTimes(p.times, m.members);
    BoundedSum(Sum(p.times), p.peak, p.observed, Sum(m.members), m.peak, m.observed);
  }

  lemma OtherMinuteKeeps(p: Point, rows: Rows, id: RowId, m: Minute, at: int)
    requires SumsUp(p, rows, at) && id !in rows && m.start != at
    ensures SumsUp(p, rows[id := m], at)
  {
    var more := rows[id := m];
    assert ObservedAt(more, at) == ObservedAt(rows, at);
    forall u ensures Sum(TimesAt(more, at, u)) == Sum(TimesAt(rows, at, u)) {
      assert TimesAt(more, at, u) == TimesAt(rows, at, u);
    }
    if p.peak != 0 {
      var x :| x in rows && rows[x].start == at && rows[x].peak == p.peak;
      assert more[x] == rows[x];
    }
  }

  lemma NothingSumsUp(at: int)
    ensures SumsUp(BLANK, map[], at) && Bounded(BLANK)
  {
    assert ObservedAt(map[], at) == map[];
    forall u ensures Sum(TimesAt(map[], at, u)) == 0 {
      assert TimesAt(map[], at, u) == map[];
    }
  }

  /** One point per minute of the window, summed up from the merged rows in any order. */
  method BuildPoints(rows: Rows, from: int, until: int) returns (points: map<int, Point>)
    requires from % MINUTE == 0 && forall id <- rows :: RowOk(rows[id]) && Shown(rows[id], from, until) && rows[id].start % MINUTE == 0
    ensures forall at :: at in points <==> from <= at <= until && at % MINUTE == 0
    ensures forall at <- points :: SumsUp(points[at], rows, at) && Bounded(points[at])
  {
    points := map[];
    var at := from;
    while at <= until
      invariant from <= at && at % MINUTE == 0
      invariant forall t :: t in points <==> from <= t < at && t <= until && t % MINUTE == 0
      invariant forall t <- points :: points[t] == BLANK
      decreases until - at
    {
      points := points[at := BLANK];
      NextMinute(at);
      at := at + MINUTE;
    }
    forall t | t in points ensures SumsUp(points[t], map[], t) && Bounded(points[t]) {
      NothingSumsUp(t);
    }
    points := AddRows(points, rows);
  }

  lemma NextMinute(at: int)
    requires at % MINUTE == 0
    ensures (at + MINUTE) % MINUTE == 0 && forall t :: at <= t < at + MINUTE && t % MINUTE == 0 ==> t == at
  {
  }

  method AddRows(blank: map<int, Point>, rows: Rows) returns (points: map<int, Point>)
    requires forall t <- blank :: SumsUp(blank[t], map[], t) && Bounded(blank[t])
    requires forall id <- rows :: RowOk(rows[id]) && rows[id].start in blank
    ensures points.Keys == blank.Keys && forall t <- points :: SumsUp(points[t], rows, t) && Bounded(points[t])
  {
    hide SumsUp, Bounded, RowOk;
    points := blank;
    ghost var done: Rows := map[];
    var todo := rows.Keys;
    while todo != {}
      invariant todo <= rows.Keys && done == rows - todo && points.Keys == blank.Keys
      invariant forall t <- points :: SumsUp(points[t], done, t) && Bounded(points[t])
      decreases todo
    {
      var id :| id in todo;
      var m := rows[id];
      AddRowKeeps(points[m.start], done, id, m);
      forall t | t in points && t != m.start ensures SumsUp(points[t], done[id := m], t) {
        OtherMinuteKeeps(points[t], done, id, m, t);
      }
      points := points[m.start := AddRow(points[m.start], m)];
      done := done[id := m];
      todo := todo - {id};
      assert done == rows - todo;
    }
    assert rows - {} == rows;
  }

  /** The plotted average of a minute: each member's time divided by the observed time, summed. */
  ghost function Average(p: Point): real {
    if p.observed > 0 then Sum(p.times) as real / p.observed as real else Sum(p.times) as real
  }

  /** No plotted minute has an average above its peak. */
  lemma AverageBelowPeak(p: Point)
    requires Bounded(p)
    ensures Average(p) <= p.peak as real
  {
    if p.observed > 0 {
      Divides(Sum(p.times), p.peak, p.observed);
    }
  }

  lemma Divides(a: int, p: int, o: int)
    requires 0 < o && a <= p * o
    ensures a as real / o as real <= p as real
  {
    assert (p * o) as real == p as real * o as real;
    assert a as real <= p as real * o as real;
  }
}
