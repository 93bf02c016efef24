/** From admission to the chart: every row that can reach the concurrency chart of a plan, by
    way of the store or live, is bounded, so no plotted average is above its peak. */
module ChartedHistory {
  import opened ConcurrencySeries
  import opened ConcurrencyIntegral
  import opened PlanChart
  import opened TrafficHistory
  import AccountTraffic
  import Collector = ConcurrencyFlush
  import opened Units

  ghost predicate GoodRow(m: Minute) {
    RowOk(m) && m.start % MINUTE == 0
  }

  ghost predicate GoodHistory(h: Collector.History) {
    forall key <- h.series :: BucketsBounded(h.series[key])
  }

  ghost predicate GoodBatch(batch: Collector.Batch) {
    forall key, k :: key in batch && k in batch[key] ==> GoodRow(batch[key][k].value)
  }

  ghost predicate GoodStore(store: map<Collector.Row, Minute>) {
    forall row <- store :: GoodRow(store[row])
  }

  /** All that is collected, on its way to the store, and stored is bounded. */
  ghost predicate AllGood(f: Collector.Flush) {
    GoodHistory(f.history) && GoodStore(f.store) && (!f.phase.Idle? ==> GoodBatch(f.phase.batch))
  }

  lemma BucketIsGood(v: Series, k: int)
    requires SeriesOk(v) && BucketsBounded(v) && k in v.buckets
    ensures GoodRow(v.buckets[k].Value())
  {
    assert BucketOk(v, k);
  }

  lemma SameValuesBounded(v: Series, w: Series)
    requires BucketsBounded(v) && w.buckets.Keys <= v.buckets.Keys
    requires forall k <- w.buckets :: w.buckets[k].Value() == v.buckets[k].Value()
    ensures BucketsBounded(w)
  {
  }

  lemma PublishBounded(v: Series)
    requires SeriesOk(v) && BucketsBounded(v)
    ensures BucketsBounded(Collector.PublishAll(v)) && BucketsBounded(Collector.PublishUnsaved(v))
  {
    forall k | k in v.buckets ensures Collector.CopyMinute(v.last, v.buckets[k]).Value() == v.buckets[k].Value() {
      Collector.CopyMinuteOk(v, k);
    }
    SameValuesBounded(v, Collector.PublishAll(v));
    SameValuesBounded(v, Collector.PublishUnsaved(v));
  }

  lemma CollectBounded(v: Series, now: int)
    requires SeriesOk(v) && BucketsBounded(v)
    ensures BucketsBounded(Collector.Collect(v, now))
  {
    Collector.PruneOk(v, now);
    AdvanceOk(Collector.Prune(v, now), now);
    AdvanceBounded(Collector.Prune(v, now), now);
    PublishBounded(Advance(Collector.Prune(v, now), now));
  }

  lemma ReadBounded(v: Series, now: int)
    requires SeriesOk(v) && BucketsBounded(v)
    ensures BucketsBounded(Collector.PublishAll(Advance(v.(lastUsed := now), now)))
  {
    var u := v.(lastUsed := now);
    StillOk(v, now);
    AdvanceOk(u, now);
    AdvanceBounded(u, now);
    PublishBounded(Advance(u, now));
  }

  lemma CountKeepsGood(h: Collector.History, key: SeriesKey, user: UserID, delta: int, now: int)
    requires Collector.HistoryOk(h) && GoodHistory(h) && 0 <= Collector.CountOf(h, key, user) + delta
    ensures GoodHistory(Collector.ChangeHistory(h, key, user, delta, now))
  {
    Collector.EnsureOk(h, key, now);
    var g := Collector.Ensure(h, key, now);
    assert Collector.CountOf(g, key, user) == Collector.CountOf(h, key, user);
    ChangeBounded(g.series[key], user, delta, now);
    hide Change, BucketsBounded;
  }

  lemma ReadKeepsGood(h: Collector.History, key: SeriesKey, now: int)
    requires Collector.HistoryOk(h) && GoodHistory(h)
    ensures GoodHistory(Collector.ReadLive(h, key, now))
  {
    Collector.EnsureOk(h, key, now);
    ReadBounded(Collector.Ensure(h, key, now).series[key], now);
  }

  lemma BeginKeepsGood(f: Collector.Flush, now: int)
    requires Collector.FlushInv(f) && AllGood(f) && f.phase.Idle?
    ensures AllGood(Collector.Step(f, Collector.Begin(now)))
  {
    var g := Collector.Step(f, Collector.Begin(now));
    forall key | key in f.history.series ensures BucketsBounded(g.history.series[key]) && SeriesOk(g.history.series[key]) {
      CollectBounded(f.history.series[key], now);
      Collector.CollectOk(f.history.series[key], now);
    }
    var batch: Collector.Batch := g.phase.batch;
    forall key, k | key in batch && k in batch[key] ensures GoodRow(batch[key][k].value) {
      BucketIsGood(g.history.series[key], k);
    }
  }

  lemma AcknowledgeKeepsGood(h: Collector.History, batch: Collector.Batch)
    requires GoodHistory(h)
    ensures GoodHistory(Collector.AckFlush(h, batch))
  {
    forall key | key in h.series && key in batch ensures BucketsBounded(Collector.Acknowledged(h.series[key], batch[key])) {
      SameValuesBounded(h.series[key], Collector.Acknowledged(h.series[key], batch[key]));
    }
  }

  lemma FlushKeepsGood(f: Collector.Flush, e: Collector.Event)
    requires Collector.FlushInv(f) && AllGood(f) && Collector.Enabled(f, e)
    ensures AllGood(Collector.Step(f, e))
  {
    match e
    case Update(key, user, delta, now) => CountKeepsGood(f.history, key, user, delta, now);
    case Read(key, now) => ReadKeepsGood(f.history, key, now);
    case Begin(now) => BeginKeepsGood(f, now);
    case Acknowledge => AcknowledgeKeepsGood(f.history, f.phase.batch);
    case _ =>
  }

  lemma AdmissionKeepsGood(x: System, e: AccountTraffic.Event)
    requires BothOk(x) && AllGood(x.Flush()) && AccountTraffic.Enabled(x.traffic, e)
    ensures GoodHistory(AccountTraffic.Step(x.traffic, e).history)
  {
    var h := AccountTraffic.Step(x.traffic, e).history;
    var c, delta, now := AdmissionUpdates(x, e);
    if h != x.traffic.history && c.Some? {
      CountKeepsGood(x.traffic.history, c.value.Key(), c.value.user, delta, now);
    }
  }

  lemma StepKeepsGood(x: System, e: SystemEvent)
    requires BothOk(x) && AllGood(x.Flush()) && CanHappen(x, e)
    ensures AllGood(Next(x, e).Flush())
  {
    match e
    case Admission(a) => AdmissionKeepsGood(x, a);
    case Flushing(f) => FlushKeepsGood(x.Flush(), f);
  }

  lemma {:induction false} RunKeepsGood(x: System, es: seq<SystemEvent>, y: System)
    requires BothOk(x) && AllGood(x.Flush()) && Run(x, es, y)
    ensures BothOk(y) && AllGood(y.Flush())
    decreases |es|
  {
    hide BothOk, AllGood, CanHappen, Next;
    if es != [] {
      StepKeepsBoth(x, es[0]);
      StepKeepsGood(x, es[0]);
      RunKeepsGood(Next(x, es[0]), es[1..], y);
    }
  }

  /** The rows a reader of a plan's series gets live. */
  ghost function LiveRows(x: System, key: SeriesKey, now: int): set<Minute> {
    var v := Collector.ReadLive(x.traffic.history, key, now).series[key];
    set k | k in v.buckets :: v.buckets[k].Value()
  }

  /** In every reachable state all stored rows and all rows read live are bounded. */
  lemma ReachableRowsAreGood(alive: set<SeriesKey>, es: seq<SystemEvent>, y: System, key: SeriesKey, now: int)
    requires Run(System(AccountTraffic.EMPTY, map[], {}, alive, Collector.Idle), es, y)
    ensures BothOk(y) && AllGood(y.Flush())
    ensures (forall row <- y.store :: GoodRow(y.store[row])) && forall m <- LiveRows(y, key, now) :: GoodRow(m)
  {
    var x := System(AccountTraffic.EMPTY, map[], {}, alive, Collector.Idle);
    InitiallyBoth(alive);
    RunKeepsGood(x, es, y);
    Collector.EnsureOk(y.traffic.history, key, now);
    var v := Collector.Ensure(y.traffic.history, key, now).series[key];
    Collector.ReadEvolves(v, now);
    ReadBounded(v, now);
    forall k | k in Collector.ReadLive(y.traffic.history, key, now).series[key].buckets
      ensures GoodRow(Collector.ReadLive(y.traffic.history, key, now).series[key].buckets[k].Value())
    {
      BucketIsGood(Collector.ReadLive(y.traffic.history, key, now).series[key], k);
    }
  }

  lemma {:induction false} MergedAreRows(rows: seq<Minute>, from: int, until: int)
    ensures forall id <- Merged(rows, from, until) :: Merged(rows, from, until)[id] in rows && Shown(Merged(rows, from, until)[id], from, until)
    decreases |rows|
  {
    if rows != [] {
      MergedAreRows(rows[..|rows| - 1], from, until);
      assert rows == rows[..|rows| - 1] + [rows[|rows| - 1]];
    }
  }

  /** `PlanConcurrency`: stored rows are read in one reachable state and live ones in a later
      one. Each point sums up the merged rows of its minute, and its average is at most its
      peak, whatever happened before and in between. */
  method ChartPlan(ghost alive: set<SeriesKey>, ghost before: seq<SystemEvent>, ghost y: System, ghost between: seq<SystemEvent>, ghost z: System,
                   ghost key: SeriesKey, stored: seq<Minute>, live: seq<Minute>, from: int, until: int)
    returns (points: map<int, Point>)
    requires Run(System(AccountTraffic.EMPTY, map[], {}, alive, Collector.Idle), before, y) && Run(y, between, z)
    requires from % MINUTE == 0 && (forall m <- stored :: exists row :: row in y.store && y.store[row] == m)
    requires forall m <- live :: m in LiveRows(z, key, until)
    ensures forall at :: at in points <==> from <= at <= until && at % MINUTE == 0
    ensures forall at <- points :: SumsUp(points[at], Merged(stored + live, from, until), at) && Average(points[at]) <= points[at].peak as real
  {
    ReachableRowsAreGood(alive, before, y, key, until);
    RunConcat(System(AccountTraffic.EMPTY, map[], {}, alive, Collector.Idle), before, y, between, z);
    ReachableRowsAreGood(alive, before + between, z, key, until);
    MergedAreRows(stored + live, from, until);
    hide Run, LiveRows, BothOk, AllGood, SumsUp, Average, Merged, RowOk;
    var rows := MergeRows(stored, live, from, until);
    forall id | id in rows ensures GoodRow(rows[id]) && Shown(rows[id], from, until) {
      assert rows[id] in stored || rows[id] in live;
    }
    points := BuildPoints(rows, from, until);
    forall at | at in points ensures Average(points[at]) <= points[at].peak as real {
      AverageBelowPeak(points[at]);
    }
  }

  lemma {:induction false} RunConcat(x: System, es: seq<SystemEvent>, y: System, fs: seq<SystemEvent>, z: System)
    requires Run(x, es, y) && Run(y, fs, z)
    ensures Run(x, es + fs, z)
    decreases |es|
  {
    hide CanHappen, Next;
    if es == [] {
      assert es + fs == fs;
    } else {
      assert (es + fs)[0] == es[0] && (es + fs)[1..] == es[1..] + fs;
      RunConcat(Next(x, es[0]), es[1..], y, fs, z);
    }
  }
}
