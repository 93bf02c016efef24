/** The collector's loops over the buckets of one series, proved to compute the functions
    of `ConcurrencyFlush`. */
module ConcurrencyCollector {
  import opened MapSums
  import opened ConcurrencySeries
  import Collector = ConcurrencyFlush
  import opened Units

  lemma HasElement(s: set<int>)
    ensures s == {} || exists k :: k in s
  {
    if forall k :: k !in s {
      assert s == {};
    }
  }

  lemma SameMap<V>(m: map<int, V>, n: map<int, V>)
    requires forall k :: k in m <==> k in n
    requires forall k <- m :: m[k] == n[k]
    ensures m == n
  {
    SameKeys(m.Keys, n.Keys);
    assert forall k <- m :: m[k] == n[k];
  }

  lemma SameKeys(s: set<int>, t: set<int>)
    requires forall k :: k in s <==> k in t
    ensures s == t
  {
    assert forall k :: k in s <==> k in t;
  }

  method CollectAll(history: map<SeriesKey, Series>, now: int) returns (out: map<SeriesKey, Series>, batch: Collector.Batch)
    requires forall key <- history :: SeriesOk(history[key])
    ensures out == map key | key in history :: Collector.Collect(history[key], now)
    ensures batch == map key | key in out :: Collector.PendingOf(out[key])
  {
    hide SeriesOk, Collector.Collect, Collector.PendingOf;
    out, batch := history, map[];
    var todo := history.Keys;
    while todo != {}
      invariant todo <= history.Keys && out.Keys == history.Keys && batch.Keys == history.Keys - todo
      invariant forall key <- todo :: out[key] == history[key]
      invariant forall key <- batch :: out[key] == Collector.Collect(history[key], now) && batch[key] == Collector.PendingOf(out[key])
      decreases todo
    {
      var key :| key in todo;
      var v, entries := CollectSeries(out[key], now);
      out := out[key := v];
      batch := batch[key := entries];
      todo := todo - {key};
    }
  }

  method CollectSeries(v: Series, now: int) returns (w: Series, entries: map<int, Collector.Pending>)
    requires SeriesOk(v)
    ensures w == Collector.Collect(v, now) && entries == Collector.PendingOf(w)
  {
    var cutoff := Truncate(now - RETENTION);
    w := v.(buckets := map k | k in v.buckets && k >= cutoff :: v.buckets[k]);
    Collector.PruneOk(v, now);
    AdvanceOk(w, now);
    w := AdvanceSeries(w, now);
    w, entries := PublishPending(w);
  }

  method PublishPending(v: Series) returns (w: Series, entries: map<int, Collector.Pending>)
    requires SeriesOk(v)
    ensures w == Collector.PublishUnsaved(v) && entries == Collector.PendingOf(w)
  {
    w, entries := v, map[];
    var todo := v.buckets.Keys;
    while todo != {}
      invariant todo <= v.buckets.Keys && w == v.(buckets := w.buckets) && w.buckets.Keys == v.buckets.Keys
      invariant forall k <- v.buckets :: w.buckets[k] == if k in todo || v.buckets[k].revision == v.buckets[k].saved then v.buckets[k] else Collector.CopyMinute(v.last, v.buckets[k])
      invariant forall k <- v.buckets :: k in entries <==> k !in todo && v.buckets[k].revision != v.buckets[k].saved
      invariant forall k <- entries :: k in v.buckets && entries[k] == Collector.Pending(v.buckets[k].Value(), v.buckets[k].revision)
      decreases todo
    {
      HasElement(todo);
      var k :| k in todo;
      var b := w.buckets[k];
      if b.revision != b.saved {
        Collector.CopyMinuteOk(v, k);
        var minute;
        b, minute := Snapshot(v.last, b);
        entries := entries[k := Collector.Pending(minute, b.revision)];
        w := w.(buckets := w.buckets[k := b]);
      }
      todo := todo - {k};
    }
    SameMap(w.buckets, Collector.PublishUnsaved(v).buckets);
    forall k | k in v.buckets ensures w.buckets[k].Value() == v.buckets[k].Value() && w.buckets[k].revision == v.buckets[k].revision {
      Collector.CopyMinuteOk(v, k);
    }
    SameMap(entries, Collector.PendingOf(w));
  }

  method CopyMinutes(v: Series) returns (w: Series, out: map<int, Minute>)
    requires SeriesOk(v)
    ensures w == Collector.PublishAll(v) && out == map k | k in w.buckets :: w.buckets[k].Value()
  {
    w, out := v, map[];
    var todo := v.buckets.Keys;
    while todo != {}
      invariant todo <= v.buckets.Keys && w == v.(buckets := w.buckets) && w.buckets.Keys == v.buckets.Keys && out.Keys == v.buckets.Keys - todo
      invariant forall k <- v.buckets :: w.buckets[k] == if k in todo then v.buckets[k] else Collector.CopyMinute(v.last, v.buckets[k])
      invariant forall k <- out :: out[k] == w.buckets[k].Value()
      decreases todo
    {
      HasElement(todo);
      var k :| k in todo;
      Collector.CopyMinuteOk(v, k);
      var b, minute := Snapshot(v.last, w.buckets[k]);
      out := out[k := minute];
      w := w.(buckets := w.buckets[k := b]);
      todo := todo - {k};
    }
    SameMap(w.buckets, Collector.PublishAll(v).buckets);
    SameMap(out, map k | k in w.buckets :: w.buckets[k].Value());
  }

  /** `copyMinute`: the bucket with its snapshot, and the snapshot. */
  method Snapshot(last: int, b: Bucket) returns (c: Bucket, minute: Minute)
    ensures c == Collector.CopyMinute(last, b)
    ensures c.snapshot == Some(minute)
  {
    if b.snapshot.Some? && b.snapshotRevision == b.revision {
      return b, b.snapshot.value;
    }
    minute := b.Value();
    c := b.(snapshot := Some(minute), snapshotRevision := b.revision);
    if b.start + MINUTE <= last {
      c := c.(seconds := None);
    }
  }

  method AcknowledgeSeries(v: Series, entries: map<int, Collector.Pending>) returns (w: Series, touched: bool)
    ensures w == Collector.Acknowledged(v, entries) && touched == Collector.Touched(v, entries)
  {
    w, touched := v, false;
    var todo := entries.Keys;
    while todo != {}
      invariant todo <= entries.Keys && w == v.(buckets := w.buckets) && w.buckets.Keys == v.buckets.Keys
      invariant touched <==> exists k :: k in entries && k !in todo && Collector.Matches(v, entries, k)
      invariant forall k <- v.buckets :: (
        w.buckets[k] == if k !in todo && Collector.Matches(v, entries, k) then v.buckets[k].(saved := Collector.MaxNat(v.buckets[k].saved, entries[k].revision))
                        else v.buckets[k])
      decreases todo
    {
      HasElement(todo);
      var k :| k in todo;
      todo := todo - {k};
      if k in w.buckets && w.buckets[k].instance == entries[k].value.instance {
        var b := w.buckets[k];
        w := w.(buckets := w.buckets[k := b.(saved := if b.saved < entries[k].revision then entries[k].revision else b.saved)]);
        assert Collector.Matches(v, entries, k);
        touched := true;
      }
    }
  }

  method FullySaved(v: Series) returns (clean: bool)
    ensures clean == Collector.Clean(v)
  {
    var todo := v.buckets.Keys;
    while todo != {}
      invariant todo <= v.buckets.Keys
      invariant forall k <- v.buckets :: k !in todo ==> v.buckets[k].saved == v.buckets[k].revision
      decreases todo
    {
      HasElement(todo);
      var k :| k in todo;
      if v.buckets[k].saved != v.buckets[k].revision {
        return false;
      }
      todo := todo - {k};
    }
    return true;
  }
}
