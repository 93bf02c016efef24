/** The minute buckets against an independent reference: a log of what the counts were
    and for how long, integrated minute by minute. */
module ConcurrencyIntegral {
  import opened MapSums
  import opened ConcurrencySeries
  import opened Units

  /** The counts were `counts` throughout [from, to). A segment with from == to records
      the counts at one instant, such as the spike of a request that ends at once. */
  datatype Segment = Segment(from: int, to: int, counts: map<UserID, int>)

  type Log = seq<Segment>

  function Overlap(s: Segment, k: int): int {
    Max(0, Min(s.to, k + MINUTE) - Max(s.from, k))
  }

  /** The segment says something about minute k. */
  predicate Touches(s: Segment, k: int) {
    if s.from == s.to then k <= s.from < k + MINUTE else Overlap(s, k) > 0
  }

  ghost function RefObserved(log: Log, k: int): int {
    if log == [] then 0 else RefObserved(log[..|log| - 1], k) + Overlap(log[|log| - 1], k)
  }

  /** The exact integral of user u's count over minute k. */
  ghost function RefSeconds(log: Log, k: int, u: UserID): int {
    if log == [] then 0 else
      RefSeconds(log[..|log| - 1], k, u) + RequestTime(Get(log[|log| - 1].counts, u), Overlap(log[|log| - 1], k))
  }

  /** The largest total count at any instant of minute k. */
  ghost function RefPeak(log: Log, k: int): int {
    if log == [] then 0 else
      var s := log[|log| - 1];
      var p := RefPeak(log[..|log| - 1], k);
      if Touches(s, k) then Max(p, Sum(s.counts)) else p
  }

  function Observed(v: Series, k: int): int {
    if k in v.buckets then v.buckets[k].observed else 0
  }

  function Peak(v: Series, k: int): int {
    if k in v.buckets then v.buckets[k].peak else 0
  }

  function Seconds(v: Series, k: int, u: UserID): int {
    if k in v.buckets then Get(v.buckets[k].Value().members, u) else 0
  }

  /** Every bucket from `horizon` on holds exactly what the log says about its minute. */
  ghost predicate Agrees(v: Series, log: Log, horizon: int) {
    forall k :: k % MINUTE == 0 && horizon <= k ==> AgreesAt(v, log, k)
  }

  ghost predicate AgreesAt(v: Series, log: Log, k: int) {
    && Observed(v, k) == RefObserved(log, k)
    && Peak(v, k) == RefPeak(log, k)
    && forall u :: Seconds(v, k, u) == RefSeconds(log, k, u)
  }

  lemma AppendLog(log: Log, s: Segment, k: int)
    ensures RefObserved(log + [s], k) == RefObserved(log, k) + Overlap(s, k)
    ensures RefPeak(log + [s], k) == if Touches(s, k) then Max(RefPeak(log, k), Sum(s.counts)) else RefPeak(log, k)
    ensures forall u :: RefSeconds(log + [s], k, u) == RefSeconds(log, k, u) + RequestTime(Get(s.counts, u), Overlap(s, k))
  {
    assert (log + [s])[..|log|] == log;
  }

  lemma CutOverlap(a: int, b: int, c: int, counts: map<UserID, int>, k: int)
    requires a < b < c
    ensures Overlap(Segment(a, c, counts), k) == Overlap(Segment(a, b, counts), k) + Overlap(Segment(b, c, counts), k)
    ensures Touches(Segment(a, c, counts), k) <==> Touches(Segment(a, b, counts), k) || Touches(Segment(b, c, counts), k)
  {
  }

  /** Splitting a segment in two changes nothing: minutes tile the observed time. */
  lemma SplitSegment(log: Log, a: int, b: int, c: int, counts: map<UserID, int>, k: int)
    requires a < b < c
    ensures var one := log + [Segment(a, c, counts)];
            var two := log + [Segment(a, b, counts)] + [Segment(b, c, counts)];
            && RefObserved(one, k) == RefObserved(two, k)
            && RefPeak(one, k) == RefPeak(two, k)
            && forall u :: RefSeconds(one, k, u) == RefSeconds(two, k, u)
  {
    hide RefObserved, RefPeak, RefSeconds, Overlap, Touches, RequestTime, Sum, Get;
    AppendLog(log, Segment(a, c, counts), k);
    AppendLog(log, Segment(a, b, counts), k);
    AppendLog(log + [Segment(a, b, counts)], Segment(b, c, counts), k);
    CutOverlap(a, b, c, counts, k);
    forall u {
      Distribute(Get(counts, u), Overlap(Segment(a, b, counts), k), Overlap(Segment(b, c, counts), k));
    }
  }

  lemma Distribute(n: int, x: int, y: int)
    ensures RequestTime(n, x + y) == RequestTime(n, x) + RequestTime(n, y)
  {
  }

  /** A chunk lies inside one minute. */
  lemma ChunkOverlap(last: int, end: int, counts: map<UserID, int>, k: int)
    requires last < end <= Truncate(last) + MINUTE && k % MINUTE == 0
    ensures Overlap(Segment(last, end, counts), k) == if k == Truncate(last) then end - last else 0
    ensures Touches(Segment(last, end, counts), k) <==> k == Truncate(last)
  {
    TruncateBounds(last);
    if k < Truncate(last) {
      MinutesApart(k, Truncate(last));
    } else if k > Truncate(last) {
      MinutesApart(Truncate(last), k);
    }
  }

  lemma ChunkAgrees(v: Series, log: Log, end: int, horizon: int)
    requires SeriesOk(v) && Agrees(v, log, horizon)
    requires v.last < end <= Truncate(v.last) + MINUTE
    ensures Agrees(Chunk(v, end), log + [Segment(v.last, end, v.counts)], horizon)
  {
    var s := Segment(v.last, end, v.counts);
    var w := Chunk(v, end);
    OpenBucket(v, v.last);
    forall k | k % MINUTE == 0 && horizon <= k ensures AgreesAt(w, log + [s], k) {
      assert AgreesAt(v, log, k);
      AppendLog(log, s, k);
      ChunkOverlap(v.last, end, v.counts, k);
      if k == Truncate(v.last) {
        forall u ensures Seconds(w, k, u) == RefSeconds(log + [s], k, u) {
          assert Seconds(w, k, u) == Seconds(v, k, u) + RequestTime(Get(v.counts, u), end - v.last);
        }
      } else {
        forall u ensures Seconds(w, k, u) == RefSeconds(log + [s], k, u) {
          assert Seconds(w, k, u) == Seconds(v, k, u);
        }
      }
    }
  }

  lemma {:induction false} AdvanceFromAgrees(v: Series, log: Log, now: int, horizon: int)
    requires SeriesOk(v) && Agrees(v, log, horizon) && v.last < now
    ensures Agrees(AdvanceFrom(v, now), log + [Segment(v.last, now, v.counts)], horizon)
    decreases now - v.last
  {
    TruncateBounds(v.last);
    var end := ChunkEnd(v.last, now);
    ChunkOk(v, end);
    ChunkAgrees(v, log, end, horizon);
    var w := Chunk(v, end);
    if end < now {
      AdvanceFromAgrees(w, log + [Segment(v.last, end, v.counts)], now, horizon);
      var x := AdvanceFrom(w, now);
      forall k | k % MINUTE == 0 && horizon <= k ensures AgreesAt(x, log + [Segment(v.last, now, v.counts)], k) {
        SplitSegment(log, v.last, end, now, v.counts, k);
        assert AgreesAt(x, log + [Segment(v.last, end, v.counts)] + [Segment(end, now, v.counts)], k);
      }
    }
  }

  /** The log grows by what was observed: everything since the last update, except that
      only the last 25 hours of a longer silence count. */
  function Elapse(v: Series, log: Log, now: int): Log {
    var from := if v.last < Cutoff(now) then Cutoff(now) else v.last;
    if from < now then log + [Segment(from, now, v.counts)] else log
  }

  lemma AdvanceAgrees(v: Series, log: Log, now: int, horizon: int)
    requires SeriesOk(v) && Agrees(v, log, horizon)
    ensures Agrees(Advance(v, now), Elapse(v, log, now), horizon)
  {
    ResumeOk(v, now);
    var r := Resume(v, now);
    assert Agrees(r, log, horizon) by {
      forall k | k % MINUTE == 0 && horizon <= k ensures AgreesAt(r, log, k) {
        assert AgreesAt(v, log, k);
        SameBucketsAgree(v, r, log, k);
      }
    }
    if r.last < now {
      AdvanceFromAgrees(r, log, now, horizon);
    }
  }

  /** A change integrates the old counts up to now and records the new counts. */
  function ChangeLog(v: Series, log: Log, user: UserID, delta: int, now: int): Log {
    var at := Max(now, v.last);
    Elapse(v, log, at) + [Segment(at, at, SetCount(v.counts, user, Get(v.counts, user) + delta))]
  }

  lemma TouchPeakAgrees(w: Series, log: Log, at: int, horizon: int)
    requires SeriesOk(w) && w.last == at && Agrees(w, log, horizon)
    ensures Agrees(TouchPeak(w, at), log + [Segment(at, at, w.counts)], horizon)
  {
    var s, x := Segment(at, at, w.counts), TouchPeak(w, at);
    OpenBucket(w, at);
    forall k | k % MINUTE == 0 && horizon <= k ensures AgreesAt(x, log + [s], k) {
      assert AgreesAt(w, log, k);
      AppendLog(log, s, k);
      InstantTouches(at, w.counts, k);
      forall u ensures Seconds(x, k, u) == RefSeconds(log + [s], k, u) {
        assert Seconds(x, k, u) == Seconds(w, k, u);
        assert RequestTime(Get(w.counts, u), 0) == 0;
      }
    }
  }

  lemma ChangeAgrees(v: Series, log: Log, user: UserID, delta: int, now: int, horizon: int)
    requires SeriesOk(v) && 0 <= Get(v.counts, user) + delta && Agrees(v, log, horizon)
    ensures Agrees(Change(v, user, delta, now), ChangeLog(v, log, user, delta, now), horizon)
  {
    var at := Max(now, v.last);
    AdvanceOk(v, at);
    AdvanceAgrees(v, log, at, horizon);
    var w, mid := Advance(v, at), Elapse(v, log, at);
    var x := Recount(w, user, delta, at);
    RecountOk(w, user, delta, at);
    assert Agrees(x, mid, horizon) by {
      forall k | k % MINUTE == 0 && horizon <= k ensures AgreesAt(x, mid, k) {
        assert AgreesAt(w, mid, k);
        SameBucketsAgree(w, x, mid, k);
      }
    }
    TouchPeakAgrees(x, mid, at, horizon);
  }

  lemma SameBucketsAgree(v: Series, w: Series, log: Log, k: int)
    requires v.buckets == w.buckets && AgreesAt(v, log, k)
    ensures AgreesAt(w, log, k)
  {
    forall u ensures Seconds(w, k, u) == RefSeconds(log, k, u) {
      assert Seconds(v, k, u) == RefSeconds(log, k, u);
    }
  }

  lemma InstantTouches(at: int, counts: map<UserID, int>, k: int)
    requires k % MINUTE == 0
    ensures Overlap(Segment(at, at, counts), k) == 0
    ensures Touches(Segment(at, at, counts), k) <==> k == Truncate(at)
  {
    TruncateBounds(at);
    if k < Truncate(at) {
      MinutesApart(k, Truncate(at));
    } else if k > Truncate(at) {
      MinutesApart(Truncate(at), k);
    }
  }

  // ---- completed minutes -----------------------------------------------------

  /** A minute that ended before the last update is never written again. */
  lemma {:induction false} AdvanceFromKeepsCompleted(v: Series, now: int, k: int)
    requires SeriesOk(v) && k % MINUTE == 0 && k + MINUTE <= v.last
    ensures k in AdvanceFrom(v, now).buckets <==> k in v.buckets
    ensures k in v.buckets ==> AdvanceFrom(v, now).buckets[k] == v.buckets[k]
    decreases now - v.last
  {
    if v.last < now {
      TruncateBounds(v.last);
      ChunkOk(v, ChunkEnd(v.last, now));
      AdvanceFromKeepsCompleted(Chunk(v, ChunkEnd(v.last, now)), now, k);
    }
  }

  lemma CompletedNeverRewritten(v: Series, user: UserID, delta: int, now: int, k: int)
    requires SeriesOk(v) && 0 <= Get(v.counts, user) + delta
    requires k in v.buckets && k + MINUTE <= v.last
    ensures k in Advance(v, now).buckets && Advance(v, now).buckets[k] == v.buckets[k]
    ensures k in Change(v, user, delta, now).buckets && Change(v, user, delta, now).buckets[k] == v.buckets[k]
  {
    assert BucketOk(v, k);
    ResumeOk(v, now);
    AdvanceFromKeepsCompleted(Resume(v, now), now, k);
    var at := Max(now, v.last);
    ResumeOk(v, at);
    AdvanceFromKeepsCompleted(Resume(v, at), at, k);
    AdvanceOk(v, at);
    TruncateBounds(at);
    assert Truncate(at) != k;
  }

  // ---- average at most peak --------------------------------------------------

  /** Total request time of a minute is at most its peak times its observed time. */
  ghost predicate AverageAtMostPeak(m: Minute) {
    Sum(m.members) <= m.peak * m.observed
  }

  ghost predicate BucketsBounded(v: Series) {
    forall k <- v.buckets :: AverageAtMostPeak(v.buckets[k].Value())
  }

  lemma {:induction false} SumAddElapsed(seconds: map<UserID, int>, counts: map<UserID, int>, elapsed: int)
    requires forall u <- counts :: 0 < counts[u]
    ensures Sum(AddElapsed(seconds, counts, elapsed)) == Sum(seconds) + Sum(counts) * elapsed
    decreases counts.Keys
  {
    if counts == map[] {
      assert AddElapsed(seconds, counts, elapsed) == seconds;
    } else {
      var u :| u in counts;
      var rest := counts - {u};
      SumAddElapsed(seconds, rest, elapsed);
      AddOneUser(seconds, counts, u, elapsed);
      SumRemove(counts, u);
      DistributeProduct(counts[u], Sum(rest), elapsed);
    }
  }

  lemma DistributeProduct(a: int, b: int, x: int)
    ensures (a + b) * x == a * x + b * x
  {
  }

  lemma AddOneUser(seconds: map<UserID, int>, counts: map<UserID, int>, u: UserID, elapsed: int)
    requires u in counts && counts[u] > 0
    ensures Sum(AddElapsed(seconds, counts, elapsed)) == Sum(AddElapsed(seconds, counts - {u}, elapsed)) + counts[u] * elapsed
  {
    var before := AddElapsed(seconds, counts - {u}, elapsed);
    var more := RequestTime(counts[u], elapsed);
    assert Get(counts - {u}, u) == 0;
    assert AddElapsed(seconds, counts, elapsed) == before[u := Get(before, u) + more];
    SumPut(before, u, Get(before, u) + more);
  }

  lemma GrowBound(total: int, peak: int, observed: int, n: int, elapsed: int)
    requires total <= peak * observed && 0 <= observed && 0 <= elapsed
    ensures total + n * elapsed <= Max(peak, n) * (observed + elapsed)
  {
    var top := Max(peak, n);
    assert peak * observed <= top * observed by { Scale(peak, top, observed); }
    assert n * elapsed <= top * elapsed by { Scale(n, top, elapsed); }
    assert top * (observed + elapsed) == top * observed + top * elapsed;
  }

  lemma Scale(a: int, b: int, x: int)
    requires a <= b && 0 <= x
    ensures a * x <= b * x
  {
  }

  lemma ChunkBounded(v: Series, end: int)
    requires SeriesOk(v) && BucketsBounded(v) && v.last < end <= Truncate(v.last) + MINUTE
    ensures BucketsBounded(Chunk(v, end))
  {
    OpenBucket(v, v.last);
    var b := BucketAt(v, v.last);
    var at := Truncate(v.last);
    if at in v.buckets {
      assert BucketOk(v, at);
    }
    SumAddElapsed(b.seconds.value, v.counts, end - v.last);
    GrowBound(Sum(b.seconds.value), b.peak, b.observed, Sum(v.counts), end - v.last);
  }

  lemma {:induction false} AdvanceFromBounded(v: Series, now: int)
    requires SeriesOk(v) && BucketsBounded(v)
    ensures BucketsBounded(AdvanceFrom(v, now))
    decreases now - v.last
  {
    if v.last < now {
      TruncateBounds(v.last);
      ChunkOk(v, ChunkEnd(v.last, now));
      ChunkBounded(v, ChunkEnd(v.last, now));
      AdvanceFromBounded(Chunk(v, ChunkEnd(v.last, now)), now);
    }
  }

  lemma AdvanceBounded(v: Series, now: int)
    requires SeriesOk(v) && BucketsBounded(v)
    ensures BucketsBounded(Advance(v, now))
  {
    ResumeOk(v, now);
    AdvanceFromBounded(Resume(v, now), now);
  }

  lemma ChangeBounded(v: Series, user: UserID, delta: int, now: int)
    requires SeriesOk(v) && BucketsBounded(v) && 0 <= Get(v.counts, user) + delta
    ensures BucketsBounded(Change(v, user, delta, now))
  {
    var at := Max(now, v.last);
    AdvanceOk(v, at);
    AdvanceBounded(v, at);
    var w, x := Advance(v, at), Change(v, user, delta, now);
    OpenBucket(w, at);
    var b := BucketAt(w, at);
    if Truncate(at) in w.buckets {
      assert BucketOk(w, Truncate(at));
    }
    GrowBound(Sum(b.seconds.value), b.peak, b.observed, Sum(x.counts), 0);
  }
}
