/** One concurrency series: the per-user request counts of one account, plan and
    binding generation, integrated over time into minute buckets. */
module ConcurrencySeries {
  import opened MapSums
  import opened Units

  const RETENTION: int := 25 * 60 * MINUTE

  datatype SeriesKey = SeriesKey(account: AccountID, plan: PlanID, generation: int)

  /** The published, immutable form of a bucket (domain.ConcurrencyMinute). */
  datatype Minute = Minute(
    instance: nat, key: SeriesKey, start: int, observed: int, peak: int, members: map<UserID, int>)

  /** `seconds` is None once the bucket is complete and published: Go then holds a nil
      map, and writing to it would panic. */
  datatype Bucket = Bucket(
    instance: nat, key: SeriesKey, start: int, observed: int, peak: int,
    seconds: Option<map<UserID, int>>, revision: nat, saved: nat,
    snapshot: Option<Minute>, snapshotRevision: nat)
  {
    /** The value a reader sees for this bucket. */
    function Value(): Minute {
      match seconds
      case Some(s) => Minute(instance, key, start, observed, peak, s)
      case None => if snapshot.Some? then snapshot.value else Minute(instance, key, start, observed, peak, map[])
    }

    predicate SnapshotFresh() {
      snapshot.Some? && snapshotRevision == revision
    }
  }

  datatype Series = Series(
    instance: nat, key: SeriesKey, last: int, lastUsed: int,
    counts: map<UserID, int>, buckets: map<int, Bucket>)

  function Truncate(t: int): int {
    t - t % MINUTE
  }

  lemma TruncateBounds(t: int)
    ensures Truncate(t) <= t < Truncate(t) + MINUTE && Truncate(t) % MINUTE == 0
  {
  }

  /** Two minute starts are equal or a whole minute apart. */
  lemma MinutesApart(a: int, b: int)
    requires a % MINUTE == 0 && b % MINUTE == 0 && a < b
    ensures a + MINUTE <= b
  {
  }

  function Cutoff(now: int): int {
    Truncate(now - RETENTION)
  }

  function NewSeries(instance: nat, key: SeriesKey, now: int): Series {
    Series(instance, key, now, now, map[], map[])
  }

  function BucketAt(v: Series, at: int): Bucket {
    var start := Truncate(at);
    if start in v.buckets then v.buckets[start]
    else Bucket(v.instance, v.key, start, 0, 0, Some(map[]), 0, 0, None, 0)
  }

  // ---- well-formedness -------------------------------------------------------

  ghost predicate BucketOk(v: Series, k: int) requires k in v.buckets {
    var b := v.buckets[k];
    && b.start == k && k % MINUTE == 0 && k <= v.last
    && b.instance == v.instance && b.key == v.key
    && 1 <= b.revision && b.saved <= b.revision && b.snapshotRevision <= b.revision
    && (b.SnapshotFresh() ==> b.snapshot.value == b.Value())
    && (b.seconds.None? ==> b.SnapshotFresh() && k + MINUTE <= v.last)
    && 0 <= b.observed <= Min(v.last, k + MINUTE) - k && 0 <= b.peak
    && (forall u <- b.Value().members :: 0 <= b.Value().members[u])
    && b.Value() == Minute(b.instance, b.key, b.start, b.observed, b.peak, b.Value().members)
  }

  ghost predicate SeriesOk(v: Series) {
    && (forall k <- v.buckets :: BucketOk(v, k))
    && (forall u <- v.counts :: 0 < v.counts[u])
  }

  // ---- advance ---------------------------------------------------------------

  function RequestTime(n: int, elapsed: int): int {
    if n > 0 then n * elapsed else 0
  }

  /** Request time of every user grows by count * elapsed. */
  function AddElapsed(seconds: map<UserID, int>, counts: map<UserID, int>, elapsed: int): map<UserID, int> {
    map u | u in seconds.Keys + counts.Keys :: Get(seconds, u) + RequestTime(Get(counts, u), elapsed)
  }

  ghost function ChunkEnd(last: int, now: int): int {
    Min(Truncate(last) + MINUTE, now)
  }

  /** One round of the loop in `advance`: charge [v.last, end) to a single bucket. */
  ghost function Chunk(v: Series, end: int): Series {
    var b := BucketAt(v, v.last);
    var seconds := if b.seconds.Some? then b.seconds.value else map[];
    var b' := b.(
      observed := b.observed + (end - v.last),
      peak := Max(b.peak, Sum(v.counts)),
      seconds := Some(AddElapsed(seconds, v.counts, end - v.last)),
      revision := b.revision + 1);
    v.(buckets := v.buckets[Truncate(v.last) := b'], last := end)
  }

  ghost function AdvanceFrom(v: Series, now: int): Series
    decreases now - v.last
  {
    if v.last < now then
      TruncateBounds(v.last);
      AdvanceFrom(Chunk(v, ChunkEnd(v.last, now)), now)
    else v
  }

  /** After a long silence only the last 25 hours are integrated. */
  ghost function Resume(v: Series, now: int): Series {
    if v.last < Cutoff(now) then v.(last := Cutoff(now)) else v
  }

  ghost function Advance(v: Series, now: int): Series {
    AdvanceFrom(Resume(v, now), now)
  }

  function SetCount(counts: map<UserID, int>, user: UserID, n: int): map<UserID, int> {
    if n == 0 then counts - {user} else counts[user := n]
  }

  ghost function TouchPeak(v: Series, now: int): Series {
    var b := BucketAt(v, now);
    v.(buckets := v.buckets[Truncate(now) := b.(peak := Max(b.peak, Sum(v.counts)), revision := b.revision + 1)])
  }

  ghost function Change(v: Series, user: UserID, delta: int, now: int): Series {
    var at := Max(now, v.last);
    TouchPeak(Recount(Advance(v, at), user, delta, at), at)
  }

  function Recount(v: Series, user: UserID, delta: int, at: int): Series {
    v.(lastUsed := at, counts := SetCount(v.counts, user, Get(v.counts, user) + delta))
  }

  // ---- the imperative forms --------------------------------------------------

  method TotalCount(counts: map<UserID, int>) returns (total: int)
    ensures total == Sum(counts)
  {
    total := 0;
    var rest := counts;
    while rest != map[]
      invariant total + Sum(rest) == Sum(counts)
      decreases rest.Keys
    {
      var u :| u in rest;
      SumRemove(rest, u);
      total := total + rest[u];
      rest := rest - {u};
    }
  }

  method ChargeUsers(seconds: map<UserID, int>, counts: map<UserID, int>, elapsed: int) returns (out: map<UserID, int>)
    requires forall u <- counts :: 0 < counts[u]
    ensures out == AddElapsed(seconds, counts, elapsed)
  {
    out := seconds;
    var todo := counts.Keys;
    while todo != {}
      invariant todo <= counts.Keys
      invariant out.Keys == seconds.Keys + (counts.Keys - todo)
      invariant forall u <- out ::
        out[u] == Get(seconds, u) + (if u in todo then 0 else RequestTime(Get(counts, u), elapsed))
      decreases todo
    {
      var u :| u in todo;
      if counts[u] > 0 {
        out := out[u := Get(out, u) + counts[u] * elapsed];
      }
      todo := todo - {u};
    }
  }

  /** The loop body of `advance`; the bucket it writes is never one whose member map
      was dropped. */
  method ChargeBucket(v: Series, end: int, total: int) returns (w: Series)
    requires SeriesOk(v) && v.last < end && total == Sum(v.counts)
    ensures w == Chunk(v, end)
  {
    OpenBucket(v, v.last);
    var elapsed := end - v.last;
    var b := BucketAt(v, v.last);
    var seconds := ChargeUsers(b.seconds.value, v.counts, elapsed);
    b := b.(observed := b.observed + elapsed, peak := Max(b.peak, total), seconds := Some(seconds), revision := b.revision + 1);
    w := v.(buckets := v.buckets[Truncate(v.last) := b], last := end);
  }

  method AdvanceSeries(v0: Series, now: int) returns (v: Series)
    requires SeriesOk(v0)
    ensures v == Advance(v0, now)
  {
    hide Truncate;
    v := v0;
    var cutoff := Truncate(now - RETENTION);
    if v.last < cutoff {
      v := v.(last := cutoff);
    }
    ResumeOk(v0, now);
    var total := TotalCount(v.counts);
    assert v == Resume(v0, now) && AdvanceFrom(v, now) == Advance(v0, now);
    hide *;
    while v.last < now
      invariant SeriesOk(v) && total == Sum(v.counts)
      invariant AdvanceFrom(v, now) == Advance(v0, now)
      decreases now - v.last
    {
      var end := Truncate(v.last) + MINUTE;
      if end > now {
        end := now;
      }
      OneRound(v, now, end);
      v := ChargeBucket(v, end, total);
    }
    AdvanceDone(v, now);
  }

  lemma OneRound(v: Series, now: int, end: int)
    requires SeriesOk(v) && v.last < now && end == if Truncate(v.last) + MINUTE > now then now else Truncate(v.last) + MINUTE
    ensures v.last < end <= now && SeriesOk(Chunk(v, end)) && Chunk(v, end).last == end && Chunk(v, end).counts == v.counts
    ensures AdvanceFrom(v, now) == AdvanceFrom(Chunk(v, end), now)
  {
    TruncateBounds(v.last);
    ChunkOk(v, end);
    hide Chunk, SeriesOk, Truncate;
  }

  lemma AdvanceDone(v: Series, now: int)
    requires now <= v.last
    ensures AdvanceFrom(v, now) == v
  {
  }

  method AdjustCount(counts: map<UserID, int>, user: UserID, delta: int) returns (out: map<UserID, int>)
    ensures out == SetCount(counts, user, Get(counts, user) + delta)
  {
    out := counts[user := Get(counts, user) + delta];
    if out[user] == 0 {
      out := out - {user};
      assert out == counts - {user};
    }
  }

  method ChangeSeries(v0: Series, user: UserID, delta: int, now: int) returns (v: Series)
    requires SeriesOk(v0) && 0 <= Get(v0.counts, user) + delta
    ensures v == Change(v0, user, delta, now)
  {
    var at := if now < v0.last then v0.last else now;
    v := AdvanceSeries(v0, at);
    var counts := AdjustCount(v.counts, user, delta);
    v := v.(lastUsed := at, counts := counts);
    var total := TotalCount(v.counts);
    var b := BucketAt(v, at);
    b := b.(peak := Max(b.peak, total), revision := b.revision + 1);
    v := v.(buckets := v.buckets[Truncate(at) := b]);
  }

  // ---- well-formedness is kept -----------------------------------------------

  /** The bucket being written is open, so its member map is still there. */
  lemma OpenBucket(v: Series, at: int)
    requires SeriesOk(v) && v.last <= at
    ensures BucketAt(v, at).seconds.Some?
  {
    TruncateBounds(at);
  }

  lemma StillOk(v: Series, now: int)
    requires SeriesOk(v)
    ensures SeriesOk(v.(lastUsed := now))
  {
    forall k | k in v.buckets ensures BucketOk(v.(lastUsed := now), k) {
      assert BucketOk(v, k);
    }
  }

  lemma ChunkOk(v: Series, end: int)
    requires SeriesOk(v) && v.last < end <= Truncate(v.last) + MINUTE
    ensures BucketAt(v, v.last).seconds.Some?
    ensures SeriesOk(Chunk(v, end))
    ensures Chunk(v, end).last == end && Chunk(v, end).counts == v.counts
  {
    OpenBucket(v, v.last);
    TruncateBounds(v.last);
    var w, at := Chunk(v, end), Truncate(v.last);
    forall k | k in w.buckets ensures BucketOk(w, k) {
      if k != at {
        assert BucketOk(v, k);
      } else {
        if at in v.buckets {
          assert BucketOk(v, at);
        }
        var b := w.buckets[at];
        SumOfCounts(v);
        forall u | u in b.Value().members ensures 0 <= b.Value().members[u] {
          if u in v.counts {
            ProductNonNegative(v.counts[u], end - v.last);
          }
        }
      }
    }
  }

  lemma ProductNonNegative(a: int, b: int)
    requires 0 <= a && 0 <= b
    ensures 0 <= a * b
  {
  }

  lemma SumOfCounts(v: Series)
    requires SeriesOk(v)
    ensures 0 <= Sum(v.counts)
  {
    SumNonNegative(v.counts);
  }

  lemma {:induction false} AdvanceFromOk(v: Series, now: int)
    requires SeriesOk(v)
    ensures SeriesOk(AdvanceFrom(v, now))
    ensures AdvanceFrom(v, now).last == Max(v.last, now)
    ensures AdvanceFrom(v, now).counts == v.counts && AdvanceFrom(v, now).lastUsed == v.lastUsed
    ensures AdvanceFrom(v, now).instance == v.instance && AdvanceFrom(v, now).key == v.key
    decreases now - v.last
  {
    if v.last < now {
      TruncateBounds(v.last);
      ChunkOk(v, ChunkEnd(v.last, now));
      AdvanceFromOk(Chunk(v, ChunkEnd(v.last, now)), now);
    }
  }

  lemma ResumeOk(v: Series, now: int)
    requires SeriesOk(v)
    ensures SeriesOk(Resume(v, now))
    ensures v.last <= Resume(v, now).last <= Max(v.last, now)
  {
    TruncateBounds(now - RETENTION);
    forall k | k in v.buckets ensures BucketOk(Resume(v, now), k) {
      assert BucketOk(v, k);
    }
  }

  lemma AdvanceOk(v: Series, now: int)
    requires SeriesOk(v)
    ensures SeriesOk(Advance(v, now))
    ensures Advance(v, now).last == Max(v.last, now)
    ensures Advance(v, now).counts == v.counts && Advance(v, now).lastUsed == v.lastUsed
    ensures Advance(v, now).instance == v.instance && Advance(v, now).key == v.key
  {
    ResumeOk(v, now);
    AdvanceFromOk(Resume(v, now), now);
  }

  lemma TouchPeakOk(v: Series, at: int)
    requires SeriesOk(v) && v.last == at
    ensures SeriesOk(TouchPeak(v, at))
  {
    TruncateBounds(at);
    OpenBucket(v, at);
    SumOfCounts(v);
    var w := TouchPeak(v, at);
    forall k | k in w.buckets ensures BucketOk(w, k) {
      if k in v.buckets {
        assert BucketOk(v, k);
      }
    }
  }

  lemma RecountOk(v: Series, user: UserID, delta: int, at: int)
    requires SeriesOk(v) && 0 <= Get(v.counts, user) + delta
    ensures SeriesOk(Recount(v, user, delta, at))
  {
    var w := Recount(v, user, delta, at);
    forall k | k in w.buckets ensures BucketOk(w, k) {
      assert BucketOk(v, k);
    }
  }

  lemma ChangeOk(v: Series, user: UserID, delta: int, now: int)
    requires SeriesOk(v) && 0 <= Get(v.counts, user) + delta
    ensures SeriesOk(Change(v, user, delta, now))
    ensures Change(v, user, delta, now).counts == SetCount(v.counts, user, Get(v.counts, user) + delta)
    ensures Change(v, user, delta, now).last == Max(v.last, now)
  {
    var at := Max(now, v.last);
    AdvanceOk(v, at);
    RecountOk(Advance(v, at), user, delta, at);
    TouchPeakOk(Recount(Advance(v, at), user, delta, at), at);
  }
}
