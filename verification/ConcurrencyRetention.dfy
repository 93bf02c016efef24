/** What the collector forgets: buckets older than 25 hours at a flush, and series that nobody
    used for as long once everything they held is saved. */
module ConcurrencyRetention {
  import opened MapSums
  import opened ConcurrencySeries
  import opened ConcurrencyFlush
  import opened Units

  const DAY_AND_AN_HOUR: int := 90_000 * SECOND

  // ---- old buckets ---------------------------------------------------------------------

  lemma OnTheMinute(k: int, x: int)
    requires k % MINUTE == 0
    ensures k >= Truncate(x) <==> k + 60 * SECOND > x
  {
    TruncateBounds(x);
    if k < Truncate(x) {
      MinutesApart(k, Truncate(x));
    }
  }

  /** Advancing writes no bucket before the time it starts from, and removes none. */
  lemma {:induction false} AdvanceFromWrites(v: Series, now: int)
    requires SeriesOk(v)
    ensures forall k <- v.buckets :: k in AdvanceFrom(v, now).buckets
    ensures forall k <- AdvanceFrom(v, now).buckets :: k in v.buckets || k >= Truncate(v.last)
    decreases now - v.last
  {
    if v.last < now {
      TruncateBounds(v.last);
      var end := ChunkEnd(v.last, now);
      ChunkOk(v, end);
      assert forall k :: k in Chunk(v, end).buckets <==> k in v.buckets || k == Truncate(v.last);
      hide Chunk, SeriesOk;
      AdvanceFromWrites(Chunk(v, end), now);
      LaterMinute(v.last, end);
      hide Truncate;
    }
  }

  lemma LaterMinute(a: int, b: int)
    requires a <= b
    ensures Truncate(a) <= Truncate(b)
  {
    TruncateBounds(a);
    TruncateBounds(b);
    if Truncate(b) < Truncate(a) {
      MinutesApart(Truncate(b), Truncate(a));
    }
  }

  lemma ResumedNotBefore(v: Series, now: int)
    ensures Truncate(Resume(v, now).last) >= Cutoff(now)
  {
    TruncateBounds(now - RETENTION);
    TruncateBounds(v.last);
    if v.last >= Cutoff(now) && Truncate(v.last) < Cutoff(now) {
      MinutesApart(Truncate(v.last), Cutoff(now));
    }
  }

  /** A flush forgets exactly the buckets whose minute is over for 25 hours. */
  lemma OldBucketsForgotten(v: Series, now: int, k: int)
    requires SeriesOk(v)
    ensures k in Collect(v, now).buckets ==> k + 60 * SECOND > now - DAY_AND_AN_HOUR
    ensures k in v.buckets && k + 60 * SECOND > now - DAY_AND_AN_HOUR ==> k in Collect(v, now).buckets
  {
    hide AdvanceFrom, SeriesOk, Truncate, CopyMinute, Resume;
    var p := Prune(v, now);
    PruneOk(v, now);
    ResumeOk(p, now);
    ResumedNotBefore(p, now);
    SameBuckets(p, now);
    AdvanceFromWrites(Resume(p, now), now);
    if k in v.buckets || k in Collect(v, now).buckets {
      AlignedBucket(v, now, k);
      OnTheMinute(k, now - RETENTION);
    }
  }

  lemma SameBuckets(v: Series, now: int)
    ensures Resume(v, now).buckets == v.buckets
  {
  }

  lemma AlignedBucket(v: Series, now: int, k: int)
    requires SeriesOk(v) && (k in v.buckets || k in Collect(v, now).buckets)
    ensures k % MINUTE == 0
  {
    CollectOk(v, now);
    if k in v.buckets {
      assert BucketOk(v, k);
    } else {
      assert BucketOk(Collect(v, now), k);
    }
  }

  // ---- series nobody uses --------------------------------------------------------------------

  lemma CaughtUp(v: Series, user: UserID, delta: int, now: int)
    requires SeriesOk(v)
    ensures Change(v, user, delta, now).last == Change(v, user, delta, now).lastUsed == Max(v.last, now)
    ensures var w := PublishAll(Advance(v.(lastUsed := now), now)); w.last == Max(v.last, now) && w.lastUsed == now
    ensures Collect(v, now).last == Max(v.last, now) && Collect(v, now).lastUsed == v.lastUsed
  {
    hide SeriesOk;
    PruneOk(v, now);
    AdvanceOk(Prune(v, now), now);
    StillOk(v, now);
    AdvanceOk(v.(lastUsed := now), now);
    AdvanceOk(v, Max(v.last, now));
    hide Advance;
  }

  /** Time that passed is not saved yet. */
  lemma PassedIsPending(v: Series, now: int) returns (k: int)
    requires SeriesOk(v) && v.last < now
    ensures var w := AdvanceFrom(v, now); k in w.buckets && w.buckets[k].saved < w.buckets[k].revision
  {
    k := Truncate(v.last);
    TruncateBounds(v.last);
    var end := ChunkEnd(v.last, now);
    var c := Chunk(v, end);
    ChunkOk(v, end);
    if k in v.buckets {
      assert BucketOk(v, k);
    }
    assert c.buckets[k].saved < c.buckets[k].revision;
    AdvanceFromEvolves(c, now);
    assert EvolvesAt(c, AdvanceFrom(c, now), k);
  }

  lemma CollectIsPending(v: Series, now: int) returns (k: int)
    requires SeriesOk(v) && v.last < now
    ensures k in PendingOf(Collect(v, now)) && Matches(Collect(v, now), PendingOf(Collect(v, now)), k)
  {
    var p := Prune(v, now);
    PruneOk(v, now);
    ResumeOk(p, now);
    TruncateBounds(now - RETENTION);
    hide SeriesOk, AdvanceFrom, Truncate;
    k := PassedIsPending(Resume(p, now), now);
    var a := Advance(p, now);
    assert k in a.buckets && a.buckets[k].saved < a.buckets[k].revision;
    AdvanceOk(p, now);
    PendingMatches(PublishUnsaved(a), k);
  }

  lemma PendingMatches(w: Series, k: int)
    requires k in w.buckets && w.buckets[k].revision != w.buckets[k].saved && w.buckets[k].Value().instance == w.buckets[k].instance
    ensures k in PendingOf(w) && Matches(w, PendingOf(w), k)
  {
  }

  lemma CollectedTimes(v: Series, now: int)
    requires SeriesOk(v) && v.last <= now
    ensures Collect(v, now).last == now && Collect(v, now).lastUsed == v.lastUsed && Collect(v, now).counts == v.counts
  {
    PruneOk(v, now);
    AdvanceOk(Prune(v, now), now);
    hide Advance, SeriesOk;
  }

  lemma AcknowledgedClean(w: Series)
    requires SeriesOk(w)
    ensures Clean(Acknowledged(w, PendingOf(w)))
  {
    forall k | k in w.buckets ensures Acknowledged(w, PendingOf(w)).buckets[k].saved == w.buckets[k].revision {
      assert BucketOk(w, k);
    }
  }

  lemma QuietFlush(f: Flush, now: int)
    requires f.phase.Idle?
    ensures var h := BeginFlush(f.history, now);
            Step(Step(Step(f, Begin(now)), SaveOk), Acknowledge).history == AckFlush(h, BatchOf(h))
  {
    hide BeginFlush, BatchOf, AckFlush, SaveRows, RowsOf;
  }

  lemma CollectedKey(h: History, now: int, key: SeriesKey)
    requires key in h.series
    ensures var g := BeginFlush(h, now);
            key in g.series && g.series[key] == Collect(h.series[key], now) && key in BatchOf(g) && BatchOf(g)[key] == PendingOf(g.series[key])
  {
    hide Collect, PendingOf;
  }

  lemma AcknowledgedKey(h: History, batch: Batch, key: SeriesKey)
    requires key in h.series && key in batch
    ensures key !in AckFlush(h, batch).series <==> Touched(h.series[key], batch[key]) && Droppable(Acknowledged(h.series[key], batch[key]))
  {
    hide Touched, Droppable, Acknowledged;
  }

  lemma ForgottenSeries(v: Series, now: int)
    requires SeriesOk(v) && v.last < now
    ensures var w := Collect(v, now);
            Touched(w, PendingOf(w)) && Droppable(Acknowledged(w, PendingOf(w))) <==> v.counts == map[] && now - v.lastUsed > DAY_AND_AN_HOUR
  {
    hide Collect, SeriesOk, Clean, PendingOf, Matches;
    var k := CollectIsPending(v, now);
    CollectedTimes(v, now);
    CollectOk(v, now);
    AcknowledgedClean(Collect(v, now));
  }

  lemma SeriesIsOk(f: Flush, key: SeriesKey)
    requires FlushInv(f) && key in f.history.series
    ensures SeriesOk(f.history.series[key])
  {
    hide SeriesOk, EntryOk, SeriesStored;
  }

  /** A change and a read bring their series up to date, and a flush every series: none leaves
      time before it uncounted. A read counts as a use even if no request comes. */
  lemma NothingIsLeftBehind(h: History, key: SeriesKey, user: UserID, delta: int, now: int)
    requires HistoryOk(h)
    ensures var g := ChangeHistory(h, key, user, delta, now); key in g.series && g.series[key].last >= now && g.series[key].lastUsed == g.series[key].last
    ensures var g := ReadLive(h, key, now); key in g.series && g.series[key].last >= now && g.series[key].lastUsed == now
    ensures forall k <- h.series ::
      k in BeginFlush(h, now).series && BeginFlush(h, now).series[k].last >= now && BeginFlush(h, now).series[k].lastUsed == h.series[k].lastUsed
  {
    hide Change, Advance, Collect, SeriesOk, PublishAll;
    EnsureOk(h, key, now);
    CaughtUp(Ensure(h, key, now).series[key], user, delta, now);
    forall k | k in h.series ensures Collect(h.series[k], now).last >= now && Collect(h.series[k], now).lastUsed == h.series[k].lastUsed {
      CaughtUp(h.series[k], user, delta, now);
    }
  }

  /** A flush that nothing interrupts forgets a series exactly when no request is live in it and
      it was last used more than 25 hours before. */
  lemma QuietFlushForgets(f: Flush, now: int, key: SeriesKey)
    requires FlushInv(f) && f.phase.Idle? && key in f.history.series && f.history.series[key].last < now
    ensures var v := f.history.series[key];
            key !in Step(Step(Step(f, Begin(now)), SaveOk), Acknowledge).history.series
            <==> v.counts == map[] && now - v.lastUsed > DAY_AND_AN_HOUR
  {
    hide FlushInv, SeriesOk, Touched, Droppable, Acknowledged, Collect, PendingOf, BeginFlush, BatchOf, AckFlush, Step;
    SeriesIsOk(f, key);
    QuietFlush(f, now);
    CollectedKey(f.history, now, key);
    AcknowledgedKey(BeginFlush(f.history, now), BatchOf(BeginFlush(f.history, now)), key);
    ForgottenSeries(f.history.series[key], now);
  }
}
