/** The collector's table of series and the protocol that hands its buckets to the store:
    snapshot, save, acknowledge, with updates and reads in between. */
module ConcurrencyFlush {
  import opened MapSums
  import opened ConcurrencySeries
  import opened Units

  const KEPT: int := 48 * 60 * MINUTE // how long rows stay in the store

  datatype History = History(series: map<SeriesKey, Series>, nextSeries: nat)

  datatype Pending = Pending(value: Minute, revision: nat)

  type Batch = map<SeriesKey, map<int, Pending>>

  // ---- the collector's operations ---------------------------------------------

  /** `series`: look up, or create under the next instance number. */
  function Ensure(h: History, key: SeriesKey, now: int): History {
    if key in h.series then h
    else History(h.series[key := NewSeries(h.nextSeries + 1, key, now)], h.nextSeries + 1)
  }

  ghost function ChangeHistory(h: History, key: SeriesKey, user: UserID, delta: int, now: int): History {
    var g := Ensure(h, key, now);
    g.(series := g.series[key := Change(g.series[key], user, delta, now)])
  }

  function CountOf(h: History, key: SeriesKey, user: UserID): int {
    if key in h.series then Get(h.series[key].counts, user) else 0
  }

  /** `copyMinute`: reuse a fresh snapshot, otherwise take one; a completed bucket then
      gives up its member map. */
  function CopyMinute(last: int, b: Bucket): Bucket {
    if b.SnapshotFresh() then b
    else b.(
      snapshot := Some(b.Value()), snapshotRevision := b.revision,
      seconds := if b.start + MINUTE <= last then None else b.seconds)
  }

  function PublishUnsaved(v: Series): Series {
    v.(buckets := map k | k in v.buckets ::
      if v.buckets[k].revision != v.buckets[k].saved then CopyMinute(v.last, v.buckets[k]) else v.buckets[k])
  }

  function PublishAll(v: Series): Series {
    v.(buckets := map k | k in v.buckets :: CopyMinute(v.last, v.buckets[k]))
  }

  function Prune(v: Series, now: int): Series {
    v.(buckets := map k | k in v.buckets && k >= Cutoff(now) :: v.buckets[k])
  }

  ghost function Collect(v: Series, now: int): Series {
    PublishUnsaved(Advance(Prune(v, now), now))
  }

  function PendingOf(v: Series): map<int, Pending> {
    map k | k in v.buckets && v.buckets[k].revision != v.buckets[k].saved ::
      Pending(v.buckets[k].Value(), v.buckets[k].revision)
  }

  /** `pendingMinutes`: prune, advance, and list every bucket not saved at its revision. */
  ghost function BeginFlush(h: History, now: int): History {
    h.(series := map key | key in h.series :: Collect(h.series[key], now))
  }

  function BatchOf(h: History): Batch {
    map key | key in h.series :: PendingOf(h.series[key])
  }

  predicate Matches(v: Series, entries: map<int, Pending>, k: int) {
    k in entries && k in v.buckets && v.buckets[k].instance == entries[k].value.instance
  }

  function Acknowledged(v: Series, entries: map<int, Pending>): Series {
    v.(buckets := map k | k in v.buckets ::
      if Matches(v, entries, k) then v.buckets[k].(saved := MaxNat(v.buckets[k].saved, entries[k].revision))
      else v.buckets[k])
  }

  function MaxNat(a: nat, b: nat): nat {
    if a < b then b else a
  }

  predicate Touched(v: Series, entries: map<int, Pending>) {
    exists k :: k in entries && Matches(v, entries, k)
  }

  predicate Clean(v: Series) {
    forall k <- v.buckets :: v.buckets[k].saved == v.buckets[k].revision
  }

  /** Idle for more than 25 hours and fully saved. */
  predicate Droppable(v: Series) {
    v.counts == map[] && v.last - v.lastUsed > RETENTION && Clean(v)
  }

  /** `acknowledgeMinutes`: mark the saved revisions, then drop touched series that are
      idle and fully saved. */
  function AckFlush(h: History, batch: Batch): History {
    h.(series := map key | key in h.series && !Dropped(h, batch, key) ::
      if key in batch then Acknowledged(h.series[key], batch[key]) else h.series[key])
  }

  predicate Dropped(h: History, batch: Batch, key: SeriesKey) requires key in h.series {
    key in batch && Touched(h.series[key], batch[key]) && Droppable(Acknowledged(h.series[key], batch[key]))
  }

  /** `liveHistory`: a read also counts as use, and publishes every bucket. */
  ghost function ReadLive(h: History, key: SeriesKey, now: int): History {
    var g := Ensure(h, key, now);
    g.(series := g.series[key := PublishAll(Advance(g.series[key].(lastUsed := now), now))])
  }

  // ---- well-formedness ---------------------------------------------------------

  ghost predicate HistoryOk(h: History) {
    && (forall key <- h.series :: SeriesOk(h.series[key]) && h.series[key].key == key && 1 <= h.series[key].instance <= h.nextSeries)
    && (forall a, b :: a in h.series && b in h.series && a != b ==> h.series[a].instance != h.series[b].instance)
  }

  lemma EnsureOk(h: History, key: SeriesKey, now: int)
    requires HistoryOk(h)
    ensures HistoryOk(Ensure(h, key, now)) && key in Ensure(h, key, now).series
    ensures forall k, u :: CountOf(Ensure(h, key, now), k, u) == CountOf(h, k, u)
    ensures key !in h.series ==>
      forall k <- h.series :: h.series[k].instance < Ensure(h, key, now).series[key].instance
  {
  }

  lemma ChangeHistoryOk(h: History, key: SeriesKey, user: UserID, delta: int, now: int)
    requires HistoryOk(h) && 0 <= CountOf(h, key, user) + delta
    ensures HistoryOk(ChangeHistory(h, key, user, delta, now))
    ensures forall k, u :: CountOf(ChangeHistory(h, key, user, delta, now), k, u)
                        == CountOf(h, k, u) + if k == key && u == user then delta else 0
  {
    hide ConcurrencySeries.Change;
    EnsureOk(h, key, now);
    var g := Ensure(h, key, now);
    assert CountOf(g, key, user) == CountOf(h, key, user);
    var v, w := g.series[key], Change(g.series[key], user, delta, now);
    ChangeOk(v, user, delta, now);
    ChangeIdentity(v, user, delta, now);
    forall k, u ensures CountOf(g.(series := g.series[key := w]), k, u)
      == CountOf(g, k, u) + if k == key && u == user then delta else 0
    {
    }
  }

  lemma ChangeIdentity(v: Series, user: UserID, delta: int, now: int)
    requires SeriesOk(v)
    ensures Change(v, user, delta, now).instance == v.instance && Change(v, user, delta, now).key == v.key
  {
    AdvanceOk(v, Max(now, v.last));
  }

  lemma CopyMinuteOk(v: Series, k: int)
    requires SeriesOk(v) && k in v.buckets
    ensures CopyMinute(v.last, v.buckets[k]).Value() == v.buckets[k].Value()
    ensures CopyMinute(v.last, v.buckets[k]).SnapshotFresh()
    ensures CopyMinute(v.last, v.buckets[k]).snapshot.value == v.buckets[k].Value()
  {
    assert BucketOk(v, k);
  }

  lemma PublishOk(v: Series)
    requires SeriesOk(v)
    ensures SeriesOk(PublishAll(v)) && SeriesOk(PublishUnsaved(v))
  {
    forall k | k in v.buckets ensures BucketOk(PublishAll(v), k) && BucketOk(PublishUnsaved(v), k) {
      assert BucketOk(v, k);
      CopyMinuteOk(v, k);
    }
  }

  lemma PruneOk(v: Series, now: int)
    requires SeriesOk(v)
    ensures SeriesOk(Prune(v, now))
  {
    forall k | k in Prune(v, now).buckets ensures BucketOk(Prune(v, now), k) {
      assert BucketOk(v, k);
    }
  }

  lemma CollectOk(v: Series, now: int)
    requires SeriesOk(v)
    ensures SeriesOk(Collect(v, now))
    ensures Collect(v, now).counts == v.counts && Collect(v, now).instance == v.instance && Collect(v, now).key == v.key
  {
    PruneOk(v, now);
    AdvanceOk(Prune(v, now), now);
    PublishOk(Advance(Prune(v, now), now));
  }

  lemma AcknowledgedOk(v: Series, entries: map<int, Pending>)
    requires SeriesOk(v) && forall k :: Matches(v, entries, k) ==> entries[k].revision <= v.buckets[k].revision
    ensures SeriesOk(Acknowledged(v, entries))
  {
    var w := Acknowledged(v, entries);
    forall k | k in w.buckets ensures BucketOk(w, k) {
      assert BucketOk(v, k);
      if Matches(v, entries, k) {
        assert w.buckets[k].Value() == v.buckets[k].Value();
      }
    }
  }

  // ---- how a series may evolve between a snapshot and its acknowledgement ---------

  /** No bucket disappears, acknowledgements stay, and a bucket whose revision did not
      move still has the same value. */
  ghost predicate Evolves(v: Series, w: Series) {
    && w.instance == v.instance && w.key == v.key
    && v.buckets.Keys <= w.buckets.Keys
    && (forall k <- w.buckets :: EvolvesAt(v, w, k))
  }

  ghost predicate EvolvesAt(v: Series, w: Series, k: int) requires k in w.buckets {
    if k in v.buckets then
      && w.buckets[k].saved == v.buckets[k].saved && v.buckets[k].revision <= w.buckets[k].revision
      && (w.buckets[k].revision == v.buckets[k].revision ==> w.buckets[k].Value() == v.buckets[k].Value())
    else w.buckets[k].saved == 0
  }

  lemma EvolvesTransitive(v: Series, w: Series, x: Series)
    requires Evolves(v, w) && Evolves(w, x)
    ensures Evolves(v, x)
  {
    forall k | k in x.buckets ensures EvolvesAt(v, x, k) {
      assert EvolvesAt(w, x, k);
      if k in w.buckets {
        assert EvolvesAt(v, w, k);
      }
    }
  }

  lemma {:induction false} AdvanceFromEvolves(v: Series, now: int)
    requires SeriesOk(v)
    ensures Evolves(v, AdvanceFrom(v, now))
    decreases now - v.last
  {
    if v.last < now {
      TruncateBounds(v.last);
      var end := ChunkEnd(v.last, now);
      ChunkOk(v, end);
      AdvanceFromEvolves(Chunk(v, end), now);
      EvolvesTransitive(v, Chunk(v, end), AdvanceFrom(v, now));
    }
  }

  lemma AdvanceEvolves(v: Series, now: int)
    requires SeriesOk(v)
    ensures Evolves(v, Advance(v, now))
  {
    ResumeOk(v, now);
    AdvanceFromEvolves(Resume(v, now), now);
    assert Evolves(v, Resume(v, now));
    EvolvesTransitive(v, Resume(v, now), Advance(v, now));
  }

  lemma ChangeEvolves(v: Series, user: UserID, delta: int, now: int)
    requires SeriesOk(v) && 0 <= Get(v.counts, user) + delta
    ensures Evolves(v, Change(v, user, delta, now))
  {
    var at := Max(now, v.last);
    AdvanceEvolves(v, at);
    EvolvesTransitive(v, Advance(v, at), Change(v, user, delta, now));
  }

  lemma PublishEvolves(v: Series)
    requires SeriesOk(v)
    ensures Evolves(v, PublishAll(v)) && Evolves(v, PublishUnsaved(v))
  {
    forall k | k in v.buckets ensures EvolvesAt(v, PublishAll(v), k) && EvolvesAt(v, PublishUnsaved(v), k) {
      CopyMinuteOk(v, k);
    }
  }

  lemma ReadEvolves(v: Series, now: int)
    requires SeriesOk(v)
    ensures var w := PublishAll(Advance(v.(lastUsed := now), now)); Evolves(v, w) && SeriesOk(w) && w.counts == v.counts
  {
    var u := v.(lastUsed := now);
    assert SeriesOk(u) by {
      forall k | k in u.buckets ensures BucketOk(u, k) {
        assert BucketOk(v, k);
      }
    }
    AdvanceOk(u, now);
    AdvanceEvolves(u, now);
    PublishOk(Advance(u, now));
    PublishEvolves(Advance(u, now));
    EvolvesTransitive(u, Advance(u, now), PublishAll(Advance(u, now)));
    assert Evolves(v, u);
    EvolvesTransitive(v, u, PublishAll(Advance(u, now)));
  }

  // ---- the flush protocol -------------------------------------------------------

  datatype Row = Row(instance: nat, key: SeriesKey, start: int)

  datatype Phase = Idle | Snapped(batch: Batch) | Saved(batch: Batch)

  /** `alive`: the account and plan behind the key still exist; `expired`: the rows that
      cleanup deleted for their age and that were not saved again. */
  datatype Flush = Flush(history: History, store: map<Row, Minute>, expired: set<Row>, alive: set<SeriesKey>, phase: Phase)

  datatype Event =
    | Update(key: SeriesKey, user: UserID, delta: int, now: int)
    | Read(key: SeriesKey, now: int)
    | Begin(now: int)
    | SaveOk
    | SaveFailed
    | SaveUnanswered // committed, but the caller gets an error
    | Acknowledge
    | Remove(keys: set<SeriesKey>)
    | Expire(rows: set<Row>, now: int) // one batch of `CleanupResources`

  predicate Enabled(f: Flush, e: Event) {
    match e
    case Update(key, user, delta, _) => 0 <= CountOf(f.history, key, user) + delta
    case Read(_, _) => true
    case Begin(_) => f.phase.Idle? // flushes are serialised by a mutex
    case SaveOk => f.phase.Snapped?
    case SaveFailed => f.phase.Snapped?
    case SaveUnanswered => f.phase.Snapped?
    case Acknowledge => f.phase.Saved?
    case Remove(_) => true
    case Expire(rows, now) => forall row <- rows :: row.start < now - KEPT
  }

  /** `SaveConcurrencyMinutes`: an upsert of every row whose account and plan exist. */
  function SaveRows(store: map<Row, Minute>, alive: set<SeriesKey>, batch: Batch): map<Row, Minute> {
    var rows := RowsOf(alive, batch);
    map row | row in store.Keys + rows ::
      if row in rows then batch[row.key][row.start].value else store[row]
  }

  function RowsOf(alive: set<SeriesKey>, batch: Batch): set<Row> {
    set key, k | key in batch && key in alive && k in batch[key] :: Row(batch[key][k].value.instance, key, k)
  }

  function Save(f: Flush, batch: Batch): Flush {
    f.(store := SaveRows(f.store, f.alive, batch), expired := f.expired - RowsOf(f.alive, batch))
  }

  ghost function Step(f: Flush, e: Event): Flush requires Enabled(f, e) {
    match e
    case Update(key, user, delta, now) => f.(history := ChangeHistory(f.history, key, user, delta, now))
    case Read(key, now) => f.(history := ReadLive(f.history, key, now))
    case Begin(now) =>
      var h := BeginFlush(f.history, now);
      f.(history := h, phase := Snapped(BatchOf(h)))
    case SaveOk => Save(f, f.phase.batch).(phase := Saved(f.phase.batch))
    case SaveFailed => f.(phase := Idle)
    case SaveUnanswered => Save(f, f.phase.batch).(phase := Idle)
    case Acknowledge => f.(history := AckFlush(f.history, f.phase.batch), phase := Idle)
    case Remove(keys) => f.(alive := f.alive - keys, store := map row | row in f.store && row.key !in keys :: f.store[row])
    case Expire(rows, now) => f.(store := f.store - rows, expired := f.expired + rows * f.store.Keys)
  }

  ghost function Run(f: Flush, es: seq<Event>): Option<Flush>
    decreases |es|
  {
    if es == [] then Some(f)
    else if Enabled(f, es[0]) then Run(Step(f, es[0]), es[1..]) else None
  }

  /** A bucket marked saved at its revision has its current value in the store, unless its
      row was deleted for its age. */
  ghost predicate SavedIsStored(f: Flush) {
    forall key <- f.history.series :: key in f.alive ==> SeriesStored(f.store, f.expired, f.history.series[key])
  }

  ghost predicate HasRow(store: map<Row, Minute>, expired: set<Row>, row: Row, value: Minute) {
    row in expired || (row in store && store[row] == value)
  }

  ghost predicate SeriesStored(store: map<Row, Minute>, expired: set<Row>, v: Series) {
    forall k <- v.buckets :: v.buckets[k].saved == v.buckets[k].revision ==>
      HasRow(store, expired, Row(v.instance, v.key, k), v.buckets[k].Value())
  }

  /** What is known of a batch entry while its flush is in flight. */
  ghost predicate EntryOk(h: History, key: SeriesKey, k: int, q: Pending) {
    && q.value.key == key && q.value.start == k && 1 <= q.value.instance <= h.nextSeries
    && (key in h.series && h.series[key].instance == q.value.instance ==>
          k in h.series[key].buckets && var b := h.series[key].buckets[k];
          b.saved < q.revision <= b.revision && (q.revision == b.revision ==> q.value == b.Value()))
  }

  ghost predicate BatchOk(h: History, batch: Batch) {
    forall key, k :: key in batch && k in batch[key] ==> EntryOk(h, key, k, batch[key][k])
  }

  ghost predicate BatchStored(f: Flush, batch: Batch) {
    forall key, k :: key in batch && key in f.alive && k in batch[key] ==>
      HasRow(f.store, f.expired, Row(batch[key][k].value.instance, key, k), batch[key][k].value)
  }

  ghost predicate FlushInv(f: Flush) {
    && HistoryOk(f.history)
    && SavedIsStored(f)
    && (forall row <- f.store :: 1 <= row.instance <= f.history.nextSeries) && f.expired !! f.store.Keys
    && (!f.phase.Idle? ==> BatchOk(f.history, f.phase.batch))
    && (f.phase.Saved? ==> BatchStored(f, f.phase.batch))
  }

  lemma EvolvedStaysStored(store: map<Row, Minute>, expired: set<Row>, v: Series, w: Series)
    requires SeriesOk(v) && SeriesOk(w) && Evolves(v, w) && SeriesStored(store, expired, v)
    ensures SeriesStored(store, expired, w)
  {
    forall k | k in w.buckets && w.buckets[k].saved == w.buckets[k].revision
      ensures HasRow(store, expired, Row(w.instance, w.key, k), w.buckets[k].Value())
    {
      assert EvolvesAt(v, w, k) && BucketOk(w, k);
      if k in v.buckets {
        assert BucketOk(v, k);
      }
    }
  }

  /** Replacing one series by an evolved one keeps the invariant. */
  lemma EvolveKeepsInv(f: Flush, key: SeriesKey, w: Series)
    requires FlushInv(f) && key in f.history.series
    requires SeriesOk(w) && Evolves(f.history.series[key], w)
    ensures FlushInv(f.(history := f.history.(series := f.history.series[key := w])))
  {
    var v := f.history.series[key];
    var g := f.history.(series := f.history.series[key := w]);
    if key in f.alive {
      EvolvedStaysStored(f.store, f.expired, v, w);
    }
    if !f.phase.Idle? {
      var batch := f.phase.batch;
      forall x, k | x in batch && k in batch[x] ensures EntryOk(g, x, k, batch[x][k]) {
        assert EntryOk(f.history, x, k, batch[x][k]);
        if x == key && k in w.buckets {
          assert EvolvesAt(v, w, k) && BucketOk(w, k);
        }
      }
    }
  }

  lemma EnsureKeepsInv(f: Flush, key: SeriesKey, now: int)
    requires FlushInv(f)
    ensures FlushInv(f.(history := Ensure(f.history, key, now)))
  {
    EnsureOk(f.history, key, now);
    var h := Ensure(f.history, key, now);
    if !f.phase.Idle? {
      forall x, k | x in f.phase.batch && k in f.phase.batch[x] ensures EntryOk(h, x, k, f.phase.batch[x][k]) {
        assert EntryOk(f.history, x, k, f.phase.batch[x][k]);
      }
    }
  }

  lemma UpdateKeepsInv(f: Flush, key: SeriesKey, user: UserID, delta: int, now: int)
    requires FlushInv(f) && 0 <= CountOf(f.history, key, user) + delta
    ensures FlushInv(f.(history := ChangeHistory(f.history, key, user, delta, now)))
  {
    EnsureKeepsInv(f, key, now);
    EnsureOk(f.history, key, now);
    var g := f.(history := Ensure(f.history, key, now));
    var v := g.history.series[key];
    assert CountOf(g.history, key, user) == CountOf(f.history, key, user);
    ChangeOk(v, user, delta, now);
    ChangeEvolves(v, user, delta, now);
    EvolveKeepsInv(g, key, Change(v, user, delta, now));
  }

  lemma ReadKeepsInv(f: Flush, key: SeriesKey, now: int)
    requires FlushInv(f)
    ensures FlushInv(f.(history := ReadLive(f.history, key, now)))
  {
    EnsureKeepsInv(f, key, now);
    EnsureOk(f.history, key, now);
    var g := f.(history := Ensure(f.history, key, now));
    var v := g.history.series[key];
    ReadEvolves(v, now);
    EvolveKeepsInv(g, key, PublishAll(Advance(v.(lastUsed := now), now)));
  }

  lemma CollectStored(store: map<Row, Minute>, expired: set<Row>, v: Series, now: int)
    requires SeriesOk(v) && SeriesStored(store, expired, v)
    ensures SeriesStored(store, expired, Collect(v, now))
  {
    var p := Prune(v, now);
    PruneOk(v, now);
    AdvanceOk(p, now);
    AdvanceEvolves(p, now);
    EvolvedStaysStored(store, expired, p, Advance(p, now));
    PublishOk(Advance(p, now));
    PublishEvolves(Advance(p, now));
    EvolvedStaysStored(store, expired, Advance(p, now), Collect(v, now));
  }

  lemma BeginKeepsInv(f: Flush, now: int)
    requires FlushInv(f) && f.phase.Idle?
    ensures FlushInv(Step(f, Begin(now)))
  {
    var g := Step(f, Begin(now));
    forall key | key in f.history.series
      ensures SeriesOk(g.history.series[key]) && g.history.series[key].key == key
      ensures g.history.series[key].instance == f.history.series[key].instance
      ensures key in f.alive ==> SeriesStored(f.store, f.expired, g.history.series[key])
    {
      CollectOk(f.history.series[key], now);
      if key in f.alive {
        CollectStored(f.store, f.expired, f.history.series[key], now);
      }
    }
    var batch := g.phase.batch;
    forall key, k | key in batch && k in batch[key] ensures EntryOk(g.history, key, k, batch[key][k]) {
      assert BucketOk(g.history.series[key], k);
    }
  }

  lemma SaveKeepsInv(f: Flush)
    requires FlushInv(f) && f.phase.Snapped?
    ensures FlushInv(Step(f, SaveOk))
  {
    var g, batch := Step(f, SaveOk), f.phase.batch;
    forall key | key in f.history.series && key in f.alive ensures SeriesStored(g.store, g.expired, f.history.series[key]) {
      var v := f.history.series[key];
      forall k | k in v.buckets && v.buckets[k].saved == v.buckets[k].revision
        ensures HasRow(g.store, g.expired, Row(v.instance, v.key, k), v.buckets[k].Value())
      {
        assert HasRow(f.store, f.expired, Row(v.instance, key, k), v.buckets[k].Value());
        if key in batch && k in batch[key] {
          assert EntryOk(f.history, key, k, batch[key][k]);
        }
      }
    }
    forall row | row in g.store ensures 1 <= row.instance <= f.history.nextSeries {
      if row !in f.store {
        assert EntryOk(f.history, row.key, row.start, batch[row.key][row.start]);
      }
    }
  }

  lemma AckKeepsInv(f: Flush)
    requires FlushInv(f) && f.phase.Saved?
    ensures FlushInv(Step(f, Acknowledge))
  {
    var g, batch := Step(f, Acknowledge), f.phase.batch;
    forall key | key in g.history.series
      ensures SeriesOk(g.history.series[key]) && (key in f.alive ==> SeriesStored(f.store, f.expired, g.history.series[key]))
    {
      var v := f.history.series[key];
      if key in batch {
        AckOneSeries(f, key);
      }
    }
  }

  lemma AckOneSeries(f: Flush, key: SeriesKey)
    requires FlushInv(f) && f.phase.Saved? && key in f.history.series && key in f.phase.batch
    ensures SeriesOk(Acknowledged(f.history.series[key], f.phase.batch[key]))
    ensures key in f.alive ==> SeriesStored(f.store, f.expired, Acknowledged(f.history.series[key], f.phase.batch[key]))
  {
    var v, entries := f.history.series[key], f.phase.batch[key];
    forall k | Matches(v, entries, k) ensures entries[k].revision <= v.buckets[k].revision {
      assert EntryOk(f.history, key, k, entries[k]) && BucketOk(v, k);
    }
    AcknowledgedOk(v, entries);
    var w := Acknowledged(v, entries);
    if key in f.alive {
      forall k | k in w.buckets && w.buckets[k].saved == w.buckets[k].revision
        ensures HasRow(f.store, f.expired, Row(w.instance, w.key, k), w.buckets[k].Value())
      {
        assert BucketOk(v, k);
        assert w.buckets[k].Value() == v.buckets[k].Value();
        if Matches(v, entries, k) {
          assert EntryOk(f.history, key, k, entries[k]);
        }
      }
    }
  }

  lemma StepKeepsInv(f: Flush, e: Event)
    requires FlushInv(f) && Enabled(f, e)
    ensures FlushInv(Step(f, e))
  {
    match e
    case Update(key, user, delta, now) => UpdateKeepsInv(f, key, user, delta, now);
    case Read(key, now) => ReadKeepsInv(f, key, now);
    case Begin(now) => BeginKeepsInv(f, now);
    case SaveOk => SaveKeepsInv(f);
    case SaveFailed =>
    case SaveUnanswered => SaveKeepsInv(f);
    case Acknowledge => AckKeepsInv(f);
    case Remove(keys) =>
    case Expire(rows, now) =>
  }

  /** Over every run of updates, reads, cleanups, and flushes that fail, succeed or commit
      without the caller learning of it: a bucket marked saved at its revision has its current
      value in the store, or its row was deleted more than 48 hours after the bucket's minute. */
  lemma {:induction false} FlushIsSafe(f: Flush, es: seq<Event>)
    requires FlushInv(f) && Run(f, es).Some?
    ensures FlushInv(Run(f, es).value)
    decreases |es|
  {
    if es != [] {
      StepKeepsInv(f, es[0]);
      FlushIsSafe(Step(f, es[0]), es[1..]);
    }
  }

  lemma InitiallyOk(alive: set<SeriesKey>)
    ensures FlushInv(Flush(History(map[], 0), map[], {}, alive, Idle))
  {
  }

  /** Dropping a series loses nothing: it was idle and everything it held is stored, apart from
      rows deleted for their age. */
  lemma DroppedWasIdleAndStored(f: Flush, key: SeriesKey)
    requires FlushInv(f) && f.phase.Saved?
    requires key in f.history.series && key !in Step(f, Acknowledge).history.series
    ensures f.history.series[key].counts == map[]
    ensures key in f.alive ==> forall k <- f.history.series[key].buckets ::
      var v := f.history.series[key]; HasRow(f.store, f.expired, Row(v.instance, key, k), v.buckets[k].Value())
  {
    AckOneSeries(f, key);
    var v := f.history.series[key];
    var w := Acknowledged(v, f.phase.batch[key]);
    forall k | k in v.buckets ensures w.buckets[k].Value() == v.buckets[k].Value() {
      assert BucketOk(v, k);
    }
  }

  /** A bucket changed between its snapshot and the acknowledgement stays pending. */
  lemma ChangedStaysPending(f: Flush, key: SeriesKey, k: int)
    requires FlushInv(f) && f.phase.Saved? && key in f.history.series && key in f.phase.batch
    requires Matches(f.history.series[key], f.phase.batch[key], k)
    requires f.phase.batch[key][k].revision != f.history.series[key].buckets[k].revision
    ensures key in Step(f, Acknowledge).history.series
    ensures var b := Step(f, Acknowledge).history.series[key].buckets[k]; b.saved != b.revision
  {
    var v, entries := f.history.series[key], f.phase.batch[key];
    assert EntryOk(f.history, key, k, entries[k]) && BucketOk(v, k);
    var w := Acknowledged(v, entries);
    assert w.buckets[k].saved != w.buckets[k].revision;
    assert !Clean(w);
  }

  /** A flush that nothing interrupts leaves every surviving bucket saved. */
  lemma QuietFlushSavesAll(f: Flush, now: int, key: SeriesKey, k: int)
    requires FlushInv(f) && f.phase.Idle?
    requires var g := Step(Step(Step(f, Begin(now)), SaveOk), Acknowledge);
             key in g.history.series && k in g.history.series[key].buckets
    ensures var b := Step(Step(Step(f, Begin(now)), SaveOk), Acknowledge).history.series[key].buckets[k]; b.saved == b.revision
  {
    BeginKeepsInv(f, now);
    var v := Step(f, Begin(now)).history.series[key];
    assert BucketOk(v, k);
  }

  /** A recreated series never reuses an instance: no stored row carries its number. */
  lemma RecreatedIsFresh(f: Flush, key: SeriesKey, now: int)
    requires FlushInv(f) && key !in f.history.series
    ensures forall row <- f.store :: row.instance != Ensure(f.history, key, now).series[key].instance
    ensures forall x <- f.history.series :: f.history.series[x].instance != Ensure(f.history, key, now).series[key].instance
  {
  }
}
