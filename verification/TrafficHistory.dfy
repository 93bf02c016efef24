/** Admission and flushing together: both protocols run on one controller under one mutex,
    so their steps interleave freely. */
module TrafficHistory {
  import opened MapSums
  import opened ConcurrencySeries
  import opened AccountTraffic
  import opened TrafficInvariant
  import Collector = ConcurrencyFlush
  import TrafficQuiesce

  datatype System = System(
    traffic: Traffic, store: map<Collector.Row, Minute>, expired: set<Collector.Row>, alive: set<SeriesKey>, phase: Collector.Phase)
  {
    function Flush(): Collector.Flush {
      Collector.Flush(traffic.history, store, expired, alive, phase)
    }
  }

  datatype SystemEvent = Admission(e: Event) | Flushing(f: Collector.Event)

  /** Member counts change only through tickets. */
  predicate CanHappen(x: System, e: SystemEvent) {
    match e
    case Admission(a) => Enabled(x.traffic, a)
    case Flushing(f) => !f.Update? && Collector.Enabled(x.Flush(), f)
  }

  ghost function Next(x: System, e: SystemEvent): System requires CanHappen(x, e) {
    match e
    case Admission(a) => x.(traffic := Step(x.traffic, a))
    case Flushing(f) =>
      var g := Collector.Step(x.Flush(), f);
      System(x.traffic.(history := g.history), g.store, g.expired, g.alive, g.phase)
  }

  ghost predicate BothOk(x: System) {
    Inv(x.traffic) && Collector.FlushInv(x.Flush())
  }

  ghost predicate SameCounts(h: Collector.History, g: Collector.History) {
    forall key, u :: Collector.CountOf(g, key, u) == Collector.CountOf(h, key, u)
  }

  lemma CollectKeepsCounts(h: Collector.History, now: int)
    requires Collector.HistoryOk(h)
    ensures SameCounts(h, Collector.BeginFlush(h, now))
  {
    forall key, u ensures Collector.CountOf(Collector.BeginFlush(h, now), key, u) == Collector.CountOf(h, key, u) {
      if key in h.series {
        Collector.CollectOk(h.series[key], now);
      }
    }
  }

  lemma ReadKeepsCounts(h: Collector.History, key: SeriesKey, now: int)
    requires Collector.HistoryOk(h)
    ensures SameCounts(h, Collector.ReadLive(h, key, now))
  {
    Collector.EnsureOk(h, key, now);
    Collector.ReadEvolves(Collector.Ensure(h, key, now).series[key], now);
  }

  /** A dropped series counted nobody. */
  lemma AckKeepsCounts(h: Collector.History, batch: Collector.Batch)
    ensures SameCounts(h, Collector.AckFlush(h, batch))
  {
  }

  lemma FlushKeepsCounts(f: Collector.Flush, e: Collector.Event)
    requires Collector.FlushInv(f) && Collector.Enabled(f, e) && !e.Update?
    ensures SameCounts(f.history, Collector.Step(f, e).history)
  {
    match e
    case Read(key, now) => ReadKeepsCounts(f.history, key, now);
    case Begin(now) => CollectKeepsCounts(f.history, now);
    case Acknowledge => AckKeepsCounts(f.history, f.phase.batch);
    case _ =>
  }

  ghost predicate Updates(h: Collector.History, c: Option<Credential>, delta: int, now: int, g: Collector.History) {
    match c
    case None => g == h
    case Some(c) => 0 <= Collector.CountOf(h, c.Key(), c.user) + delta && g == Collector.ChangeHistory(h, c.Key(), c.user, delta, now)
  }

  lemma PrepareUpdates(m: Traffic, r: Request, s: StateRef, t: TicketRef)
    requires IndexOk(m) && Collector.HistoryOk(m.history)
    ensures var h := Prepare(m, r, s, t).0.history; h == m.history || Updates(m.history, r.credential, 1, r.now, h)
  {
    forall key, u ensures 0 <= Collector.CountOf(m.history, key, u) {
    }
    hide Check, Occupy, Seen, Evictable, Collector.HistoryOk, Collector.ChangeHistory;
  }

  lemma ReleaseUpdates(m: Traffic, t: TicketRef, now: int)
    requires t in m.tickets && TicketOk(m, m.tickets[t]) && HistoryMatches(m.tickets, m.history)
    ensures var h := Release(m, t, now).history; h == m.history || Updates(m.history, m.tickets[t].credential, -1, now, h)
  {
    var k := m.tickets[t];
    if !k.released && k.credential.Some? {
      Counted(m.tickets, t, OnSeries(k.credential.value.Key(), k.credential.value.user));
    }
  }

  lemma UpdateKeepsFlush(x: System, c: Option<Credential>, delta: int, now: int, g: Collector.History)
    requires Collector.FlushInv(x.Flush()) && Updates(x.traffic.history, c, delta, now, g)
    ensures Collector.FlushInv(x.Flush().(history := g))
  {
    if c.Some? {
      Collector.UpdateKeepsInv(x.Flush(), c.value.Key(), c.value.user, delta, now);
    }
  }

  /** Admission touches the history by counting one ticket in or out, or not at all. */
  lemma AdmissionUpdates(x: System, e: Event) returns (c: Option<Credential>, delta: int, now: int)
    requires BothOk(x) && Enabled(x.traffic, e)
    ensures var h := Step(x.traffic, e).history; h == x.traffic.history || Updates(x.traffic.history, c, delta, now, h)
  {
    c, delta, now := None, 0, 0;
    match e
    case DoPrepare(r, s, t) =>
      PrepareUpdates(x.traffic, r, s, t);
      c, delta, now := r.credential, 1, r.now;
    case DoRelease(t, at) =>
      assert TicketOk(x.traffic, x.traffic.tickets[t]);
      ReleaseUpdates(x.traffic, t, at);
      c, delta, now := x.traffic.tickets[t].credential, -1, at;
    case _ =>
  }

  lemma AdmissionKeepsFlush(x: System, e: Event)
    requires BothOk(x) && Enabled(x.traffic, e)
    ensures Collector.FlushInv(x.Flush().(history := Step(x.traffic, e).history))
  {
    var h := Step(x.traffic, e).history;
    var c, delta, now := AdmissionUpdates(x, e);
    if h != x.traffic.history {
      UpdateKeepsFlush(x, c, delta, now, h);
    }
  }

  lemma StepKeepsBoth(x: System, e: SystemEvent)
    requires BothOk(x) && CanHappen(x, e)
    ensures BothOk(Next(x, e))
  {
    match e
    case Admission(a) =>
      TrafficQuiesce.StepKeepsInv(x.traffic, a);
      AdmissionKeepsFlush(x, a);
    case Flushing(f) =>
      Collector.StepKeepsInv(x.Flush(), f);
      FlushKeepsCounts(x.Flush(), f);
      var n := Next(x, e).traffic;
      assert IndexOk(n) && TicketsOk(n) && StatesOk(n);
      SameMarks(x.traffic, n);
  }

  lemma SameMarks(m: Traffic, n: Traffic)
    requires QuiesceOk(m) && n == m.(history := n.history)
    ensures QuiesceOk(n)
  {
    IndexKeepsMarks(m, n);
  }

  ghost predicate Run(x: System, es: seq<SystemEvent>, y: System)
    decreases |es|
  {
    if es == [] then x == y else CanHappen(x, es[0]) && Run(Next(x, es[0]), es[1..], y)
  }

  /** In every interleaving of admissions, releases, quiescing, reads and flushes: what
      the collector counts for a user is the number of that user's unreleased tickets, and
      a bucket marked saved at its revision has its current value in the store, or its row
      was deleted for its age. */
  lemma {:induction false} CountedAndStored(x: System, es: seq<SystemEvent>, y: System)
    requires BothOk(x) && Run(x, es, y)
    ensures BothOk(y)
    ensures forall key, u :: Collector.CountOf(y.traffic.history, key, u) == Count(y.traffic.tickets, OnSeries(key, u))
    ensures Collector.SavedIsStored(y.Flush())
    decreases |es|
  {
    if es != [] {
      StepKeepsBoth(x, es[0]);
      CountedAndStored(Next(x, es[0]), es[1..], y);
    }
  }

  lemma InitiallyBoth(alive: set<SeriesKey>)
    ensures BothOk(System(EMPTY, map[], {}, alive, Collector.Idle))
  {
    EmptyInv();
    Collector.InitiallyOk(alive);
  }
}
