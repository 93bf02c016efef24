/** The minutes of a plan as the whole system produces them: the steps of admission and
    flushing, seen by one series of the collector, are a run of that series. */
module PlanMinutes {
  import opened MapSums
  import opened ConcurrencySeries
  import opened ConcurrencyIntegral
  import opened TrafficHistory
  import opened TrafficInvariant
  import opened AccountTraffic
  import Collector = ConcurrencyFlush
  import Life = ConcurrencyRun
  import opened Units

  // ---- one step, as a series sees it ---------------------------------------------------

  /** Whose count an admission step changes, by how much, and when. */
  ghost function Counting(m: Traffic, e: Event): Option<(Credential, int, int)>
    requires Enabled(m, e)
  {
    match e
    case DoPrepare(r, s, t) =>
      if Prepare(m, r, s, t).1 == Admitted && r.credential.Some? then Some((r.credential.value, 1, r.now)) else None
    case DoRelease(t, now) =>
      var k := m.tickets[t];
      if !k.released && k.credential.Some? then Some((k.credential.value, -1, now)) else None
    case _ => None
  }

  /** The step as an event of the series of `key`. */
  ghost function Projected(x: System, e: SystemEvent, key: SeriesKey): seq<Life.Event>
    requires CanHappen(x, e)
  {
    match e
    case Admission(a) =>
      (match Counting(x.traffic, a)
       case Some((c, delta, now)) => if c.Key() == key then [Life.Count(c.user, delta, now)] else []
       case None => [])
    case Flushing(Read(read, now)) => if read == key then [Life.Read(now)] else []
    case Flushing(Begin(now)) => [Life.Flush(now)]
    case Flushing(Acknowledge) => if key in x.phase.batch then [Life.Saved(x.phase.batch[key])] else []
    case Flushing(_) => []
  }

  /** The series of `key` in this state, or the one that would be created. */
  function SeriesAt(h: Collector.History, key: SeriesKey, now: int): Series {
    if key in h.series then h.series[key] else NewSeries(h.nextSeries + 1, key, now)
  }

  function TimeOf(e: SystemEvent): int {
    match e
    case Admission(DoPrepare(r, _, _)) => r.now
    case Admission(DoRelease(_, now)) => now
    case Flushing(Read(_, now)) => now
    case _ => 0
  }

  ghost function Steps(v: Series, es: seq<Life.Event>): Series
    decreases |es|
  {
    if es == [] then v else Life.Step(Steps(v, es[..|es| - 1]), es[|es| - 1])
  }

  ghost predicate AllSensible(v: Series, es: seq<Life.Event>)
    decreases |es|
  {
    es == [] || (AllSensible(v, es[..|es| - 1]) && Life.Sensible(Steps(v, es[..|es| - 1]), es[|es| - 1]))
  }

  lemma FoundKeepsHistory(m: Traffic, r: Request, s: StateRef)
    requires forall a <- m.index :: m.index[a] in m.states
    ensures var n := WithState(Evict(m, r.now), r.account, s);
            n.history == m.history && r.account in n.index && n.index[r.account] in n.states
  {
    hide Evictable;
  }

  lemma DecisionChanges(n: Traffic, r: Request, t: TicketRef)
    requires r.account in n.index && n.index[r.account] in n.states
    ensures Decision(n, r, t).0.history ==
      if Decision(n, r, t).1 == Admitted && r.credential.Some?
      then Collector.ChangeHistory(n.history, r.credential.value.Key(), r.credential.value.user, 1, r.now) else n.history
  {
    hide Check, Occupy, Seen, Collector.ChangeHistory;
  }

  lemma CountingChanges(m: Traffic, e: Event)
    requires Enabled(m, e)
    ensures Step(m, e).history ==
      match Counting(m, e)
      case Some((c, delta, now)) => Collector.ChangeHistory(m.history, c.Key(), c.user, delta, now)
      case None => m.history
  {
    hide Decision, Evict, WithState, Leave, Committed, Unmark, Collector.ChangeHistory;
    match e
    case DoPrepare(r, s, t) =>
      FoundKeepsHistory(m, r, s);
      DecisionChanges(WithState(Evict(m, r.now), r.account, s), r, t);
    case DoTryMark(q, s) =>
      MarkKeepsHistory(m, q, s);
    case _ =>
  }

  lemma MarkKeepsHistory(m: Traffic, q: QuiescerRef, s: StateRef)
    requires Enabled(m, DoTryMark(q, s))
    ensures TryMark(m, q, s).history == m.history
  {
  }

  lemma CountStays(m: Traffic, e: Event)
    requires Inv(m) && Enabled(m, e) && Counting(m, e).Some?
    ensures var (c, delta, now) := Counting(m, e).value; 0 <= Collector.CountOf(m.history, c.Key(), c.user) + delta
  {
    var (c, delta, now) := Counting(m, e).value;
    hide Prepare;
    if e.DoRelease? {
      Counted(m.tickets, e.t, OnSeries(c.Key(), c.user));
    }
    assert Collector.CountOf(m.history, c.Key(), c.user) == Count(m.tickets, OnSeries(c.Key(), c.user));
  }

  lemma OneStep(v: Series, f: Life.Event)
    ensures Steps(v, [f]) == Life.Step(v, f) && (AllSensible(v, [f]) <==> Life.Sensible(v, f))
    ensures Steps(v, []) == v && AllSensible(v, [])
  {
    assert [f][..0] == [];
  }

  lemma ChangeSeen(h: Collector.History, changed: SeriesKey, user: UserID, delta: int, now: int, key: SeriesKey)
    requires key in Collector.ChangeHistory(h, changed, user, delta, now).series
    ensures Collector.ChangeHistory(h, changed, user, delta, now).series[key]
            == if key == changed then Life.Step(SeriesAt(h, key, now), Life.Count(user, delta, now)) else SeriesAt(h, key, now)
    ensures key != changed ==> key in h.series
    ensures Get(SeriesAt(h, changed, now).counts, user) == Collector.CountOf(h, changed, user)
  {
    hide ConcurrencySeries.Change;
  }

  lemma ReadSeen(h: Collector.History, read: SeriesKey, now: int, key: SeriesKey)
    requires key in Collector.ReadLive(h, read, now).series
    ensures Collector.ReadLive(h, read, now).series[key]
            == if key == read then Life.Step(SeriesAt(h, key, now), Life.Read(now)) else SeriesAt(h, key, now)
  {
    hide Advance, Collector.PublishAll;
  }

  lemma AcknowledgeSeen(f: Collector.Flush, key: SeriesKey)
    requires Collector.FlushInv(f) && f.phase.Saved? && key in Collector.AckFlush(f.history, f.phase.batch).series
    ensures key in f.history.series
    ensures Collector.AckFlush(f.history, f.phase.batch).series[key]
            == if key in f.phase.batch then Life.Step(f.history.series[key], Life.Saved(f.phase.batch[key])) else f.history.series[key]
    ensures key in f.phase.batch ==> Life.Sensible(f.history.series[key], Life.Saved(f.phase.batch[key]))
  {
    if key in f.phase.batch {
      var v, entries := f.history.series[key], f.phase.batch[key];
      forall k | Collector.Matches(v, entries, k) ensures entries[k].revision <= v.buckets[k].revision {
        assert Collector.EntryOk(f.history, key, k, entries[k]) && BucketOk(v, k);
      }
    }
  }

  lemma AdmissionProjects(x: System, a: Event, key: SeriesKey)
    requires BothOk(x) && Enabled(x.traffic, a) && key in Step(x.traffic, a).history.series
    ensures var v := SeriesAt(x.traffic.history, key, TimeOf(Admission(a))); var fs := Projected(x, Admission(a), key);
            Step(x.traffic, a).history.series[key] == Steps(v, fs) && AllSensible(v, fs)
  {
    hide Step, Counting, Collector.ChangeHistory, Life.Step, Inv, Collector.FlushInv;
    CountingChanges(x.traffic, a);
    match Counting(x.traffic, a)
    case Some((c, delta, now)) =>
      CountStays(x.traffic, a);
      CountingTime(x.traffic, a);
      ChangeSeen(x.traffic.history, c.Key(), c.user, delta, now, key);
      OneStep(SeriesAt(x.traffic.history, key, now), Life.Count(c.user, delta, now));
    case None =>
      OneStep(x.traffic.history.series[key], Life.Read(0));
  }

  lemma CountingTime(m: Traffic, a: Event)
    requires Enabled(m, a) && Counting(m, a).Some?
    ensures Counting(m, a).value.2 == TimeOf(Admission(a))
  {
    hide Prepare;
  }

  lemma FlushProjects(x: System, f: Collector.Event, key: SeriesKey)
    requires BothOk(x) && CanHappen(x, Flushing(f)) && key in Collector.Step(x.Flush(), f).history.series
    ensures var v := SeriesAt(x.traffic.history, key, TimeOf(Flushing(f))); var fs := Projected(x, Flushing(f), key);
            Collector.Step(x.Flush(), f).history.series[key] == Steps(v, fs) && AllSensible(v, fs)
  {
    hide Collector.ReadLive, Collector.AckFlush, Collector.Collect, Inv, Collector.FlushInv, Collector.SaveRows;
    var h := x.traffic.history;
    var v := SeriesAt(h, key, TimeOf(Flushing(f)));
    match f
    case Read(read, now) =>
      ReadSeen(h, read, now, key);
      OneStep(v, Life.Read(now));
    case Begin(now) =>
      OneStep(v, Life.Flush(now));
    case Acknowledge =>
      AcknowledgeSeen(x.Flush(), key);
      if key in x.phase.batch {
        OneStep(v, Life.Saved(x.phase.batch[key]));
      } else {
        OneStep(v, Life.Read(0));
      }
    case _ =>
      OneStep(v, Life.Read(0));
  }

  lemma StepProjects(x: System, e: SystemEvent, key: SeriesKey)
    requires BothOk(x) && CanHappen(x, e) && key in Next(x, e).traffic.history.series
    ensures var v := SeriesAt(x.traffic.history, key, TimeOf(e)); var fs := Projected(x, e, key);
            Next(x, e).traffic.history.series[key] == Steps(v, fs) && AllSensible(v, fs)
  {
    match e
    case Admission(a) => AdmissionProjects(x, a, key);
    case Flushing(f) => FlushProjects(x, f, key);
  }

  // ---- runs ------------------------------------------------------------------------------

  /** The current series of a key: when it was created, and what it has seen since. */
  datatype Story = Story(instance: nat, start: int, events: seq<Life.Event>)
  {
    function Born(key: SeriesKey): Series {
      NewSeries(instance, key, start)
    }
  }

  ghost function StoryAfter(s: Option<Story>, x: System, e: SystemEvent, key: SeriesKey): Option<Story>
    requires CanHappen(x, e)
  {
    if key !in Next(x, e).traffic.history.series then None else
      var before := if key in x.traffic.history.series && s.Some? then s.value else Story(x.traffic.history.nextSeries + 1, TimeOf(e), []);
      Some(before.(events := before.events + Projected(x, e, key)))
  }

  ghost function StoryOf(x: System, es: seq<SystemEvent>, key: SeriesKey, s: Option<Story>): Option<Story>
    decreases |es|
  {
    if es == [] then s
    else if CanHappen(x, es[0]) then StoryOf(Next(x, es[0]), es[1..], key, StoryAfter(s, x, es[0], key))
    else None
  }

  /** The series is what its story makes of it. */
  ghost predicate Tells(s: Option<Story>, x: System, key: SeriesKey) {
    key in x.traffic.history.series ==>
      && s.Some? && Steps(s.value.Born(key), s.value.events) == x.traffic.history.series[key]
      && AllSensible(s.value.Born(key), s.value.events)
  }

  lemma {:induction false} StepsConcat(v: Series, a: seq<Life.Event>, b: seq<Life.Event>)
    ensures Steps(v, a + b) == Steps(Steps(v, a), b)
    ensures AllSensible(v, a + b) <==> AllSensible(v, a) && AllSensible(Steps(v, a), b)
    decreases |b|
  {
    hide Life.Step, Life.Sensible;
    if b == [] {
      assert a + b == a;
    } else {
      assert (a + b)[..|a + b| - 1] == a + b[..|b| - 1];
      StepsConcat(v, a, b[..|b| - 1]);
    }
  }

  lemma StepTells(s: Option<Story>, x: System, e: SystemEvent, key: SeriesKey)
    requires BothOk(x) && CanHappen(x, e) && Tells(s, x, key)
    ensures Tells(StoryAfter(s, x, e, key), Next(x, e), key)
  {
    hide BothOk, CanHappen, Next, Projected, Steps, AllSensible;
    if key in Next(x, e).traffic.history.series {
      StepProjects(x, e, key);
      var story := StoryAfter(s, x, e, key).value;
      if key in x.traffic.history.series {
        StepsConcat(story.Born(key), s.value.events, Projected(x, e, key));
      } else {
        assert [] + Projected(x, e, key) == Projected(x, e, key);
      }
    }
  }

  lemma {:induction false} RunTells(x: System, es: seq<SystemEvent>, y: System, key: SeriesKey, s: Option<Story>)
    requires BothOk(x) && TrafficHistory.Run(x, es, y) && Tells(s, x, key)
    ensures BothOk(y) && Tells(StoryOf(x, es, key, s), y, key)
    decreases |es|
  {
    hide BothOk, CanHappen, Next, Tells, StoryAfter;
    if es != [] {
      StepKeepsBoth(x, es[0]);
      StepTells(s, x, es[0], key);
      RunTells(Next(x, es[0]), es[1..], y, key, StoryAfter(s, x, es[0], key));
    }
  }

  /** No silence of 25 hours, and nothing from the horizon on was pruned. */
  ghost predicate Steady(v: Series, es: seq<Life.Event>, horizon: int)
    decreases |es|
  {
    es == [] ||
    (var init, e := es[..|es| - 1], es[|es| - 1];
     Steady(v, init, horizon) && Life.Timely(Steps(v, init), e) && Life.Retained(e, horizon))
  }

  lemma {:induction false} RunOneMore(v: Series, es: seq<Life.Event>, horizon: int, w: Series, e: Life.Event)
    requires Life.Run(v, es, horizon, w) && Life.Enabled(w, e) && Life.Retained(e, horizon)
    ensures Life.Run(v, es + [e], horizon, Life.Step(w, e))
    decreases |es|
  {
    hide Life.Step, Life.Enabled, Life.Retained;
    if es == [] {
      assert [] + [e] == [e] && [e][1..] == [];
    } else {
      assert (es + [e])[1..] == es[1..] + [e];
      RunOneMore(Life.Step(v, es[0]), es[1..], horizon, w, e);
    }
  }

  lemma {:induction false} StepsAreARun(v: Series, es: seq<Life.Event>, horizon: int)
    requires AllSensible(v, es) && Steady(v, es, horizon)
    ensures Life.Run(v, es, horizon, Steps(v, es))
    decreases |es|
  {
    hide Life.Step, Life.Sensible, Life.Timely, Life.Retained;
    if es != [] {
      var init, e := es[..|es| - 1], es[|es| - 1];
      StepsAreARun(v, init, horizon);
      RunOneMore(v, init, horizon, Steps(v, init), e);
      assert init + [e] == es;
    }
  }

  /** In every reachable state of the whole system: a plan's minutes say exactly how long each
      user's admitted requests were live in them and how many were live at once, counting from
      the creation of the series, and its counts are the tickets still out. */
  lemma MinutesAreExact(alive: set<SeriesKey>, es: seq<SystemEvent>, y: System, key: SeriesKey, horizon: int, k: int)
    requires TrafficHistory.Run(System(EMPTY, map[], {}, alive, Collector.Idle), es, y) && key in y.traffic.history.series
    requires k % MINUTE == 0 && horizon <= k
    requires var s := StoryOf(System(EMPTY, map[], {}, alive, Collector.Idle), es, key, None);
             s.Some? ==> Steady(s.value.Born(key), s.value.events, horizon)
    ensures var s := StoryOf(System(EMPTY, map[], {}, alive, Collector.Idle), es, key, None); var w := y.traffic.history.series[key];
            s.Some? &&
            var turns := Life.Turns(s.value.Born(key), s.value.events);
            && (forall u :: Seconds(w, k, u) == Life.LiveTime(turns, u, k, w.last))
            && Observed(w, k) == Life.Within(s.value.start, w.last, k)
            && Peak(w, k) == Life.LivePeak(turns, k, w.last)
            && (forall u :: Life.LiveCount(turns, u) == Count(y.traffic.tickets, OnSeries(key, u)))
  {
    var x := System(EMPTY, map[], {}, alive, Collector.Idle);
    InitiallyBoth(alive);
    RunTells(x, es, y, key, None);
    var s := StoryOf(x, es, key, None).value;
    StepsAreARun(s.Born(key), s.events, horizon);
    var w := y.traffic.history.series[key];
    Life.BucketsAreExact(s.instance, key, s.start, s.events, horizon, w, k);
    TicketsAreCounted(y, key);
    hide *;
  }

  lemma TicketsAreCounted(y: System, key: SeriesKey)
    requires BothOk(y) && key in y.traffic.history.series
    ensures forall u :: Get(y.traffic.history.series[key].counts, u) == Count(y.traffic.tickets, OnSeries(key, u))
  {
    forall u ensures Get(y.traffic.history.series[key].counts, u) == Count(y.traffic.tickets, OnSeries(key, u)) {
      assert Collector.CountOf(y.traffic.history, key, u) == Count(y.traffic.tickets, OnSeries(key, u));
    }
  }
}
