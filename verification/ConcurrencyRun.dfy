/** The life of one series as a run of requests coming and going, reads, flushes and
    acknowledgements: its buckets hold, for every user and minute, exactly the time that
    user's requests were live in that minute. */
module ConcurrencyRun {
  import opened MapSums
  import opened ConcurrencySeries
  import opened ConcurrencyIntegral
  import Collector = ConcurrencyFlush
  import opened Units

  datatype Event =
    | Count(user: UserID, delta: int, now: int)
    | Read(now: int)
    | Flush(now: int)
    | Saved(entries: map<int, Collector.Pending>)

  ghost function Step(v: Series, e: Event): Series {
    match e
    case Count(user, delta, now) => Change(v, user, delta, now)
    case Read(now) => Collector.PublishAll(Advance(v.(lastUsed := now), now))
    case Flush(now) => Collector.Collect(v, now)
    case Saved(entries) => Collector.Acknowledged(v, entries)
  }

  /** A ticket leaves after it came, and the acknowledged revisions were handed out before. */
  ghost predicate Sensible(v: Series, e: Event) {
    match e
    case Count(user, delta, now) => 0 <= Get(v.counts, user) + delta
    case Saved(entries) => forall k :: Collector.Matches(v, entries, k) ==> entries[k].revision <= v.buckets[k].revision
    case _ => true
  }

  /** No silence is longer than 25 hours. */
  predicate Timely(v: Series, e: Event) {
    e.Saved? || Cutoff(e.now) <= v.last
  }

  ghost predicate Enabled(v: Series, e: Event) {
    Sensible(v, e) && Timely(v, e)
  }

  /** What flushing has not pruned. */
  predicate Retained(e: Event, horizon: int) {
    e.Flush? ==> Cutoff(e.now) <= horizon
  }

  // ---- the exact time ---------------------------------------------------------------

  /** A request of `user` began (delta 1) or ended (delta -1). */
  datatype Turn = Turn(user: UserID, delta: int, at: int)

  function TurnsOf(v: Series, e: Event): seq<Turn> {
    if e.Count? then [Turn(e.user, e.delta, Max(e.now, v.last))] else []
  }

  /** Length of [from, to) within minute k. */
  function Within(from: int, to: int, k: int): int {
    Max(0, Min(to, k + MINUTE) - Max(from, k))
  }

  /** The time that the requests of u were live in minute k, up to `end`: each one counts
      from its beginning and no longer from its end on. */
  ghost function LiveTime(turns: seq<Turn>, u: UserID, k: int, end: int): int {
    if turns == [] then 0 else
      var t := turns[|turns| - 1];
      LiveTime(turns[..|turns| - 1], u, k, end) + if t.user == u then t.delta * Within(t.at, end, k) else 0
  }

  ghost function LiveCount(turns: seq<Turn>, u: UserID): int {
    if turns == [] then 0 else
      LiveCount(turns[..|turns| - 1], u) + if turns[|turns| - 1].user == u then turns[|turns| - 1].delta else 0
  }

  /** How many requests are live after these turns. */
  ghost function TotalLive(turns: seq<Turn>): int {
    if turns == [] then 0 else TotalLive(turns[..|turns| - 1]) + turns[|turns| - 1].delta
  }

  /** The count that a turn leaves behind holds from its instant until the next turn. Does
      this touch minute k? */
  predicate InForce(from: int, until: int, k: int) {
    k <= from < k + MINUTE || Within(from, until, k) > 0
  }

  /** The largest number of requests live at any instant of minute k, up to `end`, counting
      every request that was live however briefly. */
  ghost function LivePeak(turns: seq<Turn>, k: int, end: int): int {
    if turns == [] then 0 else
      var t := turns[|turns| - 1];
      var before := LivePeak(turns[..|turns| - 1], k, t.at);
      if InForce(t.at, end, k) then Max(before, TotalLive(turns)) else before
  }

  /** When the count after the first i turns stops holding. */
  function Until(turns: seq<Turn>, i: nat, end: int): int
    requires i <= |turns|
  {
    if i == |turns| then end else turns[i].at
  }

  /** It is the largest such count, and attained. */
  lemma {:induction false} LivePeakIsMaximum(turns: seq<Turn>, k: int, end: int)
    ensures forall i :: 1 <= i <= |turns| && InForce(turns[i - 1].at, Until(turns, i, end), k) ==> TotalLive(turns[..i]) <= LivePeak(turns, k, end)
    ensures LivePeak(turns, k, end) == 0
            || exists i :: 1 <= i <= |turns| && InForce(turns[i - 1].at, Until(turns, i, end), k) && TotalLive(turns[..i]) == LivePeak(turns, k, end)
    decreases |turns|
  {
    hide InForce, TotalLive;
    if turns != [] {
      var n := |turns| - 1;
      var init, t := turns[..n], turns[n];
      LivePeakIsMaximum(init, k, t.at);
      assert turns[..|turns|] == turns;
      forall i | 1 <= i <= n ensures init[..i] == turns[..i] && Until(init, i, t.at) == Until(turns, i, end) {
      }
      if LivePeak(init, k, t.at) != 0 {
        var i :| 1 <= i <= n && InForce(init[i - 1].at, Until(init, i, t.at), k) && TotalLive(init[..i]) == LivePeak(init, k, t.at);
        assert init[i - 1] == turns[i - 1];
      }
    }
  }

  lemma LaterPeak(turns: seq<Turn>, k: int, a: int, b: int)
    requires a <= b && forall t <- turns :: t.at <= a
    ensures LivePeak(turns, k, b) == if turns != [] && Within(a, b, k) > 0 then Max(LivePeak(turns, k, a), TotalLive(turns)) else LivePeak(turns, k, a)
    ensures turns == [] ==> TotalLive(turns) == 0 && LivePeak(turns, k, a) == 0
  {
    if turns != [] {
      var t := turns[|turns| - 1];
      assert t in turns;
      assert Within(t.at, b, k) == Within(t.at, a, k) + Within(a, b, k);
    }
  }

  lemma {:induction false} PeakNonNegative(turns: seq<Turn>, k: int, end: int)
    ensures 0 <= LivePeak(turns, k, end)
  {
    hide InForce, TotalLive;
    if turns != [] {
      PeakNonNegative(turns[..|turns| - 1], k, turns[|turns| - 1].at);
    }
  }

  lemma {:induction false} TimePasses(turns: seq<Turn>, u: UserID, k: int, a: int, b: int)
    requires a <= b && forall t <- turns :: t.at <= a
    ensures LiveTime(turns, u, k, b) == LiveTime(turns, u, k, a) + LiveCount(turns, u) * Within(a, b, k)
  {
    if turns != [] {
      var init, t := turns[..|turns| - 1], turns[|turns| - 1];
      TimePasses(init, u, k, a, b);
      assert t in turns;
      assert Within(t.at, b, k) == Within(t.at, a, k) + Within(a, b, k);
      hide Within;
      Distributes(t.delta, Within(t.at, a, k), Within(a, b, k));
      Distributes(Within(a, b, k), LiveCount(init, u), t.delta);
    }
  }

  lemma Distributes(n: int, x: int, y: int)
    ensures n * (x + y) == n * x + n * y && (x + y) * n == x * n + y * n
  {
  }

  // ---- the run --------------------------------------------------------------------------

  /** The log of a series observed since `start`, and what its turns say about it. */
  ghost predicate Faithful(v: Series, log: Log, turns: seq<Turn>, start: int) {
    && start <= v.last && (forall t <- turns :: t.at <= v.last)
    && (forall u :: Get(v.counts, u) == LiveCount(turns, u))
    && (forall k, u :: k % MINUTE == 0 ==> RefSeconds(log, k, u) == LiveTime(turns, u, k, v.last))
    && (forall k :: k % MINUTE == 0 ==> RefObserved(log, k) == Within(start, v.last, k))
  }

  /** The same for the peaks. */
  ghost predicate PeaksFaithful(v: Series, log: Log, turns: seq<Turn>) {
    && (forall t <- turns :: t.at <= v.last)
    && Sum(v.counts) == TotalLive(turns)
    && (forall k :: k % MINUTE == 0 ==> RefPeak(log, k) == LivePeak(turns, k, v.last))
  }

  lemma ElapsePeaks(v: Series, log: Log, turns: seq<Turn>, now: int)
    requires SeriesOk(v) && PeaksFaithful(v, log, turns) && Cutoff(now) <= v.last
    ensures PeaksFaithful(Advance(v, now), Elapse(v, log, now), turns)
  {
    AdvanceOk(v, now);
    if v.last < now {
      var s := Segment(v.last, now, v.counts);
      forall k | k % MINUTE == 0 ensures RefPeak(log + [s], k) == LivePeak(turns, k, now) {
        AppendLog(log, s, k);
        LaterPeak(turns, k, v.last, now);
        PeakNonNegative(turns, k, v.last);
        assert Overlap(s, k) == Within(v.last, now, k);
      }
    }
  }

  lemma TurnPeaks(v: Series, w: Series, log: Log, turns: seq<Turn>, t: Turn)
    requires PeaksFaithful(v, log, turns) && t.at == v.last == w.last && w.counts == SetCount(v.counts, t.user, Get(v.counts, t.user) + t.delta)
    ensures PeaksFaithful(w, log + [Segment(t.at, t.at, w.counts)], turns + [t])
  {
    var s, more := Segment(t.at, t.at, w.counts), turns + [t];
    assert more[..|turns|] == turns;
    SumOfChange(v.counts, t.user, t.delta);
    hide RefPeak, SetCount, Sum;
    forall k | k % MINUTE == 0 ensures RefPeak(log + [s], k) == LivePeak(more, k, t.at) {
      AppendLog(log, s, k);
      InstantTouches(t.at, w.counts, k);
      assert Within(t.at, t.at, k) == 0;
      InstantIsInForce(t.at, k);
      assert LivePeak(more, k, t.at) == if InForce(t.at, t.at, k) then Max(LivePeak(turns, k, t.at), TotalLive(more)) else LivePeak(turns, k, t.at);
    }
  }

  lemma InstantIsInForce(at: int, k: int)
    requires k % MINUTE == 0
    ensures InForce(at, at, k) <==> k == Truncate(at)
  {
    TruncateBounds(at);
    if k < Truncate(at) {
      MinutesApart(k, Truncate(at));
    } else if k > Truncate(at) {
      MinutesApart(Truncate(at), k);
    }
  }

  lemma SumOfChange(counts: map<UserID, int>, u: UserID, delta: int)
    ensures Sum(SetCount(counts, u, Get(counts, u) + delta)) == Sum(counts) + delta
  {
    SumPut(counts, u, Get(counts, u) + delta);
    SumDrop(counts, u);
  }

  /** A change advances the series to its time and then records the new counts. */
  lemma CountStep(v: Series, log: Log, e: Event)
    requires SeriesOk(v) && e.Count? && Enabled(v, e)
    ensures var at := Max(e.now, v.last); var u, w := Advance(v, at), Step(v, e);
            && Cutoff(at) <= v.last && u.last == at == w.last && TurnsOf(v, e) == [Turn(e.user, e.delta, at)]
            && w.counts == SetCount(u.counts, e.user, Get(u.counts, e.user) + e.delta)
            && LogAfter(v, log, e) == Elapse(v, log, at) + [Segment(at, at, w.counts)]
  {
    var at := Max(e.now, v.last);
    ChangeOk(v, e.user, e.delta, e.now);
    AdvanceOk(v, at);
    hide SeriesOk, Elapse, Advance, Change, SetCount;
  }

  lemma CountPeaks(v: Series, log: Log, turns: seq<Turn>, e: Event)
    requires SeriesOk(v) && PeaksFaithful(v, log, turns) && e.Count? && Enabled(v, e)
    ensures PeaksFaithful(Step(v, e), LogAfter(v, log, e), turns + TurnsOf(v, e))
  {
    hide *;
    var at := Max(e.now, v.last);
    CountStep(v, log, e);
    ElapsePeaks(v, log, turns, at);
    TurnPeaks(Advance(v, at), Step(v, e), Elapse(v, log, at), turns, Turn(e.user, e.delta, at));
  }

  /** Publishing and pruning leave counts and time alone. */
  lemma QuietPeaks(v: Series, u: Series, w: Series, log: Log, turns: seq<Turn>, now: int)
    requires SeriesOk(u) && PeaksFaithful(v, log, turns) && Cutoff(now) <= v.last && u.counts == v.counts && u.last == v.last
    requires w.counts == Advance(u, now).counts && w.last == Advance(u, now).last
    ensures PeaksFaithful(w, Elapse(v, log, now), turns)
  {
    hide SeriesOk, Advance, LivePeak, RefPeak, TotalLive;
    ElapsePeaks(u, log, turns, now);
  }

  lemma StepPeaks(v: Series, log: Log, turns: seq<Turn>, e: Event)
    requires SeriesOk(v) && PeaksFaithful(v, log, turns) && Enabled(v, e)
    ensures PeaksFaithful(Step(v, e), LogAfter(v, log, e), turns + TurnsOf(v, e))
  {
    hide PeaksFaithful, SeriesOk, Change, Advance, Elapse, Cutoff;
    assert turns + [] == turns;
    match e
    case Count(_, _, _) =>
      CountPeaks(v, log, turns, e);
    case Read(now) =>
      StillOk(v, now);
      QuietPeaks(v, v.(lastUsed := now), Step(v, e), log, turns, now);
    case Flush(now) =>
      Collector.PruneOk(v, now);
      QuietPeaks(v, Collector.Prune(v, now), Step(v, e), log, turns, now);
    case Saved(_) =>
      SamePeaks(v, Step(v, e), log, turns);
  }

  lemma SamePeaks(v: Series, w: Series, log: Log, turns: seq<Turn>)
    requires PeaksFaithful(v, log, turns) && w.counts == v.counts && w.last == v.last
    ensures PeaksFaithful(w, log, turns)
  {
    hide LivePeak, RefPeak, TotalLive;
  }

  ghost function LogAfter(v: Series, log: Log, e: Event): Log {
    match e
    case Count(user, delta, now) => ChangeLog(v, log, user, delta, now)
    case Read(now) => Elapse(v, log, now)
    case Flush(now) => Elapse(v, log, now)
    case Saved(_) => log
  }

  /** Time passes with the counts unchanged. */
  lemma SegmentFaithful(log: Log, turns: seq<Turn>, u: UserID, k: int, s: Segment)
    requires s.from < s.to && forall t <- turns :: t.at <= s.from
    requires RefSeconds(log, k, u) == LiveTime(turns, u, k, s.from) && 0 <= Get(s.counts, u) == LiveCount(turns, u)
    ensures RefSeconds(log + [s], k, u) == LiveTime(turns, u, k, s.to)
  {
    hide RefSeconds, RefObserved, RefPeak, LiveTime, LiveCount, Touches, Sum;
    AppendLog(log, s, k);
    TimePasses(turns, u, k, s.from, s.to);
    assert Overlap(s, k) == Within(s.from, s.to, k);
    hide Within, Overlap;
    assert RequestTime(Get(s.counts, u), Overlap(s, k)) == LiveCount(turns, u) * Within(s.from, s.to, k);
  }

  lemma ObservedFaithful(log: Log, start: int, k: int, s: Segment)
    requires start <= s.from < s.to && RefObserved(log, k) == Within(start, s.from, k)
    ensures RefObserved(log + [s], k) == Within(start, s.to, k)
  {
    hide RefSeconds, RefObserved, RefPeak, Touches, Sum;
    AppendLog(log, s, k);
  }

  lemma ElapseFaithful(v: Series, log: Log, turns: seq<Turn>, start: int, now: int)
    requires SeriesOk(v) && Faithful(v, log, turns, start) && Cutoff(now) <= v.last
    ensures Faithful(Advance(v, now), Elapse(v, log, now), turns, start)
  {
    AdvanceOk(v, now);
    assert forall u :: 0 <= Get(v.counts, u);
    hide SeriesOk, Advance, Cutoff, Get, RefSeconds, RefObserved, LiveTime, LiveCount, Within;
    if v.last < now {
      var s := Segment(v.last, now, v.counts);
      forall k, u | k % MINUTE == 0
        ensures RefSeconds(log + [s], k, u) == LiveTime(turns, u, k, now)
      {
        SegmentFaithful(log, turns, u, k, s);
      }
      forall k | k % MINUTE == 0 ensures RefObserved(log + [s], k) == Within(start, now, k) {
        ObservedFaithful(log, start, k, s);
      }
    }
  }

  lemma CountFaithful(v: Series, log: Log, turns: seq<Turn>, start: int, e: Event)
    requires SeriesOk(v) && Faithful(v, log, turns, start) && e.Count? && Enabled(v, e)
    ensures Faithful(Step(v, e), LogAfter(v, log, e), turns + TurnsOf(v, e), start)
  {
    hide *;
    var at := Max(e.now, v.last);
    CountStep(v, log, e);
    ElapseFaithful(v, log, turns, start, at);
    TurnFaithful(Advance(v, at), Step(v, e), Elapse(v, log, at), turns, start, Turn(e.user, e.delta, at));
  }

  lemma TurnFaithful(v: Series, w: Series, log: Log, turns: seq<Turn>, start: int, t: Turn)
    requires Faithful(v, log, turns, start) && t.at == v.last == w.last && w.counts == SetCount(v.counts, t.user, Get(v.counts, t.user) + t.delta)
    ensures Faithful(w, log + [Segment(t.at, t.at, w.counts)], turns + [t], start)
  {
    var s := Segment(t.at, t.at, w.counts);
    hide RefSeconds, RefObserved, Overlap, Within, LiveTime, LiveCount;
    forall k, u | k % MINUTE == 0
      ensures RefSeconds(log + [s], k, u) == LiveTime(turns + [t], u, k, t.at)
    {
      AppendLog(log, s, k);
      InstantTouches(t.at, w.counts, k);
      assert RequestTime(Get(w.counts, u), 0) == 0;
      OneMoreTurn(turns, t, u, k);
    }
    forall k | k % MINUTE == 0 ensures RefObserved(log + [s], k) == Within(start, t.at, k) {
      AppendLog(log, s, k);
      InstantTouches(t.at, w.counts, k);
    }
    forall u ensures Get(w.counts, u) == LiveCount(turns + [t], u) {
      OneMoreTurn(turns, t, u, 0);
      assert Get(v.counts, u) == LiveCount(turns, u);
    }
  }

  /** A request counts nothing at the instant it begins or ends. */
  lemma OneMoreTurn(turns: seq<Turn>, t: Turn, u: UserID, k: int)
    ensures LiveTime(turns + [t], u, k, t.at) == LiveTime(turns, u, k, t.at)
    ensures LiveCount(turns + [t], u) == LiveCount(turns, u) + if t.user == u then t.delta else 0
  {
    assert (turns + [t])[..|turns|] == turns;
  }

  lemma StepFaithful(v: Series, log: Log, turns: seq<Turn>, start: int, e: Event)
    requires SeriesOk(v) && Faithful(v, log, turns, start) && Enabled(v, e)
    ensures Faithful(Step(v, e), LogAfter(v, log, e), turns + TurnsOf(v, e), start)
  {
    match e
    case Count(_, _, _) =>
      CountFaithful(v, log, turns, start, e);
    case Read(now) =>
      assert turns + [] == turns;
      StillOk(v, now);
      ElapseFaithful(v.(lastUsed := now), log, turns, start, now);
    case Flush(now) =>
      assert turns + [] == turns;
      Collector.PruneOk(v, now);
      ElapseFaithful(Collector.Prune(v, now), log, turns, start, now);
    case Saved(_) =>
      assert turns + [] == turns;
  }

  /** The same minutes, published or acknowledged. */
  lemma SameMinutesAgree(v: Series, w: Series, log: Log, horizon: int)
    requires Agrees(v, log, horizon) && forall k <- w.buckets :: k in v.buckets
    requires forall k <- v.buckets :: horizon <= k ==> k in w.buckets
    requires forall k <- w.buckets :: w.buckets[k].Value() == v.buckets[k].Value() && w.buckets[k].observed == v.buckets[k].observed && w.buckets[k].peak == v.buckets[k].peak
    ensures Agrees(w, log, horizon) && (BucketsBounded(v) ==> BucketsBounded(w))
  {
    forall k | k % MINUTE == 0 && horizon <= k ensures AgreesAt(w, log, k) {
      assert AgreesAt(v, log, k);
      forall u ensures Seconds(w, k, u) == RefSeconds(log, k, u) {
        assert Seconds(v, k, u) == RefSeconds(log, k, u);
      }
    }
  }

  ghost predicate Holds(v: Series, log: Log, horizon: int) {
    SeriesOk(v) && BucketsBounded(v) && Agrees(v, log, horizon)
  }

  lemma AdvanceHolds(v: Series, log: Log, now: int, horizon: int)
    requires Holds(v, log, horizon)
    ensures Holds(Advance(v, now), Elapse(v, log, now), horizon)
  {
    AdvanceOk(v, now);
    AdvanceBounded(v, now);
    AdvanceAgrees(v, log, now, horizon);
  }

  lemma PublishHolds(v: Series, log: Log, horizon: int)
    requires Holds(v, log, horizon)
    ensures Holds(Collector.PublishAll(v), log, horizon) && Holds(Collector.PublishUnsaved(v), log, horizon)
  {
    Collector.PublishOk(v);
    forall k | k in v.buckets ensures Collector.CopyMinute(v.last, v.buckets[k]).Value() == v.buckets[k].Value() {
      Collector.CopyMinuteOk(v, k);
    }
    SameMinutesAgree(v, Collector.PublishAll(v), log, horizon);
    SameMinutesAgree(v, Collector.PublishUnsaved(v), log, horizon);
  }

  lemma StepHolds(v: Series, log: Log, e: Event, horizon: int)
    requires Holds(v, log, horizon) && Enabled(v, e) && Retained(e, horizon)
    ensures Holds(Step(v, e), LogAfter(v, log, e), horizon)
  {
    match e
    case Count(user, delta, now) =>
      ChangeOk(v, user, delta, now);
      ChangeBounded(v, user, delta, now);
      ChangeAgrees(v, log, user, delta, now, horizon);
    case Read(now) =>
      StillOk(v, now);
      SameMinutesAgree(v, v.(lastUsed := now), log, horizon);
      AdvanceHolds(v.(lastUsed := now), log, now, horizon);
      PublishHolds(Advance(v.(lastUsed := now), now), Elapse(v, log, now), horizon);
    case Flush(now) =>
      Collector.PruneOk(v, now);
      SameMinutesAgree(v, Collector.Prune(v, now), log, horizon);
      AdvanceHolds(Collector.Prune(v, now), log, now, horizon);
      PublishHolds(Advance(Collector.Prune(v, now), now), Elapse(v, log, now), horizon);
    case Saved(entries) =>
      Collector.AcknowledgedOk(v, entries);
      SameMinutesAgree(v, Collector.Acknowledged(v, entries), log, horizon);
  }

  ghost predicate Run(v: Series, es: seq<Event>, horizon: int, w: Series)
    decreases |es|
  {
    if es == [] then v == w else Enabled(v, es[0]) && Retained(es[0], horizon) && Run(Step(v, es[0]), es[1..], horizon, w)
  }

  ghost function Turns(v: Series, es: seq<Event>): seq<Turn>
    decreases |es|
  {
    if es == [] then [] else TurnsOf(v, es[0]) + Turns(Step(v, es[0]), es[1..])
  }

  lemma {:induction false} RunIsFaithful(v: Series, log: Log, turns: seq<Turn>, start: int, es: seq<Event>, horizon: int, w: Series) returns (end: Log)
    requires Holds(v, log, horizon) && Faithful(v, log, turns, start) && PeaksFaithful(v, log, turns) && Run(v, es, horizon, w)
    ensures Holds(w, end, horizon) && Faithful(w, end, turns + Turns(v, es), start) && PeaksFaithful(w, end, turns + Turns(v, es))
    decreases |es|
  {
    hide SeriesOk, BucketsBounded, Agrees, Faithful, PeaksFaithful, Step, Enabled, LogAfter, Retained, TurnsOf;
    if es == [] {
      assert turns + [] == turns;
      end := log;
    } else {
      var e := es[0];
      StepHolds(v, log, e, horizon);
      StepFaithful(v, log, turns, start, e);
      StepPeaks(v, log, turns, e);
      end := RunIsFaithful(Step(v, e), LogAfter(v, log, e), turns + TurnsOf(v, e), start, es[1..], horizon, w);
      assert turns + TurnsOf(v, e) + Turns(Step(v, e), es[1..]) == turns + Turns(v, es);
    }
  }

  /** Over every run of a series without a silence of 25 hours: in every minute that was not
      pruned, the request time of every user is exactly the time that user's requests were
      live in that minute, the peak is the largest number of requests live at any instant of
      it, the minutes tile the observed time, and no minute's total exceeds its peak times its
      observed time. */
  lemma BucketsAreExact(instance: nat, key: SeriesKey, start: int, es: seq<Event>, horizon: int, w: Series, k: int)
    requires Run(NewSeries(instance, key, start), es, horizon, w) && k % MINUTE == 0 && horizon <= k
    ensures forall u :: Seconds(w, k, u) == LiveTime(Turns(NewSeries(instance, key, start), es), u, k, w.last)
    ensures Observed(w, k) == Within(start, w.last, k)
    ensures Peak(w, k) == LivePeak(Turns(NewSeries(instance, key, start), es), k, w.last)
    ensures forall u :: Get(w.counts, u) == LiveCount(Turns(NewSeries(instance, key, start), es), u) >= 0
    ensures k in w.buckets ==> AverageAtMostPeak(w.buckets[k].Value())
  {
    var v := NewSeries(instance, key, start);
    NothingYet(v);
    var end := RunIsFaithful(v, [], [], start, es, horizon, w);
    assert [] + Turns(v, es) == Turns(v, es);
    assert AgreesAt(w, end, k);
    assert SeriesOk(w);
  }

  lemma NothingYet(v: Series)
    requires v.counts == map[]
    ensures PeaksFaithful(v, [], [])
  {
  }
}
