/** What one call leaves behind: the rows and the baselines after a passive observation or a
    probe, told from those before it. */
module QuotaRecords {
  import opened MapSums
  import opened QuotaSnapshots
  import opened Units

  /** A passive observation of a window with row p: a probed row refuses other windows, an earlier
      window only refreshes the time, a later one replaces the row, and within two minutes the
      row keeps its window and the higher usage. */
  ghost predicate Observed(p: Row, s: Signal, now: int, r: Row) {
    if s.reset > p.reset + 120 * SECOND then
      r == if p.authoritative then p else Row(s.start, s.reset, s.used, now, false, p.authoritativeAt)
    else if s.reset < p.reset - 120 * SECOND then
      r == if p.authoritative then p else Row(p.start, p.reset, p.used, now, false, p.authoritativeAt)
    else
      && r.start == p.start && r.reset == p.reset && r.used >= p.used && r.used >= s.used && r.used in {p.used, s.used}
      && r.updatedAt == now && r.authoritative == p.authoritative && r.authoritativeAt == p.authoritativeAt
  }

  /** The baseline that a plan has once row r is recorded. A first one takes the recorded usage
      and counts from now on; one of the same window stays; a new window starts from zero, and
      counts from its start. */
  ghost predicate BaselineIs(before: map<BaselineKey, Baseline>, after: map<BaselineKey, Baseline>, k: BaselineKey, r: Row, now: int) {
    && k in after
    && after[k] ==
       if k !in before then Baseline(r.start, r.reset, r.used, now, now)
       else if -120 * SECOND <= before[k].reset - r.reset <= 120 * SECOND then before[k]
       else Baseline(r.start, r.reset, 0, r.start, now)
  }

  ghost predicate SameBaselinesBut(before: map<BaselineKey, Baseline>, after: map<BaselineKey, Baseline>, k: BaselineKey) {
    forall x :: x != k ==> (x in after <==> x in before) && (x in before ==> after[x] == before[x])
  }

  /** A refused observation leaves everything as it is. */
  predicate Refused(t: Table, s: Signal) {
    && s.window in t.rows && t.rows[s.window].authoritative
    && !(-120 * SECOND <= s.reset - t.rows[s.window].reset <= 120 * SECOND)
  }

  /** One passive observation. */
  lemma ObservationRecorded(t: Table, b: Batch, s: Signal)
    requires b.bound && !b.authoritative && b.signals == [s]
    ensures var u, k := Record(t, b), BaselineKey(b.plan, b.generation, s.window);
            if Refused(t, s) then u == t
            else
              && s.window in u.rows
              && (if s.window in t.rows then Observed(t.rows[s.window], s, b.now, u.rows[s.window])
                  else u.rows[s.window] == Row(s.start, s.reset, s.used, b.now, false, 0))
              && u.rows == t.rows[s.window := u.rows[s.window]]
              && BaselineIs(t.baselines, u.baselines, k, u.rows[s.window], b.now) && SameBaselinesBut(t.baselines, u.baselines, k)
  {
    assert b.signals[..0] == [] && ApplyAll(t, b, []) == Some(t);
    ApplyOneMore(t, b, b.signals, 0);
    assert b.signals[..1] == b.signals;
    hide ApplyAll;
    if s.window in t.rows {
      RowObserved(t.rows[s.window], s, b.now);
    }
  }

  lemma RowObserved(p: Row, s: Signal, now: int)
    ensures var r := Reconcile(p, s, false, now);
            if p.authoritative && !(-120 * SECOND <= s.reset - p.reset <= 120 * SECOND) then r.Stale?
            else r.Accepted? && Observed(p, s, now, r.row)
  {
  }

  /** Several passive observations of one call are recorded one after the other. */
  lemma {:induction false} ObservationsInTurn(t: Table, b: Batch, x: seq<Signal>, y: seq<Signal>)
    requires b.bound && !b.authoritative
    ensures Record(t, b.(signals := x + y)) == Record(Record(t, b.(signals := x)), b.(signals := y))
    decreases |y|
  {
    PassiveSignalsProgress(t, b.(signals := x), x);
    InTurn(t, b.(signals := x + y), b.(signals := x), b.(signals := y), x, y);
  }

  lemma {:induction false} InTurn(t: Table, b: Batch, bx: Batch, bz: Batch, x: seq<Signal>, y: seq<Signal>)
    requires !b.authoritative && bx == b.(signals := bx.signals) && bz == b.(signals := bz.signals)
    requires ApplyAll(t, bx, x).Some?
    ensures ApplyAll(t, b, x + y).Some? && ApplyAll(ApplyAll(t, bx, x).value, bz, y) == ApplyAll(t, b, x + y)
    decreases |y|
  {
    if y == [] {
      assert x + y == x;
      SignalsOnly(t, b, bx, x);
    } else {
      var init := y[..|y| - 1];
      InTurn(t, b, bx, bz, x, init);
      assert (x + y)[..|x + y| - 1] == x + init;
      hide RowFor;
    }
  }

  /** Only the plan, the kind and the time of a batch matter for a signal. */
  lemma {:induction false} SignalsOnly(t: Table, b: Batch, c: Batch, signals: seq<Signal>)
    requires c == b.(signals := c.signals)
    ensures ApplyAll(t, b, signals) == ApplyAll(t, c, signals)
    decreases |signals|
  {
    if signals != [] {
      SignalsOnly(t, b, c, signals[..|signals| - 1]);
      hide RowFor;
    }
  }

  // ---- probes ---------------------------------------------------------------------------------

  /** The probe reports the weekly window but not the five-hour one. */
  predicate WeeklyOnly(signals: seq<Signal>) {
    (exists s :: s in signals && s.window == SevenDays) && forall s <- signals :: s.window != FiveHours
  }

  /** What a probe starts from: a five-hour window that it does not report is gone, for every
      plan of the account. */
  ghost predicate Cleared(t: Table, signals: seq<Signal>, u: Table) {
    && (forall w :: w in u.rows <==> w in t.rows && !(w == FiveHours && WeeklyOnly(signals)))
    && (forall w <- u.rows :: w in t.rows && u.rows[w] == t.rows[w])
    && (forall k: BaselineKey :: k in u.baselines <==> k in t.baselines && !(k.window == FiveHours && WeeklyOnly(signals)))
    && (forall k <- u.baselines :: k in t.baselines && u.baselines[k] == t.baselines[k])
  }

  lemma StartIsCleared(t: Table, b: Batch)
    requires b.authoritative
    ensures Cleared(t, b.signals, Start(t, b))
  {
    assert (exists i :: 0 <= i < |b.signals| && b.signals[i].window.SevenDays?) <==> exists s :: s in b.signals && s.window == SevenDays;
    assert (forall i :: 0 <= i < |b.signals| ==> !b.signals[i].window.FiveHours?) <==> forall s <- b.signals :: s.window != FiveHours;
  }

  ghost predicate ProbedBaselines(t: Table, u: Table, b: Batch, signals: seq<Signal>) {
    && (forall s <- signals :: BaselineIs(t.baselines, u.baselines, BaselineKey(b.plan, b.generation, s.window), Row(s.start, s.reset, s.used, b.now, true, b.now), b.now))
    && (forall k: BaselineKey :: (k.plan != b.plan || k.generation != b.generation || forall s <- signals :: s.window != k.window) ==>
          (k in u.baselines <==> k in t.baselines) && (k in t.baselines ==> u.baselines[k] == t.baselines[k]))
  }

  lemma BaselineOneMore(t: Table, u: Table, b: Batch, init: seq<Signal>, s: Signal)
    requires ProbedBaselines(t, u, b, init) && forall x <- init :: x.window != s.window
    ensures ProbedBaselines(t, Store(u, b, s.window, RowOf(s, b.now, true, b.now)), b, init + [s])
  {
    var key, v := BaselineKey(b.plan, b.generation, s.window), Store(u, b, s.window, RowOf(s, b.now, true, b.now));
    assert (key in u.baselines <==> key in t.baselines) && (key in t.baselines ==> u.baselines[key] == t.baselines[key]);
    forall x | x in init + [s]
      ensures BaselineIs(t.baselines, v.baselines, BaselineKey(b.plan, b.generation, x.window), Row(x.start, x.reset, x.used, b.now, true, b.now), b.now)
    {
      if x in init {
        assert BaselineIs(t.baselines, u.baselines, BaselineKey(b.plan, b.generation, x.window), Row(x.start, x.reset, x.used, b.now, true, b.now), b.now);
      }
    }
    assert s in init + [s] && forall x <- init :: x in init + [s];
  }

  lemma {:induction false} ProbeBaselines(t: Table, b: Batch, signals: seq<Signal>)
    requires b.authoritative && FreshFor(t, b.now, signals)
    ensures ApplyAll(t, b, signals).Some? && ProbedBaselines(t, ApplyAll(t, b, signals).value, b, signals)
    decreases |signals|
  {
    ProbeOutcome(t, b, signals);
    if signals != [] {
      hide FreshFor, Applied, ProbedBaselines, Store, RowFor;
      var init, s := signals[..|signals| - 1], signals[|signals| - 1];
      assert signals == init + [s];
      FreshOneMore(t, b.now, init, s);
      ProbeOutcome(t, b, init);
      ProbeBaselines(t, b, init);
      SignalAccepted(t, ApplyAll(t, b, init).value, b.now, init, s);
      BaselineOneMore(t, ApplyAll(t, b, init).value, b, init, s);
    }
  }

  /** A probe that takes effect: every reported window has its row, and the plan its baseline;
      a five-hour window that is not reported is gone; all else is as before. */
  lemma ProbeRecorded(t: Table, b: Batch) returns (cleared: Table)
    requires b.bound && b.authoritative && Fresh(t, b)
    ensures Cleared(t, b.signals, cleared)
    ensures Applied(cleared, Record(t, b), b.now, b.signals) && ProbedBaselines(cleared, Record(t, b), b, b.signals)
  {
    cleared := Start(t, b);
    StartIsCleared(t, b);
    ProbeOutcome(cleared, b, b.signals);
    ProbeBaselines(cleared, b, b.signals);
    hide Applied, ProbedBaselines, Cleared;
  }
}
