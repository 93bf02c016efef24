/** Quota snapshots of one account: passive observations from gateway traffic and
    authoritative probes are reconciled row by row, one batch per transaction. */
module QuotaSnapshots {
  import opened MapSums
  import opened Units

  const TOLERANCE: int := 120 * SECOND

  datatype Window = FiveHours | SevenDays | OtherWindow(name: string)

  datatype Signal = Signal(window: Window, start: int, reset: int, used: int)

  datatype Row = Row(start: int, reset: int, used: int, updatedAt: int, authoritative: bool, authoritativeAt: int)

  datatype BaselineKey = BaselineKey(plan: nat, generation: int, window: Window)

  datatype Baseline = Baseline(start: int, reset: int, used: int, accountingFrom: int, updatedAt: int)

  datatype Table = Table(rows: map<Window, Row>, baselines: map<BaselineKey, Baseline>)

  /** One call of recordAccountQuotaSignals; `bound`: the plan is still bound to the account. */
  datatype Batch = Batch(plan: nat, generation: int, bound: bool, signals: seq<Signal>, authoritative: bool, now: int)

  /** `sameQuotaWindow`. */
  predicate SameWindow(left: int, right: int) {
    -TOLERANCE <= left - right <= TOLERANCE
  }

  /** `mergeAccountQuotaSignal`. */
  function Merge(prior: Row, s: Signal): Signal {
    if !SameWindow(prior.reset, s.reset) then
      if s.reset > prior.reset then s else s.(start := prior.start, reset := prior.reset, used := prior.used)
    else s.(start := prior.start, reset := prior.reset, used := Max(s.used, prior.used))
  }

  datatype Reconciled = Accepted(row: Row) | Stale

  function RowOf(s: Signal, now: int, authoritative: bool, at: int): Row {
    Row(s.start, s.reset, s.used, now, authoritative, at)
  }

  /** `reconcileAccountQuotaSignal`. */
  function Reconcile(prior: Row, s: Signal, authoritative: bool, now: int): Reconciled {
    if authoritative then
      if prior.authoritative && now <= prior.authoritativeAt then Stale else Accepted(RowOf(s, now, true, now))
    else if prior.authoritative && !SameWindow(prior.reset, s.reset) then Stale
    else Accepted(RowOf(Merge(prior, s), now, prior.authoritative, prior.authoritativeAt))
  }

  function RowFor(t: Table, s: Signal, authoritative: bool, now: int): Reconciled {
    if s.window in t.rows then Reconcile(t.rows[s.window], s, authoritative, now)
    else Accepted(RowOf(s, now, authoritative, if authoritative then now else 0))
  }

  /** A new window of the plan starts from zero usage; within the tolerance the baseline
      stays as it is. */
  function BaselineFor(t: Table, b: Batch, w: Window, row: Row): map<BaselineKey, Baseline> {
    var key := BaselineKey(b.plan, b.generation, w);
    if key !in t.baselines then t.baselines[key := Baseline(row.start, row.reset, row.used, b.now, b.now)]
    else if SameWindow(t.baselines[key].reset, row.reset) then t.baselines
    else t.baselines[key := Baseline(row.start, row.reset, 0, row.start, b.now)]
  }

  function Store(t: Table, b: Batch, w: Window, row: Row): Table {
    Table(t.rows[w := row], BaselineFor(t, b, w, row))
  }

  /** The loop over the signals; None is the rollback of a stale authoritative batch. */
  function ApplyAll(t: Table, b: Batch, signals: seq<Signal>): Option<Table>
    decreases |signals|
  {
    if signals == [] then Some(t) else
      match ApplyAll(t, b, signals[..|signals| - 1])
      case None => None
      case Some(u) =>
        var s := signals[|signals| - 1];
        match RowFor(u, s, b.authoritative, b.now)
        case Accepted(row) => Some(Store(u, b, s.window, row))
        case Stale => if b.authoritative then None else Some(u)
  }

  lemma ApplyNone(t: Table, b: Batch, signals: seq<Signal>)
    requires signals == []
    ensures ApplyAll(t, b, signals) == Some(t)
  {
  }

  lemma ApplyOneMore(t: Table, b: Batch, signals: seq<Signal>, i: nat)
    requires i < |signals| && ApplyAll(t, b, signals[..i]).Some?
    ensures var u, s := ApplyAll(t, b, signals[..i]).value, signals[i];
            ApplyAll(t, b, signals[..i + 1]) ==
              match RowFor(u, s, b.authoritative, b.now)
              case Accepted(row) => Some(Store(u, b, s.window, row))
              case Stale => if b.authoritative then None else Some(u)
  {
    assert signals[..i + 1][..i] == signals[..i];
    hide RowFor, Store;
  }

  /** `removeMissingOptionalQuotaWindows`. */
  function RemoveMissing(t: Table, signals: seq<Signal>): Table {
    if (exists i :: 0 <= i < |signals| && signals[i].window.SevenDays?) && (forall i :: 0 <= i < |signals| ==> !signals[i].window.FiveHours?)
    then Table(t.rows - {FiveHours}, map k | k in t.baselines && k.window != FiveHours :: t.baselines[k])
    else t
  }

  function Start(t: Table, b: Batch): Table {
    if b.authoritative then RemoveMissing(t, b.signals) else t
  }

  function Record(t: Table, b: Batch): Table {
    if !b.bound then t else
      match ApplyAll(Start(t, b), b, b.signals)
      case None => t
      case Some(u) => u
  }

  // ---- the imperative form ----------------------------------------------------------

  /** The table as the transactions see it. */
  class QuotaStore {
    var table: Table

    constructor ()
      ensures table == Table(map[], map[])
    {
      table := Table(map[], map[]);
    }

    method RecordSignals(b: Batch) returns (ok: bool)
      modifies this
      ensures table == Record(old(table), b) && ok == b.bound
    {
      if !b.bound {
        return false;
      }
      hide RowFor, Store, RemoveMissing;
      var t := table;
      if b.authoritative {
        t := DropMissing(t, b.signals);
      }
      ghost var begun := t;
      hide RowFor, Store, RemoveMissing, ApplyAll;
      assert ApplyAll(begun, b, b.signals[..0]) == Some(t) by { ApplyNone(begun, b, b.signals[..0]); }
      for i := 0 to |b.signals|
        invariant ApplyAll(begun, b, b.signals[..i]) == Some(t) && table == old(table)
      {
        var s := b.signals[i];
        ApplyOneMore(begun, b, b.signals, i);
        var r := RowFor(t, s, b.authoritative, b.now);
        if r.Stale? {
          if b.authoritative {
            RolledBack(begun, b, b.signals, i + 1);
            return true;
          }
        } else {
          t := Store(t, b, s.window, r.row);
        }
      }
      assert b.signals[..|b.signals|] == b.signals;
      table := t;
      return true;
    }
  }

  method DropMissing(t: Table, signals: seq<Signal>) returns (u: Table)
    ensures u == RemoveMissing(t, signals)
  {
    var has5H, has7D := false, false;
    for i := 0 to |signals|
      invariant has5H <==> exists j :: 0 <= j < i && signals[j].window.FiveHours?
      invariant has7D <==> exists j :: 0 <= j < i && signals[j].window.SevenDays?
    {
      match signals[i].window {
        case FiveHours => has5H := true;
        case SevenDays => has7D := true;
        case OtherWindow(_) =>
      }
    }
    u := t;
    if has7D && !has5H {
      u := Table(t.rows - {FiveHours}, map k | k in t.baselines && k.window != FiveHours :: t.baselines[k]);
    }
  }

  lemma {:induction false} RolledBack(t: Table, b: Batch, signals: seq<Signal>, i: nat)
    requires i <= |signals| && ApplyAll(t, b, signals[..i]).None?
    ensures ApplyAll(t, b, signals).None?
    decreases |signals|
  {
    if i == |signals| {
      assert signals[..i] == signals;
    } else {
      assert signals[..|signals| - 1][..i] == signals[..i];
      RolledBack(t, b, signals[..|signals| - 1], i);
    }
  }

  // ---- passive observations ----------------------------------------------------------

  /** What passive observations do to a row: the reset never moves back, usage never falls
      within a window, and the window of an authoritative row does not move at all. */
  predicate Progresses(prior: Row, later: Row) {
    && prior.reset <= later.reset
    && (later.reset == prior.reset ==> prior.used <= later.used)
    && (prior.authoritative ==> later.authoritative && later.start == prior.start && later.reset == prior.reset && later.authoritativeAt == prior.authoritativeAt)
  }

  predicate AllProgress(t: Table, u: Table) {
    t.rows.Keys <= u.rows.Keys && forall w <- t.rows :: Progresses(t.rows[w], u.rows[w])
  }

  lemma {:induction false} PassiveSignalsProgress(t: Table, b: Batch, signals: seq<Signal>)
    requires !b.authoritative
    ensures ApplyAll(t, b, signals).Some? && AllProgress(t, ApplyAll(t, b, signals).value)
    decreases |signals|
  {
    if signals != [] {
      var init, s := signals[..|signals| - 1], signals[|signals| - 1];
      PassiveSignalsProgress(t, b, init);
      var u := ApplyAll(t, b, init).value;
      var v := ApplyAll(t, b, signals).value;
      forall w | w in t.rows ensures w in v.rows && Progresses(t.rows[w], v.rows[w]) {
        assert Progresses(t.rows[w], u.rows[w]);
        assert w in v.rows && (v.rows[w] == u.rows[w] || (w == s.window && Progresses(u.rows[w], v.rows[w])));
      }
    }
  }

  lemma PassiveBatchProgresses(t: Table, b: Batch)
    requires !b.authoritative
    ensures AllProgress(t, Record(t, b))
  {
    PassiveSignalsProgress(t, b, b.signals);
  }

  function RecordAll(t: Table, batches: seq<Batch>): Table
    decreases |batches|
  {
    if batches == [] then t else Record(RecordAll(t, batches[..|batches| - 1]), batches[|batches| - 1])
  }

  /** Over any run of passive batches, of any plans and at any times. */
  lemma {:induction false} PassiveRunProgresses(t: Table, batches: seq<Batch>)
    requires forall b <- batches :: !b.authoritative
    ensures AllProgress(t, RecordAll(t, batches))
    decreases |batches|
  {
    if batches != [] {
      var init := batches[..|batches| - 1];
      PassiveRunProgresses(t, init);
      PassiveBatchProgresses(RecordAll(t, init), batches[|batches| - 1]);
      var u, v := RecordAll(t, init), RecordAll(t, batches);
      forall w | w in t.rows ensures w in v.rows && Progresses(t.rows[w], v.rows[w]) {
        assert Progresses(t.rows[w], u.rows[w]) && Progresses(u.rows[w], v.rows[w]);
      }
    }
  }

  // ---- the observations of one window --------------------------------------------------

  datatype Timed = Timed(signal: Signal, now: int)

  function RowAt(t: Table, w: Window): Option<Row> {
    if w in t.rows then Some(t.rows[w]) else None
  }

  /** One passive observation; the first of a window creates its row. */
  function Observe(prior: Option<Row>, o: Timed): Option<Row> {
    match prior
    case None => Some(RowOf(o.signal, o.now, false, 0))
    case Some(p) =>
      match Reconcile(p, o.signal, false, o.now)
      case Accepted(row) => Some(row)
      case Stale => prior
  }

  function ObserveAll(prior: Option<Row>, obs: seq<Timed>): Option<Row>
    decreases |obs|
  {
    if obs == [] then prior else Observe(ObserveAll(prior, obs[..|obs| - 1]), obs[|obs| - 1])
  }

  /** What a batch says about window w. */
  function SeenIn(w: Window, now: int, signals: seq<Signal>): seq<Timed>
    decreases |signals|
  {
    if signals == [] then [] else
      var s := signals[|signals| - 1];
      SeenIn(w, now, signals[..|signals| - 1]) + if s.window == w then [Timed(s, now)] else []
  }

  /** What a run of batches says about window w; a batch of an unbound plan says nothing. */
  function Seen(w: Window, batches: seq<Batch>): seq<Timed>
    decreases |batches|
  {
    if batches == [] then [] else
      var b := batches[|batches| - 1];
      Seen(w, batches[..|batches| - 1]) + if b.bound then SeenIn(w, b.now, b.signals) else []
  }

  lemma {:induction false} ObserveConcat(prior: Option<Row>, a: seq<Timed>, b: seq<Timed>)
    ensures ObserveAll(prior, a + b) == ObserveAll(ObserveAll(prior, a), b)
    decreases |b|
  {
    hide Observe;
    if b == [] {
      assert a + b == a;
    } else {
      assert (a + b)[..|a + b| - 1] == a + b[..|b| - 1];
      ObserveConcat(prior, a, b[..|b| - 1]);
    }
  }

  lemma {:induction false} BatchObserves(t: Table, b: Batch, signals: seq<Signal>, w: Window)
    requires !b.authoritative
    ensures ApplyAll(t, b, signals).Some?
    ensures RowAt(ApplyAll(t, b, signals).value, w) == ObserveAll(RowAt(t, w), SeenIn(w, b.now, signals))
    decreases |signals|
  {
    hide RowFor, Store, Observe;
    if signals != [] {
      var init, s := signals[..|signals| - 1], signals[|signals| - 1];
      BatchObserves(t, b, init, w);
      StepObserves(ApplyAll(t, b, init).value, b, s, w);
      if s.window == w {
        ObserveConcat(RowAt(t, w), SeenIn(w, b.now, init), [Timed(s, b.now)]);
        OneObservation(RowAt(ApplyAll(t, b, init).value, w), Timed(s, b.now));
      } else {
        assert SeenIn(w, b.now, signals) == SeenIn(w, b.now, init);
      }
    }
  }

  lemma StepObserves(u: Table, b: Batch, s: Signal, w: Window)
    requires !b.authoritative
    ensures var r := RowFor(u, s, false, b.now);
            RowAt(if r.Accepted? then Store(u, b, s.window, r.row) else u, w)
            == if s.window == w then Observe(RowAt(u, w), Timed(s, b.now)) else RowAt(u, w)
  {
    hide BaselineFor;
  }

  lemma OneObservation(prior: Option<Row>, o: Timed)
    ensures ObserveAll(prior, [o]) == Observe(prior, o) && ObserveAll(prior, []) == prior
  {
    assert [o][..0] == [];
  }

  /** After any run of passive batches the row of a window is what its observations make of
      it, each at the time of its batch, whether or not the row was there before. */
  lemma {:induction false} RunObserves(t: Table, batches: seq<Batch>, w: Window)
    requires forall b <- batches :: !b.authoritative
    ensures RowAt(RecordAll(t, batches), w) == ObserveAll(RowAt(t, w), Seen(w, batches))
    decreases |batches|
  {
    hide ApplyAll, Observe, SeenIn;
    if batches != [] {
      var init, b := batches[..|batches| - 1], batches[|batches| - 1];
      RunObserves(t, init, w);
      BatchObserves(RecordAll(t, init), b, b.signals, w);
      ObserveConcat(RowAt(t, w), Seen(w, init), if b.bound then SeenIn(w, b.now, b.signals) else []);
      if !b.bound {
        assert ObserveAll(RowAt(RecordAll(t, init), w), []) == RowAt(RecordAll(t, init), w);
      }
    }
  }

  // ---- no drift ------------------------------------------------------------------------------

  /** The observation belongs to a later window than the row. */
  predicate Later(prior: Row, s: Signal) {
    s.reset > prior.reset + TOLERANCE
  }

  /** None of the observations can move the row's window. */
  predicate Settled(prior: Row, obs: seq<Timed>) {
    prior.authoritative || forall o <- obs :: !Later(prior, o.signal)
  }

  /** The highest usage observed within the tolerance of a reset time. */
  function UsedIn(used: int, reset: int, obs: seq<Timed>): int
    decreases |obs|
  {
    if obs == [] then used else
      var s := obs[|obs| - 1].signal;
      var before := UsedIn(used, reset, obs[..|obs| - 1]);
      if SameWindow(reset, s.reset) then Max(s.used, before) else before
  }

  lemma {:induction false} WindowStays(prior: Row, obs: seq<Timed>)
    ensures ObserveAll(Some(prior), obs).Some?
    ensures var r := ObserveAll(Some(prior), obs).value;
            if Settled(prior, obs) then
              r.(updatedAt := prior.updatedAt) == prior.(used := UsedIn(prior.used, prior.reset, obs))
            else r.reset > prior.reset
    decreases |obs|
  {
    if obs != [] {
      var init, o := obs[..|obs| - 1], obs[|obs| - 1];
      WindowStays(prior, init);
      assert obs == init + [o];
      assert forall x :: x in obs <==> x in init || x == o;
    }
  }

  /** Over any run of passive batches, a row keeps its window exactly when it is
      authoritative or no observation belongs to a later one; it then has the highest usage
      observed in the window. Repeated observations within the tolerance never drift it. */
  lemma NoDrift(t: Table, batches: seq<Batch>, w: Window)
    requires w in t.rows && forall b <- batches :: !b.authoritative
    ensures w in RecordAll(t, batches).rows
    ensures RecordAll(t, batches).rows[w].reset == t.rows[w].reset <==> Settled(t.rows[w], Seen(w, batches))
    ensures Settled(t.rows[w], Seen(w, batches)) ==>
      var r, p := RecordAll(t, batches).rows[w], t.rows[w];
      r.start == p.start && r.used == UsedIn(p.used, p.reset, Seen(w, batches))
  {
    RunObserves(t, batches, w);
    WindowStays(t.rows[w], Seen(w, batches));
  }

  /** The same for a window that has no row yet: its first observation sets it. */
  lemma NoDriftFromFirst(t: Table, batches: seq<Batch>, w: Window)
    requires w !in t.rows && Seen(w, batches) != [] && forall b <- batches :: !b.authoritative
    ensures w in RecordAll(t, batches).rows
    ensures var first, obs := FirstRow(Seen(w, batches)), Seen(w, batches); var r := RecordAll(t, batches).rows[w];
            && (r.reset == first.reset <==> Settled(first, obs))
            && (Settled(first, obs) ==> r.start == first.start && r.used == UsedIn(first.used, first.reset, obs))
  {
    hide ObserveAll, Settled, UsedIn, Seen, RecordAll, FirstRow;
    var obs := Seen(w, batches);
    RunObserves(t, batches, w);
    FirstOpens(obs);
    WindowStays(FirstRow(obs), obs[1..]);
    FirstIsCounted(obs);
    FirstSettles(obs);
  }

  lemma FirstOpens(obs: seq<Timed>)
    requires obs != []
    ensures ObserveAll(None, obs) == ObserveAll(Some(FirstRow(obs)), obs[1..])
  {
    assert obs == [obs[0]] + obs[1..];
    ObserveConcat(None, [obs[0]], obs[1..]);
    OneObservation(None, obs[0]);
    hide ObserveAll, Reconcile;
  }

  lemma FirstSettles(obs: seq<Timed>)
    requires obs != []
    ensures Settled(FirstRow(obs), obs) <==> Settled(FirstRow(obs), obs[1..])
  {
    assert forall x :: x in obs <==> x == obs[0] || x in obs[1..];
  }

  function FirstRow(obs: seq<Timed>): Row
    requires obs != []
  {
    RowOf(obs[0].signal, obs[0].now, false, 0)
  }

  lemma {:induction false} FirstIsCounted(obs: seq<Timed>)
    requires obs != []
    ensures var f := FirstRow(obs); UsedIn(f.used, f.reset, obs[1..]) == UsedIn(f.used, f.reset, obs)
    decreases |obs|
  {
    var f := FirstRow(obs);
    if |obs| == 1 {
      assert obs[1..] == [] && obs[..0] == [];
    } else {
      FirstIsCounted(obs[..|obs| - 1]);
      assert obs[..|obs| - 1][1..] == obs[1..][..|obs| - 2];
      UsedBounds(f.used, f.reset, obs[..|obs| - 1]);
    }
  }

  // ---- order ------------------------------------------------------------------------------------

  function SignalsOf(obs: seq<Timed>): set<Signal> {
    set o | o in obs :: o.signal
  }

  lemma {:induction false} UsedBounds(used: int, reset: int, obs: seq<Timed>)
    ensures used <= UsedIn(used, reset, obs)
    ensures forall o <- obs :: SameWindow(reset, o.signal.reset) ==> o.signal.used <= UsedIn(used, reset, obs)
    ensures UsedIn(used, reset, obs) == used || Attained(UsedIn(used, reset, obs), reset, obs)
    decreases |obs|
  {
    if obs != [] {
      UsedBounds(used, reset, obs[..|obs| - 1]);
      assert obs == obs[..|obs| - 1] + [obs[|obs| - 1]];
    }
  }

  ghost predicate Attained(used: int, reset: int, obs: seq<Timed>) {
    exists o :: o in obs && SameWindow(reset, o.signal.reset) && o.signal.used == used
  }

  lemma {:induction false} UsedInAtMost(used: int, reset: int, a: seq<Timed>, bound: int)
    requires used <= bound && forall o <- a :: SameWindow(reset, o.signal.reset) ==> o.signal.used <= bound
    ensures UsedIn(used, reset, a) <= bound
    decreases |a|
  {
    if a != [] {
      UsedInAtMost(used, reset, a[..|a| - 1], bound);
      assert a[|a| - 1] in a;
    }
  }

  lemma FewerSignalsUseLess(x: int, y: int, reset: int, a: seq<Timed>, b: seq<Timed>)
    requires SignalsOf(a) <= SignalsOf(b) && (x == y || Attained(x, reset, a))
    ensures UsedIn(x, reset, a) <= UsedIn(y, reset, b)
  {
    UsedBounds(y, reset, b);
    forall o | o in a && SameWindow(reset, o.signal.reset) ensures o.signal.used <= UsedIn(y, reset, b) {
      assert o.signal in SignalsOf(a);
      var q :| q in b && q.signal == o.signal;
    }
    UsedInAtMost(x, reset, a, UsedIn(y, reset, b));
  }

  lemma UsedInAnyOrder(x: int, y: int, reset: int, a: seq<Timed>, b: seq<Timed>)
    requires SignalsOf(a) == SignalsOf(b) && (x == y || (Attained(x, reset, a) && Attained(y, reset, b)))
    ensures UsedIn(x, reset, a) == UsedIn(y, reset, b)
  {
    FewerSignalsUseLess(x, y, reset, a, b);
    FewerSignalsUseLess(y, x, reset, b, a);
  }

  lemma SettledInAnyOrder(prior: Row, a: seq<Timed>, b: seq<Timed>)
    requires SignalsOf(a) == SignalsOf(b)
    ensures Settled(prior, a) <==> Settled(prior, b)
  {
    SettledSignals(prior, a);
    SettledSignals(prior, b);
  }

  lemma SettledSignals(prior: Row, obs: seq<Timed>)
    ensures Settled(prior, obs) <==> prior.authoritative || forall s <- SignalsOf(obs) :: !Later(prior, s)
  {
    forall o | o in obs ensures o.signal in SignalsOf(obs) {
    }
  }

  /** Two runs of passive batches that make the same observations of a window, in any order,
      at any times and however often, agree on its row, if none belongs to a later window. */
  lemma AnyOrder(t: Table, a: seq<Batch>, b: seq<Batch>, w: Window)
    requires w in t.rows && (forall x <- a :: !x.authoritative) && (forall x <- b :: !x.authoritative)
    requires SignalsOf(Seen(w, a)) == SignalsOf(Seen(w, b)) && Settled(t.rows[w], Seen(w, a))
    ensures w in RecordAll(t, a).rows && w in RecordAll(t, b).rows && SameContent(RecordAll(t, a).rows[w], RecordAll(t, b).rows[w])
  {
    RunObserves(t, a, w);
    RunObserves(t, b, w);
    WindowStays(t.rows[w], Seen(w, a));
    WindowStays(t.rows[w], Seen(w, b));
    SettledInAnyOrder(t.rows[w], Seen(w, a), Seen(w, b));
    UsedInAnyOrder(t.rows[w].used, t.rows[w].used, t.rows[w].reset, Seen(w, a), Seen(w, b));
  }

  /** The same from a table without the row, if both runs begin with the same window. */
  lemma AnyOrderFromFirst(t: Table, a: seq<Batch>, b: seq<Batch>, w: Window)
    requires w !in t.rows && (forall x <- a :: !x.authoritative) && (forall x <- b :: !x.authoritative)
    requires Seen(w, a) != [] && SignalsOf(Seen(w, a)) == SignalsOf(Seen(w, b)) && Settled(FirstRow(Seen(w, a)), Seen(w, a))
    requires Seen(w, b) != [] && FirstRow(Seen(w, a)).start == FirstRow(Seen(w, b)).start && FirstRow(Seen(w, a)).reset == FirstRow(Seen(w, b)).reset
    ensures w in RecordAll(t, a).rows && w in RecordAll(t, b).rows
    ensures var r, q := RecordAll(t, a).rows[w], RecordAll(t, b).rows[w]; r.start == q.start && r.reset == q.reset && r.used == q.used
  {
    NoDriftFromFirst(t, a, w);
    NoDriftFromFirst(t, b, w);
    var x, y := Seen(w, a), Seen(w, b);
    assert x[0] in x && y[0] in y;
    SettledInAnyOrder(FirstRow(x), x, y);
    UsedInAnyOrder(FirstRow(x).used, FirstRow(y).used, FirstRow(x).reset, x, y);
    hide RecordAll;
  }

  /** Equal up to the time of the last update. */
  predicate SameContent(a: Row, b: Row) {
    a.(updatedAt := 0) == b.(updatedAt := 0)
  }

  /** One window under two different spellings. */
  predicate Rival(a: Signal, b: Signal) {
    SameWindow(a.reset, b.reset) && (a.reset != b.reset || a.start != b.start)
  }

  /** A later window, and a higher usage that counts for it only if it comes after. */
  predicate Eclipses(prior: Row, a: Signal, b: Signal) {
    Later(prior, a) && !Later(prior, b) && SameWindow(a.reset, b.reset) && b.used > a.used
  }

  predicate Clash(prior: Option<Row>, a: Signal, b: Signal) {
    match prior
    case None => Rival(a, b)
    case Some(p) => !p.authoritative && ((Later(p, a) && Later(p, b) && Rival(a, b)) || Eclipses(p, a, b) || Eclipses(p, b, a))
  }

  lemma TwoInEitherOrder(prior: Option<Row>, a: Timed, b: Timed)
    ensures ObserveAll(prior, [a, b]).Some? && ObserveAll(prior, [b, a]).Some?
    ensures SameContent(ObserveAll(prior, [a, b]).value, ObserveAll(prior, [b, a]).value) <==> !Clash(prior, a.signal, b.signal)
  {
    assert [a, b] == [a] + [b] && [b, a] == [b] + [a];
    ObserveConcat(prior, [a], [b]);
    ObserveConcat(prior, [b], [a]);
    OneObservation(prior, a);
    OneObservation(prior, b);
    OneObservation(Observe(prior, a), b);
    OneObservation(Observe(prior, b), a);
    hide ObserveAll;
  }

  /** When the order of two observations matters, exactly: two batches that each say one
      thing about a window leave different rows iff both belong to a new window that they
      spell differently, or one does and the other, not later than the row but within the
      tolerance of the new window, has the higher usage. For the row of a probe it never
      does. */
  lemma OrderMattersExactly(t: Table, x: Batch, y: Batch, w: Window, a: Signal, b: Signal)
    requires !x.authoritative && !y.authoritative && Seen(w, [x]) == [Timed(a, x.now)] && Seen(w, [y]) == [Timed(b, y.now)]
    ensures w in RecordAll(t, [x, y]).rows && w in RecordAll(t, [y, x]).rows
    ensures SameContent(RecordAll(t, [x, y]).rows[w], RecordAll(t, [y, x]).rows[w]) <==> !Clash(RowAt(t, w), a, b)
  {
    hide RecordAll, ObserveAll, Clash, SameContent, Seen;
    RowAfterTwo(t, x, y, w);
    RowAfterTwo(t, y, x, w);
    TwoInEitherOrder(RowAt(t, w), Timed(a, x.now), Timed(b, y.now));
    assert [Timed(a, x.now)] + [Timed(b, y.now)] == [Timed(a, x.now), Timed(b, y.now)];
    assert [Timed(b, y.now)] + [Timed(a, x.now)] == [Timed(b, y.now), Timed(a, x.now)];
  }

  lemma RowAfterTwo(t: Table, x: Batch, y: Batch, w: Window)
    requires !x.authoritative && !y.authoritative
    ensures RowAt(RecordAll(t, [x, y]), w) == ObserveAll(RowAt(t, w), Seen(w, [x]) + Seen(w, [y]))
  {
    RunObserves(t, [x, y], w);
    SeenTwo(w, x, y);
  }

  lemma SeenTwo(w: Window, x: Batch, y: Batch)
    ensures Seen(w, [x, y]) == Seen(w, [x]) + Seen(w, [y])
  {
    assert [x, y][..1] == [x] && [x][..0] == [] && [y][..0] == [];
  }

  /** Such observations exist: being within the tolerance is not transitive. */
  lemma OrderCanMatter()
    ensures Clash(Some(Row(0, 0, 5, 0, false, 0)), Signal(SevenDays, 0, TOLERANCE, 9), Signal(SevenDays, 0, 2 * TOLERANCE, 1))
  {
  }

  // ---- authoritative probes --------------------------------------------------------------

  /** Once authoritative, a row is only replaced by a strictly later authoritative
      observation (or its window is removed by one). */
  predicate Respects(prior: Row, later: Row, authoritative: bool, now: int) {
    prior.authoritative ==>
      || (later.authoritative && later.start == prior.start && later.reset == prior.reset && later.authoritativeAt == prior.authoritativeAt)
      || (authoritative && later.authoritative && later.authoritativeAt == now && prior.authoritativeAt < now)
  }

  lemma {:induction false} SignalsRespect(t: Table, b: Batch, signals: seq<Signal>)
    requires ApplyAll(t, b, signals).Some?
    ensures var u := ApplyAll(t, b, signals).value;
            t.rows.Keys <= u.rows.Keys && forall w <- t.rows :: Respects(t.rows[w], u.rows[w], b.authoritative, b.now)
    decreases |signals|
  {
    if signals != [] {
      var init, s := signals[..|signals| - 1], signals[|signals| - 1];
      SignalsRespect(t, b, init);
      var u := ApplyAll(t, b, init).value;
      var v := ApplyAll(t, b, signals).value;
      forall w | w in t.rows ensures w in v.rows && Respects(t.rows[w], v.rows[w], b.authoritative, b.now) {
        assert Respects(t.rows[w], u.rows[w], b.authoritative, b.now);
        assert v.rows[w] == u.rows[w] || (w == s.window && RowFor(u, s, b.authoritative, b.now) == Accepted(v.rows[w]));
      }
    }
  }

  lemma AuthorityRespected(t: Table, b: Batch, w: Window)
    requires w in t.rows && w in Record(t, b).rows
    ensures Respects(t.rows[w], Record(t, b).rows[w], b.authoritative, b.now)
  {
    if b.bound && ApplyAll(Start(t, b), b, b.signals).Some? {
      SignalsRespect(Start(t, b), b, b.signals);
      if w !in Start(t, b).rows {
        RemovedStaysAway(Start(t, b), b, b.signals, w);
      }
    }
  }

  /** The five-hour window is removed only by a batch that does not mention it. */
  lemma {:induction false} RemovedStaysAway(t: Table, b: Batch, signals: seq<Signal>, w: Window)
    requires w !in t.rows && ApplyAll(t, b, signals).Some? && forall s <- signals :: s.window != w
    ensures w !in ApplyAll(t, b, signals).value.rows
    decreases |signals|
  {
    if signals != [] {
      RemovedStaysAway(t, b, signals[..|signals| - 1], w);
      assert signals[|signals| - 1] in signals;
    }
  }

  predicate Fresh(t: Table, b: Batch) {
    && (forall i, j :: 0 <= i < j < |b.signals| ==> b.signals[i].window != b.signals[j].window)
    && (forall s <- b.signals :: s.window in Start(t, b).rows && Start(t, b).rows[s.window].authoritative ==> Start(t, b).rows[s.window].authoritativeAt < b.now)
  }

  /** An authoritative batch takes effect as a whole exactly when every window occurs once
      and none has an authoritative row as new as the batch; otherwise nothing changes. */
  lemma ProbeIsAllOrNothing(t: Table, b: Batch)
    requires b.bound && b.authoritative
    ensures if Fresh(t, b)
            then forall s <- b.signals :: s.window in Record(t, b).rows && Record(t, b).rows[s.window] == RowOf(s, b.now, true, b.now)
            else Record(t, b) == t
  {
    ProbeOutcome(Start(t, b), b, b.signals);
  }

  predicate FreshFor(t: Table, now: int, signals: seq<Signal>) {
    && (forall i, j :: 0 <= i < j < |signals| ==> signals[i].window != signals[j].window)
    && (forall s <- signals :: s.window in t.rows && t.rows[s.window].authoritative ==> t.rows[s.window].authoritativeAt < now)
  }

  /** Every signal has its row, stamped now, and all other rows are as before. */
  ghost predicate Applied(t: Table, u: Table, now: int, signals: seq<Signal>) {
    && (forall s <- signals :: s.window in u.rows && u.rows[s.window] == RowOf(s, now, true, now))
    && (forall w :: (forall s <- signals :: s.window != w) ==> (w in u.rows <==> w in t.rows) && (w in t.rows ==> u.rows[w] == t.rows[w]))
  }

  lemma SignalAccepted(t: Table, u: Table, now: int, init: seq<Signal>, s: Signal)
    requires Applied(t, u, now, init)
    ensures RowFor(u, s, true, now) == Accepted(RowOf(s, now, true, now)) || RowFor(u, s, true, now) == Stale
    ensures RowFor(u, s, true, now).Accepted? <==>
      && (forall x <- init :: x.window != s.window)
      && (s.window in t.rows && t.rows[s.window].authoritative ==> t.rows[s.window].authoritativeAt < now)
  {
    if forall x <- init :: x.window != s.window {
      assert (s.window in u.rows <==> s.window in t.rows) && (s.window in t.rows ==> u.rows[s.window] == t.rows[s.window]);
    }
  }

  lemma AppliedOneMore(t: Table, u: Table, b: Batch, init: seq<Signal>, s: Signal)
    requires Applied(t, u, b.now, init) && forall x <- init :: x.window != s.window
    ensures Applied(t, Store(u, b, s.window, RowOf(s, b.now, true, b.now)), b.now, init + [s])
  {
    hide BaselineFor, RowOf;
    var v, more := Store(u, b, s.window, RowOf(s, b.now, true, b.now)), init + [s];
    assert more[|init|] == s && forall x <- init :: x in more;
    forall x | x in more ensures x.window in v.rows && v.rows[x.window] == RowOf(x, b.now, true, b.now) {
      if x != s {
        assert x in init;
      }
    }
    forall w | forall x <- more :: x.window != w
      ensures (w in v.rows <==> w in t.rows) && (w in t.rows ==> v.rows[w] == t.rows[w])
    {
      assert s in more;
    }
  }

  lemma {:induction false} ProbeOutcome(t: Table, b: Batch, signals: seq<Signal>)
    requires b.authoritative
    ensures ApplyAll(t, b, signals).Some? <==> FreshFor(t, b.now, signals)
    ensures FreshFor(t, b.now, signals) ==> Applied(t, ApplyAll(t, b, signals).value, b.now, signals)
    decreases |signals|
  {
    if signals == [] {
      assert FreshFor(t, b.now, []);
    } else {
      hide FreshFor, Applied, RowFor, Store;
      var init, s := signals[..|signals| - 1], signals[|signals| - 1];
      assert signals == init + [s];
      ProbeOutcome(t, b, init);
      FreshOneMore(t, b.now, init, s);
      if FreshFor(t, b.now, init) {
        SignalAccepted(t, ApplyAll(t, b, init).value, b.now, init, s);
        if FreshFor(t, b.now, signals) {
          AppliedOneMore(t, ApplyAll(t, b, init).value, b, init, s);
        }
      }
    }
  }

  lemma FreshOneMore(t: Table, now: int, init: seq<Signal>, s: Signal)
    ensures FreshFor(t, now, init + [s]) <==>
      && FreshFor(t, now, init) && (forall x <- init :: x.window != s.window)
      && (s.window in t.rows && t.rows[s.window].authoritative ==> t.rows[s.window].authoritativeAt < now)
  {
    var more := init + [s];
    assert forall i :: 0 <= i < |init| ==> more[i] == init[i];
    assert more[|init|] == s && forall x :: x in more <==> x in init || x == s;
    if FreshFor(t, now, more) {
      forall x | x in init ensures x.window != s.window {
        var i :| 0 <= i < |init| && init[i] == x;
        assert more[i].window != more[|init|].window;
      }
      forall i, j | 0 <= i < j < |init| ensures init[i].window != init[j].window {
        assert more[i].window != more[j].window;
      }
    }
  }

  // ---- baselines ---------------------------------------------------------------------------

  predicate BaselineMatches(t: Table, b: Batch, w: Window) {
    var k := BaselineKey(b.plan, b.generation, w);
    w in t.rows && k in t.baselines && SameWindow(t.baselines[k].reset, t.rows[w].reset)
  }

  /** After a batch, the plan's baseline of every row that the batch wrote belongs to the
      window of that row: usage before it is never counted against the new window. */
  lemma {:induction false} BaselineFollows(t: Table, b: Batch, signals: seq<Signal>, w: Window)
    requires ApplyAll(t, b, signals).Some? && w in ApplyAll(t, b, signals).value.rows
    ensures var u := ApplyAll(t, b, signals).value;
            BaselineMatches(u, b, w) || (w in t.rows && u.rows[w] == t.rows[w] && forall k <- t.baselines :: k.window == w ==> k in u.baselines && u.baselines[k] == t.baselines[k])
    decreases |signals|
  {
    if signals != [] {
      var init, s := signals[..|signals| - 1], signals[|signals| - 1];
      var u := ApplyAll(t, b, init).value;
      if w in u.rows {
        BaselineFollows(t, b, init, w);
      }
    }
  }
}
