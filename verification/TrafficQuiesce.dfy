/** Quiescing several accounts at once: exclusive, all or nothing, and free of deadlock. */
module TrafficQuiesce {
  import opened ConcurrencySeries
  import opened AccountTraffic
  import opened TrafficInvariant
  import Collector = ConcurrencyFlush
  import opened Units

  // ---- the quiescing steps keep the invariant -----------------------------------------

  /** Marks changed, nothing else that tickets or counters look at. */
  predicate OnlyMarks(m: Traffic, n: Traffic) {
    && n.index == m.index && n.tickets == m.tickets && n.history == m.history && n.states.Keys == m.states.Keys
    && forall s <- m.states :: n.states[s] == m.states[s].(quiescing := n.states[s].quiescing)
  }

  /** Quiescing steps touch marks only, apart from creating a state for the next account. */
  lemma QuiesceStepsMark(m: Traffic, e: Event, n: Traffic)
    requires Enabled(m, e) && !e.DoPrepare? && !e.DoCommit? && !e.DoRelease?
    requires n == if e.DoTryMark? then WithState(m, Next(m.quiescers[e.q]), e.s) else m
    ensures OnlyMarks(n, Step(m, e))
  {
    hide Unmark, WithState;
    match e
    case DoUnlock(q) => OnlyUnmarks(m.states, set s | s in m.quiescers[q].locked);
    case DoUndo(q) => OnlyUnmarks(m.states, {m.quiescers[q].current});
    case DoTryMark(q, s) => TryMarkMarks(m, q, s);
    case _ =>
  }

  lemma TryMarkMarks(m: Traffic, q: QuiescerRef, s: StateRef)
    requires Enabled(m, DoTryMark(q, s))
    ensures OnlyMarks(WithState(m, Next(m.quiescers[q]), s), TryMark(m, q, s))
  {
  }

  lemma OnlyUnmarks(states: map<StateRef, AccountState>, refs: set<StateRef>)
    ensures Unmark(states, refs).Keys == states.Keys
    ensures forall s <- states :: Unmark(states, refs)[s] == states[s].(quiescing := Unmark(states, refs)[s].quiescing)
  {
  }

  lemma MarksKeepTickets(m: Traffic, n: Traffic)
    requires IndexOk(m) && TicketsOk(m) && OnlyMarks(m, n)
    ensures IndexOk(n) && TicketsOk(n)
  {
    forall t | t in n.tickets ensures TicketOk(n, n.tickets[t]) {
      assert TicketOk(m, m.tickets[t]);
    }
  }

  lemma MarksKeepStates(m: Traffic, n: Traffic)
    requires StatesOk(m) && OnlyMarks(m, n)
    ensures StatesOk(n)
  {
    forall s | s in n.states ensures CountersOk(n.tickets, s, n.states[s]) {
      assert CountersOk(m.tickets, s, m.states[s]);
    }
  }

  /** Quiescer q becomes p; the others keep theirs, and marks follow ownership. */
  ghost predicate Transfers(m: Traffic, n: Traffic, q: QuiescerRef, p: Quiescer) {
    && OnlyMarks(m, n) && n.quiescers == m.quiescers[q := p]
    && (forall s <- m.states :: !Owns(m, q, s) && s !in p.Owned() ==> n.states[s].quiescing == m.states[s].quiescing)
    && (forall s <- p.Owned() :: s in m.states && (Owns(m, q, s) || !m.states[s].quiescing))
    && (forall s <- m.states :: Owns(m, q, s) && s !in p.Owned() ==> !n.states[s].quiescing)
    && QuiescerOk(n, p)
  }

  lemma TransferKeepsMarks(m: Traffic, n: Traffic, q: QuiescerRef, p: Quiescer)
    requires QuiesceOk(m) && Transfers(m, n, q, p)
    ensures QuiesceOk(n)
  {
    forall x | x in n.quiescers ensures QuiescerOk(n, n.quiescers[x]) {
      if x != q {
        OthersKeepTheirs(m, n, q, p, x);
      }
    }
    forall x, y, s | Owns(n, x, s) && Owns(n, y, s) ensures x == y {
      if x == q && y != q {
        NotBoth(m, n, q, p, y, s);
      } else if y == q && x != q {
        NotBoth(m, n, q, p, x, s);
      } else if x != q && y != q {
        assert Owns(m, x, s) && Owns(m, y, s);
      }
    }
    forall s | s in n.states && n.states[s].quiescing ensures exists x :: Owns(n, x, s) {
      if s in p.Owned() {
        assert Owns(n, q, s);
      } else {
        assert m.states[s].quiescing;
        var x :| Owns(m, x, s);
        assert Owns(n, x, s);
      }
    }
  }

  lemma OthersKeepTheirs(m: Traffic, n: Traffic, q: QuiescerRef, p: Quiescer, x: QuiescerRef)
    requires QuiesceOk(m) && Transfers(m, n, q, p) && x in m.quiescers && x != q
    ensures QuiescerOk(n, m.quiescers[x])
  {
    var o := m.quiescers[x];
    assert QuiescerOk(m, o);
    forall s | s in o.Owned() ensures Indexed(n, s) && n.states[s].quiescing {
      assert Owns(m, x, s) && !Owns(m, q, s);
      assert Indexed(m, s);
    }
  }

  lemma NotBoth(m: Traffic, n: Traffic, q: QuiescerRef, p: Quiescer, y: QuiescerRef, s: StateRef)
    requires QuiesceOk(m) && Transfers(m, n, q, p) && y != q && Owns(n, y, s)
    ensures s !in p.Owned()
  {
    assert Owns(m, y, s) && QuiescerOk(m, m.quiescers[y]);
  }

  lemma TransferKeepsInv(m: Traffic, n: Traffic, q: QuiescerRef, p: Quiescer)
    requires Inv(m) && Transfers(m, n, q, p)
    ensures Inv(n)
  {
    MarksKeepTickets(m, n);
    MarksKeepStates(m, n);
    TransferKeepsMarks(m, n, q, p);
  }

  lemma Others(m: Traffic, q: QuiescerRef)
    requires QuiesceOk(m) && q in m.quiescers
    ensures QuiescerOk(m, m.quiescers[q])
  {
  }

  predicate Waiting(p: Quiescer) {
    (p.phase.Acquiring? || p.phase.Draining?) && |p.locked| < |p.ids|
  }

  function Next(p: Quiescer): AccountID requires Waiting(p) {
    p.ids[|p.locked|]
  }

  /** Marking one more free state. */
  lemma MarkTransfers(m: Traffic, q: QuiescerRef, ref: StateRef)
    requires IndexOk(m) && q in m.quiescers && QuiescerOk(m, m.quiescers[q]) && m.quiescers[q].phase.Acquiring?
    requires Next(m.quiescers[q]) in m.index && m.index[Next(m.quiescers[q])] == ref && !m.states[ref].quiescing
    ensures var p := m.quiescers[q].(phase := Draining, current := ref);
            Transfers(m, m.(states := m.states[ref := m.states[ref].(quiescing := true)], quiescers := m.quiescers[q := p]), q, p)
  {
    var p := m.quiescers[q];
    var p' := p.(phase := Draining, current := ref);
    var n := m.(states := m.states[ref := m.states[ref].(quiescing := true)], quiescers := m.quiescers[q := p']);
    assert p'.Owned() == p.Owned() + {ref};
    forall x | x in p'.Owned() ensures Indexed(n, x) && n.states[x].quiescing {
      assert x == ref || Indexed(m, x);
    }
  }

  lemma TryMarkKeepsInv(m: Traffic, q: QuiescerRef, s: StateRef)
    requires Inv(m) && Enabled(m, DoTryMark(q, s))
    ensures Inv(TryMark(m, q, s))
  {
    hide Transfers, QuiescerOk, StatesOk, TicketsOk, HistoryMatches;
    var id := Next(m.quiescers[q]);
    WithStateKeepsInv(m, id, s);
    var n := WithState(m, id, s);
    var ref := n.index[id];
    if !n.states[ref].quiescing {
      Others(n, q);
      MarkTransfers(n, q, ref);
      TransferKeepsInv(n, TryMark(m, q, s), q, n.quiescers[q].(phase := Draining, current := ref));
    }
  }

  lemma DrainedTransfers(m: Traffic, q: QuiescerRef)
    requires q in m.quiescers && QuiescerOk(m, m.quiescers[q]) && m.quiescers[q].phase.Draining?
    requires m.states[m.quiescers[q].current].activeRequests == 0
    ensures Transfers(m, Drained(m, q), q, Drained(m, q).quiescers[q])
  {
    var p, n := m.quiescers[q], Drained(m, q);
    var p' := n.quiescers[q];
    assert p'.Owned() == p.Owned();
    forall x | x in p'.Owned() ensures Indexed(n, x) && n.states[x].quiescing {
      assert Indexed(m, x);
    }
  }

  lemma DrainedKeepsInv(m: Traffic, q: QuiescerRef)
    requires Inv(m) && Enabled(m, DoDrained(q))
    ensures Inv(Drained(m, q))
  {
    var s := m.quiescers[q].current;
    assert CountersOk(m.tickets, s, m.states[s]);
    Others(m, q);
    DrainedTransfers(m, q);
    TransferKeepsInv(m, Drained(m, q), q, Drained(m, q).quiescers[q]);
  }

  /** The state being drained is not among the locked ones. */
  lemma CurrentIsNew(m: Traffic, p: Quiescer)
    requires QuiescerOk(m, p) && p.phase.Draining?
    ensures p.current !in p.locked
  {
    forall i | 0 <= i < |p.locked| ensures p.locked[i] != p.current {
      assert p.ids[i] < p.ids[|p.locked|];
    }
  }

  lemma UnlockTransfers(m: Traffic, q: QuiescerRef)
    requires q in m.quiescers && QuiescerOk(m, m.quiescers[q])
    requires m.quiescers[q].phase.Acquiring? || m.quiescers[q].phase.Draining? || m.quiescers[q].phase.Holding?
    ensures Transfers(m, Unlock(m, q), q, Unlock(m, q).quiescers[q])
  {
    var p, n := m.quiescers[q], Unlock(m, q);
    if p.phase.Draining? {
      CurrentIsNew(m, p);
      assert p.current in p.Owned() && Indexed(m, p.current);
      assert n.quiescers[q].Owned() == {p.current};
    } else {
      assert n.quiescers[q].Owned() == {};
    }
  }

  lemma UnlockKeepsInv(m: Traffic, q: QuiescerRef)
    requires Inv(m) && Enabled(m, DoUnlock(q))
    ensures Inv(Unlock(m, q))
  {
    Others(m, q);
    UnlockTransfers(m, q);
    TransferKeepsInv(m, Unlock(m, q), q, Unlock(m, q).quiescers[q]);
  }

  lemma UndoTransfers(m: Traffic, q: QuiescerRef)
    requires q in m.quiescers && QuiescerOk(m, m.quiescers[q]) && m.quiescers[q].phase.Undoing?
    ensures Transfers(m, Undo(m, q), q, Undo(m, q).quiescers[q])
  {
    assert m.quiescers[q].Owned() == {m.quiescers[q].current};
    assert Undo(m, q).quiescers[q].Owned() == {};
  }

  lemma UndoKeepsInv(m: Traffic, q: QuiescerRef)
    requires Inv(m) && Enabled(m, DoUndo(q))
    ensures Inv(Undo(m, q))
  {
    Others(m, q);
    UndoTransfers(m, q);
    TransferKeepsInv(m, Undo(m, q), q, Undo(m, q).quiescers[q]);
  }

  lemma EnrollKeepsInv(m: Traffic, q: QuiescerRef, ids: seq<AccountID>)
    requires Inv(m) && Enabled(m, DoEnroll(q, ids))
    ensures Inv(Enroll(m, q, ids))
  {
    TransferKeepsInv(m, Enroll(m, q, ids), q, Enroll(m, q, ids).quiescers[q]);
  }

  lemma StepKeepsInv(m: Traffic, e: Event)
    requires Inv(m) && Enabled(m, e)
    ensures Inv(Step(m, e))
  {
    match e
    case DoPrepare(r, s, t) => PrepareKeepsInv(m, r, s, t);
    case DoCommit(t) => CommitKeepsInv(m, t);
    case DoRelease(t, now) => ReleaseKeepsInv(m, t, now);
    case DoEnroll(q, ids) => EnrollKeepsInv(m, q, ids);
    case DoTryMark(q, s) => TryMarkKeepsInv(m, q, s);
    case DoDrained(q) => DrainedKeepsInv(m, q);
    case DoUnlock(q) => UnlockKeepsInv(m, q);
    case DoUndo(q) => UndoKeepsInv(m, q);
  }

  // ---- what quiescing gives its caller --------------------------------------------------

  /** While a quiescer holds its accounts, none of them has a live ticket. */
  lemma HeldIsQuiet(m: Traffic, q: QuiescerRef, t: TicketRef)
    requires Inv(m) && q in m.quiescers && m.quiescers[q].phase.Holding?
    requires t in m.tickets && m.tickets[t].account in m.quiescers[q].ids
    ensures m.tickets[t].released
  {
    Others(m, q);
    var s := HeldState(m, m.quiescers[q], m.tickets[t].account);
    if !m.tickets[t].released {
      assert TicketOk(m, m.tickets[t]);
      LiveIsBusy(m, t);
    }
  }

  lemma HeldState(m: Traffic, p: Quiescer, id: AccountID) returns (s: StateRef)
    requires QuiescerOk(m, p) && p.phase.Holding? && id in p.ids
    ensures s in p.Owned() && Indexed(m, s) && m.states[s].account == id && m.states[s].activeRequests == 0
  {
    var i :| 0 <= i < |p.ids| && p.ids[i] == id;
    s := p.locked[i];
    assert s in p.Owned();
  }

  /** At most one quiescer has an account locked. */
  lemma Exclusive(m: Traffic, p: QuiescerRef, q: QuiescerRef, i: nat, j: nat)
    requires Inv(m) && p in m.quiescers && q in m.quiescers && p != q
    requires i < |m.quiescers[p].locked| && j < |m.quiescers[q].locked|
    ensures m.quiescers[p].ids[i] != m.quiescers[q].ids[j]
  {
    Others(m, p);
    Others(m, q);
    var a := LockedState(m, m.quiescers[p], i);
    var b := LockedState(m, m.quiescers[q], j);
    assert Owns(m, p, a) && Owns(m, q, b);
  }

  lemma LockedState(m: Traffic, p: Quiescer, i: nat) returns (s: StateRef)
    requires QuiescerOk(m, p) && i < |p.locked|
    ensures s in p.Owned() && Indexed(m, s) && m.states[s].account == p.ids[i]
  {
    s := p.locked[i];
    assert s in p.Owned();
  }

  /** A marked account admits nobody, and cleanup leaves it in place. */
  lemma MarkedRefuses(m: Traffic, r: Request, s: StateRef, t: TicketRef, x: StateRef)
    requires IndexOk(m) && Indexed(m, x) && m.states[x].quiescing && m.states[x].account == r.account
    ensures Prepare(m, r, s, t).1 == Refused(AccountUnavailable)
    ensures Prepare(m, r, s, t).0.tickets == m.tickets && Prepare(m, r, s, t).0.states == m.states
    ensures Indexed(Prepare(m, r, s, t).0, x)
  {
    assert !Evictable(m.states[x], r.now);
    assert r.account in Evict(m, r.now).index;
  }

  /** The two critical sections of a cancellation, or the one of a release. */
  ghost function LetGo(m: Traffic, q: QuiescerRef): Traffic
    requires Enabled(m, DoUnlock(q))
  {
    var n := Unlock(m, q);
    if n.quiescers[q].phase.Undoing? then Undo(n, q) else n
  }

  /** Cancelling or releasing leaves none of the caller's accounts quiesced: a mark that
      remains belongs to somebody else. */
  lemma LetGoLeavesNothing(m: Traffic, q: QuiescerRef, s: StateRef)
    requires Inv(m) && Enabled(m, DoUnlock(q)) && s in m.states
    ensures Inv(LetGo(m, q)) && !Owns(LetGo(m, q), q, s)
    ensures LetGo(m, q).states[s].quiescing <==> m.states[s].quiescing && !Owns(m, q, s)
    ensures LetGo(m, q).quiescers[q].phase.Closed?
  {
    UnlockKeepsInv(m, q);
    if Unlock(m, q).quiescers[q].phase.Undoing? {
      UndoKeepsInv(Unlock(m, q), q);
    }
    Others(m, q);
    LetGoUnmarks(m, q, s);
  }

  lemma LetGoUnmarks(m: Traffic, q: QuiescerRef, s: StateRef)
    requires Enabled(m, DoUnlock(q)) && QuiescerOk(m, m.quiescers[q]) && s in m.states
    ensures !Owns(LetGo(m, q), q, s) && LetGo(m, q).quiescers[q].phase.Closed?
    ensures LetGo(m, q).states[s].quiescing <==> m.states[s].quiescing && !Owns(m, q, s)
  {
    assert LetGo(m, q).quiescers[q].Owned() == {};
  }

  predicate LettingGo(p: Quiescer) {
    p.phase.Undoing? || p.phase.Closed?
  }

  /** Only its own last step still concerns a quiescer that lets go. */
  lemma OnlyUndoIsLeft(m: Traffic, e: Event, q: QuiescerRef)
    requires Enabled(m, e) && q in m.quiescers && LettingGo(m.quiescers[q])
    ensures q in Step(m, e).quiescers
    ensures Step(m, e).quiescers[q] == if e == DoUndo(q) then m.quiescers[q].(phase := Closed) else m.quiescers[q]
  {
    hide Prepare, Commit, Release, Unmark, WithState;
    match e
    case DoPrepare(r, s, t) => PrepareKeepsQuiescers(m, r, s, t);
    case DoCommit(t) => TicketsKeepQuiescers(m, t, 0);
    case DoRelease(t, now) => TicketsKeepQuiescers(m, t, now);
    case DoTryMark(p, s) => NewStateKeepsQuiescers(m, Next(m.quiescers[p]), s);
    case _ =>
  }

  lemma PrepareKeepsQuiescers(m: Traffic, r: Request, s: StateRef, t: TicketRef)
    requires forall a <- m.index :: m.index[a] in m.states
    ensures Prepare(m, r, s, t).0.quiescers == m.quiescers
  {
    hide Check, Occupy, Seen, Kept, Collector.ChangeHistory;
  }

  lemma TicketsKeepQuiescers(m: Traffic, t: TicketRef, now: int)
    requires t in m.tickets && m.tickets[t].state in m.states
    ensures Commit(m, t).quiescers == m.quiescers && Release(m, t, now).quiescers == m.quiescers
  {
    hide Committed, Leave, Collector.ChangeHistory;
  }

  lemma NewStateKeepsQuiescers(m: Traffic, account: AccountID, s: StateRef)
    ensures WithState(m, account, s).quiescers == m.quiescers
  {
  }

  lemma {:induction false} UndoneInTheEnd(m: Traffic, q: QuiescerRef, es: seq<Event>)
    requires Inv(m) && q in m.quiescers && LettingGo(m.quiescers[q]) && Run(m, es).Some?
    ensures Inv(Run(m, es).value) && q in Run(m, es).value.quiescers
    ensures var p := Run(m, es).value.quiescers[q];
            LettingGo(p) && (m.quiescers[q].phase.Closed? || DoUndo(q) in es ==> p.phase.Closed?)
    decreases |es|
  {
    hide Inv, Step, Enabled;
    if es != [] {
      assert es == [es[0]] + es[1..];
      StepKeepsInv(m, es[0]);
      OnlyUndoIsLeft(m, es[0], q);
      UndoneInTheEnd(Step(m, es[0]), q, es[1..]);
    }
  }

  /** Releasing, or cancelling with any other steps between its two critical sections, leaves
      none of the caller's accounts quiesced: a mark that remains, or that was set meanwhile,
      belongs to somebody else. */
  lemma CancelLeavesNothing(m: Traffic, q: QuiescerRef, es: seq<Event>, s: StateRef)
    requires Inv(m) && Enabled(m, DoUnlock(q)) && Run(Unlock(m, q), es).Some?
    requires m.quiescers[q].phase.Draining? ==> DoUndo(q) in es
    ensures var n := Run(Unlock(m, q), es).value;
            && Inv(n) && q in n.quiescers && n.quiescers[q].phase.Closed? && !Owns(n, q, s)
            && (s in n.states && n.states[s].quiescing ==> exists p :: p != q && Owns(n, p, s))
  {
    UnlockKeepsInv(m, q);
    UndoneInTheEnd(Unlock(m, q), q, es);
    var n := Run(Unlock(m, q), es).value;
    Others(n, q);
    hide Run, Unlock;
  }

  // ---- no deadlock -----------------------------------------------------------------------

  /** Quiescer q can take a step that advances its acquisition. */
  predicate CanAdvance(m: Traffic, q: QuiescerRef) {
    && q in m.quiescers && Waiting(m.quiescers[q])
    && var p := m.quiescers[q];
       if p.phase.Draining? then p.current in m.states && m.states[p.current].idle
       else Next(p) in m.index && m.index[Next(p)] in m.states ==> !m.states[m.index[Next(p)]].quiescing
  }

  lemma {:induction false} LargestNext(m: Traffic, qs: set<QuiescerRef>) returns (q: QuiescerRef)
    requires qs != {} && forall x <- qs :: x in m.quiescers && Waiting(m.quiescers[x])
    ensures q in qs && forall x <- qs :: Next(m.quiescers[x]) <= Next(m.quiescers[q])
    decreases qs
  {
    var x :| x in qs;
    q := x;
    if qs != {x} {
      var y := LargestNext(m, qs - {x});
      q := if Next(m.quiescers[x]) < Next(m.quiescers[y]) then y else x;
    }
  }

  /** Sorted acquisition: once the tickets have drained and the holders have let go, some
      waiting quiescer can always proceed. */
  lemma SomeoneAdvances(m: Traffic, w: QuiescerRef) returns (q: QuiescerRef)
    requires Inv(m) && w in m.quiescers && Waiting(m.quiescers[w])
    requires forall t <- m.tickets :: m.tickets[t].released
    requires forall x <- m.quiescers :: !m.quiescers[x].phase.Holding? && !m.quiescers[x].phase.Undoing?
    ensures CanAdvance(m, q)
  {
    var waiting := set x | x in m.quiescers && Waiting(m.quiescers[x]);
    assert w in waiting;
    if x :| x in waiting && m.quiescers[x].phase.Draining? {
      q := x;
      var s := m.quiescers[x].current;
      Others(m, x);
      CountZero(m.tickets, OnState(s));
      assert CountersOk(m.tickets, s, m.states[s]);
    } else {
      q := LargestNext(m, waiting);
      var p := m.quiescers[q];
      if Next(p) in m.index && m.states[m.index[Next(p)]].quiescing {
        var s := m.index[Next(p)];
        var o :| Owns(m, o, s);
        Others(m, o);
        assert Waiting(m.quiescers[o]) ==> o in waiting;
        OwnerIsAhead(m, m.quiescers[o], s);
      }
    }
  }

  /** Whoever has an account marked is waiting for a larger one. */
  lemma OwnerIsAhead(m: Traffic, p: Quiescer, s: StateRef)
    requires QuiescerOk(m, p) && s in p.Owned()
    requires !p.phase.Holding? && !p.phase.Undoing? && !p.phase.Draining?
    ensures Waiting(p) && m.states[s].account < Next(p)
  {
    var i :| 0 <= i < |p.locked| && p.locked[i] == s;
  }

  /** The enabled step really advances: a free account gets marked, a drained one locked. */
  lemma AdvanceIsAStep(m: Traffic, q: QuiescerRef, s: StateRef)
    requires Inv(m) && CanAdvance(m, q) && s !in m.states
    ensures m.quiescers[q].phase.Draining? ==> Enabled(m, DoDrained(q)) && |Drained(m, q).quiescers[q].locked| == |m.quiescers[q].locked| + 1
    ensures m.quiescers[q].phase.Acquiring? ==> Enabled(m, DoTryMark(q, s)) && TryMark(m, q, s).quiescers[q].phase.Draining?
  {
  }
}
