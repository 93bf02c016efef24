/** The mutex-protected controller, method by method. Each method is one critical section
    and is proved to perform exactly the step of `AccountTraffic` or `ConcurrencyFlush` it
    stands for. Go's pointers to account states, its ticket closures and its quiesce calls
    are references into the maps `states`, `tickets` and `quiescers`. */
module TrafficController {
  import opened MapSums
  import opened ConcurrencySeries
  import opened AccountTraffic
  import Collector = ConcurrencyFlush
  import opened ConcurrencyCollector
  import TrafficInvariant
  import TrafficQuiesce
  import opened Units

  class Controller {
    var states: map<StateRef, AccountState>
    var index: map<AccountID, StateRef>
    var tickets: map<TicketRef, Ticket>
    var quiescers: map<QuiescerRef, Quiescer>
    var nextCleanup: int
    var history: map<SeriesKey, Series>
    var nextSeries: nat
    var nextRef: nat // references below this one are in use

    ghost function View(): Traffic reads this {
      Traffic(states, index, tickets, quiescers, nextCleanup, Collector.History(history, nextSeries))
    }

    ghost predicate Valid() reads this {
      && TrafficInvariant.Inv(View())
      && Bounded()
    }

    predicate Bounded() reads this {
      (forall s <- states :: s < nextRef) && (forall t <- tickets :: t < nextRef) && (forall q <- quiescers :: q < nextRef)
    }

    constructor ()
      ensures Valid() && View() == EMPTY
    {
      states, index, tickets, quiescers := map[], map[], map[], map[];
      nextCleanup, history, nextSeries, nextRef := 0, map[], 0, 0;
      new;
      TrafficInvariant.EmptyInv();
    }

    // ---- admission ---------------------------------------------------------------------

    /** The cleanup loop at the head of `prepareRequest`. */
    method Cleanup(now: int)
      requires TrafficInvariant.IndexOk(View())
      modifies this`index, this`nextCleanup
      ensures View() == Evict(old(View()), now)
    {
      if nextCleanup == 0 || now >= nextCleanup {
        var todo := index.Keys;
        ghost var before := index;
        while todo != {}
          invariant todo <= before.Keys && index.Keys <= before.Keys
          invariant forall a <- index :: index[a] == before[a]
          invariant forall a <- before :: a in index <==> a in todo || !Evictable(states[before[a]], now)
          decreases todo
        {
          var id :| id in todo;
          var cached := states[index[id]];
          if !cached.quiescing && cached.activeRequests == 0 && now - cached.lastSeen >= STATE_TTL {
            index := index - {id};
          }
          todo := todo - {id};
        }
        assert index == Kept(old(View()), now);
        nextCleanup := now + CLEANUP_PERIOD;
      }
    }

    method FindState(account: AccountID, unused: StateRef) returns (ref: StateRef)
      modifies this`index, this`states
      ensures View() == WithState(old(View()), account, unused)
      ensures account in index && ref == index[account]
    {
      if account !in index {
        states := states[unused := NewState(account)];
        index := index[account := unused];
      }
      ref := index[account];
    }

    /** The ticket of an admitted request is the reference that was next. */
    method PrepareRequest(r: Request) returns (outcome: Outcome)
      requires Valid() && (r.credential.Some? ==> r.credential.value.account == r.account)
      modifies this
      ensures Valid() && (View(), outcome) == Prepare(old(View()), r, old(nextRef), old(nextRef))
    {
      PrepareParts(View(), r, nextRef, nextRef);
      hide TrafficInvariant.Inv, Prepare;
      outcome := Serve(r);
    }

    method Serve(r: Request) returns (outcome: Outcome)
      requires TrafficInvariant.IndexOk(View()) && Collector.HistoryOk(View().history) && Bounded()
      modifies this
      ensures Bounded() && (View(), outcome) == Prepare(old(View()), r, old(nextRef), old(nextRef))
    {
      hide Decision, Evictable, Collector.HistoryOk;
      Cleanup(r.now);
      var ref := FindState(r.account, nextRef);
      outcome := Decide(r, ref, nextRef);
      nextRef := nextRef + 1;
    }

    method Decide(r: Request, ref: StateRef, t: TicketRef) returns (outcome: Outcome)
      requires r.account in index && index[r.account] == ref && ref in states
      requires Collector.HistoryOk(View().history)
      modifies this`states, this`tickets, this`history, this`nextSeries
      ensures states.Keys == old(states.Keys) && tickets.Keys <= old(tickets.Keys) + {t}
      ensures (View(), outcome) == Decision(old(View()), r, t)
    {
      if states[ref].quiescing {
        return Refused(AccountUnavailable);
      }
      var state := MarkSeen(states[ref], r);
      states := states[ref := state];
      var refusal := CheckRequest(state, r);
      if refusal.Some? {
        return Refused(refusal.value);
      }
      AdmitRequest(r, ref, t);
      return Admitted;
    }

    /** The rest of `prepareRequest`, once nothing refuses. */
    method AdmitRequest(r: Request, ref: StateRef, t: TicketRef)
      requires r.account in index && index[r.account] == ref && ref in states
      requires Collector.HistoryOk(View().history)
      modifies this`states, this`tickets, this`history, this`nextSeries
      ensures states.Keys == old(states.Keys) && tickets.Keys <= old(tickets.Keys) + {t}
      ensures View() == Admit(old(View()), r, t)
    {
      var state := TakeSlot(states[ref], r);
      if r.credential.Some? {
        var c := r.credential.value;
        ChangeHistory(c.Key(), c.user, 1, r.now);
      }
      states := states[ref := state];
      tickets := tickets[t := Ticket(ref, r.account, Truncate(r.now), r.now, r.countRPM, r.credential, false, false)];
    }

    // ---- the collector under the same mutex ------------------------------------------------

    method SeriesFor(key: SeriesKey, now: int) returns (v: Series)
      modifies this`history, this`nextSeries
      ensures Collector.History(history, nextSeries) == Collector.Ensure(Collector.History(old(history), old(nextSeries)), key, now)
      ensures key in history && v == history[key]
    {
      if key !in history {
        nextSeries := nextSeries + 1;
        history := history[key := NewSeries(nextSeries, key, now)];
      }
      v := history[key];
    }

    method ChangeHistory(key: SeriesKey, user: UserID, delta: int, now: int)
      requires Collector.HistoryOk(Collector.History(history, nextSeries))
      requires 0 <= Collector.CountOf(Collector.History(history, nextSeries), key, user) + delta
      modifies this`history, this`nextSeries
      ensures Collector.History(history, nextSeries)
           == Collector.ChangeHistory(Collector.History(old(history), old(nextSeries)), key, user, delta, now)
    {
      ghost var h := Collector.History(history, nextSeries);
      Collector.EnsureOk(h, key, now);
      var v := SeriesFor(key, now);
      assert Collector.CountOf(Collector.Ensure(h, key, now), key, user) == Collector.CountOf(h, key, user);
      v := ChangeSeries(v, user, delta, now);
      history := history[key := v];
    }

    /** `pendingMinutes`. */
    method PendingMinutes(now: int) returns (batch: Collector.Batch)
      requires Collector.HistoryOk(View().history)
      modifies this`history
      ensures View().history == Collector.BeginFlush(old(View().history), now) && batch == Collector.BatchOf(View().history)
    {
      history, batch := CollectAll(history, now);
    }

    /** `acknowledgeMinutes`. */
    method AcknowledgeMinutes(batch: Collector.Batch)
      modifies this`history
      ensures View().history == Collector.AckFlush(old(View().history), batch)
    {
      hide Collector.Acknowledged, Collector.Touched, Collector.Droppable;
      ghost var before := View().history;
      var todo := history.Keys * batch.Keys;
      while todo != {}
        invariant todo <= before.series.Keys * batch.Keys
        invariant history.Keys <= before.series.Keys
        invariant forall key <- before.series :: key in todo ==> key in history && history[key] == before.series[key]
        invariant forall key <- before.series :: key !in todo ==>
          (key in history <==> !Collector.Dropped(before, batch, key))
          && (key in history ==> history[key] == if key in batch then Collector.Acknowledged(before.series[key], batch[key]) else before.series[key])
        decreases todo
      {
        var key :| key in todo;
        var kept := AcknowledgeOne(history[key], batch[key]);
        history := if kept.Some? then history[key := kept.value] else history - {key};
        todo := todo - {key};
      }
    }

    /** `liveHistory`. */
    method LiveHistory(key: SeriesKey, now: int) returns (out: map<int, Minute>, counts: map<UserID, int>)
      requires Collector.HistoryOk(View().history)
      modifies this`history, this`nextSeries
      ensures View().history == Collector.ReadLive(old(View().history), key, now)
      ensures var v := history[key]; counts == v.counts && out == map k | k in v.buckets :: v.buckets[k].Value()
    {
      Collector.EnsureOk(View().history, key, now);
      var v := SeriesFor(key, now);
      v := v.(lastUsed := now);
      StillOk(history[key], now);
      v := AdvanceSeries(v, now);
      AdvanceOk(history[key].(lastUsed := now), now);
      v, out := CopyMinutes(v);
      counts := v.counts;
      history := history[key := v];
    }

    // ---- the closures of a ticket -----------------------------------------------------------

    method CommitTicket(t: TicketRef)
      requires Valid() && t in tickets
      modifies this`states, this`tickets
      ensures Valid() && View() == Commit(old(View()), t)
    {
      hide TrafficInvariant.Inv;
      TrafficInvariant.CommitKeepsInv(View(), t);
      TicketParts(View(), t);
      var k := tickets[t];
      if k.committed || k.released {
        return;
      }
      tickets := tickets[t := k.(committed := true)];
      var state := states[k.state];
      if k.countRPM {
        var pending := LowerPending(state.pending, k.minute);
        state := state.(pending := pending);
        if state.minuteStart == k.minute {
          state := state.(minuteRequests := state.minuteRequests + 1);
        }
      }
      states := states[k.state := state];
    }

    method ReleaseTicket(t: TicketRef, now: int)
      requires Valid() && t in tickets
      modifies this`states, this`tickets, this`history, this`nextSeries
      ensures Valid() && View() == Release(old(View()), t, now)
    {
      hide TrafficInvariant.Inv;
      TrafficInvariant.ReleaseKeepsInv(View(), t, now);
      TicketParts(View(), t);
      var k := tickets[t];
      if k.released {
        return;
      }
      var state := LeaveSlot(states[k.state], k);
      if k.credential.Some? {
        var c := k.credential.value;
        ChangeHistory(c.Key(), c.user, -1, now);
      }
      tickets := tickets[t := k.(released := true)];
      states := states[k.state := state];
    }

    // ---- the critical sections of `quiesce` ----------------------------------------------------

    method BeginQuiesce(ids: seq<AccountID>) returns (q: QuiescerRef)
      requires Valid() && StrictlySorted(ids)
      modifies this`quiescers, this`nextRef
      ensures Valid() && q == old(nextRef) && View() == Enroll(old(View()), q, ids)
    {
      q := nextRef;
      hide TrafficInvariant.Inv;
      Parts(View());
      TrafficQuiesce.EnrollKeepsInv(View(), q, ids);
      nextRef := nextRef + 1;
      quiescers := quiescers[q := Quiescer(ids, [], 0, if ids == [] then Holding else Acquiring)];
    }

    /** Marks the next account, or reports that the caller has to wait for a change. */
    method MarkNext(q: QuiescerRef) returns (marked: bool)
      requires Valid() && q in quiescers && quiescers[q].phase.Acquiring?
      modifies this`states, this`index, this`quiescers, this`nextRef
      ensures Valid() && View() == TryMark(old(View()), q, old(nextRef))
      ensures marked <==> quiescers[q].phase.Draining?
    {
      hide TrafficInvariant.Inv;
      QuiescerParts(View(), q);
      TrafficQuiesce.TryMarkKeepsInv(View(), q, nextRef);
      var p := quiescers[q];
      var ref := FindState(p.ids[|p.locked|], nextRef);
      nextRef := nextRef + 1;
      marked := !states[ref].quiescing;
      if marked {
        states := states[ref := states[ref].(quiescing := true)];
        quiescers := quiescers[q := p.(phase := Draining, current := ref)];
      }
    }

    method LockDrained(q: QuiescerRef)
      requires Valid() && q in quiescers && quiescers[q].phase.Draining?
      requires quiescers[q].current in states && states[quiescers[q].current].idle
      modifies this`quiescers
      ensures Valid() && View() == Drained(old(View()), q)
    {
      hide TrafficInvariant.Inv;
      QuiescerParts(View(), q);
      TrafficQuiesce.DrainedKeepsInv(View(), q);
      var p := quiescers[q];
      p := p.(locked := p.locked + [p.current]);
      quiescers := quiescers[q := p.(phase := if |p.locked| == |p.ids| then Holding else Acquiring)];
    }

    /** `releaseQuiesced`. */
    method ReleaseQuiesced(q: QuiescerRef)
      requires Valid() && Enabled(View(), DoUnlock(q))
      modifies this`states, this`quiescers
      ensures Valid() && View() == Unlock(old(View()), q)
    {
      hide TrafficInvariant.Inv;
      QuiescerParts(View(), q);
      TrafficQuiesce.UnlockKeepsInv(View(), q);
      var p := quiescers[q];
      states := UnmarkAll(states, p.locked);
      quiescers := quiescers[q := p.(locked := [], phase := if p.phase.Draining? then Undoing else Closed)];
    }

    method UndoMark(q: QuiescerRef)
      requires Valid() && Enabled(View(), DoUndo(q))
      modifies this`states, this`quiescers
      ensures Valid() && View() == Undo(old(View()), q)
    {
      hide TrafficInvariant.Inv;
      QuiescerParts(View(), q);
      TrafficQuiesce.UndoKeepsInv(View(), q);
      var p := quiescers[q];
      assert p.current in p.Owned();
      states := states[p.current := states[p.current].(quiescing := false)];
      assert states == Unmark(old(states), {p.current});
      quiescers := quiescers[q := p.(phase := Closed)];
    }
  }

  /** One series of a batch: its saved revisions, or nothing once it is idle and fully saved. */
  method AcknowledgeOne(v: Series, entries: map<int, Collector.Pending>) returns (kept: Option<Series>)
    ensures kept == if Collector.Touched(v, entries) && Collector.Droppable(Collector.Acknowledged(v, entries)) then None
                    else Some(Collector.Acknowledged(v, entries))
  {
    hide Collector.Acknowledged, Collector.Touched;
    var w, touched := AcknowledgeSeries(v, entries);
    if touched && w.counts == map[] && w.last - w.lastUsed > RETENTION {
      var clean := FullySaved(w);
      if clean {
        return None;
      }
    }
    return Some(w);
  }

  method UnmarkAll(states: map<StateRef, AccountState>, refs: seq<StateRef>) returns (out: map<StateRef, AccountState>)
    requires forall s <- refs :: s in states
    ensures out == Unmark(states, set s | s in refs)
  {
    out := states;
    for i := 0 to |refs|
      invariant out == Unmark(states, set s | s in refs[..i])
    {
      assert refs[i] in states && refs[..i + 1] == refs[..i] + [refs[i]];
      out := out[refs[i] := out[refs[i]].(quiescing := false)];
    }
    assert refs[..|refs|] == refs;
  }

  method MarkSeen(s: AccountState, r: Request) returns (state: AccountState)
    ensures state == Seen(s, r)
  {
    var minute := Truncate(r.now);
    state := s.(lastSeen := r.now);
    if r.countRPM && state.minuteStart != minute {
      state := state.(minuteStart := minute, minuteRequests := 0);
    }
  }

  method TakeSlot(s: AccountState, r: Request) returns (state: AccountState)
    ensures state == Occupy(s, r)
  {
    state := s;
    if r.credential.Some? {
      var user := r.credential.value.user;
      state := state.(activeMembers := state.activeMembers[user := Get(state.activeMembers, user) + 1]);
    }
    if state.activeRequests == 0 {
      state := state.(idle := false);
    }
    state := state.(activeRequests := state.activeRequests + 1);
    if r.countRPM {
      var minute := Truncate(r.now);
      state := state.(pending := state.pending[minute := Get(state.pending, minute) + 1]);
    }
  }

  method LeaveSlot(s: AccountState, k: Ticket) returns (state: AccountState)
    ensures state == Leave(s, k)
  {
    state := s;
    if !k.committed && k.countRPM {
      var pending := LowerPending(state.pending, k.minute);
      state := state.(pending := pending);
    }
    state := state.(activeRequests := state.activeRequests - 1);
    if k.credential.Some? {
      var members := AdjustCount(state.activeMembers, k.credential.value.user, -1);
      state := state.(activeMembers := members);
    }
    if state.activeRequests == 0 {
      state := state.(idle := true);
    }
  }

  method LowerPending(pending: map<int, int>, minute: int) returns (less: map<int, int>)
    ensures less == DecrementPending(pending, minute)
  {
    less := pending[minute := Get(pending, minute) - 1];
    if less[minute] == 0 {
      less := less - {minute};
      assert less == pending - {minute};
    }
  }

  lemma PrepareParts(m: Traffic, r: Request, s: StateRef, t: TicketRef)
    requires TrafficInvariant.Inv(m) && s !in m.states && t !in m.tickets && (r.credential.Some? ==> r.credential.value.account == r.account)
    ensures TrafficInvariant.IndexOk(m) && Collector.HistoryOk(m.history) && TrafficInvariant.Inv(Prepare(m, r, s, t).0)
  {
    TrafficInvariant.PrepareKeepsInv(m, r, s, t);
  }

  // The parts of the invariant that one method needs.

  lemma Parts(m: Traffic)
    requires TrafficInvariant.Inv(m)
    ensures TrafficInvariant.IndexOk(m) && Collector.HistoryOk(m.history)
  {
  }

  lemma TicketParts(m: Traffic, t: TicketRef)
    requires TrafficInvariant.Inv(m) && t in m.tickets
    ensures TrafficInvariant.TicketOk(m, m.tickets[t]) && Collector.HistoryOk(m.history)
    ensures !m.tickets[t].released && m.tickets[t].credential.Some? ==>
      var c := m.tickets[t].credential.value; Collector.CountOf(m.history, c.Key(), c.user) >= 1
  {
    var k := m.tickets[t];
    assert TrafficInvariant.TicketOk(m, k);
    if !k.released && k.credential.Some? {
      TrafficInvariant.Counted(m.tickets, t, TrafficInvariant.OnSeries(k.credential.value.Key(), k.credential.value.user));
    }
  }

  lemma QuiescerParts(m: Traffic, q: QuiescerRef)
    requires TrafficInvariant.Inv(m) && q in m.quiescers
    ensures TrafficInvariant.IndexOk(m) && TrafficInvariant.QuiescerOk(m, m.quiescers[q])
  {
    TrafficQuiesce.Others(m, q);
  }

  /** The three refusals after the mark, in their order. */
  method CheckRequest(state: AccountState, r: Request) returns (refusal: Option<Refusal>)
    ensures refusal == Check(state, r)
  {
    if r.maxConcurrency > 0 && state.activeRequests >= r.maxConcurrency {
      return Some(AccountConcurrency);
    }
    if r.countRPM && r.rpmLimit > 0 && state.minuteRequests + Get(state.pending, Truncate(r.now)) >= r.rpmLimit {
      return Some(AccountRateLimited);
    }
    if r.credential.Some? {
      refusal := AdmitMember(state.activeMembers, r.credential.value);
      return;
    }
    return None;
  }

  /** `admitMemberConcurrency`, with its two loops. */
  method AdmitMember(active: map<UserID, int>, c: Credential) returns (refusal: Option<Refusal>)
    ensures refusal == MemberRefusal(active, c)
  {
    if !c.policy.enabled {
      return None;
    }
    var members := c.policy.members;
    var bases: map<UserID, int> := map[];
    var reserved := 0;
    var own: Option<MemberLimit> := None;
    for i := 0 to |members|
      invariant bases == Bases(members[..i]) && reserved == Reserved(members[..i]) && own == OwnLimit(members[..i], c.user)
    {
      var m := members[i];
      assert members[..i + 1][..i] == members[..i];
      bases := bases[m.user := m.base];
      reserved := reserved + m.base;
      if m.user == c.user {
        own := Some(m);
      }
    }
    assert members[..|members|] == members;
    if own.None? {
      return Some(AccountUnavailable);
    }
    if c.maxConcurrency <= 0 || reserved > c.maxConcurrency {
      return Some(ConcurrencyConfiguration);
    }
    OwnUser(members, c.user);
    var current := Get(active, own.value.user);
    if own.value.maxConcurrency > 0 && current >= own.value.maxConcurrency {
      return Some(MemberConcurrency);
    }
    if current < own.value.base {
      return None;
    }
    var sharedUsed := SumShared(active, bases);
    if sharedUsed >= c.maxConcurrency - reserved {
      return Some(MemberConcurrency);
    }
    return None;
  }

  lemma {:induction false} OwnUser(members: seq<MemberLimit>, u: UserID)
    ensures OwnLimit(members, u).Some? ==> OwnLimit(members, u).value.user == u
  {
    if members != [] {
      OwnUser(members[..|members| - 1], u);
    }
  }

  method SumShared(active: map<UserID, int>, bases: map<UserID, int>) returns (used: int)
    ensures used == SharedUsed(active, bases)
  {
    used := 0;
    var rest := active;
    while rest != map[]
      invariant used + SharedUsed(rest, bases) == SharedUsed(active, bases)
      decreases rest.Keys
    {
      var u :| u in rest;
      SumRemove(OverflowMap(rest, bases), u);
      assert OverflowMap(rest - {u}, bases) == OverflowMap(rest, bases) - {u};
      used := used + Max(0, rest[u] - Get(bases, u));
      rest := rest - {u};
    }
    assert OverflowMap(rest, bases) == map[];
  }

  /** The head of `quiesce`: drop empty and repeated ids, sort the rest. */
  method SortedAccounts(accounts: seq<AccountID>) returns (ids: seq<AccountID>)
    ensures StrictlySorted(ids)
    ensures forall a :: a in ids <==> a in accounts && a != 0
  {
    ids := [];
    for i := 0 to |accounts|
      invariant StrictlySorted(ids)
      invariant forall a :: a in ids <==> a in accounts[..i] && a != 0
    {
      var id := accounts[i];
      assert accounts[..i + 1] == accounts[..i] + [id];
      if id != 0 && id !in ids {
        ids := InsertSorted(ids, id);
      }
    }
    assert accounts[..|accounts|] == accounts;
  }

  method InsertSorted(ids: seq<AccountID>, id: AccountID) returns (out: seq<AccountID>)
    requires StrictlySorted(ids) && id !in ids
    ensures StrictlySorted(out)
    ensures forall a :: a in out <==> a in ids || a == id
  {
    var i := 0;
    while i < |ids| && ids[i] < id
      invariant 0 <= i <= |ids| && forall j :: 0 <= j < i ==> ids[j] < id
    {
      i := i + 1;
    }
    out := ids[..i] + [id] + ids[i..];
    forall j, k | 0 <= j < k < |out| ensures out[j] < out[k] {
      assert j < i ==> out[j] == ids[j];
      assert k > i ==> out[k] == ids[k - 1];
      assert i < |ids| ==> id < ids[i];
    }
    forall a | a in ids ensures a in out {
      var j :| 0 <= j < |ids| && ids[j] == a;
      assert out[if j < i then j else j + 1] == a;
    }
    assert out[i] == id;
  }
}
