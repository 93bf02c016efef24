/** The per-minute admission limit: with non-decreasing admission times, the admissions
    charged to a calendar minute, for good or tentatively, never exceed the limit. */
module TrafficRate {
  import opened MapSums
  import opened ConcurrencySeries
  import opened AccountTraffic
  import opened TrafficInvariant
  import TrafficQuiesce
  import opened Units

  // ---- what holds when admission times never decrease --------------------------------

  ghost predicate StateTimed(tickets: Tickets, s: StateRef, x: AccountState, clock: int) {
    && 0 <= x.lastSeen <= clock && 0 <= x.minuteStart <= Truncate(clock)
    && x.minuteRequests == Count(tickets, CommittedIn(s, x.minuteStart))
  }

  /** Every admission of an account that is not on its indexed state is at least a whole
      eviction period old. */
  ghost predicate TicketTimed(m: Traffic, k: Ticket, clock: int) {
    && k.state in m.states && k.minute == Truncate(k.at) && 0 <= k.at <= m.states[k.state].lastSeen
    && (k.countRPM ==> k.minute <= m.states[k.state].minuteStart)
    && (Indexed(m, k.state) || k.at + STATE_TTL <= clock)
  }

  ghost predicate RateInv(m: Traffic, clock: int) {
    && 0 <= clock
    && (forall s <- m.states :: StateTimed(m.tickets, s, m.states[s], clock))
    && (forall t <- m.tickets :: TicketTimed(m, m.tickets[t], clock))
  }

  ghost function ChargedTo(m: Traffic, a: AccountID, minute: int): nat {
    Count(m.tickets, Charged(a, minute))
  }

  /** The admission time of a request; other events have none. */
  function ClockAfter(clock: int, e: Event): int {
    if e.DoPrepare? then e.r.now else clock
  }

  lemma LaterMinute(a: int, b: int)
    requires a + STATE_TTL <= b
    ensures Truncate(a) < Truncate(b)
  {
  }

  lemma MinuteMonotone(a: int, b: int)
    requires 0 <= a <= b
    ensures 0 <= Truncate(a) <= Truncate(b)
  {
  }

  // ---- prepareRequest ---------------------------------------------------------------------

  lemma EvictKeepsRate(m: Traffic, clock: int, now: int)
    requires IndexOk(m) && RateInv(m, clock) && clock <= now
    ensures RateInv(Evict(m, now), now)
  {
    var n := Evict(m, now);
    MinuteMonotone(clock, now);
    forall t | t in n.tickets ensures TicketTimed(n, n.tickets[t], now) {
      assert TicketTimed(m, m.tickets[t], clock);
    }
  }

  lemma WithStateKeepsRate(m: Traffic, account: AccountID, s: StateRef, clock: int)
    requires RateInv(m, clock) && s !in m.states
    ensures RateInv(WithState(m, account, s), clock)
  {
    var n := WithState(m, account, s);
    NewStateTimed(m, account, s, clock);
    forall t | t in n.tickets ensures TicketTimed(n, n.tickets[t], clock) {
      NewStateKeepsTime(m, account, s, m.tickets[t], clock);
    }
  }

  lemma NewStateKeepsTime(m: Traffic, account: AccountID, s: StateRef, k: Ticket, clock: int)
    requires s !in m.states && TicketTimed(m, k, clock)
    ensures TicketTimed(WithState(m, account, s), k, clock)
  {
  }

  lemma NewStateTimed(m: Traffic, account: AccountID, s: StateRef, clock: int)
    requires RateInv(m, clock) && s !in m.states
    ensures StateTimed(m.tickets, s, NewState(account), clock)
  {
    MinuteMonotone(0, clock);
    forall t | t in m.tickets ensures m.tickets[t].state != s {
      assert TicketTimed(m, m.tickets[t], clock);
    }
    CountZero(m.tickets, CommittedIn(s, 0));
  }

  lemma RolledWindowIsEmpty(m: Traffic, s: StateRef, minute: int, clock: int)
    requires RateInv(m, clock) && s in m.states && m.states[s].minuteStart < minute
    ensures Count(m.tickets, CommittedIn(s, minute)) == 0
  {
    forall t | t in m.tickets ensures !Selects(CommittedIn(s, minute), m.tickets[t]) {
      assert TicketTimed(m, m.tickets[t], clock);
    }
    CountZero(m.tickets, CommittedIn(s, minute));
  }

  lemma SeenKeepsRate(m: Traffic, s: StateRef, r: Request)
    requires RateInv(m, r.now) && s in m.states
    ensures RateInv(MarkSeen(m, s, r), r.now)
    ensures r.countRPM ==> MarkSeen(m, s, r).states[s].minuteStart == Truncate(r.now)
  {
    var n := MarkSeen(m, s, r);
    MinuteMonotone(0, r.now);
    assert StateTimed(m.tickets, s, m.states[s], r.now);
    if r.countRPM && m.states[s].minuteStart != Truncate(r.now) {
      RolledWindowIsEmpty(m, s, Truncate(r.now), r.now);
    }
    forall t | t in n.tickets ensures TicketTimed(n, n.tickets[t], r.now) {
      assert TicketTimed(m, m.tickets[t], r.now);
    }
  }

  lemma AdmitKeepsRate(m: Traffic, r: Request, t: TicketRef)
    requires IndexOk(m) && RateInv(m, r.now) && t !in m.tickets && r.account in m.index
    requires m.states[m.index[r.account]].lastSeen == r.now
    requires r.countRPM ==> m.states[m.index[r.account]].minuteStart == Truncate(r.now)
    ensures RateInv(Admit(m, r, t), r.now)
  {
    hide Count;
    var s, n := m.index[r.account], Admit(m, r, t);
    forall x | x in n.states ensures StateTimed(n.tickets, x, n.states[x], r.now) {
      assert StateTimed(m.tickets, x, m.states[x], r.now);
      CountPut(m.tickets, t, TicketFor(s, r), CommittedIn(x, m.states[x].minuteStart));
    }
    forall x | x in n.tickets ensures TicketTimed(n, n.tickets[x], r.now) {
      if x != t {
        assert TicketTimed(m, m.tickets[x], r.now);
      }
    }
  }

  /** An admission charged to the current minute was made on the indexed state: tickets on
      evicted states belong to earlier minutes. */
  lemma ChargedOnIndexed(m: Traffic, t: TicketRef, a: AccountID, now: int)
    requires IndexOk(m) && t in m.tickets && TicketOk(m, m.tickets[t]) && TicketTimed(m, m.tickets[t], now)
    requires a in m.index && Selects(Charged(a, Truncate(now)), m.tickets[t])
    ensures m.tickets[t].state == m.index[a]
  {
    var k := m.tickets[t];
    if !Indexed(m, k.state) {
      LaterMinute(k.at, now);
    }
  }

  lemma ChargedSplits(tickets: Tickets, s: StateRef, a: AccountID, minute: int)
    requires forall t <- tickets :: Selects(Charged(a, minute), tickets[t]) ==> tickets[t].state == s
    requires forall t <- tickets :: tickets[t].state == s ==> tickets[t].account == a
    ensures Count(tickets, Charged(a, minute)) == Count(tickets, CommittedIn(s, minute)) + Count(tickets, Tentative(s, minute))
  {
    var whole, done, open := Matching(tickets, Charged(a, minute)), Matching(tickets, CommittedIn(s, minute)), Matching(tickets, Tentative(s, minute));
    assert whole == done + open;
    assert done !! open;
  }

  /** Before an admission, what is charged to the current minute is exactly what the
      indexed state counts. */
  lemma ChargedIsCounted(m: Traffic, a: AccountID, now: int)
    requires IndexOk(m) && TicketsOk(m) && StatesOk(m) && RateInv(m, now) && a in m.index
    requires m.states[m.index[a]].minuteStart == Truncate(now)
    ensures ChargedTo(m, a, Truncate(now)) == m.states[m.index[a]].minuteRequests + Get(m.states[m.index[a]].pending, Truncate(now))
  {
    var s, minute := m.index[a], Truncate(now);
    forall t | t in m.tickets
      ensures Selects(Charged(a, minute), m.tickets[t]) ==> m.tickets[t].state == s
      ensures m.tickets[t].state == s ==> m.tickets[t].account == a
    {
      assert TicketOk(m, m.tickets[t]) && TicketTimed(m, m.tickets[t], now);
      if Selects(Charged(a, minute), m.tickets[t]) {
        ChargedOnIndexed(m, t, a, now);
      }
    }
    ChargedSplits(m.tickets, s, a, minute);
    StateCounts(m, s, minute, now);
  }

  lemma StateCounts(m: Traffic, s: StateRef, minute: int, clock: int)
    requires StatesOk(m) && RateInv(m, clock) && s in m.states && m.states[s].minuteStart == minute
    ensures Count(m.tickets, CommittedIn(s, minute)) == m.states[s].minuteRequests
    ensures Count(m.tickets, Tentative(s, minute)) == Get(m.states[s].pending, minute)
  {
    assert CountersOk(m.tickets, s, m.states[s]);
  }

  lemma FoundRate(m: Traffic, r: Request, s: StateRef, clock: int, n: Traffic)
    requires IndexOk(m) && RateInv(m, clock) && s !in m.states && clock <= r.now && n == Found(m, r, s)
    ensures RateInv(n, r.now)
  {
    EvictKeepsRate(m, clock, r.now);
    var e := Evict(m, r.now);
    WithStateKeepsRate(e, r.account, s, r.now);
  }

  /** A request that found the state of its account. */
  lemma AnswerKeepsRate(n: Traffic, r: Request, t: TicketRef)
    requires IndexOk(n) && RateInv(n, r.now) && r.account in n.index && t !in n.tickets
    ensures var o := MarkSeen(n, n.index[r.account], r); RateInv(o, r.now) && RateInv(Admit(o, r, t), r.now)
  {
    SeenKeepsRate(n, n.index[r.account], r);
    AdmitKeepsRate(MarkSeen(n, n.index[r.account], r), r, t);
  }

  lemma PrepareKeepsRate(m: Traffic, r: Request, s: StateRef, t: TicketRef, clock: int)
    requires Inv(m) && RateInv(m, clock) && Enabled(m, DoPrepare(r, s, t)) && clock <= r.now
    ensures RateInv(Prepare(m, r, s, t).0, r.now)
  {
    var n := FoundInv(m, r, s);
    FoundRate(m, r, s, clock, n);
    AnswerKeepsRate(n, r, t);
    AnswersOnly(m, r, s, t, n);
  }

  /** The controller after a call: unchanged apart from the state, seen, or admitted. */
  lemma AnswersOnly(m: Traffic, r: Request, s: StateRef, t: TicketRef, n: Traffic)
    requires IndexOk(m) && n == Found(m, r, s)
    ensures var o := MarkSeen(n, n.index[r.account], r); Prepare(m, r, s, t).0 in {n, o, Admit(o, r, t)}
  {
  }

  lemma RefusalChargesNobody(m: Traffic, r: Request, s: StateRef, t: TicketRef)
    requires IndexOk(m) && Prepare(m, r, s, t).1 != Admitted
    ensures Prepare(m, r, s, t).0.tickets == m.tickets
  {
  }

  /** A successful limited admission leaves at most `rpmLimit` charged to its minute, and
      charges no other account or minute. */
  lemma AdmissionWithinLimit(m: Traffic, r: Request, s: StateRef, t: TicketRef, clock: int)
    requires Inv(m) && RateInv(m, clock) && Enabled(m, DoPrepare(r, s, t)) && clock <= r.now
    requires Prepare(m, r, s, t).1 == Admitted
    ensures r.countRPM && r.rpmLimit > 0 ==> ChargedTo(Prepare(m, r, s, t).0, r.account, Truncate(r.now)) <= r.rpmLimit
    ensures forall a, k :: !(r.countRPM && a == r.account && k == Truncate(r.now)) ==>
      ChargedTo(Prepare(m, r, s, t).0, a, k) == ChargedTo(m, a, k)
  {
    var n := FoundInv(m, r, s);
    FoundRate(m, r, s, clock, n);
    var ref := n.index[r.account];
    SeenKeepsInv(n, ref, r);
    SeenKeepsRate(n, ref, r);
    AdmitCharges(MarkSeen(n, ref, r), r, t);
  }

  lemma AdmitCharges(m: Traffic, r: Request, t: TicketRef)
    requires IndexOk(m) && TicketsOk(m) && StatesOk(m) && RateInv(m, r.now) && t !in m.tickets && r.account in m.index
    requires r.countRPM ==> m.states[m.index[r.account]].minuteStart == Truncate(r.now)
    requires Check(m.states[m.index[r.account]], r).None?
    ensures r.countRPM && r.rpmLimit > 0 ==> ChargedTo(Admit(m, r, t), r.account, Truncate(r.now)) <= r.rpmLimit
    ensures forall a, k :: !(r.countRPM && a == r.account && k == Truncate(r.now)) ==>
      ChargedTo(Admit(m, r, t), a, k) == ChargedTo(m, a, k)
  {
    AdmitTickets(m, r, t);
    OthersUncharged(m.tickets, t, TicketFor(m.index[r.account], r));
    if r.countRPM && r.rpmLimit > 0 {
      OwnCharge(m, r, t);
    }
    hide *;
  }

  lemma OwnCharge(m: Traffic, r: Request, t: TicketRef)
    requires IndexOk(m) && TicketsOk(m) && StatesOk(m) && RateInv(m, r.now) && t !in m.tickets && r.account in m.index
    requires r.countRPM && r.rpmLimit > 0 && m.states[m.index[r.account]].minuteStart == Truncate(r.now)
    requires Check(m.states[m.index[r.account]], r).None?
    ensures Count(m.tickets[t := TicketFor(m.index[r.account], r)], Charged(r.account, Truncate(r.now))) <= r.rpmLimit
  {
    hide TicketsOk, StatesOk, RateInv, Count;
    RoomLeft(m.states[m.index[r.account]], r);
    hide Check;
    ChargedIsCounted(m, r.account, r.now);
    CountPut(m.tickets, t, TicketFor(m.index[r.account], r), Charged(r.account, Truncate(r.now)));
  }

  lemma AdmitTickets(m: Traffic, r: Request, t: TicketRef)
    requires r.account in m.index && m.index[r.account] in m.states
    ensures Admit(m, r, t).tickets == m.tickets[t := TicketFor(m.index[r.account], r)]
  {
    hide Occupy;
  }

  lemma RoomLeft(x: AccountState, r: Request)
    requires Check(x, r).None? && r.countRPM && r.rpmLimit > 0
    ensures x.minuteRequests + Get(x.pending, Truncate(r.now)) < r.rpmLimit
  {
    hide MemberRefusal;
  }

  lemma OthersUncharged(tickets: Tickets, t: TicketRef, k: Ticket)
    requires t !in tickets
    ensures forall a, c :: !(k.countRPM && a == k.account && c == k.minute) ==>
      Count(tickets[t := k], Charged(a, c)) == Count(tickets, Charged(a, c))
  {
    forall a, c | !(k.countRPM && a == k.account && c == k.minute)
      ensures Count(tickets[t := k], Charged(a, c)) == Count(tickets, Charged(a, c))
    {
      CountPut(tickets, t, k, Charged(a, c));
    }
  }

  // ---- commit and release -------------------------------------------------------------------

  lemma CommittedTimed(tickets: Tickets, t: TicketRef, s: StateRef, x: AccountState, clock: int)
    requires t in tickets && !tickets[t].committed && !tickets[t].released && StateTimed(tickets, s, x, clock)
    ensures StateTimed(tickets[t := tickets[t].(committed := true)], s, if s == tickets[t].state then Committed(x, tickets[t]) else x, clock)
  {
    CountPut(tickets, t, tickets[t].(committed := true), CommittedIn(s, x.minuteStart));
  }

  lemma CommitKeepsRate(m: Traffic, t: TicketRef, clock: int)
    requires RateInv(m, clock) && t in m.tickets && m.tickets[t].state in m.states
    ensures RateInv(Commit(m, t), clock)
  {
    hide Count;
    var k, n := m.tickets[t], Commit(m, t);
    if !k.committed && !k.released {
      ChangeKeepsTimes(m, n, t, clock);
      forall x | x in n.states ensures StateTimed(n.tickets, x, n.states[x], clock) {
        assert StateTimed(m.tickets, x, m.states[x], clock);
        CommittedTimed(m.tickets, t, x, m.states[x], clock);
      }
    }
  }

  /** A commit charges nobody anew; in particular a late one does not touch the newer
      minute of its state. */
  lemma CommitCharges(m: Traffic, t: TicketRef)
    requires t in m.tickets && m.tickets[t].state in m.states
    ensures forall a, k :: ChargedTo(Commit(m, t), a, k) == ChargedTo(m, a, k)
    ensures var s := m.tickets[t].state;
            m.states[s].minuteStart != m.tickets[t].minute ==> Commit(m, t).states[s].minuteRequests == m.states[s].minuteRequests
  {
    var k := m.tickets[t];
    if !k.committed && !k.released {
      forall a, c ensures ChargedTo(Commit(m, t), a, c) == ChargedTo(m, a, c) {
        CountPut(m.tickets, t, k.(committed := true), Charged(a, c));
      }
    }
  }

  lemma ChangeKeepsTimes(m: Traffic, n: Traffic, t: TicketRef, clock: int)
    requires forall x <- m.tickets :: TicketTimed(m, m.tickets[x], clock)
    requires n.index == m.index && n.states.Keys == m.states.Keys
    requires forall x <- m.states :: n.states[x].account == m.states[x].account && n.states[x].lastSeen == m.states[x].lastSeen && n.states[x].minuteStart == m.states[x].minuteStart
    requires t in m.tickets && t in n.tickets && n.tickets == m.tickets[t := n.tickets[t]]
    requires n.tickets[t] == m.tickets[t].(committed := n.tickets[t].committed, released := n.tickets[t].released)
    ensures forall x <- n.tickets :: TicketTimed(n, n.tickets[x], clock)
  {
    forall x | x in n.tickets ensures TicketTimed(n, n.tickets[x], clock) {
      assert TicketTimed(m, m.tickets[x], clock);
    }
  }

  lemma ReleasedTimed(tickets: Tickets, t: TicketRef, s: StateRef, x: AccountState, clock: int)
    requires t in tickets && StateTimed(tickets, s, x, clock)
    ensures StateTimed(tickets[t := tickets[t].(released := true)], s, if s == tickets[t].state then Leave(x, tickets[t]) else x, clock)
  {
    CountPut(tickets, t, tickets[t].(released := true), CommittedIn(s, x.minuteStart));
  }

  lemma ReleaseKeepsRate(m: Traffic, t: TicketRef, now: int, clock: int)
    requires RateInv(m, clock) && t in m.tickets && m.tickets[t].state in m.states
    ensures RateInv(Release(m, t, now), clock)
  {
    var k, n := m.tickets[t], Release(m, t, now);
    if !k.released {
      ChangeKeepsTimes(m, n, t, clock);
      forall x | x in n.states ensures StateTimed(n.tickets, x, n.states[x], clock) {
        assert StateTimed(m.tickets, x, m.states[x], clock);
        ReleasedTimed(m.tickets, t, x, m.states[x], clock);
      }
    }
  }

  /** The admission a release gives back. */
  function GivenBack(k: Ticket, a: AccountID, minute: int): int {
    if !k.committed && !k.released && k.countRPM && k.account == a && k.minute == minute then 1 else 0
  }

  /** Releasing before the commit gives the admission back, exactly once; releasing later,
      or again, gives nothing back. */
  lemma ReleaseCharges(m: Traffic, t: TicketRef, now: int)
    requires t in m.tickets && m.tickets[t].state in m.states
    ensures forall a, c :: ChargedTo(Release(m, t, now), a, c) == ChargedTo(m, a, c) - GivenBack(m.tickets[t], a, c)
  {
    var k := m.tickets[t];
    if !k.released {
      forall a, c ensures ChargedTo(Release(m, t, now), a, c) == ChargedTo(m, a, c) - GivenBack(k, a, c) {
        CountPut(m.tickets, t, k.(released := true), Charged(a, c));
      }
    }
  }

  lemma MarksKeepRate(m: Traffic, n: Traffic, clock: int)
    requires RateInv(m, clock) && TrafficQuiesce.OnlyMarks(m, n)
    ensures RateInv(n, clock)
  {
    forall x | x in n.states ensures StateTimed(n.tickets, x, n.states[x], clock) {
      assert StateTimed(m.tickets, x, m.states[x], clock);
    }
    forall t | t in n.tickets ensures TicketTimed(n, n.tickets[t], clock) {
      assert TicketTimed(m, m.tickets[t], clock);
    }
  }

  lemma QuiesceStepsKeepRate(m: Traffic, e: Event, clock: int)
    requires Enabled(m, e) && RateInv(m, clock)
    requires !e.DoPrepare? && !e.DoCommit? && !e.DoRelease?
    ensures RateInv(Step(m, e), clock) && Step(m, e).tickets == m.tickets
  {
    var n := m;
    if e.DoTryMark? {
      var id := TrafficQuiesce.Next(m.quiescers[e.q]);
      n := WithState(m, id, e.s);
      WithStateKeepsRate(m, id, e.s, clock);
    }
    TrafficQuiesce.QuiesceStepsMark(m, e, n);
    MarksKeepRate(n, Step(m, e), clock);
  }

  // ---- every run -------------------------------------------------------------------------------

  /** Admission times never decrease, and every counted request of account a carries the
      same positive limit. */
  predicate Paced(es: seq<Event>, clock: int, a: AccountID, limit: int)
    decreases |es|
  {
    es == [] ||
    (&& clock <= ClockAfter(clock, es[0])
     && (es[0].DoPrepare? && es[0].r.countRPM && es[0].r.account == a ==> es[0].r.rpmLimit == limit)
     && Paced(es[1..], ClockAfter(clock, es[0]), a, limit))
  }

  lemma StepWithinLimit(m: Traffic, e: Event, clock: int, a: AccountID, limit: int, minute: int)
    requires Inv(m) && RateInv(m, clock) && Enabled(m, e) && 0 < limit && Paced([e], clock, a, limit)
    requires ChargedTo(m, a, minute) <= limit
    ensures RateInv(Step(m, e), ClockAfter(clock, e)) && ChargedTo(Step(m, e), a, minute) <= limit
  {
    match e
    case DoPrepare(r, s, t) =>
      PrepareKeepsRate(m, r, s, t, clock);
      if Prepare(m, r, s, t).1 == Admitted {
        AdmissionWithinLimit(m, r, s, t, clock);
      } else {
        RefusalChargesNobody(m, r, s, t);
      }
    case DoCommit(t) =>
      CommitKeepsRate(m, t, clock);
      CommitCharges(m, t);
    case DoRelease(t, now) =>
      ReleaseKeepsRate(m, t, now, clock);
      ReleaseCharges(m, t, now);
    case _ => QuiesceStepsKeepRate(m, e, clock);
  }

  lemma {:induction false} RunWithinLimit(m: Traffic, es: seq<Event>, clock: int, a: AccountID, limit: int, minute: int)
    requires Inv(m) && RateInv(m, clock) && 0 < limit && Paced(es, clock, a, limit)
    requires Run(m, es).Some? && ChargedTo(m, a, minute) <= limit
    ensures ChargedTo(Run(m, es).value, a, minute) <= limit
    decreases |es|
  {
    if es != [] {
      StepWithinLimit(m, es[0], clock, a, limit, minute);
      TrafficQuiesce.StepKeepsInv(m, es[0]);
      RunWithinLimit(Step(m, es[0]), es[1..], ClockAfter(clock, es[0]), a, limit, minute);
    }
  }

  /** Over every run, whatever is evicted, released early or committed late. */
  lemma RateNeverExceeded(es: seq<Event>, a: AccountID, limit: int, minute: int)
    requires 0 < limit && Paced(es, 0, a, limit) && Run(EMPTY, es).Some?
    ensures ChargedTo(Run(EMPTY, es).value, a, minute) <= limit
  {
    EmptyInv();
    CountZero(EMPTY.tickets, Charged(a, minute));
    RunWithinLimit(EMPTY, es, 0, a, limit, minute);
  }
}
