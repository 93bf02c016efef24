/** What every critical section of the traffic controller keeps, whatever the interleaving. */
module TrafficInvariant {
  import opened MapSums
  import opened ConcurrencySeries
  import opened AccountTraffic
  import Collector = ConcurrencyFlush
  import opened Units

  type Tickets = map<TicketRef, Ticket>

  // ---- counting tickets ------------------------------------------------------------

  datatype Filter =
    | OnState(s: StateRef)                   // holds a slot of the state
    | OnMember(s: StateRef, user: UserID)    // holds a member's slot of the state
    | Tentative(s: StateRef, minute: int)    // admitted in that minute, neither committed nor released
    | OnSeries(key: SeriesKey, user: UserID) // counted by the collector
    | CommittedIn(s: StateRef, minute: int)  // charged to that minute of the state
    | Charged(account: AccountID, minute: int) // charged to the minute, for good or tentatively
    | Internal(s: StateRef)                  // holds a slot of the state for no member, like a quota probe

  predicate Selects(f: Filter, k: Ticket) {
    match f
    case OnState(s) => !k.released && k.state == s
    case OnMember(s, u) => !k.released && k.state == s && k.credential.Some? && k.credential.value.user == u
    case Tentative(s, minute) => !k.released && !k.committed && k.countRPM && k.state == s && k.minute == minute
    case OnSeries(key, u) => !k.released && k.credential.Some? && k.credential.value.Key() == key && k.credential.value.user == u
    case CommittedIn(s, minute) => k.committed && k.countRPM && k.state == s && k.minute == minute
    case Internal(s) => !k.released && k.state == s && k.credential.None?
    case Charged(a, minute) => k.countRPM && k.account == a && k.minute == minute && (k.committed || !k.released)
  }

  ghost function Matching(tickets: Tickets, f: Filter): set<TicketRef> {
    set t | t in tickets && Selects(f, tickets[t])
  }

  ghost function Count(tickets: Tickets, f: Filter): nat {
    |Matching(tickets, f)|
  }

  /** How the count changes when ticket t becomes k. */
  function Change(tickets: Tickets, t: TicketRef, k: Ticket, f: Filter): int {
    (if Selects(f, k) then 1 else 0) - (if t in tickets && Selects(f, tickets[t]) then 1 else 0)
  }

  lemma CountPut(tickets: Tickets, t: TicketRef, k: Ticket, f: Filter)
    ensures Count(tickets[t := k], f) == Count(tickets, f) + Change(tickets, t, k, f)
  {
    OneChanged(Matching(tickets, f), Matching(tickets[t := k], f), t);
  }

  lemma OneChanged(a: set<TicketRef>, b: set<TicketRef>, t: TicketRef)
    requires forall x | x != t :: x in a <==> x in b
    ensures |b| == |a| + (if t in b then 1 else 0) - (if t in a then 1 else 0)
  {
    assert a - {t} == b - {t};
    assert |a - {t}| == |a| - (if t in a then 1 else 0);
    assert |b - {t}| == |b| - (if t in b then 1 else 0);
  }

  lemma Counted(tickets: Tickets, t: TicketRef, f: Filter)
    requires t in tickets && Selects(f, tickets[t])
    ensures Count(tickets, f) >= 1
  {
    assert t in Matching(tickets, f);
  }

  lemma CountZero(tickets: Tickets, f: Filter)
    ensures Count(tickets, f) == 0 <==> forall t <- tickets :: !Selects(f, tickets[t])
  {
    if Matching(tickets, f) == {} {
      forall t | t in tickets ensures !Selects(f, tickets[t]) {
        assert t !in Matching(tickets, f);
      }
    } else {
      var t :| t in Matching(tickets, f);
    }
  }

  // ---- the invariant ---------------------------------------------------------------

  predicate Indexed(m: Traffic, s: StateRef) {
    s in m.states && m.states[s].account in m.index && m.index[m.states[s].account] == s
  }

  ghost predicate IndexOk(m: Traffic) {
    forall a <- m.index :: m.index[a] in m.states && m.states[m.index[a]].account == a
  }

  ghost predicate TicketOk(m: Traffic, k: Ticket) {
    && k.state in m.states && m.states[k.state].account == k.account
    && (k.credential.Some? ==> k.credential.value.account == k.account)
    && (!k.released ==> Indexed(m, k.state))
  }

  ghost predicate TicketsOk(m: Traffic) {
    forall t <- m.tickets :: TicketOk(m, m.tickets[t])
  }

  /** The counters of a state are exactly the tickets that hold it. */
  ghost predicate CountersOk(tickets: Tickets, s: StateRef, x: AccountState) {
    && x.activeRequests == Count(tickets, OnState(s))
    && (x.idle <==> x.activeRequests == 0)
    && (forall u :: Get(x.activeMembers, u) == Count(tickets, OnMember(s, u)))
    && (forall u <- x.activeMembers :: x.activeMembers[u] > 0)
    && (forall k :: Get(x.pending, k) == Count(tickets, Tentative(s, k)))
    && (forall k <- x.pending :: x.pending[k] > 0)
  }

  ghost predicate StatesOk(m: Traffic) {
    forall s <- m.states :: CountersOk(m.tickets, s, m.states[s])
  }

  ghost predicate HistoryMatches(tickets: Tickets, h: Collector.History) {
    && Collector.HistoryOk(h)
    && forall key, u :: Collector.CountOf(h, key, u) == Count(tickets, OnSeries(key, u))
  }

  ghost predicate QuiescerOk(m: Traffic, p: Quiescer) {
    && StrictlySorted(p.ids)
    && |p.locked| <= |p.ids|
    && (forall i | 0 <= i < |p.locked| :: p.locked[i] in m.states && m.states[p.locked[i]].account == p.ids[i] && m.states[p.locked[i]].activeRequests == 0)
    && (p.phase.Draining? ==> |p.locked| < |p.ids| && p.current in m.states && m.states[p.current].account == p.ids[|p.locked|])
    && (p.phase.Acquiring? ==> |p.locked| < |p.ids|)
    && (p.phase.Holding? ==> |p.locked| == |p.ids|)
    && (p.phase.Undoing? || p.phase.Closed? ==> p.locked == [])
    && (forall s <- p.Owned() :: Indexed(m, s) && m.states[s].quiescing)
  }

  ghost predicate Owns(m: Traffic, q: QuiescerRef, s: StateRef) {
    q in m.quiescers && s in m.quiescers[q].Owned()
  }

  /** A marked state belongs to exactly one quiescer. */
  ghost predicate QuiesceOk(m: Traffic) {
    && (forall q <- m.quiescers :: QuiescerOk(m, m.quiescers[q]))
    && (forall p, q, s :: Owns(m, p, s) && Owns(m, q, s) ==> p == q)
    && (forall s <- m.states :: m.states[s].quiescing ==> exists q :: Owns(m, q, s))
  }

  ghost predicate Inv(m: Traffic) {
    IndexOk(m) && TicketsOk(m) && StatesOk(m) && HistoryMatches(m.tickets, m.history) && QuiesceOk(m)
  }

  lemma EmptyInv()
    ensures Inv(EMPTY)
  {
    forall key, u ensures Collector.CountOf(EMPTY.history, key, u) == Count(EMPTY.tickets, OnSeries(key, u)) {
      CountZero(EMPTY.tickets, OnSeries(key, u));
    }
  }

  // ---- one component at a time -------------------------------------------------------

  /** A state whose account and mark stay, and which stays drained while it is marked. */
  predicate SameMark(x: AccountState, y: AccountState) {
    x.account == y.account && x.quiescing == y.quiescing && (x.quiescing && x.activeRequests == 0 ==> y.activeRequests == 0)
  }

  lemma UpdateKeepsMarks(m: Traffic, n: Traffic, s: StateRef)
    requires QuiesceOk(m) && s in m.states && s in n.states && n.states == m.states[s := n.states[s]]
    requires SameMark(m.states[s], n.states[s]) && n.index == m.index && n.quiescers == m.quiescers
    ensures QuiesceOk(n)
  {
    hide SameMark;
    forall q | q in n.quiescers ensures QuiescerOk(n, n.quiescers[q]) {
      UpdateKeepsQuiescer(m, n, s, m.quiescers[q]);
    }
    assert n.states[s].quiescing == m.states[s].quiescing by { MarkOf(m.states[s], n.states[s]); }
    MarksHaveOwners(m, n);
    hide QuiescerOk;
  }

  lemma MarkOf(x: AccountState, y: AccountState)
    requires SameMark(x, y)
    ensures x.quiescing == y.quiescing
  {
  }

  lemma UpdateKeepsQuiescer(m: Traffic, n: Traffic, s: StateRef, p: Quiescer)
    requires QuiescerOk(m, p) && s in m.states && s in n.states && n.states == m.states[s := n.states[s]]
    requires SameMark(m.states[s], n.states[s]) && n.index == m.index
    ensures QuiescerOk(n, p)
  {
    forall i | 0 <= i < |p.locked| ensures n.states[p.locked[i]].activeRequests == 0 {
      assert p.locked[i] in p.Owned();
    }
  }

  /** The same quiescers own the same states, so no mark is left without its owner. */
  lemma MarksHaveOwners(m: Traffic, n: Traffic)
    requires QuiesceOk(m) && n.quiescers == m.quiescers && forall q <- n.quiescers :: QuiescerOk(n, n.quiescers[q])
    requires forall x <- n.states :: n.states[x].quiescing ==> x in m.states && m.states[x].quiescing
    ensures QuiesceOk(n)
  {
    hide QuiescerOk;
    forall p, q, x | Owns(n, p, x) && Owns(n, q, x) ensures p == q {
      assert Owns(m, p, x) && Owns(m, q, x);
    }
    forall x | x in n.states && n.states[x].quiescing ensures exists q :: Owns(n, q, x) {
      var q :| Owns(m, q, x);
      assert Owns(n, q, x);
    }
  }

  /** Marked states stay in the index and nothing else the quiescers look at changes. */
  lemma IndexKeepsMarks(m: Traffic, n: Traffic)
    requires QuiesceOk(m) && n.quiescers == m.quiescers
    requires forall s <- m.states :: s in n.states && n.states[s] == m.states[s]
    requires forall s <- m.states :: m.states[s].quiescing && Indexed(m, s) ==> Indexed(n, s)
    requires forall s <- n.states :: n.states[s].quiescing ==> s in m.states
    ensures QuiesceOk(n)
  {
    forall q | q in n.quiescers ensures QuiescerOk(n, n.quiescers[q]) {
      assert QuiescerOk(m, m.quiescers[q]);
    }
    MarksHaveOwners(m, n);
  }

  lemma UpdateKeepsTickets(m: Traffic, n: Traffic, s: StateRef, t: TicketRef)
    requires IndexOk(m) && TicketsOk(m) && s in m.states && n.index == m.index
    requires s in n.states && n.states == m.states[s := n.states[s]] && n.states[s].account == m.states[s].account
    requires t in n.tickets && n.tickets == m.tickets[t := n.tickets[t]] && TicketOk(n, n.tickets[t])
    ensures IndexOk(n) && TicketsOk(n)
  {
    forall x | x in n.tickets ensures TicketOk(n, n.tickets[x]) {
      if x != t {
        assert TicketOk(m, m.tickets[x]);
      }
    }
  }

  lemma PutKeepsCounters(tickets: Tickets, t: TicketRef, k: Ticket, s: StateRef, x: AccountState, y: AccountState)
    requires CountersOk(tickets, s, x)
    requires y.activeRequests == x.activeRequests + Change(tickets, t, k, OnState(s))
    requires y.idle <==> y.activeRequests == 0
    requires forall u :: Get(y.activeMembers, u) == Get(x.activeMembers, u) + Change(tickets, t, k, OnMember(s, u))
    requires forall u <- y.activeMembers :: y.activeMembers[u] > 0
    requires forall c :: Get(y.pending, c) == Get(x.pending, c) + Change(tickets, t, k, Tentative(s, c))
    requires forall c <- y.pending :: y.pending[c] > 0
    ensures CountersOk(tickets[t := k], s, y)
  {
    CountPut(tickets, t, k, OnState(s));
    forall u ensures Get(y.activeMembers, u) == Count(tickets[t := k], OnMember(s, u)) {
      CountPut(tickets, t, k, OnMember(s, u));
    }
    forall c ensures Get(y.pending, c) == Count(tickets[t := k], Tentative(s, c)) {
      CountPut(tickets, t, k, Tentative(s, c));
    }
  }

  /** A ticket's change concerns only the state it belongs to. */
  lemma PutKeepsStates(m: Traffic, n: Traffic, t: TicketRef, s: StateRef)
    requires StatesOk(m) && s in m.states && s in n.states && n.states == m.states[s := n.states[s]]
    requires t in n.tickets && n.tickets == m.tickets[t := n.tickets[t]] && n.tickets[t].state == s
    requires t in m.tickets ==> m.tickets[t].state == s
    requires CountersOk(n.tickets, s, n.states[s])
    ensures StatesOk(n)
  {
    forall x | x in n.states ensures CountersOk(n.tickets, x, n.states[x]) {
      if x != s {
        assert CountersOk(m.tickets, x, m.states[x]);
        PutKeepsCounters(m.tickets, t, n.tickets[t], x, m.states[x], m.states[x]);
      }
    }
  }

  lemma PutKeepsHistory(tickets: Tickets, t: TicketRef, k: Ticket, h: Collector.History, g: Collector.History)
    requires HistoryMatches(tickets, h) && Collector.HistoryOk(g)
    requires forall key, u :: Collector.CountOf(g, key, u) == Collector.CountOf(h, key, u) + Change(tickets, t, k, OnSeries(key, u))
    ensures HistoryMatches(tickets[t := k], g)
  {
    forall key, u ensures Collector.CountOf(g, key, u) == Count(tickets[t := k], OnSeries(key, u)) {
      CountPut(tickets, t, k, OnSeries(key, u));
    }
  }

  // ---- prepareRequest ------------------------------------------------------------------

  /** A live ticket keeps its state busy and its series counted. */
  lemma LiveIsBusy(m: Traffic, t: TicketRef)
    requires TicketsOk(m) && StatesOk(m) && t in m.tickets && !m.tickets[t].released
    ensures m.states[m.tickets[t].state].activeRequests >= 1 && !m.states[m.tickets[t].state].idle
  {
    var k := m.tickets[t];
    assert TicketOk(m, k);
    Counted(m.tickets, t, OnState(k.state));
    assert CountersOk(m.tickets, k.state, m.states[k.state]);
  }

  /** Cleanup never removes a state that a live ticket or a quiescer points to. */
  lemma EvictKeepsInv(m: Traffic, now: int)
    requires Inv(m)
    ensures Inv(Evict(m, now))
    ensures forall s <- m.states :: Indexed(m, s) && (m.states[s].quiescing || m.states[s].activeRequests > 0) ==> Indexed(Evict(m, now), s)
  {
    hide QuiesceOk, CountersOk, HistoryMatches, TicketsOk;
    var n := Evict(m, now);
    assert n.states == m.states && n.tickets == m.tickets && n.history == m.history && n.quiescers == m.quiescers;
    EvictKeepsIndexed(m, now);
    EvictKeepsTickets(m, now);
    IndexKeepsMarks(m, n);
    hide Evict;
  }

  lemma EvictKeepsIndexed(m: Traffic, now: int)
    requires IndexOk(m)
    ensures IndexOk(Evict(m, now))
    ensures forall s <- m.states :: Indexed(m, s) && (m.states[s].quiescing || m.states[s].activeRequests > 0) ==> Indexed(Evict(m, now), s)
  {
    forall s | s in m.states && Indexed(m, s) && !Evictable(m.states[s], now) ensures Indexed(Evict(m, now), s) {
    }
  }

  lemma EvictKeepsTickets(m: Traffic, now: int)
    requires IndexOk(m) && TicketsOk(m) && StatesOk(m)
    ensures TicketsOk(Evict(m, now))
  {
    hide CountersOk, StatesOk;
    var n := Evict(m, now);
    EvictKeepsIndexed(m, now);
    forall t | t in n.tickets ensures TicketOk(n, n.tickets[t]) {
      assert TicketOk(m, m.tickets[t]);
      if !n.tickets[t].released {
        LiveIsBusy(m, t);
      }
    }
  }

  lemma WithStateKeepsInv(m: Traffic, account: AccountID, s: StateRef)
    requires Inv(m) && s !in m.states
    ensures Inv(WithState(m, account, s)) && account in WithState(m, account, s).index
  {
    var n := WithState(m, account, s);
    if account !in m.index {
      UnusedState(m, s, account);
      NewStateKeepsStates(m, n, s);
      NewStateKeepsTickets(m, account, s);
      NewStateKeepsMarks(m, account, s);
    }
  }

  lemma NewStateKeepsStates(m: Traffic, n: Traffic, s: StateRef)
    requires StatesOk(m) && s in n.states && n.states == m.states[s := n.states[s]] && n.tickets == m.tickets
    requires CountersOk(n.tickets, s, n.states[s])
    ensures StatesOk(n)
  {
    forall x | x in n.states ensures CountersOk(n.tickets, x, n.states[x]) {
      if x != s {
        assert CountersOk(m.tickets, x, m.states[x]);
      }
    }
  }

  lemma NewStateKeepsTickets(m: Traffic, account: AccountID, s: StateRef)
    requires IndexOk(m) && TicketsOk(m) && s !in m.states && account !in m.index
    ensures IndexOk(WithState(m, account, s)) && TicketsOk(WithState(m, account, s))
  {
    var n := WithState(m, account, s);
    forall t | t in n.tickets ensures TicketOk(n, n.tickets[t]) {
      assert TicketOk(m, m.tickets[t]);
    }
  }

  lemma NewStateKeepsMarks(m: Traffic, account: AccountID, s: StateRef)
    requires IndexOk(m) && QuiesceOk(m) && s !in m.states && account !in m.index
    ensures QuiesceOk(WithState(m, account, s))
  {
    IndexKeepsMarks(m, WithState(m, account, s));
  }

  lemma UnusedState(m: Traffic, s: StateRef, account: AccountID)
    requires TicketsOk(m) && s !in m.states
    ensures CountersOk(m.tickets, s, NewState(account))
  {
    forall t | t in m.tickets ensures m.tickets[t].state != s {
      assert TicketOk(m, m.tickets[t]);
    }
    CountZero(m.tickets, OnState(s));
    forall u ensures Count(m.tickets, OnMember(s, u)) == 0 {
      CountZero(m.tickets, OnMember(s, u));
    }
    forall k ensures Count(m.tickets, Tentative(s, k)) == 0 {
      CountZero(m.tickets, Tentative(s, k));
    }
  }

  function MarkSeen(m: Traffic, s: StateRef, r: Request): Traffic requires s in m.states {
    m.(states := m.states[s := Seen(m.states[s], r)])
  }

  lemma SeenKeepsInv(m: Traffic, s: StateRef, r: Request)
    requires Inv(m) && s in m.states
    ensures Inv(MarkSeen(m, s, r))
  {
    var n := MarkSeen(m, s, r);
    UpdateKeepsMarks(m, n, s);
    SeenCounters(m.tickets, s, m.states[s], r);
    NewStateKeepsStates(m, n, s);
    SeenKeepsTickets(m, s, r);
  }

  lemma SeenCounters(tickets: Tickets, s: StateRef, x: AccountState, r: Request)
    requires CountersOk(tickets, s, x)
    ensures CountersOk(tickets, s, Seen(x, r))
  {
  }

  lemma SeenKeepsTickets(m: Traffic, s: StateRef, r: Request)
    requires IndexOk(m) && TicketsOk(m) && s in m.states
    ensures IndexOk(MarkSeen(m, s, r)) && TicketsOk(MarkSeen(m, s, r))
  {
    forall t | t in m.tickets ensures TicketOk(MarkSeen(m, s, r), m.tickets[t]) {
      assert TicketOk(m, m.tickets[t]);
    }
  }

  lemma OccupyCounters(tickets: Tickets, s: StateRef, x: AccountState, r: Request, t: TicketRef)
    requires CountersOk(tickets, s, x) && t !in tickets
    ensures CountersOk(tickets[t := TicketFor(s, r)], s, Occupy(x, r))
  {
    CountsOfState(tickets, s, x);
    PutKeepsCounters(tickets, t, TicketFor(s, r), s, x, Occupy(x, r));
  }

  lemma CountsOfState(tickets: Tickets, s: StateRef, x: AccountState)
    requires CountersOk(tickets, s, x)
    ensures 0 <= x.activeRequests && (forall u :: 0 <= Get(x.activeMembers, u)) && (forall k :: 0 <= Get(x.pending, k))
  {
  }

  lemma AdmitHistory(tickets: Tickets, h: Collector.History, k: Ticket, t: TicketRef, now: int)
    requires HistoryMatches(tickets, h) && t !in tickets && !k.released
    ensures var g := if k.credential.Some? then Collector.ChangeHistory(h, k.credential.value.Key(), k.credential.value.user, 1, now) else h;
            HistoryMatches(tickets[t := k], g)
  {
    if k.credential.Some? {
      var key, u := k.credential.value.Key(), k.credential.value.user;
      assert Collector.CountOf(h, key, u) == Count(tickets, OnSeries(key, u));
      Collector.ChangeHistoryOk(h, key, u, 1, now);
      PutKeepsHistory(tickets, t, k, h, Collector.ChangeHistory(h, key, u, 1, now));
    } else {
      PutKeepsHistory(tickets, t, k, h, h);
    }
  }

  lemma AdmitKeepsInv(m: Traffic, r: Request, t: TicketRef)
    requires Inv(m) && t !in m.tickets && r.account in m.index && !m.states[m.index[r.account]].quiescing
    requires r.credential.Some? ==> r.credential.value.account == r.account
    ensures Inv(Admit(m, r, t))
  {
    var s, n := m.index[r.account], Admit(m, r, t);
    OccupyCounters(m.tickets, s, m.states[s], r, t);
    PutKeepsStates(m, n, t, s);
    UpdateKeepsTickets(m, n, s, t);
    UpdateKeepsMarks(m, n, s);
    AdmitHistory(m.tickets, m.history, TicketFor(s, r), t, r.now);
  }

  /** The controller once the request's account has a state. */
  function Found(m: Traffic, r: Request, s: StateRef): Traffic
    requires forall a <- m.index :: m.index[a] in m.states
  {
    WithState(Evict(m, r.now), r.account, s)
  }

  lemma FoundInv(m: Traffic, r: Request, s: StateRef) returns (n: Traffic)
    requires Inv(m) && s !in m.states
    ensures n == Found(m, r, s) && Inv(n) && r.account in n.index && n.tickets == m.tickets
  {
    EvictKeepsInv(m, r.now);
    var e := Evict(m, r.now);
    WithStateKeepsInv(e, r.account, s);
    n := WithState(e, r.account, s);
  }

  lemma PrepareKeepsInv(m: Traffic, r: Request, s: StateRef, t: TicketRef)
    requires Inv(m) && Enabled(m, DoPrepare(r, s, t))
    ensures Inv(Prepare(m, r, s, t).0)
  {
    var n := FoundInv(m, r, s);
    var ref := n.index[r.account];
    if !n.states[ref].quiescing {
      SeenKeepsInv(n, ref, r);
      var o := MarkSeen(n, ref, r);
      if Check(o.states[ref], r).None? {
        AdmitKeepsInv(o, r, t);
      }
    }
  }

  // ---- commit and release ----------------------------------------------------------------

  lemma CommitCounters(tickets: Tickets, t: TicketRef, x: AccountState)
    requires t in tickets && CountersOk(tickets, tickets[t].state, x)
    requires !tickets[t].committed && !tickets[t].released
    ensures CountersOk(tickets[t := tickets[t].(committed := true)], tickets[t].state, Committed(x, tickets[t]))
  {
    var k := tickets[t];
    if k.countRPM {
      Counted(tickets, t, Tentative(k.state, k.minute));
    }
    PutKeepsCounters(tickets, t, k.(committed := true), k.state, x, Committed(x, k));
  }

  lemma CommitKeepsInv(m: Traffic, t: TicketRef)
    requires Inv(m) && t in m.tickets
    ensures Inv(Commit(m, t))
  {
    var k := m.tickets[t];
    assert TicketOk(m, k);
    if !k.committed && !k.released {
      var n := Commit(m, t);
      CommitCounters(m.tickets, t, m.states[k.state]);
      PutKeepsStates(m, n, t, k.state);
      UpdateKeepsTickets(m, n, k.state, t);
      UpdateKeepsMarks(m, n, k.state);
      CommitHistory(m.tickets, m.history, t);
    }
  }

  lemma CommitHistory(tickets: Tickets, h: Collector.History, t: TicketRef)
    requires HistoryMatches(tickets, h) && t in tickets
    ensures HistoryMatches(tickets[t := tickets[t].(committed := true)], h)
  {
    PutKeepsHistory(tickets, t, tickets[t].(committed := true), h, h);
  }

  lemma LeaveCounters(tickets: Tickets, t: TicketRef, x: AccountState)
    requires t in tickets && !tickets[t].released && CountersOk(tickets, tickets[t].state, x)
    ensures CountersOk(tickets[t := tickets[t].(released := true)], tickets[t].state, Leave(x, tickets[t]))
  {
    var k := tickets[t];
    Counted(tickets, t, OnState(k.state));
    if k.countRPM && !k.committed {
      Counted(tickets, t, Tentative(k.state, k.minute));
    }
    if k.credential.Some? {
      Counted(tickets, t, OnMember(k.state, k.credential.value.user));
    }
    LeaveMembers(tickets, t, x);
    LeavePending(tickets, t, x);
    PutKeepsCounters(tickets, t, k.(released := true), k.state, x, Leave(x, k));
  }

  lemma LeaveMembers(tickets: Tickets, t: TicketRef, x: AccountState)
    requires t in tickets && !tickets[t].released
    requires forall u <- x.activeMembers :: x.activeMembers[u] > 0
    requires tickets[t].credential.Some? ==> Get(x.activeMembers, tickets[t].credential.value.user) >= 1
    ensures var k := tickets[t]; var y := Leave(x, k);
            && (forall u :: Get(y.activeMembers, u) == Get(x.activeMembers, u) + Change(tickets, t, k.(released := true), OnMember(k.state, u)))
            && (forall u <- y.activeMembers :: y.activeMembers[u] > 0)
  {
  }

  lemma LeavePending(tickets: Tickets, t: TicketRef, x: AccountState)
    requires t in tickets && !tickets[t].released
    requires forall c <- x.pending :: x.pending[c] > 0
    requires tickets[t].countRPM && !tickets[t].committed ==> Get(x.pending, tickets[t].minute) >= 1
    ensures var k := tickets[t]; var y := Leave(x, k);
            && (forall c :: Get(y.pending, c) == Get(x.pending, c) + Change(tickets, t, k.(released := true), Tentative(k.state, c)))
            && (forall c <- y.pending :: y.pending[c] > 0)
  {
  }

  lemma ReleaseHistory(tickets: Tickets, h: Collector.History, t: TicketRef, now: int)
    requires HistoryMatches(tickets, h) && t in tickets && !tickets[t].released
    ensures var k := tickets[t];
            var g := if k.credential.Some? then Collector.ChangeHistory(h, k.credential.value.Key(), k.credential.value.user, -1, now) else h;
            HistoryMatches(tickets[t := k.(released := true)], g)
  {
    var k := tickets[t];
    if k.credential.Some? {
      var key, u := k.credential.value.Key(), k.credential.value.user;
      Counted(tickets, t, OnSeries(key, u));
      assert Collector.CountOf(h, key, u) == Count(tickets, OnSeries(key, u));
      Collector.ChangeHistoryOk(h, key, u, -1, now);
      PutKeepsHistory(tickets, t, k.(released := true), h, Collector.ChangeHistory(h, key, u, -1, now));
    } else {
      PutKeepsHistory(tickets, t, k.(released := true), h, h);
    }
  }

  lemma ReleaseKeepsInv(m: Traffic, t: TicketRef, now: int)
    requires Inv(m) && t in m.tickets
    ensures Inv(Release(m, t, now))
  {
    var k := m.tickets[t];
    assert TicketOk(m, k);
    if !k.released {
      var n := Release(m, t, now);
      LeaveCounters(m.tickets, t, m.states[k.state]);
      LiveIsBusy(m, t);
      PutKeepsStates(m, n, t, k.state);
      UpdateKeepsTickets(m, n, k.state, t);
      UpdateKeepsMarks(m, n, k.state);
      ReleaseHistory(m.tickets, m.history, t, now);
    }
  }
}
