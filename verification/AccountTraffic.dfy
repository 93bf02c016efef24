/** Admission control for upstream accounts. Every critical section of the
    mutex-protected controller is one step on `Traffic`, the value of the whole object
    graph: account states, the index by account, tickets and quiescers. */
module AccountTraffic {
  import opened MapSums
  import opened ConcurrencySeries
  import Collector = ConcurrencyFlush
  import opened Units

  const STATE_TTL: int := 30 * MINUTE
  const CLEANUP_PERIOD: int := 10 * MINUTE

  datatype MemberLimit = MemberLimit(user: UserID, base: int, maxConcurrency: int)

  datatype Policy = Policy(enabled: bool, members: seq<MemberLimit>)

  datatype Credential = Credential(
    account: AccountID, maxConcurrency: int, plan: PlanID, generation: int, user: UserID, policy: Policy)
  {
    function Key(): SeriesKey {
      SeriesKey(account, plan, generation)
    }
  }

  datatype Refusal = AccountUnavailable | AccountConcurrency | AccountRateLimited | MemberConcurrency | ConcurrencyConfiguration

  // Identities of the heap objects (see AccountTrafficController).
  type StateRef = nat
  type TicketRef = nat
  type QuiescerRef = nat

  datatype AccountState = AccountState(
    account: AccountID, activeRequests: int, activeMembers: map<UserID, int>,
    quiescing: bool, idle: bool,
    minuteStart: int, minuteRequests: int, pending: map<int, int>, lastSeen: int)

  /** What the commit and release closures of one admission hold. */
  datatype Ticket = Ticket(
    state: StateRef, account: AccountID, minute: int, at: int, countRPM: bool,
    credential: Option<Credential>, committed: bool, released: bool)

  datatype Request = Request(
    account: AccountID, maxConcurrency: int, rpmLimit: int, now: int, countRPM: bool, credential: Option<Credential>)

  datatype Outcome = Admitted | Refused(why: Refusal)

  datatype Phase =
    | Acquiring // between critical sections, or waiting for another quiescer
    | Draining  // the next account is marked; waiting for its tickets
    | Holding   // every account is marked and drained
    | Undoing   // cancelled while draining; the mark of the last account remains
    | Closed

  datatype Quiescer = Quiescer(ids: seq<AccountID>, locked: seq<StateRef>, current: StateRef, phase: Phase)
  {
    ghost function Owned(): set<StateRef> {
      (set s | s in locked) + (if phase.Draining? || phase.Undoing? then {current} else {})
    }
  }

  datatype Traffic = Traffic(
    states: map<StateRef, AccountState>, index: map<AccountID, StateRef>, tickets: map<TicketRef, Ticket>,
    quiescers: map<QuiescerRef, Quiescer>, nextCleanup: int, history: Collector.History)

  function NewState(account: AccountID): AccountState {
    AccountState(account, 0, map[], false, true, 0, 0, map[], 0)
  }

  // ---- prepareRequest ----------------------------------------------------------

  predicate Evictable(s: AccountState, now: int) {
    !s.quiescing && s.activeRequests == 0 && now - s.lastSeen >= STATE_TTL
  }

  predicate CleanupDue(m: Traffic, now: int) {
    m.nextCleanup == 0 || now >= m.nextCleanup
  }

  function Kept(m: Traffic, now: int): map<AccountID, StateRef>
    requires forall a <- m.index :: m.index[a] in m.states
  {
    map a | a in m.index && !Evictable(m.states[m.index[a]], now) :: m.index[a]
  }

  function Evict(m: Traffic, now: int): Traffic
    requires forall a <- m.index :: m.index[a] in m.states
  {
    if CleanupDue(m, now) then m.(index := Kept(m, now), nextCleanup := now + CLEANUP_PERIOD) else m
  }

  /** The state of an account, created under the unused reference `s` if missing. */
  function WithState(m: Traffic, account: AccountID, s: StateRef): Traffic {
    if account in m.index then m
    else m.(index := m.index[account := s], states := m.states[s := NewState(account)])
  }

  /** A request was seen: roll the minute window if it counts towards the rate. */
  function Seen(s: AccountState, r: Request): AccountState {
    var minute := Truncate(r.now);
    if r.countRPM && s.minuteStart != minute then s.(lastSeen := r.now, minuteStart := minute, minuteRequests := 0)
    else s.(lastSeen := r.now)
  }

  function Bases(members: seq<MemberLimit>): map<UserID, int> {
    if members == [] then map[]
    else Bases(members[..|members| - 1])[members[|members| - 1].user := members[|members| - 1].base]
  }

  function Reserved(members: seq<MemberLimit>): int {
    if members == [] then 0 else Reserved(members[..|members| - 1]) + members[|members| - 1].base
  }

  function OwnLimit(members: seq<MemberLimit>, user: UserID): Option<MemberLimit> {
    if members == [] then None
    else if members[|members| - 1].user == user then Some(members[|members| - 1])
    else OwnLimit(members[..|members| - 1], user)
  }

  /** Slots a member uses beyond its base. */
  function Overflow(n: int, base: int): int {
    Max(0, n - base)
  }

  function OverflowMap(active: map<UserID, int>, bases: map<UserID, int>): map<UserID, int> {
    map u | u in active :: Overflow(active[u], Get(bases, u))
  }

  ghost function SharedUsed(active: map<UserID, int>, bases: map<UserID, int>): int {
    Sum(OverflowMap(active, bases))
  }

  /** `admitMemberConcurrency`. */
  ghost function MemberRefusal(active: map<UserID, int>, c: Credential): Option<Refusal> {
    if !c.policy.enabled then None else
      var bases := Bases(c.policy.members);
      var reserved := Reserved(c.policy.members);
      match OwnLimit(c.policy.members, c.user)
      case None => Some(AccountUnavailable)
      case Some(own) =>
        if c.maxConcurrency <= 0 || reserved > c.maxConcurrency then Some(ConcurrencyConfiguration)
        else if own.maxConcurrency > 0 && Get(active, c.user) >= own.maxConcurrency then Some(MemberConcurrency)
        else if Get(active, c.user) < own.base then None
        else if SharedUsed(active, bases) >= c.maxConcurrency - reserved then Some(MemberConcurrency)
        else None
  }

  ghost function Check(s: AccountState, r: Request): Option<Refusal> {
    if r.maxConcurrency > 0 && s.activeRequests >= r.maxConcurrency then Some(AccountConcurrency)
    else if r.countRPM && r.rpmLimit > 0 && s.minuteRequests + Get(s.pending, Truncate(r.now)) >= r.rpmLimit then Some(AccountRateLimited)
    else if r.credential.Some? then MemberRefusal(s.activeMembers, r.credential.value)
    else None
  }

  function Occupy(s: AccountState, r: Request): AccountState {
    var minute := Truncate(r.now);
    s.(
      activeRequests := s.activeRequests + 1,
      idle := if s.activeRequests == 0 then false else s.idle,
      activeMembers := if r.credential.Some? then s.activeMembers[r.credential.value.user := Get(s.activeMembers, r.credential.value.user) + 1] else s.activeMembers,
      pending := if r.countRPM then s.pending[minute := Get(s.pending, minute) + 1] else s.pending)
  }

  function TicketFor(s: StateRef, r: Request): Ticket {
    Ticket(s, r.account, Truncate(r.now), r.now, r.countRPM, r.credential, false, false)
  }

  ghost function Admit(m: Traffic, r: Request, t: TicketRef): Traffic
    requires r.account in m.index && m.index[r.account] in m.states
  {
    var s := m.index[r.account];
    m.(
      states := m.states[s := Occupy(m.states[s], r)],
      tickets := m.tickets[t := TicketFor(s, r)],
      history := if r.credential.Some? then
        Collector.ChangeHistory(m.history, r.credential.value.Key(), r.credential.value.user, 1, r.now) else m.history)
  }

  /** What `prepareRequest` does once the account has a state: refuse while it is being
      quiesced, mark it seen, check, admit. */
  ghost function Decision(n: Traffic, r: Request, t: TicketRef): (Traffic, Outcome)
    requires r.account in n.index && n.index[r.account] in n.states
  {
    var ref := n.index[r.account];
    if n.states[ref].quiescing then (n, Refused(AccountUnavailable)) else
      var seen := Seen(n.states[ref], r);
      var o := n.(states := n.states[ref := seen]);
      match Check(seen, r)
      case Some(why) => (o, Refused(why))
      case None => (Admit(o, r, t), Admitted)
  }

  /** One call of `prepareRequest`; `s` and `t` are unused references for a state and a
      ticket it may create. A refusal still evicts, creates and marks the state seen. */
  ghost function Prepare(m: Traffic, r: Request, s: StateRef, t: TicketRef): (Traffic, Outcome)
    requires forall a <- m.index :: m.index[a] in m.states
  {
    Decision(WithState(Evict(m, r.now), r.account, s), r, t)
  }

  // ---- commit and release --------------------------------------------------------

  function DecrementPending(pending: map<int, int>, minute: int): map<int, int> {
    if Get(pending, minute) - 1 == 0 then pending - {minute} else pending[minute := Get(pending, minute) - 1]
  }

  /** A commit that crosses a minute boundary is not charged to the newer window. */
  function Committed(s: AccountState, k: Ticket): AccountState {
    if k.countRPM then s.(
      pending := DecrementPending(s.pending, k.minute),
      minuteRequests := s.minuteRequests + if s.minuteStart == k.minute then 1 else 0)
    else s
  }

  function Commit(m: Traffic, t: TicketRef): Traffic
    requires t in m.tickets && m.tickets[t].state in m.states
  {
    var k := m.tickets[t];
    if k.committed || k.released then m
    else m.(tickets := m.tickets[t := k.(committed := true)], states := m.states[k.state := Committed(m.states[k.state], k)])
  }

  function Leave(s: AccountState, k: Ticket): AccountState {
    s.(
      activeRequests := s.activeRequests - 1,
      idle := s.idle || s.activeRequests == 1,
      activeMembers := if k.credential.Some? then SetCount(s.activeMembers, k.credential.value.user, Get(s.activeMembers, k.credential.value.user) - 1) else s.activeMembers,
      pending := if !k.committed && k.countRPM then DecrementPending(s.pending, k.minute) else s.pending)
  }

  ghost function Release(m: Traffic, t: TicketRef, now: int): Traffic
    requires t in m.tickets && m.tickets[t].state in m.states
  {
    var k := m.tickets[t];
    if k.released then m else
      m.(
        tickets := m.tickets[t := k.(released := true)],
        states := m.states[k.state := Leave(m.states[k.state], k)],
        history := if k.credential.Some? then
          Collector.ChangeHistory(m.history, k.credential.value.Key(), k.credential.value.user, -1, now) else m.history)
  }

  // ---- quiesce --------------------------------------------------------------------

  /** One pass through the first critical section of the acquisition loop: mark the next
      account, or find it marked by somebody else and wait. */
  function TryMark(m: Traffic, q: QuiescerRef, s: StateRef): Traffic
    requires q in m.quiescers && m.quiescers[q].phase.Acquiring? && |m.quiescers[q].locked| < |m.quiescers[q].ids|
    requires forall a <- m.index :: m.index[a] in m.states
  {
    var p := m.quiescers[q];
    var id := p.ids[|p.locked|];
    var n := WithState(m, id, s);
    var ref := n.index[id];
    if n.states[ref].quiescing then n
    else n.(states := n.states[ref := n.states[ref].(quiescing := true)], quiescers := n.quiescers[q := p.(phase := Draining, current := ref)])
  }

  function NextPhase(p: Quiescer): Phase {
    if |p.locked| == |p.ids| then Holding else Acquiring
  }

  /** The idle channel of the marked account is closed: its last ticket is gone. */
  function Drained(m: Traffic, q: QuiescerRef): Traffic
    requires q in m.quiescers && m.quiescers[q].phase.Draining?
  {
    var p := m.quiescers[q].(locked := m.quiescers[q].locked + [m.quiescers[q].current]);
    m.(quiescers := m.quiescers[q := p.(phase := NextPhase(p))])
  }

  function Unmark(states: map<StateRef, AccountState>, refs: set<StateRef>): map<StateRef, AccountState> {
    map s | s in states :: if s in refs then states[s].(quiescing := false) else states[s]
  }

  /** `releaseQuiesced`, on cancellation or when the holder lets go. */
  function Unlock(m: Traffic, q: QuiescerRef): Traffic
    requires q in m.quiescers && !m.quiescers[q].phase.Undoing?
  {
    var p := m.quiescers[q];
    m.(
      states := Unmark(m.states, set s | s in p.locked),
      quiescers := m.quiescers[q := p.(locked := [], phase := if p.phase.Draining? then Undoing else Closed)])
  }

  /** The last critical section of a cancelled acquisition. */
  function Undo(m: Traffic, q: QuiescerRef): Traffic
    requires q in m.quiescers && m.quiescers[q].phase.Undoing?
  {
    var p := m.quiescers[q];
    m.(states := Unmark(m.states, {p.current}), quiescers := m.quiescers[q := p.(phase := Closed)])
  }

  predicate StrictlySorted(ids: seq<AccountID>) {
    forall i, j :: 0 <= i < j < |ids| ==> ids[i] < ids[j]
  }

  function Enroll(m: Traffic, q: QuiescerRef, ids: seq<AccountID>): Traffic {
    m.(quiescers := m.quiescers[q := Quiescer(ids, [], 0, if ids == [] then Holding else Acquiring)])
  }

  // ---- steps and runs ---------------------------------------------------------------

  datatype Event =
    | DoPrepare(r: Request, s: StateRef, t: TicketRef)
    | DoCommit(t: TicketRef)
    | DoRelease(t: TicketRef, now: int)
    | DoEnroll(q: QuiescerRef, ids: seq<AccountID>)
    | DoTryMark(q: QuiescerRef, s: StateRef)
    | DoDrained(q: QuiescerRef)
    | DoUnlock(q: QuiescerRef)
    | DoUndo(q: QuiescerRef)

  /** What a caller can do next. References of new objects are unused; a credential is
      admitted under its own account; quiescers start with sorted distinct ids. */
  predicate Enabled(m: Traffic, e: Event) {
    && (forall a <- m.index :: m.index[a] in m.states)
    && match e
       case DoPrepare(r, s, t) => s !in m.states && t !in m.tickets && (r.credential.Some? ==> r.credential.value.account == r.account)
       case DoCommit(t) => t in m.tickets && m.tickets[t].state in m.states
       case DoRelease(t, _) => t in m.tickets && m.tickets[t].state in m.states
       case DoEnroll(q, ids) => q !in m.quiescers && StrictlySorted(ids)
       case DoTryMark(q, s) => q in m.quiescers && m.quiescers[q].phase.Acquiring? && |m.quiescers[q].locked| < |m.quiescers[q].ids| && s !in m.states
       case DoDrained(q) => q in m.quiescers && m.quiescers[q].phase.Draining? && m.quiescers[q].current in m.states && m.states[m.quiescers[q].current].idle
       case DoUnlock(q) => q in m.quiescers && (m.quiescers[q].phase.Acquiring? || m.quiescers[q].phase.Draining? || m.quiescers[q].phase.Holding?)
       case DoUndo(q) => q in m.quiescers && m.quiescers[q].phase.Undoing?
  }

  ghost function Step(m: Traffic, e: Event): Traffic requires Enabled(m, e) {
    match e
    case DoPrepare(r, s, t) => Prepare(m, r, s, t).0
    case DoCommit(t) => Commit(m, t)
    case DoRelease(t, now) => Release(m, t, now)
    case DoEnroll(q, ids) => Enroll(m, q, ids)
    case DoTryMark(q, s) => TryMark(m, q, s)
    case DoDrained(q) => Drained(m, q)
    case DoUnlock(q) => Unlock(m, q)
    case DoUndo(q) => Undo(m, q)
  }

  ghost function Run(m: Traffic, es: seq<Event>): Option<Traffic>
    decreases |es|
  {
    if es == [] then Some(m)
    else if Enabled(m, es[0]) then Run(Step(m, es[0]), es[1..]) else None
  }

  const EMPTY: Traffic := Traffic(map[], map[], map[], map[], 0, Collector.History(map[], 0))
}
