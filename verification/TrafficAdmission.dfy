/** The answer of an admission call, told from the tickets that are out and the policy the
    request carries: whom the controller admits, and why it refuses the others. */
module TrafficAdmission {
  import opened MapSums
  import opened ConcurrencySeries
  import opened AccountTraffic
  import opened TrafficInvariant
  import TrafficQuiesce
  import TrafficRate
  import TrafficSlots
  import opened Units

  // ---- what the tickets say ------------------------------------------------------------

  /** The requests of the account that are running. */
  ghost function Running(tickets: Tickets, a: AccountID): set<TicketRef> {
    set t | t in tickets && !tickets[t].released && tickets[t].account == a
  }

  ghost function RunningFor(tickets: Tickets, a: AccountID, u: UserID): set<TicketRef> {
    set t | t in Running(tickets, a) && tickets[t].credential.Some? && tickets[t].credential.value.user == u
  }

  ghost function UsersOf(tickets: Tickets, a: AccountID): set<UserID> {
    set t | t in Running(tickets, a) && tickets[t].credential.Some? :: tickets[t].credential.value.user
  }

  /** The requests charged to a minute: committed, or still running. */
  ghost function ChargedIn(tickets: Tickets, a: AccountID, minute: int): set<TicketRef> {
    set t | t in tickets && tickets[t].countRPM && tickets[t].account == a && tickets[t].minute == minute
            && (tickets[t].committed || !tickets[t].released)
  }

  predicate Marked(m: Traffic, a: AccountID) {
    a in m.index && m.index[a] in m.states && m.states[m.index[a]].quiescing
  }

  // ---- what the policy says ------------------------------------------------------------

  /** The entry in force for a user: the last one. */
  predicate EntryAt(members: seq<MemberLimit>, u: UserID, i: nat) {
    i < |members| && members[i].user == u && forall j :: i < j < |members| ==> members[j].user != u
  }

  ghost predicate Listed(members: seq<MemberLimit>, u: UserID) {
    exists i: nat :: EntryAt(members, u, i)
  }

  ghost function EntryOf(members: seq<MemberLimit>, u: UserID): MemberLimit
    requires Listed(members, u)
  {
    var i: nat :| EntryAt(members, u, i);
    members[i]
  }

  ghost function BaseOf(members: seq<MemberLimit>, u: UserID): int {
    if Listed(members, u) then EntryOf(members, u).base else 0
  }

  function TotalBase(members: seq<MemberLimit>): int {
    if members == [] then 0 else members[0].base + TotalBase(members[1..])
  }

  /** The slots that users hold beyond their bases. */
  ghost function Borrowed(tickets: Tickets, a: AccountID, members: seq<MemberLimit>): int {
    Sum(map u | u in UsersOf(tickets, a) :: Max(0, |RunningFor(tickets, a, u)| - BaseOf(members, u)))
  }

  // ---- the answer --------------------------------------------------------------------------

  /** A member below its base always finds a slot of its own; beyond it, a shared one. */
  ghost function MemberAnswer(tickets: Tickets, a: AccountID, c: Credential): Outcome {
    var members, mine := c.policy.members, |RunningFor(tickets, a, c.user)|;
    if !c.policy.enabled then Admitted
    else if !Listed(members, c.user) then Refused(AccountUnavailable)
    else if c.maxConcurrency <= 0 || c.maxConcurrency < TotalBase(members) then Refused(ConcurrencyConfiguration)
    else if 0 < EntryOf(members, c.user).maxConcurrency <= mine then Refused(MemberConcurrency)
    else if mine < BaseOf(members, c.user) || Borrowed(tickets, a, members) < c.maxConcurrency - TotalBase(members) then Admitted
    else Refused(MemberConcurrency)
  }

  ghost function Answer(m: Traffic, r: Request): Outcome {
    if Marked(m, r.account) then Refused(AccountUnavailable)
    else if 0 < r.maxConcurrency <= |Running(m.tickets, r.account)| then Refused(AccountConcurrency)
    else if Limited(r) && r.rpmLimit <= |ChargedIn(m.tickets, r.account, Truncate(r.now))| then Refused(AccountRateLimited)
    else if r.credential.Some? then MemberAnswer(m.tickets, r.account, r.credential.value)
    else Admitted
  }

  /** The rate limit applies. */
  predicate Limited(r: Request) {
    r.countRPM && 0 < r.rpmLimit
  }

  // ---- policies -----------------------------------------------------------------------------

  lemma {:induction false} EntryIsOwn(members: seq<MemberLimit>, u: UserID)
    ensures Listed(members, u) <==> OwnLimit(members, u).Some?
    ensures Listed(members, u) ==> EntryOf(members, u) == OwnLimit(members, u).value
    ensures BaseOf(members, u) == Get(Bases(members), u)
  {
    if members != [] {
      var init, n := members[..|members| - 1], |members| - 1;
      EntryIsOwn(init, u);
      if members[n].user == u {
        assert EntryAt(members, u, n);
      } else if Listed(init, u) {
        var i: nat :| EntryAt(init, u, i);
        assert EntryAt(members, u, i);
      } else if Listed(members, u) {
        var i: nat :| EntryAt(members, u, i);
        assert EntryAt(init, u, i);
      }
      OneEntry(members, u);
      OneEntry(init, u);
    }
  }

  lemma OneEntry(members: seq<MemberLimit>, u: UserID)
    ensures forall i: nat, j: nat :: EntryAt(members, u, i) && EntryAt(members, u, j) ==> i == j
  {
  }

  lemma {:induction false} TotalBaseIsReserved(members: seq<MemberLimit>)
    ensures TotalBase(members) == Reserved(members)
    decreases |members|
  {
    if |members| == 1 {
      assert members[..0] == [] && members[1..] == [];
    } else if |members| > 1 {
      var init, rest, n := members[..|members| - 1], members[1..], |members| - 1;
      TotalBaseIsReserved(init);
      TotalBaseIsReserved(rest);
      TotalBaseIsReserved(rest[..n - 1]);
      assert init[1..] == rest[..n - 1] && rest[..|rest| - 1] == rest[..n - 1];
    }
  }

  // ---- the indexed state counts the tickets ---------------------------------------------------

  ghost predicate Consistent(m: Traffic) {
    IndexOk(m) && TicketsOk(m) && StatesOk(m)
  }

  /** Live tickets of an account are on its indexed state. */
  lemma LiveOnIndexed(m: Traffic, a: AccountID, t: TicketRef)
    requires Consistent(m) && a in m.index && t in m.tickets
    ensures t in Running(m.tickets, a) <==> Selects(OnState(m.index[a]), m.tickets[t])
  {
    assert TicketOk(m, m.tickets[t]);
  }

  lemma RunningIsCounted(m: Traffic, a: AccountID)
    requires Consistent(m) && a in m.index
    ensures m.index[a] in m.states && CountersAre(m.states[m.index[a]], m.tickets, a)
  {
    var s := m.index[a];
    forall t | t in m.tickets ensures t in Running(m.tickets, a) <==> Selects(OnState(s), m.tickets[t]) {
      LiveOnIndexed(m, a, t);
    }
    hide TicketsOk, Running, CountersAre, CountersOk;
    CountedOn(m.tickets, s, a, m.states[s]);
  }

  /** The counters of a state, told from the tickets of its account. */
  ghost predicate CountersAre(x: AccountState, tickets: Tickets, a: AccountID) {
    && x.activeRequests == |Running(tickets, a)|
    && (forall u :: Get(x.activeMembers, u) == |RunningFor(tickets, a, u)|)
    && (forall u :: u in x.activeMembers <==> u in UsersOf(tickets, a))
  }

  lemma CountedOn(tickets: Tickets, s: StateRef, a: AccountID, x: AccountState)
    requires forall t <- tickets :: t in Running(tickets, a) <==> Selects(OnState(s), tickets[t])
    requires CountersOk(tickets, s, x)
    ensures CountersAre(x, tickets, a)
  {
    assert Running(tickets, a) == Matching(tickets, OnState(s));
    forall u ensures Get(x.activeMembers, u) == |RunningFor(tickets, a, u)| {
      assert RunningFor(tickets, a, u) == Matching(tickets, OnMember(s, u));
    }
    forall u ensures u in x.activeMembers <==> u in UsersOf(tickets, a) {
      InUse(tickets, a, u);
      assert u in x.activeMembers <==> Get(x.activeMembers, u) > 0;
    }
  }

  lemma InUse(tickets: Tickets, a: AccountID, u: UserID)
    ensures u in UsersOf(tickets, a) <==> |RunningFor(tickets, a, u)| > 0
  {
    if RunningFor(tickets, a, u) != {} {
      var t :| t in RunningFor(tickets, a, u);
      assert u in UsersOf(tickets, a);
    }
    if u in UsersOf(tickets, a) {
      var t :| t in Running(tickets, a) && tickets[t].credential.Some? && tickets[t].credential.value.user == u;
      assert t in RunningFor(tickets, a, u);
    }
  }

  lemma BorrowedIsShared(x: AccountState, tickets: Tickets, a: AccountID, members: seq<MemberLimit>)
    requires CountersAre(x, tickets, a)
    ensures SharedUsed(x.activeMembers, Bases(members)) == Borrowed(tickets, a, members)
  {
    hide Running, UsersOf, RunningFor, BaseOf, Bases;
    forall u ensures BaseOf(members, u) == Get(Bases(members), u) {
      EntryIsOwn(members, u);
    }
    assert OverflowMap(x.activeMembers, Bases(members)) == map u | u in UsersOf(tickets, a) :: Max(0, |RunningFor(tickets, a, u)| - BaseOf(members, u));
  }

  lemma MemberAnswered(x: AccountState, tickets: Tickets, a: AccountID, c: Credential)
    requires CountersAre(x, tickets, a)
    ensures MemberAnswer(tickets, a, c) == Told(MemberRefusal(x.activeMembers, c))
  {
    hide Running, RunningFor, UsersOf, Borrowed, SharedUsed, Bases, BaseOf, OwnLimit, Reserved, TotalBase, EntryOf, Listed;
    BorrowedIsShared(x, tickets, a, c.policy.members);
    EntryIsOwn(c.policy.members, c.user);
    TotalBaseIsReserved(c.policy.members);
    if Listed(c.policy.members, c.user) {
      BaseOfListed(c.policy.members, c.user);
    }
  }

  lemma BaseOfListed(members: seq<MemberLimit>, u: UserID)
    requires Listed(members, u)
    ensures BaseOf(members, u) == EntryOf(members, u).base
  {
  }

  function Told(why: Option<Refusal>): Outcome {
    if why.Some? then Refused(why.value) else Admitted
  }

  // ---- one call --------------------------------------------------------------------------------

  lemma MarkIsFound(m: Traffic, r: Request, s: StateRef, n: Traffic)
    requires IndexOk(m) && s !in m.states && n == Found(m, r, s)
    ensures r.account in n.index && n.index[r.account] in n.states && (n.states[n.index[r.account]].quiescing <==> Marked(m, r.account))
  {
  }

  lemma FoundConsistent(m: Traffic, r: Request, s: StateRef) returns (n: Traffic)
    requires Inv(m) && s !in m.states
    ensures IndexOk(m) && n == Found(m, r, s) && Consistent(n) && n.tickets == m.tickets && r.account in n.index
  {
    n := FoundInv(m, r, s);
    hide Found, IndexOk, TicketsOk, StatesOk, HistoryMatches, QuiesceOk;
  }

  lemma ChargedIsKnown(n: Traffic, r: Request)
    requires Consistent(n) && r.account in n.index && TrafficRate.RateInv(n, r.now) && r.countRPM
    ensures n.index[r.account] in n.states
    ensures var x := Seen(n.states[n.index[r.account]], r);
            x.minuteRequests + Get(x.pending, Truncate(r.now)) == |ChargedIn(n.tickets, r.account, Truncate(r.now))|
  {
    hide TicketsOk, StatesOk, TrafficRate.RateInv, ChargedIn, Seen;
    var ref := n.index[r.account];
    TrafficRate.SeenKeepsRate(n, ref, r);
    SeenConsistent(n, ref, r);
    TrafficRate.ChargedIsCounted(MarkSeen(n, ref, r), r.account, r.now);
    SameCharged(n.tickets, r.account, Truncate(r.now));
  }

  lemma SeenConsistent(n: Traffic, s: StateRef, r: Request)
    requires Consistent(n) && s in n.states
    ensures Consistent(MarkSeen(n, s, r)) && MarkSeen(n, s, r).tickets == n.tickets && MarkSeen(n, s, r).index == n.index
  {
    hide CountersOk, TicketsOk;
    SeenKeepsTickets(n, s, r);
    assert CountersOk(n.tickets, s, n.states[s]);
    SeenCounters(n.tickets, s, n.states[s], r);
    NewStateKeepsStates(n, MarkSeen(n, s, r), s);
  }

  lemma SameCharged(tickets: Tickets, a: AccountID, minute: int)
    ensures |ChargedIn(tickets, a, minute)| == Count(tickets, Charged(a, minute))
  {
    assert ChargedIn(tickets, a, minute) == Matching(tickets, Charged(a, minute));
  }

  lemma CheckIsAnswer(n: Traffic, r: Request)
    requires Consistent(n) && r.account in n.index
    requires Limited(r) ==> TrafficRate.RateInv(n, r.now)
    ensures n.index[r.account] in n.states
    ensures Answer(n, r) == if n.states[n.index[r.account]].quiescing then Refused(AccountUnavailable)
                            else Told(Check(Seen(n.states[n.index[r.account]], r), r))
  {
    hide MemberAnswer, MemberRefusal, Running, RunningFor, UsersOf, ChargedIn, Consistent, TrafficRate.RateInv, Truncate;
    if Limited(r) {
      ChargedIsKnown(n, r);
    }
    RunningIsCounted(n, r.account);
    if r.credential.Some? {
      MemberAnswered(n.states[n.index[r.account]], n.tickets, r.account, r.credential.value);
    }
  }

  /** One call answers from the tickets and the policy alone. Where a rate limit applies, the
      clock must not have gone back. */
  lemma CallAnswers(m: Traffic, r: Request, s: StateRef, t: TicketRef, clock: int)
    requires Inv(m) && Enabled(m, DoPrepare(r, s, t))
    requires Limited(r) ==> TrafficRate.RateInv(m, clock) && clock <= r.now
    ensures Prepare(m, r, s, t).1 == Answer(m, r)
  {
    hide Inv, Consistent, Check, Seen, MemberAnswer, TrafficRate.RateInv, Evict, WithState;
    var n := FoundConsistent(m, r, s);
    MarkIsFound(m, r, s, n);
    if Limited(r) {
      TrafficRate.FoundRate(m, r, s, clock, n);
    }
    CheckIsAnswer(n, r);
    TrafficSlots.Verdict(n, r, t);
    hide Decision;
  }

  // ---- every run -----------------------------------------------------------------------------------

  /** Admission times never decrease. */
  predicate Ordered(es: seq<Event>, clock: int)
    decreases |es|
  {
    es == [] || (clock <= TrafficRate.ClockAfter(clock, es[0]) && Ordered(es[1..], TrafficRate.ClockAfter(clock, es[0])))
  }

  /** The last admission time. */
  function LastCall(es: seq<Event>, clock: int): int
    decreases |es|
  {
    if es == [] then clock else LastCall(es[1..], TrafficRate.ClockAfter(clock, es[0]))
  }

  lemma StepKeepsRate(m: Traffic, e: Event, clock: int)
    requires Inv(m) && TrafficRate.RateInv(m, clock) && Enabled(m, e) && clock <= TrafficRate.ClockAfter(clock, e)
    ensures TrafficRate.RateInv(Step(m, e), TrafficRate.ClockAfter(clock, e))
  {
    match e
    case DoPrepare(r, s, t) => TrafficRate.PrepareKeepsRate(m, r, s, t, clock);
    case DoCommit(t) => TrafficRate.CommitKeepsRate(m, t, clock);
    case DoRelease(t, now) => TrafficRate.ReleaseKeepsRate(m, t, now, clock);
    case _ => TrafficRate.QuiesceStepsKeepRate(m, e, clock);
  }

  lemma {:induction false} RunKeepsRate(m: Traffic, es: seq<Event>, clock: int)
    requires Inv(m) && Run(m, es).Some?
    ensures Inv(Run(m, es).value)
    ensures TrafficRate.RateInv(m, clock) && Ordered(es, clock) ==> TrafficRate.RateInv(Run(m, es).value, LastCall(es, clock))
    decreases |es|
  {
    if es != [] {
      TrafficQuiesce.StepKeepsInv(m, es[0]);
      RunKeepsRate(Step(m, es[0]), es[1..], TrafficRate.ClockAfter(clock, es[0]));
      if TrafficRate.RateInv(m, clock) && Ordered(es, clock) {
        StepKeepsRate(m, es[0], clock);
      }
    }
  }

  /** After every run, an admission call is answered exactly so: who is admitted, and why the
      others are refused. */
  lemma AnswerIsExact(es: seq<Event>, r: Request, s: StateRef, t: TicketRef)
    requires Run(EMPTY, es).Some? && Enabled(Run(EMPTY, es).value, DoPrepare(r, s, t))
    requires Limited(r) ==> Ordered(es, 0) && LastCall(es, 0) <= r.now
    ensures Prepare(Run(EMPTY, es).value, r, s, t).1 == Answer(Run(EMPTY, es).value, r)
  {
    EmptyInv();
    RunKeepsRate(EMPTY, es, 0);
    CallAnswers(Run(EMPTY, es).value, r, s, t, LastCall(es, 0));
    hide *;
  }

  // ---- what becomes of the tickets -----------------------------------------------------------------

  lemma TicketsOfCall(m: Traffic, r: Request, s: StateRef, t: TicketRef)
    requires Inv(m) && Enabled(m, DoPrepare(r, s, t))
    ensures var now := Prepare(m, r, s, t).0.tickets;
            if Prepare(m, r, s, t).1 != Admitted then now == m.tickets
            else t in now && now == m.tickets[t := now[t]] && IsFor(now[t], r)
  {
    hide Inv, Evict, WithState, Check, Occupy, Seen;
    var n := FoundConsistent(m, r, s);
    hide Consistent, TicketsOk;
  }

  /** A call puts out a ticket exactly when it admits; a commit and a release mark their own
      ticket, a release once and for all; no other step touches a ticket. */
  lemma TicketsOfStep(m: Traffic, e: Event)
    requires Inv(m) && Enabled(m, e)
    ensures var now := Step(m, e).tickets;
            match e
            case DoPrepare(r, s, t) =>
              if Prepare(m, r, s, t).1 != Admitted then now == m.tickets
              else t in now && now == m.tickets[t := now[t]] && IsFor(now[t], r)
            case DoCommit(t) =>
              if m.tickets[t].committed || m.tickets[t].released then now == m.tickets
              else now == m.tickets[t := m.tickets[t].(committed := true)]
            case DoRelease(t, _) => now == m.tickets[t := m.tickets[t].(released := true)]
            case _ => now == m.tickets
  {
    hide Inv, Prepare, Committed, Leave;
    match e
    case DoPrepare(r, s, t) =>
      TicketsOfCall(m, r, s, t);
      hide IsFor;
    case DoCommit(t) =>
    case DoRelease(t, _) =>
      assert m.tickets[t].released ==> m.tickets == m.tickets[t := m.tickets[t].(released := true)];
    case DoTryMark(q, s) =>
      TrafficQuiesce.QuiesceStepsMark(m, e, WithState(m, TrafficQuiesce.Next(m.quiescers[q]), s));
    case _ =>
      TrafficQuiesce.QuiesceStepsMark(m, e, m);
  }

  /** A running request: its account, its minute and time, and whom it runs for. */
  predicate IsFor(k: Ticket, r: Request) {
    && k.account == r.account && k.at == r.now && k.minute == Truncate(r.now) && k.countRPM == r.countRPM
    && k.credential == r.credential && !k.committed && !k.released
  }

  // ---- the personal maximum ---------------------------------------------------------------------------

  /** The requests of user u follow a policy that lists it with the personal maximum `top`. */
  ghost predicate Capped(e: Event, a: AccountID, u: UserID, top: int) {
    e.DoPrepare? && e.r.account == a && e.r.credential.Some? && e.r.credential.value.user == u ==>
      var policy := e.r.credential.value.policy;
      policy.enabled && Listed(policy.members, u) && EntryOf(policy.members, u).maxConcurrency == top
  }

  lemma StepKeepsMaximum(m: Traffic, e: Event, a: AccountID, u: UserID, top: int)
    requires Inv(m) && Enabled(m, e) && 0 < top && Capped(e, a, u, top) && |RunningFor(m.tickets, a, u)| <= top
    ensures |RunningFor(Step(m, e).tickets, a, u)| <= top
  {
    hide Step, Inv, Prepare, Capped;
    TicketsOfStep(m, e);
    hide RunningFor, IsFor;
    var after := Step(m, e).tickets;
    match e
    case DoPrepare(r, s, t) =>
      if Prepare(m, r, s, t).1 == Admitted {
        MemberAdmitted(m, r, s, t);
        OneMore(m.tickets, after, t, r, a, u);
        BelowMaximum(m.tickets, r, s, t, a, u, top);
      }
    case DoCommit(t) =>
      SameTicket(m.tickets, t);
      RunningLess(m.tickets, after, t, a, u);
    case DoRelease(t, _) => RunningLess(m.tickets, after, t, a, u);
    case _ =>
  }

  lemma BelowMaximum(tickets: Tickets, r: Request, s: StateRef, t: TicketRef, a: AccountID, u: UserID, top: int)
    requires Capped(DoPrepare(r, s, t), a, u, top) && 0 < top
    requires r.credential.Some? ==> MemberAnswer(tickets, r.account, r.credential.value) == Admitted
    ensures r.account == a && r.credential.Some? && r.credential.value.user == u ==> |RunningFor(tickets, a, u)| < top
  {
    hide RunningFor, Borrowed, TotalBase, BaseOf;
  }

  lemma SameTicket(tickets: Tickets, t: TicketRef)
    requires t in tickets
    ensures tickets == tickets[t := tickets[t]]
  {
  }

  lemma OneMore(tickets: Tickets, after: Tickets, t: TicketRef, r: Request, a: AccountID, u: UserID)
    requires t in after && after == tickets[t := after[t]] && IsFor(after[t], r) && t !in tickets
    ensures |RunningFor(after, a, u)| == |RunningFor(tickets, a, u)|
            + (if r.account == a && r.credential.Some? && r.credential.value.user == u then 1 else 0)
  {
    OneChanged(RunningFor(tickets, a, u), RunningFor(after, a, u), t);
  }

  lemma RunningLess(tickets: Tickets, after: Tickets, t: TicketRef, a: AccountID, u: UserID)
    requires t in tickets && t in after && after == tickets[t := after[t]]
    requires after[t] == tickets[t].(committed := after[t].committed, released := after[t].released)
    requires tickets[t].released ==> after[t].released
    ensures |RunningFor(after, a, u)| <= |RunningFor(tickets, a, u)|
  {
    OneChanged(RunningFor(tickets, a, u), RunningFor(after, a, u), t);
  }

  /** Whatever the clock does, a member is admitted only where its policy lets it in. */
  lemma MemberAdmitted(m: Traffic, r: Request, s: StateRef, t: TicketRef)
    requires Inv(m) && Enabled(m, DoPrepare(r, s, t)) && Prepare(m, r, s, t).1 == Admitted
    ensures r.credential.Some? ==> MemberAnswer(m.tickets, r.account, r.credential.value) == Admitted
  {
    var n := FoundConsistent(m, r, s);
    Passed(n, r, t);
    hide Inv, Consistent, IndexOk, Evict, WithState, MemberAnswer, CountersAre, Decision;
    if r.credential.Some? {
      RunningIsCounted(n, r.account);
      MemberAnswered(n.states[n.index[r.account]], n.tickets, r.account, r.credential.value);
    }
  }

  lemma Passed(n: Traffic, r: Request, t: TicketRef)
    requires IndexOk(n) && r.account in n.index && Decision(n, r, t).1 == Admitted
    ensures r.credential.Some? ==> MemberRefusal(n.states[n.index[r.account]].activeMembers, r.credential.value).None?
  {
    hide MemberRefusal, Occupy, Admit;
  }

  lemma {:induction false} RunKeepsMaximum(m: Traffic, es: seq<Event>, a: AccountID, u: UserID, top: int)
    requires Inv(m) && Run(m, es).Some? && 0 < top && |RunningFor(m.tickets, a, u)| <= top
    requires forall e <- es :: Capped(e, a, u, top)
    ensures |RunningFor(Run(m, es).value.tickets, a, u)| <= top
    decreases |es|
  {
    if es != [] {
      StepKeepsMaximum(m, es[0], a, u, top);
      TrafficQuiesce.StepKeepsInv(m, es[0]);
      RunKeepsMaximum(Step(m, es[0]), es[1..], a, u, top);
    }
  }

  /** Over every run, no member runs more requests than its personal maximum. */
  lemma MaximumNeverExceeded(es: seq<Event>, a: AccountID, u: UserID, top: int)
    requires Run(EMPTY, es).Some? && 0 < top && forall e <- es :: Capped(e, a, u, top)
    ensures |RunningFor(Run(EMPTY, es).value.tickets, a, u)| <= top
  {
    EmptyInv();
    assert RunningFor(EMPTY.tickets, a, u) == {};
    RunKeepsMaximum(EMPTY, es, a, u, top);
  }

  // ---- forgetting an account ----------------------------------------------------------------------------

  /** A call forgets an account, at most every ten minutes, exactly when nobody runs on it or
      holds it and no call has found it for half an hour. The caller's own is there afterwards. */
  lemma ForgottenExactly(m: Traffic, r: Request, s: StateRef, t: TicketRef, a: AccountID)
    requires Inv(m) && Enabled(m, DoPrepare(r, s, t)) && a in m.index && a != r.account
    ensures var n := Prepare(m, r, s, t).0;
            && r.account in n.index && n.index[r.account] in n.states
            && (!Marked(m, r.account) ==> n.states[n.index[r.account]].lastSeen == r.now)
            && (a !in n.index <==>
                 && (m.nextCleanup == 0 || m.nextCleanup <= r.now) && n.nextCleanup == r.now + 600 * SECOND
                 && Running(m.tickets, a) == {} && !Marked(m, a) && r.now - m.states[m.index[a]].lastSeen >= 1800 * SECOND)
  {
    RunningIsCounted(m, a);
    assert Running(m.tickets, a) == {} <==> |Running(m.tickets, a)| == 0;
    var n := FoundInv(m, r, s);
    MarkIsFound(m, r, s, n);
    assert Prepare(m, r, s, t) == Decision(n, r, t);
    ForgottenFound(m, r, s, a);
    DecisionSees(n, r, t);
    hide Inv, Found, Decision, Prepare, Running;
  }

  lemma ForgottenFound(m: Traffic, r: Request, s: StateRef, a: AccountID)
    requires IndexOk(m) && a in m.index && a != r.account
    ensures var n := Found(m, r, s);
            a !in n.index <==>
              && (m.nextCleanup == 0 || m.nextCleanup <= r.now) && n.nextCleanup == r.now + 600 * SECOND
              && m.states[m.index[a]].activeRequests == 0 && !Marked(m, a) && r.now - m.states[m.index[a]].lastSeen >= 1800 * SECOND
  {
  }

  lemma DecisionSees(n: Traffic, r: Request, t: TicketRef)
    requires r.account in n.index && n.index[r.account] in n.states
    ensures var o := Decision(n, r, t).0;
            && o.index == n.index && o.nextCleanup == n.nextCleanup && n.index[r.account] in o.states
            && (!n.states[n.index[r.account]].quiescing ==> o.states[n.index[r.account]].lastSeen == r.now)
  {
    hide Check;
  }
}
