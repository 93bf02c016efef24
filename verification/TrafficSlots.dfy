/** Reserved slots are never lent: under a fixed policy a member can always reach its
    base limit, whatever the other members hold. */
module TrafficSlots {
  import opened MapSums
  import opened ConcurrencySeries
  import opened AccountTraffic
  import opened TrafficInvariant
  import TrafficQuiesce
  import opened Units

  /** The policy and ceiling in force on one account. */
  datatype Rule = Rule(policy: Policy, ceiling: int)

  /** What `validateConcurrencyPolicy` and the update transaction check. */
  predicate RuleOk(rule: Rule) {
    && rule.policy.enabled && 0 < rule.ceiling && Reserved(rule.policy.members) <= rule.ceiling
    && Distinct(rule.policy.members)
    && forall l <- rule.policy.members :: 0 <= l.base && (l.maxConcurrency == 0 || l.base <= l.maxConcurrency)
  }

  predicate Distinct(members: seq<MemberLimit>) {
    forall i, j :: 0 <= i < j < |members| ==> members[i].user != members[j].user
  }

  function Free(rule: Rule): int {
    rule.ceiling - Reserved(rule.policy.members)
  }

  /** Overflow beyond the bases fits in what is not reserved. */
  ghost predicate SlotsOk(active: map<UserID, int>, rule: Rule) {
    SharedUsed(active, Bases(rule.policy.members)) <= Free(rule)
  }

  ghost predicate StateSlots(tickets: Tickets, s: StateRef, x: AccountState, a: AccountID, rule: Rule) {
    && (x.account == a ==> SlotsOk(x.activeMembers, rule))
    && x.activeRequests == Sum(x.activeMembers) + Count(tickets, Internal(s))
  }

  ghost predicate SlotsInv(m: Traffic, a: AccountID, rule: Rule) {
    forall s <- m.states :: StateSlots(m.tickets, s, m.states[s], a, rule)
  }

  // ---- the policy functions ---------------------------------------------------------------

  lemma {:induction false} OwnIsBase(members: seq<MemberLimit>, u: UserID)
    ensures match OwnLimit(members, u)
            case Some(own) => own in members && u in Bases(members) && Bases(members)[u] == own.base && own.user == u
            case None => u !in Bases(members)
  {
    if members != [] {
      OwnIsBase(members[..|members| - 1], u);
    }
  }

  /** With distinct members the reservation is the sum of the bases. */
  lemma {:induction false} ReservedIsSum(members: seq<MemberLimit>)
    requires Distinct(members)
    ensures Reserved(members) == Sum(Bases(members))
  {
    if members != [] {
      var rest, last := members[..|members| - 1], members[|members| - 1];
      ReservedIsSum(rest);
      OwnIsBase(rest, last.user);
      OwnAmong(rest, last.user);
      SumPut(Bases(rest), last.user, last.base);
    }
  }

  lemma {:induction false} OwnAmong(members: seq<MemberLimit>, u: UserID)
    requires forall l <- members :: l.user != u
    ensures OwnLimit(members, u) == None
  {
    if members != [] {
      OwnAmong(members[..|members| - 1], u);
    }
  }

  lemma BasesNonNegative(rule: Rule)
    requires RuleOk(rule)
    ensures forall u <- Bases(rule.policy.members) :: 0 <= Bases(rule.policy.members)[u]
  {
    forall u | u in Bases(rule.policy.members) ensures 0 <= Bases(rule.policy.members)[u] {
      OwnIsBase(rule.policy.members, u);
    }
  }

  // ---- one member's count changes ------------------------------------------------------------

  lemma OverflowPut(active: map<UserID, int>, bases: map<UserID, int>, u: UserID, n: int)
    ensures SharedUsed(active[u := n], bases)
         == SharedUsed(active, bases) - (if u in active then Overflow(active[u], Get(bases, u)) else 0) + Overflow(n, Get(bases, u))
  {
    SumPut(OverflowMap(active, bases), u, Overflow(n, Get(bases, u)));
    assert OverflowMap(active[u := n], bases) == OverflowMap(active, bases)[u := Overflow(n, Get(bases, u))];
  }

  lemma OverflowDrop(active: map<UserID, int>, bases: map<UserID, int>, u: UserID)
    ensures SharedUsed(active - {u}, bases) <= SharedUsed(active, bases)
  {
    SumDrop(OverflowMap(active, bases), u);
    assert OverflowMap(active - {u}, bases) == OverflowMap(active, bases) - {u};
  }

  /** What the member check admits keeps the reserved slots free. */
  lemma AdmissionKeepsSlots(active: map<UserID, int>, c: Credential, rule: Rule)
    requires RuleOk(rule) && c.policy == rule.policy && c.maxConcurrency == rule.ceiling
    requires SlotsOk(active, rule) && MemberRefusal(active, c).None?
    ensures SlotsOk(active[c.user := Get(active, c.user) + 1], rule)
  {
    OwnIsBase(c.policy.members, c.user);
    BasesNonNegative(rule);
    OverflowPut(active, Bases(c.policy.members), c.user, Get(active, c.user) + 1);
  }

  lemma LeavingKeepsSlots(active: map<UserID, int>, u: UserID, rule: Rule)
    requires SlotsOk(active, rule) && Get(active, u) >= 1
    ensures SlotsOk(SetCount(active, u, Get(active, u) - 1), rule)
  {
    var bases := Bases(rule.policy.members);
    if Get(active, u) == 1 {
      OverflowDrop(active, bases, u);
    } else {
      OverflowPut(active, bases, u, Get(active, u) - 1);
    }
  }

  // ---- every step -----------------------------------------------------------------------------

  /** Requests of the account's members carry the rule. */
  predicate Follows(e: Event, a: AccountID, rule: Rule) {
    e.DoPrepare? && e.r.credential.Some? && e.r.account == a ==>
      e.r.credential.value.policy == rule.policy && e.r.credential.value.maxConcurrency == rule.ceiling
  }

  /** One state and one of its tickets change together. */
  lemma PutKeepsSlots(m: Traffic, n: Traffic, t: TicketRef, s: StateRef, a: AccountID, rule: Rule)
    requires SlotsInv(m, a, rule) && s in m.states && s in n.states && n.states == m.states[s := n.states[s]]
    requires t in n.tickets && n.tickets == m.tickets[t := n.tickets[t]] && n.tickets[t].state == s
    requires t in m.tickets ==> m.tickets[t].state == s
    requires StateSlots(n.tickets, s, n.states[s], a, rule)
    ensures SlotsInv(n, a, rule)
  {
    forall x | x in n.states ensures StateSlots(n.tickets, x, n.states[x], a, rule) {
      if x != s {
        assert StateSlots(m.tickets, x, m.states[x], a, rule);
        CountPut(m.tickets, t, n.tickets[t], Internal(x));
      }
    }
  }

  lemma NewStateSlots(m: Traffic, account: AccountID, s: StateRef, a: AccountID, rule: Rule)
    requires TicketsOk(m) && SlotsInv(m, a, rule) && s !in m.states && RuleOk(rule)
    ensures SlotsInv(WithState(m, account, s), a, rule)
  {
    forall t | t in m.tickets ensures m.tickets[t].state != s {
      assert TicketOk(m, m.tickets[t]);
    }
    CountZero(m.tickets, Internal(s));
    assert OverflowMap(map[], Bases(rule.policy.members)) == map[];
    var n := WithState(m, account, s);
    forall x | x in n.states ensures StateSlots(n.tickets, x, n.states[x], a, rule) {
      if x in m.states {
        assert StateSlots(m.tickets, x, m.states[x], a, rule);
      }
    }
  }

  lemma OccupySlots(tickets: Tickets, t: TicketRef, s: StateRef, x: AccountState, r: Request, a: AccountID, rule: Rule)
    requires StateSlots(tickets, s, x, a, rule) && t !in tickets && RuleOk(rule)
    requires x.account == r.account && Follows(DoPrepare(r, s, t), a, rule) && Check(x, r).None?
    ensures StateSlots(tickets[t := TicketFor(s, r)], s, Occupy(x, r), a, rule)
  {
    hide SlotsOk, RuleOk, MemberRefusal, Count;
    CountPut(tickets, t, TicketFor(s, r), Internal(s));
    if r.credential.Some? {
      var u := r.credential.value.user;
      SumPut(x.activeMembers, u, Get(x.activeMembers, u) + 1);
      if r.account == a {
        AdmissionKeepsSlots(x.activeMembers, r.credential.value, rule);
      }
    }
  }

  lemma SeenSlots(m: Traffic, s: StateRef, r: Request, a: AccountID, rule: Rule)
    requires SlotsInv(m, a, rule) && s in m.states
    ensures SlotsInv(MarkSeen(m, s, r), a, rule)
  {
    forall x | x in m.states ensures StateSlots(m.tickets, x, MarkSeen(m, s, r).states[x], a, rule) {
      assert StateSlots(m.tickets, x, m.states[x], a, rule);
    }
  }

  lemma AdmitSlots(m: Traffic, r: Request, t: TicketRef, a: AccountID, rule: Rule)
    requires IndexOk(m) && SlotsInv(m, a, rule) && t !in m.tickets && r.account in m.index && RuleOk(rule)
    requires Follows(DoPrepare(r, 0, t), a, rule) && Check(m.states[m.index[r.account]], r).None?
    ensures SlotsInv(Admit(m, r, t), a, rule)
  {
    var s := m.index[r.account];
    OccupySlots(m.tickets, t, s, m.states[s], r, a, rule);
    PutKeepsSlots(m, Admit(m, r, t), t, s, a, rule);
  }

  lemma PrepareKeepsSlots(m: Traffic, r: Request, s: StateRef, t: TicketRef, a: AccountID, rule: Rule)
    requires Inv(m) && Enabled(m, DoPrepare(r, s, t)) && SlotsInv(m, a, rule)
    requires RuleOk(rule) && Follows(DoPrepare(r, s, t), a, rule)
    ensures SlotsInv(Prepare(m, r, s, t).0, a, rule)
  {
    hide StateSlots, Decision;
    FoundSlots(m, r, s, a, rule);
    var n := FoundInv(m, r, s);
    DecisionKeepsSlots(n, r, t, a, rule);
    hide Inv, SlotsInv, Evict, WithState;
  }

  lemma FoundSlots(m: Traffic, r: Request, s: StateRef, a: AccountID, rule: Rule)
    requires Inv(m) && SlotsInv(m, a, rule) && RuleOk(rule) && s !in m.states
    ensures SlotsInv(Found(m, r, s), a, rule)
  {
    hide StateSlots, CountersOk, TicketOk, HistoryMatches, Evictable, Kept;
    var e := Evict(m, r.now);
    assert e.states == m.states && e.tickets == m.tickets;
    EvictKeepsInv(m, r.now);
    NewStateSlots(e, r.account, s, a, rule);
    hide Evict, WithState, RuleOk;
  }

  lemma DecisionKeepsSlots(n: Traffic, r: Request, t: TicketRef, a: AccountID, rule: Rule)
    requires IndexOk(n) && SlotsInv(n, a, rule) && RuleOk(rule) && t !in n.tickets && r.account in n.index
    requires Follows(DoPrepare(r, 0, t), a, rule)
    ensures SlotsInv(Decision(n, r, t).0, a, rule)
  {
    hide StateSlots, Check, Seen, Admit, SlotsInv, RuleOk;
    var ref := n.index[r.account];
    if !n.states[ref].quiescing {
      SeenSlots(n, ref, r, a, rule);
      var o := MarkSeen(n, ref, r);
      SeenKeepsIndex(n, ref, r);
      if Check(o.states[ref], r).None? {
        AdmitSlots(o, r, t, a, rule);
      }
    }
  }

  lemma SeenKeepsIndex(n: Traffic, s: StateRef, r: Request)
    requires IndexOk(n) && s in n.states
    ensures IndexOk(MarkSeen(n, s, r)) && MarkSeen(n, s, r).tickets == n.tickets && MarkSeen(n, s, r).index == n.index
  {
  }

  lemma CommitSlots(tickets: Tickets, t: TicketRef, x: AccountState, a: AccountID, rule: Rule)
    requires t in tickets && StateSlots(tickets, tickets[t].state, x, a, rule)
    ensures StateSlots(tickets[t := tickets[t].(committed := true)], tickets[t].state, Committed(x, tickets[t]), a, rule)
  {
    CountPut(tickets, t, tickets[t].(committed := true), Internal(tickets[t].state));
  }

  lemma CommitKeepsSlots(m: Traffic, t: TicketRef, a: AccountID, rule: Rule)
    requires TicketsOk(m) && t in m.tickets && SlotsInv(m, a, rule)
    ensures SlotsInv(Commit(m, t), a, rule)
  {
    var k := m.tickets[t];
    assert TicketOk(m, k);
    if !k.committed && !k.released {
      CommitSlots(m.tickets, t, m.states[k.state], a, rule);
      PutKeepsSlots(m, Commit(m, t), t, k.state, a, rule);
    }
  }

  lemma OneLess(active: map<UserID, int>, u: UserID)
    ensures Sum(SetCount(active, u, Get(active, u) - 1)) == Sum(active) - 1
  {
    SumPut(active, u, Get(active, u) - 1);
    SumDrop(active, u);
  }

  lemma LeaveSlots(tickets: Tickets, t: TicketRef, x: AccountState, a: AccountID, rule: Rule)
    requires t in tickets && !tickets[t].released && StateSlots(tickets, tickets[t].state, x, a, rule)
    requires tickets[t].credential.Some? ==> Get(x.activeMembers, tickets[t].credential.value.user) >= 1
    ensures StateSlots(tickets[t := tickets[t].(released := true)], tickets[t].state, Leave(x, tickets[t]), a, rule)
  {
    hide SlotsOk, Count, SetCount;
    var k := tickets[t];
    CountPut(tickets, t, k.(released := true), Internal(k.state));
    if k.credential.Some? {
      var u := k.credential.value.user;
      OneLess(x.activeMembers, u);
      if x.account == a {
        LeavingKeepsSlots(x.activeMembers, u, rule);
      }
    }
  }

  lemma MemberCounted(m: Traffic, t: TicketRef)
    requires TicketsOk(m) && StatesOk(m) && t in m.tickets && !m.tickets[t].released && m.tickets[t].credential.Some?
    ensures Get(m.states[m.tickets[t].state].activeMembers, m.tickets[t].credential.value.user) >= 1
  {
    var k := m.tickets[t];
    assert TicketOk(m, k);
    Counted(m.tickets, t, OnMember(k.state, k.credential.value.user));
    assert CountersOk(m.tickets, k.state, m.states[k.state]);
  }

  lemma ReleaseKeepsSlots(m: Traffic, t: TicketRef, now: int, a: AccountID, rule: Rule)
    requires TicketsOk(m) && StatesOk(m) && t in m.tickets && SlotsInv(m, a, rule)
    ensures SlotsInv(Release(m, t, now), a, rule)
  {
    var k := m.tickets[t];
    assert TicketOk(m, k);
    if !k.released {
      if k.credential.Some? {
        MemberCounted(m, t);
      }
      LeaveSlots(m.tickets, t, m.states[k.state], a, rule);
      PutKeepsSlots(m, Release(m, t, now), t, k.state, a, rule);
    }
  }

  lemma MarksKeepSlots(m: Traffic, n: Traffic, a: AccountID, rule: Rule)
    requires SlotsInv(m, a, rule) && TrafficQuiesce.OnlyMarks(m, n)
    ensures SlotsInv(n, a, rule)
  {
    forall x | x in n.states ensures StateSlots(n.tickets, x, n.states[x], a, rule) {
      assert StateSlots(m.tickets, x, m.states[x], a, rule);
    }
  }

  lemma QuiesceStepsKeepSlots(m: Traffic, e: Event, a: AccountID, rule: Rule)
    requires Enabled(m, e) && TicketsOk(m) && SlotsInv(m, a, rule) && RuleOk(rule)
    requires !e.DoPrepare? && !e.DoCommit? && !e.DoRelease?
    ensures SlotsInv(Step(m, e), a, rule)
  {
    var n := m;
    if e.DoTryMark? {
      var id := TrafficQuiesce.Next(m.quiescers[e.q]);
      n := WithState(m, id, e.s);
      NewStateSlots(m, id, e.s, a, rule);
    }
    TrafficQuiesce.QuiesceStepsMark(m, e, n);
    MarksKeepSlots(n, Step(m, e), a, rule);
  }

  lemma StepKeepsSlots(m: Traffic, e: Event, a: AccountID, rule: Rule)
    requires Inv(m) && Enabled(m, e) && SlotsInv(m, a, rule) && RuleOk(rule) && Follows(e, a, rule)
    ensures SlotsInv(Step(m, e), a, rule)
  {
    match e
    case DoPrepare(r, s, t) => PrepareKeepsSlots(m, r, s, t, a, rule);
    case DoCommit(t) => CommitKeepsSlots(m, t, a, rule);
    case DoRelease(t, now) => ReleaseKeepsSlots(m, t, now, a, rule);
    case _ => QuiesceStepsKeepSlots(m, e, a, rule);
  }

  lemma {:induction false} RunKeepsSlots(m: Traffic, es: seq<Event>, a: AccountID, rule: Rule)
    requires Inv(m) && SlotsInv(m, a, rule) && RuleOk(rule)
    requires Run(m, es).Some? && forall e <- es :: Follows(e, a, rule)
    ensures Inv(Run(m, es).value) && SlotsInv(Run(m, es).value, a, rule)
    decreases |es|
  {
    if es != [] {
      StepKeepsSlots(m, es[0], a, rule);
      TrafficQuiesce.StepKeepsInv(m, es[0]);
      RunKeepsSlots(Step(m, es[0]), es[1..], a, rule);
    }
  }

  // ---- what it means ---------------------------------------------------------------------------

  /** Slots inside the bases and slots beyond them together stay under the ceiling. */
  lemma MembersWithinCeiling(active: map<UserID, int>, rule: Rule)
    requires RuleOk(rule) && SlotsOk(active, rule) && forall u <- active :: 0 <= active[u]
    ensures Sum(active) <= rule.ceiling
  {
    var bases := Bases(rule.policy.members);
    ReservedIsSum(rule.policy.members);
    BasesNonNegative(rule);
    SplitAtBase(active, bases);
    SumMonotone(WithinMap(active, bases), bases);
  }

  function WithinMap(active: map<UserID, int>, bases: map<UserID, int>): map<UserID, int> {
    map u | u in active :: Min(active[u], Get(bases, u))
  }

  lemma {:induction false} SplitAtBase(active: map<UserID, int>, bases: map<UserID, int>)
    ensures Sum(active) == Sum(WithinMap(active, bases)) + SharedUsed(active, bases)
    decreases active.Keys
  {
    if active == map[] {
      assert WithinMap(active, bases) == map[] && OverflowMap(active, bases) == map[];
    } else {
      var u :| u in active;
      SplitAtBase(active - {u}, bases);
      SumRemove(active, u);
      WithoutUser(active, bases, u);
    }
  }

  lemma WithoutUser(active: map<UserID, int>, bases: map<UserID, int>, u: UserID)
    requires u in active
    ensures Sum(WithinMap(active, bases)) == Sum(WithinMap(active - {u}, bases)) + Min(active[u], Get(bases, u))
    ensures SharedUsed(active, bases) == SharedUsed(active - {u}, bases) + Overflow(active[u], Get(bases, u))
  {
    SumRemove(WithinMap(active, bases), u);
    SumRemove(OverflowMap(active, bases), u);
    assert WithinMap(active - {u}, bases) == WithinMap(active, bases) - {u};
    assert OverflowMap(active - {u}, bases) == OverflowMap(active, bases) - {u};
  }

  /** The slots a member below its base still has are free. */
  lemma BelowBaseLeavesRoom(active: map<UserID, int>, u: UserID, rule: Rule)
    requires RuleOk(rule) && SlotsOk(active, rule) && forall x <- active :: 0 <= active[x]
    requires Get(active, u) < Get(Bases(rule.policy.members), u)
    ensures Sum(active) + (Get(Bases(rule.policy.members), u) - Get(active, u)) <= rule.ceiling
  {
    var base := Get(Bases(rule.policy.members), u);
    var filled := active[u := base];
    OverflowPut(active, Bases(rule.policy.members), u, base);
    MembersWithinCeiling(filled, rule);
    SumPut(active, u, base);
  }

  /** A member holding fewer than its base slots is refused by neither concurrency check,
      whatever the others hold, exactly when members and internal reservations together leave
      a slot under the ceiling. */
  lemma BaseAdmittedExactly(m: Traffic, s: StateRef, r: Request, rule: Rule)
    requires BelowBase(m, s, r, rule)
    ensures Check(Seen(m.states[s], r), r) in {None, Some(AccountRateLimited)}
            <==> Sum(m.states[s].activeMembers) + Count(m.tickets, Internal(s)) < rule.ceiling
  {
    var u := r.credential.value.user;
    OwnIsBase(rule.policy.members, u);
    assert OwnLimit(rule.policy.members, u).value in rule.policy.members;
  }

  /** A request of a member with fewer than its base slots, under the account's rule. */
  ghost predicate BelowBase(m: Traffic, s: StateRef, r: Request, rule: Rule) {
    && s in m.states && RuleOk(rule) && StateSlots(m.tickets, s, m.states[s], m.states[s].account, rule)
    && r.credential.Some? && r.credential.value.policy == rule.policy
    && r.credential.value.maxConcurrency == rule.ceiling && r.maxConcurrency == rule.ceiling
    && r.credential.value.user in Bases(rule.policy.members)
    && Get(m.states[s].activeMembers, r.credential.value.user) < Bases(rule.policy.members)[r.credential.value.user]
  }

  /** So it is never refused while the internal reservations outstanding on the account are
      fewer than the base slots it has left; with none outstanding, never at all. */
  lemma BaseIsNeverRefused(m: Traffic, s: StateRef, r: Request, rule: Rule)
    requires BelowBase(m, s, r, rule)
    requires forall u <- m.states[s].activeMembers :: 0 < m.states[s].activeMembers[u]
    requires var u := r.credential.value.user;
             Count(m.tickets, Internal(s)) < Bases(rule.policy.members)[u] - Get(m.states[s].activeMembers, u)
    ensures Check(Seen(m.states[s], r), r) in {None, Some(AccountRateLimited)}
  {
    BaseAdmittedExactly(m, s, r, rule);
    BelowBaseLeavesRoom(m.states[s].activeMembers, r.credential.value.user, rule);
    hide Check;
  }

  /** Over every run: overflow never eats into a base, and the members of an account never
      hold more slots than its ceiling. */
  lemma SlotsNeverLent(es: seq<Event>, a: AccountID, rule: Rule, s: StateRef)
    requires RuleOk(rule) && Run(EMPTY, es).Some? && forall e <- es :: Follows(e, a, rule)
    requires s in Run(EMPTY, es).value.states && Run(EMPTY, es).value.states[s].account == a
    ensures var active := Run(EMPTY, es).value.states[s].activeMembers;
            && SharedUsed(active, Bases(rule.policy.members)) <= rule.ceiling - Reserved(rule.policy.members)
            && Sum(active) <= rule.ceiling
  {
    EmptyInv();
    RunKeepsSlots(EMPTY, es, a, rule);
    var m := Run(EMPTY, es).value;
    assert CountersOk(m.tickets, s, m.states[s]) && StateSlots(m.tickets, s, m.states[s], a, rule);
    MembersWithinCeiling(m.states[s].activeMembers, rule);
  }

  /** A request of a member of the account, under its rule. */
  predicate OfMember(r: Request, a: AccountID, rule: Rule) {
    && r.account == a && r.credential.Some? && r.credential.value.policy == rule.policy
    && r.credential.value.maxConcurrency == rule.ceiling && r.maxConcurrency == rule.ceiling
    && r.credential.value.user in Bases(rule.policy.members)
  }

  const NOT_FOR_SLOTS: set<Outcome> := {Admitted, Refused(AccountRateLimited), Refused(AccountUnavailable)}

  /** Over every run, with `n` the state that `prepareRequest` finds or creates: the next
      request of a member with fewer than its base slots is turned away for lack of slots
      exactly when members and internal reservations fill the ceiling of an account that is not
      being quiesced, and never while fewer internal reservations are out than the base slots
      it has left. */
  lemma BaseHoldsOverRuns(es: seq<Event>, a: AccountID, rule: Rule, r: Request, s: StateRef, t: TicketRef)
    requires RuleOk(rule) && Run(EMPTY, es).Some? && forall e <- es :: Follows(e, a, rule)
    requires Enabled(Run(EMPTY, es).value, DoPrepare(r, s, t)) && OfMember(r, a, rule)
    ensures var m := Run(EMPTY, es).value; var n := Found(m, r, s); var u := r.credential.value.user;
            var left := Bases(rule.policy.members)[u] - Get(n.states[n.index[a]].activeMembers, u);
            left > 0 ==>
              && (Prepare(m, r, s, t).1 in NOT_FOR_SLOTS
                  <==> n.states[n.index[a]].quiescing
                       || Sum(n.states[n.index[a]].activeMembers) + Count(n.tickets, Internal(n.index[a])) < rule.ceiling)
              && (Count(n.tickets, Internal(n.index[a])) < left ==> Prepare(m, r, s, t).1 in NOT_FOR_SLOTS)
  {
    EmptyInv();
    RunKeepsSlots(EMPTY, es, a, rule);
    var m := Run(EMPTY, es).value;
    FoundSlots(m, r, s, a, rule);
    var n := FoundInv(m, r, s);
    BaseDecided(n, a, rule, r, t);
    hide *;
  }

  lemma BaseDecided(n: Traffic, a: AccountID, rule: Rule, r: Request, t: TicketRef)
    requires Inv(n) && SlotsInv(n, a, rule) && RuleOk(rule) && OfMember(r, a, rule) && a in n.index
    ensures n.index[a] in n.states
    ensures var ref, u := n.index[a], r.credential.value.user;
            var left := Bases(rule.policy.members)[u] - Get(n.states[ref].activeMembers, u);
            left > 0 ==>
              && (Decision(n, r, t).1 in NOT_FOR_SLOTS
                  <==> n.states[ref].quiescing || Sum(n.states[ref].activeMembers) + Count(n.tickets, Internal(ref)) < rule.ceiling)
              && (Count(n.tickets, Internal(ref)) < left ==> Decision(n, r, t).1 in NOT_FOR_SLOTS)
  {
    hide SlotsInv, Inv, RuleOk, Bases, Count, Sum;
    var ref, u := n.index[a], r.credential.value.user;
    IndexedSlots(n, a, rule);
    Verdict(n, r, t);
    hide Decision, Check, Seen, StateSlots;
    if Get(n.states[ref].activeMembers, u) < Bases(rule.policy.members)[u] {
      assert BelowBase(n, ref, r, rule);
      BaseAdmittedExactly(n, ref, r, rule);
      BelowBaseVerdict(n.states[ref], r, rule);
      if Count(n.tickets, Internal(ref)) < Bases(rule.policy.members)[u] - Get(n.states[ref].activeMembers, u) {
        BaseIsNeverRefused(n, ref, r, rule);
      }
    }
  }

  lemma IndexedSlots(n: Traffic, a: AccountID, rule: Rule)
    requires Inv(n) && SlotsInv(n, a, rule) && a in n.index
    ensures var ref := n.index[a];
            && ref in n.states && n.states[ref].account == a && StateSlots(n.tickets, ref, n.states[ref], a, rule)
            && forall u <- n.states[ref].activeMembers :: 0 < n.states[ref].activeMembers[u]
  {
    assert CountersOk(n.tickets, n.index[a], n.states[n.index[a]]);
    hide StateSlots;
  }

  lemma Verdict(n: Traffic, r: Request, t: TicketRef)
    requires r.account in n.index && n.index[r.account] in n.states
    ensures var x := n.states[n.index[r.account]];
            Decision(n, r, t).1 == if x.quiescing then Refused(AccountUnavailable) else
              match Check(Seen(x, r), r)
              case Some(why) => Refused(why)
              case None => Admitted
  {
    hide Check, Seen, Admit;
  }

  /** Below its base a member is refused by the rate or for want of a slot of the account. */
  lemma BelowBaseVerdict(x: AccountState, r: Request, rule: Rule)
    requires OfMember(r, r.account, rule) && Get(x.activeMembers, r.credential.value.user) < Bases(rule.policy.members)[r.credential.value.user]
    ensures Check(Seen(x, r), r) != Some(AccountUnavailable)
  {
    OwnIsBase(rule.policy.members, r.credential.value.user);
  }

  /** An internal reservation can take the last slot under the ceiling, and then even a
      member below its base is refused. */
  lemma ProbeCanRefuse()
    ensures var rule := Rule(Policy(true, [MemberLimit("a", 1, 0)]), 1);
            var probe := Request(1, 0, 0, MINUTE, false, None);
            var request := Request(1, 1, 0, MINUTE, true, Some(Credential(1, 1, 1, 1, "a", rule.policy)));
            && RuleOk(rule)
            && Prepare(EMPTY, probe, 0, 0).1 == Admitted
            && Prepare(Prepare(EMPTY, probe, 0, 0).0, request, 1, 1).1 == Refused(AccountConcurrency)
  {
    var members := [MemberLimit("a", 1, 0)];
    assert members[..0] == [];
    assert Reserved(members) == 1;
    var probe := Request(1, 0, 0, MINUTE, false, None);
    var m := Prepare(EMPTY, probe, 0, 0).0;
    assert m.index == map[1 := 0] && m.states[0].activeRequests == 1;
  }
}
