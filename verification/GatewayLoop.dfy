/** The attempt loop of a gateway request: retry, refresh and switch accounts until a
    response was written. What the upstreams answer is a script. */
module GatewayLoop {
  import opened MapSums
  import opened GatewayAccess
  import opened Units

  const MAX_SWITCHES: nat := 3
  const MAX_CAPACITY_RETRIES: nat := 3
  const MAX_ATTEMPTS: nat := 5 // per account: the first, one after a token refresh, three capacity retries

  /** Status 401, 400, and the others that make the gateway switch accounts. */
  datatype Rejection = Unauthorized | BadRequest | Unavailable

  /** What one upstream attempt comes to. */
  datatype Answer =
    | NotSent(final: bool)      // forwarding failed; final: the request itself is at fault, or its client is gone
    | ClientGone
    | Rejected(status: Rejection, planGated: bool, refreshed: bool, clientGone: bool)
    | Streamed(failover: bool, capacity: bool, clientGone: bool)

  function Attempts(forwards: map<AccountID, int>, a: AccountID): int {
    Get(forwards, a)
  }

  /** Retries left for an account before it must be left. */
  function Left(refreshed: set<AccountID>, retries: map<AccountID, int>, a: AccountID): int {
    (if a in refreshed then 0 else 1) + MAX_CAPACITY_RETRIES - Get(retries, a)
  }

  ghost predicate CountsOk(forwards: map<AccountID, int>, refreshed: set<AccountID>, retries: map<AccountID, int>, excluded: set<AccountID>, current: AccountID) {
    && (forall a <- forwards :: a == current || a in excluded)
    && (forall a :: 0 <= Attempts(forwards, a) <= MAX_ATTEMPTS)
    && 0 <= Get(retries, current) <= MAX_CAPACITY_RETRIES
  }

  predicate NoRepeats(s: seq<AccountID>) {
    forall i, j :: 0 <= i < j < |s| ==> s[i] != s[j]
  }

  function Members(s: seq<AccountID>): set<AccountID> {
    set a | a in s
  }

  /** The progress of one request. `excluded` are the accounts it has left. */
  datatype Progress = Progress(
    access: Access, excluded: seq<AccountID>, refreshed: set<AccountID>, retries: map<AccountID, int>,
    forwards: map<AccountID, int>, switches: nat, resolutions: nat)

  /** Every attempt the current account may still get is within its allowance. */
  ghost predicate Budgeted(p: Progress) {
    Attempts(p.forwards, p.access.account) + Left(p.refreshed, p.retries, p.access.account) < MAX_ATTEMPTS
  }

  ghost predicate ProgressOk(p: Progress, universe: set<AccountID>) {
    var current := p.access.account;
    && current in universe && Members(p.excluded) <= universe && NoRepeats(p.excluded + [current])
    && p.refreshed <= Members(p.excluded) + {current} && p.retries.Keys <= Members(p.excluded) + {current}
    && CountsOk(p.forwards, p.refreshed, p.retries, Members(p.excluded), current)
    && p.switches <= MAX_SWITCHES
  }

  ghost predicate Within(routes: nat -> seq<Candidate>, universe: set<AccountID>) {
    forall k: nat, c :: c in routes(k) ==> c.account in universe
  }

  /** Leaving the current account for good and taking another route. */
  method MoveOn(p: Progress, routes: nat -> seq<Candidate>, balanced: bool, counted: bool, tickets: Tickets, ghost universe: set<AccountID>)
    returns (next: Option<Progress>)
    requires ProgressOk(p, universe) && Within(routes, universe) && (counted ==> p.switches < MAX_SWITCHES)
    requires tickets.Ok() && tickets.held == Some(p.access.ticket)
    modifies tickets
    ensures tickets.Ok() && tickets.held == if next.Some? then Some(next.value.access.ticket) else None
    ensures next.Some? ==>
      && ProgressOk(next.value, universe) && Budgeted(next.value) && next.value.excluded == p.excluded + [p.access.account]
      && universe - Members(next.value.excluded) < universe - Members(p.excluded)
      && next.value == p.(access := next.value.access, excluded := p.excluded + [p.access.account],
                          switches := p.switches + (if counted then 1 else 0), resolutions := p.resolutions + 1)
    ensures next.Some? <==> Servable(routes(p.resolutions), Members(p.excluded + [p.access.account]), balanced)
    ensures next.Some? ==> exists c ::
      FirstServing(Tried(routes(p.resolutions), Members(p.excluded + [p.access.account]), balanced), c) && c.account == next.value.access.account
  {
    var excluded := p.excluded + [p.access.account];
    tickets.Return(p.access.ticket);
    var r := Resolve(routes(p.resolutions), Members(excluded), balanced, tickets);
    if r.Unresolved? {
      return None;
    }
    next := Some(p.(access := r.access, excluded := excluded, switches := p.switches + (if counted then 1 else 0), resolutions := p.resolutions + 1));
    MovedOn(p, r.access, universe);
    hide FirstServing, Servable, Tried;
  }

  lemma MovedOn(p: Progress, access: Access, universe: set<AccountID>)
    requires ProgressOk(p, universe) && access.account in universe && access.account !in Members(p.excluded + [p.access.account])
    ensures Members(p.excluded + [p.access.account]) == Members(p.excluded) + {p.access.account}
    ensures p.access.account !in Members(p.excluded)
    ensures NoRepeats(p.excluded + [p.access.account] + [access.account])
    ensures CountsOk(p.forwards, p.refreshed, p.retries, Members(p.excluded + [p.access.account]), access.account)
    ensures Attempts(p.forwards, access.account) + Left(p.refreshed, p.retries, access.account) < MAX_ATTEMPTS
  {
    var all := p.excluded + [p.access.account];
    assert Members(all) == Members(p.excluded) + {p.access.account};
    assert all[|p.excluded|] == p.access.account;
    forall i | 0 <= i < |all| ensures all[i] != access.account {
      assert all[i] in all;
    }
    forall i | 0 <= i < |p.excluded| ensures p.excluded[i] != p.access.account {
      assert all[i] != all[|p.excluded|];
    }
  }

  lemma Forwarded(p: Progress, q: Progress, universe: set<AccountID>)
    requires ProgressOk(p, universe) && Budgeted(p)
    requires q == p.(forwards := p.forwards[p.access.account := Attempts(p.forwards, p.access.account) + 1])
    ensures ProgressOk(q, universe)
    ensures Attempts(q.forwards, q.access.account) + Left(q.refreshed, q.retries, q.access.account) <= MAX_ATTEMPTS
  {
    var current := p.access.account;
    assert 0 <= Left(p.refreshed, p.retries, current);
    forall a ensures 0 <= Attempts(q.forwards, a) <= MAX_ATTEMPTS {
      assert a != current ==> Attempts(q.forwards, a) == Attempts(p.forwards, a);
    }
  }

  /** The answer ends the request: a response, or an error that no other account would cure. */
  predicate EndsRequest(answer: Answer) {
    match answer
    case NotSent(final) => final
    case ClientGone => true
    case Rejected(status, planGated, _, clientGone) => clientGone || (status.BadRequest? && !planGated)
    case Streamed(failover, _, clientGone) => !failover || clientGone
  }

  /** The account gets another attempt: with a refreshed token, once, or after a wait for
      capacity, three times. */
  predicate TriesAgain(p: Progress, answer: Answer) {
    !EndsRequest(answer) &&
    match answer
    case Rejected(status, _, refreshed, _) => status.Unauthorized? && p.access.account !in p.refreshed && refreshed
    case Streamed(_, capacity, _) => capacity && Get(p.retries, p.access.account) < MAX_CAPACITY_RETRIES
    case _ => false
  }

  /** What the attempt adds to the progress of a request that goes on. */
  function Noted(p: Progress, answer: Answer): Progress {
    var current := p.access.account;
    p.(
      forwards := p.forwards[current := Attempts(p.forwards, current) + 1],
      refreshed := if answer.Rejected? && answer.status.Unauthorized? then p.refreshed + {current} else p.refreshed,
      retries := if answer.Streamed? && TriesAgain(p, answer) then p.retries[current := Get(p.retries, current) + 1] else p.retries)
  }

  /** One forwarded attempt; `waited`: the client stayed while the gateway waited for capacity.
      The request goes on with `next`, on the same account with fewer retries left or on another
      one; without it, the response was written or given up. */
  method Attempt(p: Progress, answer: Answer, waited: bool, routes: nat -> seq<Candidate>, balanced: bool, tickets: Tickets, ghost universe: set<AccountID>)
    returns (q: Progress, next: Option<Progress>)
    requires ProgressOk(p, universe) && Budgeted(p) && Within(routes, universe)
    requires tickets.Ok() && tickets.held == Some(p.access.ticket)
    modifies tickets
    ensures tickets.Ok() && (next.None? ==> tickets.held.None? || tickets.held == Some(q.access.ticket))
    ensures q.access == p.access && q.excluded == p.excluded
    ensures q.forwards == p.forwards[p.access.account := Attempts(p.forwards, p.access.account) + 1]
    ensures forall a :: Attempts(q.forwards, a) <= MAX_ATTEMPTS
    ensures next.Some? ==> ProgressOk(next.value, universe) && Budgeted(next.value) && tickets.held == Some(next.value.access.ticket)
    ensures next.Some? ==>
      || universe - Members(next.value.excluded) < universe - Members(p.excluded)
      || (next.value.excluded == p.excluded && next.value.access == p.access
          && 0 <= Left(next.value.refreshed, next.value.retries, p.access.account) < Left(p.refreshed, p.retries, p.access.account))
    ensures EndsRequest(answer) ==> next.None?
    ensures TriesAgain(p, answer) ==> next == if answer.Streamed? && !waited then None else Some(Noted(p, answer))
    ensures !EndsRequest(answer) && !TriesAgain(p, answer) ==>
      (next.Some? <==> p.switches < 3 && Servable(routes(p.resolutions), Members(p.excluded + [p.access.account]), balanced))
    ensures next.Some? && !TriesAgain(p, answer) ==>
      next.value == Noted(p, answer).(access := next.value.access, excluded := p.excluded + [p.access.account],
                                      switches := p.switches + 1, resolutions := p.resolutions + 1)
    ensures next.Some? && !TriesAgain(p, answer) ==> exists c ::
      FirstServing(Tried(routes(p.resolutions), Members(p.excluded + [p.access.account]), balanced), c) && c.account == next.value.access.account
  {
    hide Servable, FirstServing, Tried;
    var current := p.access.account;
    q := p.(forwards := p.forwards[current := Attempts(p.forwards, current) + 1]);
    Forwarded(p, q, universe);
    next := None;
    match answer {
      case NotSent(final) =>
        if !final && q.switches < MAX_SWITCHES {
          next := MoveOn(q, routes, balanced, true, tickets, universe);
        }
      case ClientGone =>
      case Rejected(status, planGated, refreshed, clientGone) =>
        if clientGone || (status.BadRequest? && !planGated) {
          return;
        }
        if status.Unauthorized? && current !in q.refreshed {
          q := q.(refreshed := q.refreshed + {current});
          if refreshed {
            next := Some(q);
            return;
          }
        }
        assert status.Unauthorized? ==> q.refreshed == p.refreshed + {current};
        if q.switches < MAX_SWITCHES {
          next := MoveOn(q, routes, balanced, true, tickets, universe);
        }
      case Streamed(failover, capacity, clientGone) =>
        if !failover || clientGone {
          return;
        }
        if capacity && Get(q.retries, current) < MAX_CAPACITY_RETRIES {
          q := q.(retries := q.retries[current := Get(q.retries, current) + 1]);
          next := if waited then Some(q) else None;
          return;
        }
        if q.switches < MAX_SWITCHES {
          next := MoveOn(q, routes, balanced, true, tickets, universe);
        }
    }
  }

  // ---- the log of a request -----------------------------------------------------------

  /** What happens on the account in turn: its model is blocked there, or the upstream answers. */
  datatype Turn = Blocked | Answered(answer: Answer, waited: bool)

  datatype Entry = Entry(account: AccountID, turn: Turn)

  function AccountsOf(log: seq<Entry>): set<AccountID> {
    set e | e in log :: e.account
  }

  /** How often the log went on with another account, and how often after an answer. */
  function Moves(log: seq<Entry>, next: AccountID): nat {
    if log == [] then 0
    else Moves(log[..|log| - 1], log[|log| - 1].account) + if log[|log| - 1].account != next then 1 else 0
  }

  function Switches(log: seq<Entry>, next: AccountID): nat {
    if log == [] then 0
    else Switches(log[..|log| - 1], log[|log| - 1].account) + if log[|log| - 1].account != next && log[|log| - 1].turn.Answered? then 1 else 0
  }

  predicate IsAnswer(e: Entry, a: AccountID) {
    e.account == a && e.turn.Answered?
  }

  predicate IsUnauthorized(e: Entry, a: AccountID) {
    IsAnswer(e, a) && e.turn.answer.Rejected? && e.turn.answer.status.Unauthorized?
  }

  /** An upstream out of capacity that the gateway waited for. */
  predicate IsWait(e: Entry, a: AccountID) {
    IsAnswer(e, a) && e.turn.answer.Streamed? && e.turn.answer.capacity && e.turn.answer.failover && !e.turn.answer.clientGone
  }

  function Answers(log: seq<Entry>, a: AccountID): nat {
    if log == [] then 0 else Answers(log[..|log| - 1], a) + if IsAnswer(log[|log| - 1], a) then 1 else 0
  }

  function Waits(log: seq<Entry>, a: AccountID): nat {
    if log == [] then 0 else Waits(log[..|log| - 1], a) + if IsWait(log[|log| - 1], a) then 1 else 0
  }

  ghost predicate WasUnauthorized(log: seq<Entry>, a: AccountID) {
    exists i :: 0 <= i < |log| && IsUnauthorized(log[i], a)
  }

  /** The last entry gets its account another attempt: the first time that its token was refused
      and could be refreshed, and the first three times that it was out of capacity. */
  ghost predicate Again(log: seq<Entry>)
    requires log != []
  {
    var before, e := log[..|log| - 1], log[|log| - 1];
    || (IsUnauthorized(e, e.account) && !e.turn.answer.clientGone && e.turn.answer.refreshed && !WasUnauthorized(before, e.account))
    || (IsWait(e, e.account) && Waits(before, e.account) < 3)
  }

  /** The first route that serves and was not left yet, if there is one. */
  ghost predicate Chosen(candidates: seq<Candidate>, left: set<AccountID>, balanced: bool, next: Option<AccountID>) {
    if next.None? then !Servable(candidates, left, balanced)
    else !QuotaFails(candidates, left) && exists c :: FirstServing(Tried(candidates, left, balanced), c) && c.account == next.value
  }

  /** The client has its answer or is gone, or the request itself is at fault: it could not be
      sent, or is a bad one whatever the plan. */
  predicate Settles(answer: Answer) {
    || answer.ClientGone?
    || (answer.NotSent? && answer.final)
    || (answer.Rejected? && (answer.clientGone || (answer.status == BadRequest && !answer.planGated)))
    || (answer.Streamed? && (answer.clientGone || !answer.failover))
  }

  /** What follows the last entry: the end of the request, or its next account. After three
      switches an answer no longer leads to another account; a blocked model always may. */
  ghost predicate Leads(log: seq<Entry>, routes: nat -> seq<Candidate>, balanced: bool, next: Option<AccountID>)
    requires log != []
  {
    var e := log[|log| - 1];
    var resolved := 1 + Moves(log[..|log| - 1], e.account);
    match e.turn
    case Blocked => Chosen(routes(resolved), AccountsOf(log), balanced, next)
    case Answered(answer, waited) =>
      if Settles(answer) then next == None
      else if Again(log) then next == if answer.Streamed? && !waited then None else Some(e.account)
      else if Switches(log[..|log| - 1], e.account) >= 3 then next == None
      else Chosen(routes(resolved), AccountsOf(log), balanced, next)
  }

  ghost predicate Chain(log: seq<Entry>, routes: nat -> seq<Candidate>, balanced: bool, script: nat -> Turn) {
    && (forall i :: 0 <= i < |log| ==> log[i].turn == script(i))
    && (forall i :: 0 < i < |log| ==> Leads(log[..i], routes, balanced, Some(log[i].account)))
    && (log != [] ==> Chosen(routes(0), {}, balanced, Some(log[0].account)))
  }

  /** The progress is what the log says; `p` is about to begin its next entry. */
  ghost predicate Logged(p: Progress, log: seq<Entry>) {
    && AccountsOf(log) <= Members(p.excluded) + {p.access.account} && Members(p.excluded) <= AccountsOf(log)
    && (forall a :: a in p.refreshed <==> WasUnauthorized(log, a))
    && (forall a :: Get(p.retries, a) == Min(Waits(log, a), 3))
    && (forall a :: Attempts(p.forwards, a) == Answers(log, a))
    && p.switches == Switches(log, p.access.account) && p.resolutions == 1 + Moves(log, p.access.account)
  }

  lemma OneMoreEntry(log: seq<Entry>, e: Entry)
    ensures (log + [e])[..|log|] == log && (log + [e])[|log|] == e
    ensures AccountsOf(log + [e]) == AccountsOf(log) + {e.account}
    ensures forall a :: Answers(log + [e], a) == Answers(log, a) + if IsAnswer(e, a) then 1 else 0
    ensures forall a :: Waits(log + [e], a) == Waits(log, a) + if IsWait(e, a) then 1 else 0
    ensures forall a :: WasUnauthorized(log + [e], a) <==> WasUnauthorized(log, a) || IsUnauthorized(e, a)
    ensures forall next :: Moves(log + [e], next) == Moves(log, e.account) + if e.account != next then 1 else 0
    ensures forall next :: Switches(log + [e], next) == Switches(log, e.account) + if e.account != next && e.turn.Answered? then 1 else 0
  {
    var all := log + [e];
    assert all[..|log|] == log && all[|log|] == e;
    assert forall x :: x in all <==> x in log || x == e;
    forall a ensures WasUnauthorized(all, a) <==> WasUnauthorized(log, a) || IsUnauthorized(e, a) {
      if WasUnauthorized(log, a) {
        var i :| 0 <= i < |log| && IsUnauthorized(log[i], a);
        assert IsUnauthorized(all[i], a);
      }
      if IsUnauthorized(e, a) {
        assert IsUnauthorized(all[|log|], a);
      }
    }
  }

  lemma AgainIsTry(p: Progress, log: seq<Entry>, answer: Answer, waited: bool)
    requires Logged(p, log) && !EndsRequest(answer)
    ensures Again(log + [Entry(p.access.account, Answered(answer, waited))]) <==> TriesAgain(p, answer)
  {
    OneMoreEntry(log, Entry(p.access.account, Answered(answer, waited)));
    hide Waits, WasUnauthorized, Answers, Moves, Switches, AccountsOf;
  }

  /** An answer that the account gets another attempt for. */
  lemma SameLogged(p: Progress, log: seq<Entry>, turn: Turn)
    requires Logged(p, log) && turn.Answered? && TriesAgain(p, turn.answer)
    ensures Logged(Noted(p, turn.answer), log + [Entry(p.access.account, turn)])
  {
    OneMoreEntry(log, Entry(p.access.account, turn));
    hide Waits, WasUnauthorized, Answers, Moves, Switches, AccountsOf;
  }

  /** The account is left. */
  lemma LeftLogged(p: Progress, log: seq<Entry>, turn: Turn, access: Access, excluded: seq<AccountID>)
    requires Logged(p, log) && access.account !in Members(excluded) && Members(excluded) == Members(p.excluded) + {p.access.account}
    requires turn.Answered? ==> !EndsRequest(turn.answer) && !TriesAgain(p, turn.answer)
    ensures var q := if turn.Answered? then Noted(p, turn.answer).(switches := p.switches + 1) else p;
            Logged(q.(access := access, excluded := excluded, resolutions := p.resolutions + 1), log + [Entry(p.access.account, turn)])
  {
    OneMoreEntry(log, Entry(p.access.account, turn));
    hide Waits, WasUnauthorized, Answers, Moves, Switches, AccountsOf;
  }

  lemma LeftAre(p: Progress, log: seq<Entry>, e: Entry)
    requires Logged(p, log) && e.account == p.access.account
    ensures AccountsOf(log + [e]) == Members(p.excluded + [p.access.account])
    ensures (log + [e])[..|log|] == log && (log + [e])[|log|] == e
    ensures Moves(log, e.account) + 1 == p.resolutions && Switches(log, e.account) == p.switches
  {
    OneMoreEntry(log, e);
    assert forall a :: a in Members(p.excluded + [p.access.account]) <==> a in Members(p.excluded) || a == p.access.account;
  }

  lemma ChainGrows(log: seq<Entry>, routes: nat -> seq<Candidate>, balanced: bool, script: nat -> Turn, e: Entry)
    requires Chain(log, routes, balanced, script) && e.turn == script(|log|)
    requires if log == [] then Chosen(routes(0), {}, balanced, Some(e.account)) else Leads(log, routes, balanced, Some(e.account))
    ensures Chain(log + [e], routes, balanced, script)
  {
    hide Leads, Chosen;
    var all := log + [e];
    forall i | 0 < i < |all| ensures Leads(all[..i], routes, balanced, Some(all[i].account)) {
      assert all[..i] == log[..i];
      assert i == |log| ==> log[..i] == log;
    }
  }

  lemma AnswersAre(p: Progress, log: seq<Entry>, turn: Turn)
    requires Logged(p, log)
    ensures var forwards := if turn.Answered? then p.forwards[p.access.account := Attempts(p.forwards, p.access.account) + 1] else p.forwards;
            forall a :: Attempts(forwards, a) == Answers(log + [Entry(p.access.account, turn)], a)
  {
    OneMoreEntry(log, Entry(p.access.account, turn));
    hide Waits, WasUnauthorized, Answers, Moves, Switches, AccountsOf;
  }

  /** The account in turn was not left. */
  lemma NotLeft(p: Progress, universe: set<AccountID>)
    requires ProgressOk(p, universe)
    ensures p.access.account !in Members(p.excluded)
  {
    var all := p.excluded + [p.access.account];
    forall i | 0 <= i < |p.excluded| ensures p.excluded[i] != p.access.account {
      assert all[i] != all[|p.excluded|];
    }
  }

  lemma MembersGrow(excluded: seq<AccountID>, a: AccountID)
    ensures Members(excluded + [a]) == Members(excluded) + {a}
  {
    assert forall x :: x in excluded + [a] <==> x in excluded || x == a;
  }

  /** The account that serves first is the one chosen. */
  lemma ServedIsChosen(candidates: seq<Candidate>, left: set<AccountID>, balanced: bool, next: Option<AccountID>)
    requires next.Some? <==> Servable(candidates, left, balanced)
    requires next.Some? ==> exists c :: FirstServing(Tried(candidates, left, balanced), c) && c.account == next.value
    ensures Chosen(candidates, left, balanced, next)
  {
    hide FirstServing, Tried, QuotaFails;
  }

  /** One turn of the loop: the request ends, or goes on as the log says. */
  method TakeTurn(p: Progress, turn: Turn, routes: nat -> seq<Candidate>, balanced: bool, tickets: Tickets, ghost universe: set<AccountID>, ghost log: seq<Entry>)
    returns (q: Progress, next: Option<Progress>)
    requires ProgressOk(p, universe) && Budgeted(p) && Within(routes, universe) && Logged(p, log)
    requires tickets.Ok() && tickets.held == Some(p.access.ticket)
    modifies tickets
    ensures tickets.Ok() && (next.None? ==> tickets.held.None? || tickets.held == Some(q.access.ticket))
    ensures q.access == p.access && q.excluded == p.excluded && forall a <- q.forwards :: a == p.access.account || a in p.forwards
    ensures forall a :: Attempts(q.forwards, a) == Answers(log + [Entry(p.access.account, turn)], a) <= 5
    ensures next.Some? ==> ProgressOk(next.value, universe) && Budgeted(next.value) && tickets.held == Some(next.value.access.ticket)
    ensures next.Some? ==>
      || universe - Members(next.value.excluded) < universe - Members(p.excluded)
      || (next.value.excluded == p.excluded && next.value.access == p.access
          && 0 <= Left(next.value.refreshed, next.value.retries, p.access.account) < Left(p.refreshed, p.retries, p.access.account))
    ensures next.Some? ==> Logged(next.value, log + [Entry(p.access.account, turn)])
    ensures Leads(log + [Entry(p.access.account, turn)], routes, balanced, if next.Some? then Some(next.value.access.account) else None)
  {
    hide Servable, FirstServing, Tried, QuotaFails, Waits, WasUnauthorized, Answers, Moves, Switches, AccountsOf, Logged, Chosen, Again;
    ghost var all := log + [Entry(p.access.account, turn)];
    ghost var candidates := routes(p.resolutions);
    LeftAre(p, log, Entry(p.access.account, turn));
    AnswersAre(p, log, turn);
    MembersGrow(p.excluded, p.access.account);
    if turn.Blocked? {
      q := p;
      next := MoveOn(p, routes, balanced, false, tickets, universe);
      ServedIsChosen(candidates, AccountsOf(all), balanced, if next.Some? then Some(next.value.access.account) else None);
      if next.Some? {
        NotLeft(next.value, universe);
        LeftLogged(p, log, turn, next.value.access, next.value.excluded);
      }
      return;
    }
    q, next := Attempt(p, turn.answer, turn.waited, routes, balanced, tickets, universe);
    if !EndsRequest(turn.answer) {
      AgainIsTry(p, log, turn.answer, turn.waited);
      if TriesAgain(p, turn.answer) {
        SameLogged(p, log, turn);
      } else if p.switches < MAX_SWITCHES {
        ServedIsChosen(candidates, AccountsOf(all), balanced, if next.Some? then Some(next.value.access.account) else None);
        if next.Some? {
          NotLeft(next.value, universe);
          LeftLogged(p, log, turn, next.value.access, next.value.excluded);
        }
      }
    }
  }

  /** `responses`: no account is used again once it was left, none gets more than five
      attempts, and every ticket is given back. `refused`: the key's rate, the price or the body
      is at fault. The log begins with the first route that serves, every entry leads to the next
      one, and the last one to the end of the request. */
  method Respond(routes: nat -> seq<Candidate>, balanced: bool, refused: bool, script: nat -> Turn, tickets: Tickets, ghost universe: set<AccountID>)
    returns (used: seq<AccountID>, forwards: map<AccountID, int>, ghost log: seq<Entry>)
    requires Within(routes, universe) && tickets.Ok() && tickets.held.None?
    modifies tickets
    ensures tickets.Ok() && tickets.held.None?
    ensures NoRepeats(used) && forall a <- forwards :: a in used
    ensures forall a :: Attempts(forwards, a) == Answers(log, a) <= 5
    ensures Chain(log, routes, balanced, script)
    ensures if log == [] then refused || !Servable(routes(0), {}, balanced) else !refused && Leads(log, routes, balanced, None)
  {
    hide Servable, FirstServing, Tried, QuotaFails, WasUnauthorized, Again, Leads, Chosen;
    log := [];
    var r := Resolve(routes(0), {}, balanced, tickets);
    if r.Unresolved? {
      return [], map[], log;
    }
    var p := Progress(r.access, [], {}, map[], map[], 0, 1);
    if refused {
      tickets.Return(p.access.ticket);
      return [p.access.account], map[], log;
    }
    ServedIsChosen(routes(0), {}, balanced, Some(r.access.account));
    FirstLogged(p);
    hide Logged, Chain, Budgeted;
    var i := 0;
    while true
      invariant ProgressOk(p, universe) && Budgeted(p) && tickets.Ok() && tickets.held == Some(p.access.ticket)
      invariant |log| == i && Logged(p, log) && Chain(log, routes, balanced, script)
      invariant if log == [] then Chosen(routes(0), {}, balanced, Some(p.access.account)) else Leads(log, routes, balanced, Some(p.access.account))
      decreases universe - Members(p.excluded), Left(p.refreshed, p.retries, p.access.account)
    {
      var next: Option<Progress>;
      ChainGrows(log, routes, balanced, script, Entry(p.access.account, script(i)));
      p, next := TakeTurn(p, script(i), routes, balanced, tickets, universe, log);
      log := log + [Entry(p.access.account, script(i))];
      if next.None? {
        if tickets.held.Some? {
          tickets.Return(p.access.ticket);
        }
        return p.excluded + [p.access.account], p.forwards, log;
      }
      i := i + 1;
      p := next.value;
    }
  }

  lemma FirstLogged(p: Progress)
    requires p.excluded == [] && p.refreshed == {} && p.retries == map[] && p.forwards == map[] && p.switches == 0 && p.resolutions == 1
    ensures Logged(p, [])
  {
  }
}
