/** Choosing the account of a gateway request: filtering, ordering by load, and taking a
    ticket from the first account that admits the request. */
module GatewayAccess {
  import opened MapSums
  import opened Units

  const MAX_SHARE: int := 10000

  /** One candidate route of one resolution. The last fields are what the account's quota,
      the traffic controller and the stored credentials answer this time. */
  datatype Candidate = Candidate(
    account: AccountID, priority: int, shared: bool, share: int, usage: int, accountUsage: int, hasLimit: bool,
    quotaFails: bool, accountExhausted: bool, memberExhausted: bool, admits: bool, resolves: bool)
  {
    /** A share is 0 to 10000 basis points; usage is never negative. */
    predicate Ok() {
      0 <= share <= MAX_SHARE && 0 <= usage && 0 <= accountUsage
    }

    /** `gatewayCredentialQuotaExhausted`. */
    predicate Exhausted() {
      if accountExhausted then true
      else if shared then hasLimit && memberExhausted
      else share == 0 || memberExhausted
    }

    /** `credentialQuotaLoad`. */
    function Load(): (int, int) {
      if shared then (accountUsage, MAX_SHARE) else (usage, share)
    }
  }

  /** The comparison of the balanced strategy: less used relative to its capacity, then the
      route's priority. */
  predicate Before(a: Candidate, b: Candidate) {
    var left, right := a.Load().0 * b.Load().1, b.Load().0 * a.Load().1;
    if left == right then a.priority < b.priority else left < right
  }

  predicate Comparable(a: Candidate) {
    a.Load().1 > 0
  }

  /** A candidate that is not exhausted has a capacity, so loads can be compared. */
  lemma AvailableIsComparable(a: Candidate)
    requires a.Ok() && !a.Exhausted()
    ensures Comparable(a)
  {
  }

  lemma CrossLess(u1: int, c1: int, u2: int, c2: int, u3: int, c3: int)
    requires 0 < c1 && 0 < c2 && 0 < c3
    requires u1 * c2 <= u2 * c1 && u2 * c3 <= u3 * c2
    ensures u1 * c3 <= u3 * c1
    ensures u1 * c2 < u2 * c1 || u2 * c3 < u3 * c2 ==> u1 * c3 < u3 * c1
  {
    var x, y := u1 * c3, u3 * c1;
    Times(u1 * c2, u2 * c1, c3);
    Times(u2 * c3, u3 * c2, c1);
    assert (u1 * c2) * c3 == x * c2 && (u2 * c1) * c3 == (u2 * c3) * c1 && (u3 * c2) * c1 == y * c2 by {
      Shuffle(u1, c2, c3);
      Shuffle(u2, c1, c3);
      Shuffle(u3, c2, c1);
    }
    Divide(x, y, c2);
  }

  lemma Shuffle(a: int, b: int, c: int)
    ensures (a * b) * c == (a * c) * b
  {
  }

  lemma Times(a: int, b: int, c: int)
    requires 0 < c
    ensures a <= b ==> a * c <= b * c
    ensures a < b ==> a * c < b * c
  {
  }

  lemma Divide(x: int, y: int, c: int)
    requires 0 < c
    ensures x * c <= y * c ==> x <= y
    ensures x * c < y * c ==> x < y
  {
  }

  /** Among comparable candidates "not after" is transitive, so sorting by it is meaningful.
      With a capacity of zero it would not be. */
  lemma NotAfterTransitive(a: Candidate, b: Candidate, c: Candidate)
    requires Comparable(a) && Comparable(b) && Comparable(c)
    requires !Before(b, a) && !Before(c, b)
    ensures !Before(c, a)
  {
    CrossLess(a.Load().0, a.Load().1, b.Load().0, b.Load().1, c.Load().0, c.Load().1);
  }

  /** Three routes that each come before the next, in a circle, if one has no capacity. */
  lemma ZeroCapacityCycles() returns (a: Candidate, b: Candidate, z: Candidate)
    ensures a.Ok() && b.Ok() && z.Ok() && !Comparable(z)
    ensures Before(a, b) && Before(b, z) && Before(z, a)
  {
    a := Candidate(1, 3, false, 10, 1, 0, false, false, false, false, true, true);
    b := Candidate(2, 1, false, 10, 9, 0, false, false, false, false, true, true);
    z := Candidate(3, 2, false, 0, 0, 0, false, false, false, false, true, true);
  }

  // ---- ordering ------------------------------------------------------------------

  predicate Sorted(s: seq<Candidate>) {
    forall i, j :: 0 <= i < j < |s| ==> !Before(s[j], s[i])
  }

  function Insert(s: seq<Candidate>, x: Candidate): seq<Candidate> {
    if s == [] then [x]
    else if Before(x, s[|s| - 1]) then Insert(s[..|s| - 1], x) + [s[|s| - 1]]
    else s + [x]
  }

  function Ordered(s: seq<Candidate>): seq<Candidate> {
    if s == [] then [] else Insert(Ordered(s[..|s| - 1]), s[|s| - 1])
  }

  lemma {:induction false} InsertKeeps(s: seq<Candidate>, x: Candidate)
    ensures multiset(Insert(s, x)) == multiset(s) + multiset{x}
  {
    if s != [] {
      assert s == s[..|s| - 1] + [s[|s| - 1]];
      if Before(x, s[|s| - 1]) {
        InsertKeeps(s[..|s| - 1], x);
      }
    }
  }

  lemma InMultiset<T>(s: seq<T>, x: T)
    ensures x in s <==> x in multiset(s)
  {
  }

  lemma {:induction false} InsertSorts(s: seq<Candidate>, x: Candidate)
    requires Sorted(s) && Comparable(x) && forall c <- s :: Comparable(c)
    ensures Sorted(Insert(s, x)) && forall c <- Insert(s, x) :: Comparable(c)
    ensures forall c <- Insert(s, x) :: c in s || c == x
  {
    if s != [] {
      var init, last := s[..|s| - 1], s[|s| - 1];
      if Before(x, last) {
        InsertSorts(init, x);
        forall c | c in Insert(init, x) ensures !Before(last, c) {
          if c in init {
            var i :| 0 <= i < |init| && init[i] == c;
            assert s[i] == c;
          }
        }
      } else {
        forall i | 0 <= i < |s| ensures !Before(x, s[i]) {
          if i < |s| - 1 {
            NotAfterTransitive(s[i], last, x);
          }
        }
      }
    }
  }

  /** The stable sort of the balanced strategy orders every list of available routes. */
  lemma {:induction false} OrderedSorts(s: seq<Candidate>)
    requires forall c <- s :: Comparable(c)
    ensures Sorted(Ordered(s)) && multiset(Ordered(s)) == multiset(s)
    ensures forall c <- Ordered(s) :: Comparable(c)
  {
    if s != [] {
      var init, x := s[..|s| - 1], s[|s| - 1];
      assert s == init + [x];
      OrderedSorts(init);
      InsertSorts(Ordered(init), x);
      InsertKeeps(Ordered(init), x);
    }
  }

  // ---- tickets of one request --------------------------------------------------------

  /** A request holds at most one ticket, and gives back each ticket it took exactly once:
      taking a second one or returning one twice would break a precondition. */
  class Tickets {
    var held: Option<nat>
    var taken: nat
    var returned: nat

    constructor ()
      ensures held.None? && taken == 0 && returned == 0
    {
      held, taken, returned := None, 0, 0;
    }

    predicate Ok() reads this {
      taken == returned + if held.Some? then 1 else 0
    }

    method Take() returns (ticket: nat)
      requires Ok() && held.None?
      modifies this
      ensures Ok() && held == Some(ticket) && taken == old(taken) + 1
    {
      ticket := taken;
      held, taken := Some(ticket), taken + 1;
    }

    method Return(ticket: nat)
      requires Ok() && held == Some(ticket)
      modifies this
      ensures Ok() && held.None? && taken == old(taken)
    {
      held, returned := None, returned + 1;
    }
  }

  datatype Access = Access(account: AccountID, ticket: nat)

  datatype Failure = QuotaCheckFailed | NoRoute | QuotaExhausted | LimitReached | AccountUnavailable

  datatype Resolution = Resolved(access: Access, route: Candidate) | Unresolved(why: Failure)

  function Eligible(candidates: seq<Candidate>, excluded: set<AccountID>): seq<Candidate> {
    if candidates == [] then []
    else
      var c := candidates[|candidates| - 1];
      Eligible(candidates[..|candidates| - 1], excluded) + if c.account in excluded then [] else [c]
  }

  function Available(eligible: seq<Candidate>): seq<Candidate> {
    if eligible == [] then []
    else Available(eligible[..|eligible| - 1]) + if eligible[|eligible| - 1].Exhausted() then [] else [eligible[|eligible| - 1]]
  }

  lemma {:induction false} EligibleAre(candidates: seq<Candidate>, excluded: set<AccountID>)
    ensures forall c :: c in Eligible(candidates, excluded) <==> c in candidates && c.account !in excluded
  {
    if candidates != [] {
      EligibleAre(candidates[..|candidates| - 1], excluded);
      assert candidates == candidates[..|candidates| - 1] + [candidates[|candidates| - 1]];
    }
  }

  lemma {:induction false} AvailableAre(eligible: seq<Candidate>)
    ensures forall c :: c in Available(eligible) <==> c in eligible && !c.Exhausted()
  {
    if eligible != [] {
      AvailableAre(eligible[..|eligible| - 1]);
      assert eligible == eligible[..|eligible| - 1] + [eligible[|eligible| - 1]];
    }
  }

  /** The routes that are tried, in the order in which they are tried. */
  function Tried(candidates: seq<Candidate>, excluded: set<AccountID>, balanced: bool): seq<Candidate> {
    var available := Available(Eligible(candidates, excluded));
    if balanced then Ordered(available) else available
  }

  predicate Serves(c: Candidate) {
    c.admits && c.resolves
  }

  ghost predicate FirstServing(tried: seq<Candidate>, c: Candidate) {
    exists k :: 0 <= k < |tried| && tried[k] == c && Serves(c) && forall j :: 0 <= j < k ==> !Serves(tried[j])
  }

  /** The quota of some route that is not excluded could not be checked. */
  ghost predicate QuotaFails(candidates: seq<Candidate>, excluded: set<AccountID>) {
    exists c :: c in candidates && c.account !in excluded && c.quotaFails
  }

  /** Every quota can be checked and some route that is tried serves. */
  ghost predicate Servable(candidates: seq<Candidate>, excluded: set<AccountID>, balanced: bool) {
    !QuotaFails(candidates, excluded) && exists c :: c in Tried(candidates, excluded, balanced) && Serves(c)
  }

  /** Why no route serves: a full account counts before a broken one. */
  ghost function WhyNot(candidates: seq<Candidate>, excluded: set<AccountID>, balanced: bool): Failure {
    if QuotaFails(candidates, excluded) then QuotaCheckFailed
    else if Eligible(candidates, excluded) == [] then NoRoute
    else if Available(Eligible(candidates, excluded)) == [] then QuotaExhausted
    else if exists c :: c in Tried(candidates, excluded, balanced) && !c.admits then LimitReached
    else AccountUnavailable
  }

  /** `ResolveGatewayAccess`: the first route in order that admits the request and whose
      credentials resolve. A ticket taken for a route that then fails is given back. */
  method Resolve(candidates: seq<Candidate>, excluded: set<AccountID>, balanced: bool, tickets: Tickets) returns (r: Resolution)
    requires tickets.Ok() && tickets.held.None?
    modifies tickets
    ensures tickets.Ok() && tickets.held == if r.Resolved? then Some(r.access.ticket) else None
    ensures r.Resolved? ==> r.route in candidates && r.access.account == r.route.account && r.access.account !in excluded && !r.route.Exhausted()
    ensures r.Resolved? ==> FirstServing(Tried(candidates, excluded, balanced), r.route)
    ensures r.Resolved? <==> Servable(candidates, excluded, balanced)
    ensures r.Unresolved? ==> r.why == WhyNot(candidates, excluded, balanced)
  {
    var eligible, available, failed := Filter(candidates, excluded);
    TriedAre(candidates, excluded, balanced);
    if failed {
      return Unresolved(QuotaCheckFailed);
    }
    if eligible == [] {
      return Unresolved(NoRoute);
    }
    if available == [] {
      return Unresolved(QuotaExhausted);
    }
    var routes := available;
    if balanced {
      routes := SortByLoad(available);
    }
    EligibleAre(candidates, excluded);
    AvailableAre(Eligible(candidates, excluded));
    assert routes == Tried(candidates, excluded, balanced);
    r := TryRoutes(routes, tickets);
  }

  method TryRoutes(routes: seq<Candidate>, tickets: Tickets) returns (r: Resolution)
    requires tickets.Ok() && tickets.held.None?
    modifies tickets
    ensures tickets.Ok() && tickets.held == if r.Resolved? then Some(r.access.ticket) else None
    ensures r.Resolved? ==> FirstServing(routes, r.route) && r.route in routes && r.access.account == r.route.account
    ensures r.Unresolved? ==> forall c <- routes :: !Serves(c)
    ensures r.Unresolved? ==>
      r.why == if routes == [] then NoRoute else if exists c :: c in routes && !c.admits then LimitReached else AccountUnavailable
  {
    var limited, broken := false, false;
    for k := 0 to |routes|
      invariant tickets.Ok() && tickets.held.None?
      invariant forall j :: 0 <= j < k ==> !Serves(routes[j])
      invariant limited <==> exists j :: 0 <= j < k && !routes[j].admits
      invariant broken <==> exists j :: 0 <= j < k && routes[j].admits
    {
      var c := routes[k];
      if !c.admits {
        limited := true;
      } else {
        var ticket := tickets.Take();
        if c.resolves {
          return Resolved(Access(c.account, ticket), c);
        }
        tickets.Return(ticket);
        broken := true;
      }
    }
    assert forall j :: 0 <= j < |routes| ==> routes[j] in routes;
    assert routes != [] ==> routes[0] in routes;
    return Unresolved(if limited then LimitReached else if broken then AccountUnavailable else NoRoute);
  }

  lemma TriedAre(candidates: seq<Candidate>, excluded: set<AccountID>, balanced: bool)
    ensures forall c <- Tried(candidates, excluded, balanced) :: c in Available(Eligible(candidates, excluded))
    ensures Tried(candidates, excluded, balanced) == [] <==> Available(Eligible(candidates, excluded)) == []
  {
    var available := Available(Eligible(candidates, excluded));
    OrderedKeeps(available);
    forall c | c in Tried(candidates, excluded, balanced) ensures c in available {
      InMultiset(Ordered(available), c);
      InMultiset(available, c);
    }
  }

  lemma {:induction false} OrderedKeeps(s: seq<Candidate>)
    ensures multiset(Ordered(s)) == multiset(s)
  {
    hide Insert;
    if s != [] {
      OrderedKeeps(s[..|s| - 1]);
      InsertKeeps(Ordered(s[..|s| - 1]), s[|s| - 1]);
      assert s == s[..|s| - 1] + [s[|s| - 1]];
    }
  }

  /** The filtering loop; a quota check that fails ends it. */
  method Filter(candidates: seq<Candidate>, excluded: set<AccountID>) returns (eligible: seq<Candidate>, available: seq<Candidate>, failed: bool)
    ensures !failed ==> eligible == Eligible(candidates, excluded) && available == Available(eligible)
    ensures failed <==> exists c :: c in candidates && c.account !in excluded && c.quotaFails
  {
    eligible, available, failed := [], [], false;
    for i := 0 to |candidates|
      invariant eligible == Eligible(candidates[..i], excluded) && available == Available(eligible)
      invariant forall c <- candidates[..i] :: c.account in excluded || !c.quotaFails
    {
      var c := candidates[i];
      assert candidates[..i + 1][..i] == candidates[..i];
      if c.account !in excluded {
        assert (eligible + [c])[..|eligible|] == eligible;
        eligible := eligible + [c];
        if c.quotaFails {
          return eligible, available, true;
        }
        if !c.Exhausted() {
          available := available + [c];
        }
      }
    }
    assert candidates[..|candidates|] == candidates;
  }

  /** A stable sort: an insertion never passes an equal element. */
  method SortByLoad(s: seq<Candidate>) returns (out: seq<Candidate>)
    ensures out == Ordered(s)
  {
    out := [];
    for i := 0 to |s|
      invariant out == Ordered(s[..i])
    {
      assert s[..i + 1][..i] == s[..i];
      out := Insert(out, s[i]);
    }
    assert s[..|s|] == s;
  }

  /** The balanced strategy serves the least loaded route that can serve. */
  lemma LeastLoadedFirst(candidates: seq<Candidate>, excluded: set<AccountID>, i: nat, j: nat)
    requires forall c <- candidates :: c.Ok()
    requires i < j < |Tried(candidates, excluded, true)|
    ensures !Before(Tried(candidates, excluded, true)[j], Tried(candidates, excluded, true)[i])
  {
    EligibleAre(candidates, excluded);
    var eligible := Eligible(candidates, excluded);
    AvailableAre(eligible);
    forall c | c in Available(eligible) ensures Comparable(c) {
      AvailableIsComparable(c);
    }
    OrderedSorts(Available(eligible));
  }
}
