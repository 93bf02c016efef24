/** Which route a request gets, told from the candidates themselves: who is left out, who comes
    before whom, and why nobody serves. */
module RouteChoice {
  import opened MapSums
  import opened GatewayAccess
  import opened Units

  /** Not excluded, and with quota left: the account is not exhausted; on a shared account the
      member has no limit or has not used it up; otherwise it has a share and has not used it up. */
  predicate Usable(c: Candidate, excluded: set<AccountID>) {
    && c.account !in excluded && !c.accountExhausted
    && (c.shared ==> !c.hasLimit || !c.memberExhausted)
    && (!c.shared ==> c.share != 0 && !c.memberExhausted)
  }

  /** How much of its capacity is used: on a shared account that of the whole account. */
  function UsedOf(c: Candidate): int {
    if c.shared then c.accountUsage else c.usage
  }

  function CapacityOf(c: Candidate): int {
    if c.shared then 10000 else c.share
  }

  /** Less used relative to its capacity, or equally and of a smaller priority number. */
  predicate Better(a: Candidate, b: Candidate) {
    var x, y := UsedOf(a) * CapacityOf(b), UsedOf(b) * CapacityOf(a);
    x < y || (x == y && a.priority < b.priority)
  }

  predicate Willing(candidates: seq<Candidate>, excluded: set<AccountID>, i: int) {
    0 <= i < |candidates| && Usable(candidates[i], excluded) && candidates[i].admits && candidates[i].resolves
  }

  /** Candidate k serves: of those that are willing, the first one, or with balancing the best
      one, and the first among equals. */
  ghost predicate Chooses(candidates: seq<Candidate>, excluded: set<AccountID>, balanced: bool, k: int) {
    && Willing(candidates, excluded, k)
    && forall j :: j != k && Willing(candidates, excluded, j) ==>
         if balanced then (if j < k then Better(candidates[k], candidates[j]) else !Better(candidates[j], candidates[k]))
         else k < j
  }

  // ---- plain lists of candidates that can be tried -------------------------------------------

  ghost predicate Best(s: seq<Candidate>, balanced: bool, k: int) {
    && 0 <= k < |s| && Serves(s[k])
    && forall j :: 0 <= j < |s| && j != k && Serves(s[j]) ==>
         if balanced then (if j < k then Before(s[k], s[j]) else !Before(s[j], s[k])) else k < j
  }

  lemma BetterIsBefore(a: Candidate, b: Candidate)
    ensures Better(a, b) <==> Before(a, b)
  {
  }

  lemma UsableAre(c: Candidate, excluded: set<AccountID>)
    ensures Usable(c, excluded) <==> c.account !in excluded && !c.Exhausted()
  {
  }

  /** An insertion keeps the first that serves, unless the new one comes before it. */
  lemma {:induction false} InsertFirst(s: seq<Candidate>, x: Candidate, f: Candidate)
    requires Sorted(s) && Comparable(x) && forall c <- s :: Comparable(c)
    requires FirstServing(s, f)
    ensures FirstServing(Insert(s, x), if Serves(x) && Before(x, f) then x else f)
  {
    var init, last := s[..|s| - 1], s[|s| - 1];
    var k :| 0 <= k < |s| && s[k] == f && Serves(f) && forall j :: 0 <= j < k ==> !Serves(s[j]);
    if Before(x, last) {
      var t := Insert(init, x) + [last];
      if k < |s| - 1 {
        assert init[k] == f;
        InsertFirst(init, x, f);
        Longer(Insert(init, x), last, if Serves(x) && Before(x, f) then x else f);
      } else {
        NoneInserted(init, x);
        if Serves(x) {
          var i :| 0 <= i < |Insert(init, x)| && Insert(init, x)[i] == x && forall j :: 0 <= j < i ==> !Serves(Insert(init, x)[j]);
          assert t[i] == x && forall j :: 0 <= j < i ==> t[j] == Insert(init, x)[j];
        } else {
          assert t[|Insert(init, x)|] == last && forall j :: 0 <= j < |Insert(init, x)| ==> t[j] == Insert(init, x)[j];
        }
      }
    } else {
      Longer(s, x, f);
      if k < |s| - 1 {
        assert !Before(last, s[k]);
        NotAfterTransitive(s[k], last, x);
      }
    }
  }

  lemma Longer(s: seq<Candidate>, x: Candidate, f: Candidate)
    requires FirstServing(s, f)
    ensures FirstServing(s + [x], f)
  {
    var k :| 0 <= k < |s| && s[k] == f && Serves(f) && forall j :: 0 <= j < k ==> !Serves(s[j]);
    assert (s + [x])[k] == f && forall j :: 0 <= j < k ==> (s + [x])[j] == s[j];
  }

  /** Among routes that do not serve, only the new one can. */
  lemma {:induction false} NoneInserted(s: seq<Candidate>, x: Candidate)
    requires forall j :: 0 <= j < |s| ==> !Serves(s[j])
    ensures Serves(x) ==> FirstServing(Insert(s, x), x)
    ensures !Serves(x) ==> forall j :: 0 <= j < |Insert(s, x)| ==> !Serves(Insert(s, x)[j])
  {
    if s == [] {
      assert [x][0] == x;
    } else {
      var init, last := s[..|s| - 1], s[|s| - 1];
      if Before(x, last) {
        NoneInserted(init, x);
        if Serves(x) {
          Longer(Insert(init, x), last, x);
        }
      } else {
        assert (s + [x])[|s|] == x && forall j :: 0 <= j < |s| ==> (s + [x])[j] == s[j];
      }
    }
  }

  lemma NoneOrdered(s: seq<Candidate>)
    requires forall j :: 0 <= j < |s| ==> !Serves(s[j])
    ensures forall j :: 0 <= j < |Ordered(s)| ==> !Serves(Ordered(s)[j])
  {
    OrderedKeeps(s);
    forall j | 0 <= j < |Ordered(s)| ensures !Serves(Ordered(s)[j]) {
      InMultiset(Ordered(s), Ordered(s)[j]);
      InMultiset(s, Ordered(s)[j]);
    }
    hide Serves;
  }

  /** Sorting by load brings the best one that serves to the front, the first among equals. */
  lemma {:induction false} SortedBest(s: seq<Candidate>)
    requires (forall c <- s :: Comparable(c)) && exists j :: 0 <= j < |s| && Serves(s[j])
    ensures exists k :: Best(s, true, k) && FirstServing(Ordered(s), s[k])
  {
    hide Before, Insert, FirstServing, Comparable;
    var init, x, n := s[..|s| - 1], s[|s| - 1], |s| - 1;
    assert s == init + [x] && forall j :: 0 <= j < n ==> init[j] == s[j];
    OrderedSorts(init);
    if exists j :: 0 <= j < n && Serves(init[j]) {
      SortedBest(init);
      var k :| Best(init, true, k) && FirstServing(Ordered(init), init[k]);
      InsertFirst(Ordered(init), x, init[k]);
      BestGrows(init, x, k);
      hide Best, Serves;
    } else {
      NoneOrdered(init);
      NoneInserted(Ordered(init), x);
      assert Best(s, true, n);
    }
  }

  lemma Opposite(a: Candidate, b: Candidate)
    ensures Before(a, b) ==> !Before(b, a)
  {
  }

  lemma BestGrows(s: seq<Candidate>, x: Candidate, k: int)
    requires Best(s, true, k) && Comparable(x) && forall c <- s :: Comparable(c)
    ensures Best(s + [x], true, if Serves(x) && Before(x, s[k]) then |s| else k)
    ensures (s + [x])[if Serves(x) && Before(x, s[k]) then |s| else k] == if Serves(x) && Before(x, s[k]) then x else s[k]
  {
    var all := s + [x];
    if Serves(x) && Before(x, s[k]) {
      forall j | 0 <= j < |s| && Serves(all[j]) ensures Before(x, all[j]) {
        if j != k && !Before(x, all[j]) {
          Opposite(s[k], s[j]);
          NotAfterTransitive(s[k], s[j], x);
        }
      }
    }
  }

  lemma PlainBest(s: seq<Candidate>, f: Candidate)
    requires FirstServing(s, f)
    ensures exists k :: Best(s, false, k) && s[k] == f
  {
    var k :| 0 <= k < |s| && s[k] == f && Serves(s[k]) && forall j :: 0 <= j < k ==> !Serves(s[j]);
    assert Best(s, false, k);
  }

  lemma SameFirst(s: seq<Candidate>, f: Candidate, g: Candidate)
    requires FirstServing(s, f) && FirstServing(s, g)
    ensures f == g
  {
  }

  // ---- from the routes that are tried to the candidates ------------------------------------------

  /** Where the routes that are tried stand among the candidates. */
  function Places(candidates: seq<Candidate>, excluded: set<AccountID>): (places: seq<int>)
    ensures forall i :: 0 <= i < |places| ==> 0 <= places[i] < |candidates|
  {
    if candidates == [] then [] else
      var n := |candidates| - 1;
      Places(candidates[..n], excluded) + if Usable(candidates[n], excluded) then [n] else []
  }

  ghost predicate Placed(candidates: seq<Candidate>, excluded: set<AccountID>, places: seq<int>, s: seq<Candidate>) {
    && |places| == |s| && (forall i :: 0 <= i < |places| ==> 0 <= places[i] < |candidates| && candidates[places[i]] == s[i])
    && (forall i, j :: 0 <= i < j < |places| ==> places[i] < places[j])
    && (forall i :: 0 <= i < |candidates| ==> (Usable(candidates[i], excluded) <==> i in places))
  }

  lemma AvailableOneMore(init: seq<Candidate>, c: Candidate, excluded: set<AccountID>)
    ensures var s := Available(Eligible(init, excluded));
            Available(Eligible(init + [c], excluded)) == if Usable(c, excluded) then s + [c] else s
  {
    UsableAre(c, excluded);
    var eligible := Eligible(init, excluded);
    assert (init + [c])[..|init|] == init && (eligible + [c])[..|eligible|] == eligible && eligible + [] == eligible;
    assert Available(eligible) + [] == Available(eligible);
    hide Usable, Candidate.Exhausted;
  }

  lemma PlacesOneMore(init: seq<Candidate>, c: Candidate, excluded: set<AccountID>)
    ensures Places(init + [c], excluded) == if Usable(c, excluded) then Places(init, excluded) + [|init|] else Places(init, excluded)
  {
    assert (init + [c])[..|init|] == init;
    assert Places(init, excluded) + [] == Places(init, excluded);
    hide Usable;
  }

  lemma PlacesNext(init: seq<Candidate>, c: Candidate, excluded: set<AccountID>)
    requires Placed(init, excluded, Places(init, excluded), Available(Eligible(init, excluded)))
    ensures Placed(init + [c], excluded, Places(init + [c], excluded), Available(Eligible(init + [c], excluded)))
  {
    hide Placed, Usable, Places, Available, Eligible;
    AvailableOneMore(init, c, excluded);
    PlacesOneMore(init, c, excluded);
    PlacedOneMore(init, excluded, Places(init, excluded), Available(Eligible(init, excluded)), c);
  }

  lemma {:induction false} PlacesAre(candidates: seq<Candidate>, excluded: set<AccountID>)
    ensures Placed(candidates, excluded, Places(candidates, excluded), Available(Eligible(candidates, excluded)))
  {
    hide *;
    if candidates == [] {
      NoPlaces(excluded);
    } else {
      PlacesAre(candidates[..|candidates| - 1], excluded);
      PlacesNext(candidates[..|candidates| - 1], candidates[|candidates| - 1], excluded);
      assert candidates == candidates[..|candidates| - 1] + [candidates[|candidates| - 1]];
    }
  }

  lemma NoPlaces(excluded: set<AccountID>)
    ensures Placed([], excluded, Places([], excluded), Available(Eligible([], excluded)))
  {
  }

  lemma PlacedOneMore(init: seq<Candidate>, excluded: set<AccountID>, places: seq<int>, s: seq<Candidate>, c: Candidate)
    requires Placed(init, excluded, places, s)
    ensures Usable(c, excluded) ==> Placed(init + [c], excluded, places + [|init|], s + [c])
    ensures !Usable(c, excluded) ==> Placed(init + [c], excluded, places, s)
  {
    var all := init + [c];
    assert forall i :: 0 <= i < |init| ==> all[i] == init[i];
    assert all[|init|] == c;
    assert forall p :: p in places + [|init|] <==> p in places || p == |init|;
    forall p | p in places ensures p < |init| {
      var i :| 0 <= i < |places| && places[i] == p;
    }
  }

  lemma BestChooses(candidates: seq<Candidate>, excluded: set<AccountID>, balanced: bool, places: seq<int>, s: seq<Candidate>, k: int)
    requires Placed(candidates, excluded, places, s) && Best(s, balanced, k)
    ensures Chooses(candidates, excluded, balanced, places[k]) && candidates[places[k]] == s[k]
  {
    var at := places[k];
    assert at in places;
    forall j | j != at && Willing(candidates, excluded, j)
      ensures if balanced then (if j < at then Better(candidates[at], candidates[j]) else !Better(candidates[j], candidates[at])) else at < j
    {
      assert j in places;
      var i :| 0 <= i < |places| && places[i] == j;
      assert Serves(s[i]) && i != k;
      assert i < k ==> places[i] < places[k];
      assert k < i ==> places[k] < places[i];
      BetterIsBefore(candidates[at], candidates[j]);
      BetterIsBefore(candidates[j], candidates[at]);
    }
    hide Before, Better;
  }

  /** The route that a request gets. */
  lemma RouteIsExact(candidates: seq<Candidate>, excluded: set<AccountID>, balanced: bool, route: Candidate)
    requires FirstServing(Tried(candidates, excluded, balanced), route) && forall c <- candidates :: c.Ok()
    ensures exists k :: Chooses(candidates, excluded, balanced, k) && candidates[k] == route
  {
    var s, places := Available(Eligible(candidates, excluded)), Places(candidates, excluded);
    PlacesAre(candidates, excluded);
    AllComparable(candidates, excluded);
    hide Placed, Eligible, Available, Places, Chooses, Best;
    if balanced {
      SomeServes(s, route);
      SortedBest(s);
      var k :| Best(s, true, k) && FirstServing(Ordered(s), s[k]);
      SameFirst(Ordered(s), s[k], route);
      BestChooses(candidates, excluded, true, places, s, k);
    } else {
      PlainBest(s, route);
      var k :| Best(s, false, k) && s[k] == route;
      BestChooses(candidates, excluded, false, places, s, k);
    }
  }

  lemma SomeServes(s: seq<Candidate>, route: Candidate)
    requires FirstServing(Ordered(s), route)
    ensures exists j :: 0 <= j < |s| && Serves(s[j])
  {
    OrderedKeeps(s);
    var k :| 0 <= k < |Ordered(s)| && Ordered(s)[k] == route && Serves(route);
    InMultiset(Ordered(s), route);
    InMultiset(s, route);
    assert route in s;
  }

  lemma AllComparable(candidates: seq<Candidate>, excluded: set<AccountID>)
    requires forall c <- candidates :: c.Ok()
    ensures forall c <- Available(Eligible(candidates, excluded)) :: Comparable(c)
  {
    EligibleAre(candidates, excluded);
    AvailableAre(Eligible(candidates, excluded));
    forall c | c in Available(Eligible(candidates, excluded)) ensures Comparable(c) {
      AvailableIsComparable(c);
    }
  }

  // ---- when nobody serves -------------------------------------------------------------------------

  /** A request is served exactly when every quota of a route that is not excluded can be checked
      and some candidate is willing. */
  lemma ServedExactly(candidates: seq<Candidate>, excluded: set<AccountID>, balanced: bool)
    ensures Servable(candidates, excluded, balanced) <==>
      && (forall c <- candidates :: c.account !in excluded ==> !c.quotaFails)
      && exists i :: Willing(candidates, excluded, i)
  {
    TriedAreUsable(candidates, excluded, balanced);
    hide Usable;
    if i :| Willing(candidates, excluded, i) {
      assert candidates[i] in Tried(candidates, excluded, balanced);
    }
    if c :| c in Tried(candidates, excluded, balanced) && Serves(c) {
      var i :| 0 <= i < |candidates| && candidates[i] == c;
      assert Willing(candidates, excluded, i);
    }
  }

  lemma TriedAreUsable(candidates: seq<Candidate>, excluded: set<AccountID>, balanced: bool)
    ensures forall c :: c in Tried(candidates, excluded, balanced) <==> c in candidates && Usable(c, excluded)
  {
    EligibleAre(candidates, excluded);
    AvailableAre(Eligible(candidates, excluded));
    var s := Available(Eligible(candidates, excluded));
    OrderedKeeps(s);
    forall c ensures c in Ordered(s) <==> c in s {
      InMultiset(Ordered(s), c);
      InMultiset(s, c);
    }
    forall c ensures Usable(c, excluded) <==> c.account !in excluded && !c.Exhausted() {
      UsableAre(c, excluded);
    }
  }

  /** Otherwise the reason is a quota that could not be checked, no route at all, no route with
      quota left, a full account, or a broken one, the first that applies. */
  lemma ReasonIsExact(candidates: seq<Candidate>, excluded: set<AccountID>, balanced: bool)
    ensures WhyNot(candidates, excluded, balanced) ==
      if exists c <- candidates :: c.account !in excluded && c.quotaFails then QuotaCheckFailed
      else if forall c <- candidates :: c.account in excluded then NoRoute
      else if forall c <- candidates :: !Usable(c, excluded) then QuotaExhausted
      else if exists c <- candidates :: Usable(c, excluded) && !c.admits then LimitReached
      else AccountUnavailable
  {
    EligibleAre(candidates, excluded);
    AvailableAre(Eligible(candidates, excluded));
    TriedAreUsable(candidates, excluded, balanced);
    forall c ensures Usable(c, excluded) <==> c.account !in excluded && !c.Exhausted() {
      UsableAre(c, excluded);
    }
    var eligible := Eligible(candidates, excluded);
    assert eligible != [] ==> eligible[0] in eligible;
    assert Available(eligible) != [] ==> Available(eligible)[0] in Available(eligible);
    hide Usable, Tried, Eligible, Available;
  }
}
