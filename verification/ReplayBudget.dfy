/** The byte budget that bounds the replay memory of all WebSocket sessions: a shared
    ledger of reservations. `holders` stands for all reservations of one budget, across
    every session. */
module ReplayBudget {
  import opened MapSums

  const DEFAULT_LIMIT: int := 64 * 1024 * 1024
  const MAX_INT64: int := 0x7FFF_FFFF_FFFF_FFFF

  class Budget {
    const limit: int
    var used: int

    constructor (limit: int)
      requires limit <= MAX_INT64
      ensures this.limit == (if limit > 0 then limit else 64 * 1024 * 1024) && used == 0
      ensures Ledger(this, {})
    {
      this.limit := if limit > 0 then limit else DEFAULT_LIMIT;
      used := 0;
      new;
      assert Bytes({}) == map[];
    }
  }

  /** The budget as a set, for frames; a session may have none. */
  ghost function Owner(budget: Budget?): set<Budget> {
    if budget == null then {} else {budget}
  }

  ghost function OwnerOf(r: Reservation?): set<Budget> {
    if r == null then {} else Owner(r.budget)
  }

  ghost function Bytes(holders: set<Reservation>): map<Reservation, int> reads holders {
    map r | r in holders :: r.bytes
  }

  ghost function Total(holders: set<Reservation>): int reads holders {
    Sum(Bytes(holders))
  }

  /** Used bytes are exactly the sum of all reservations, and within the limit. A session
      without a budget only keeps its reservations non-negative. */
  ghost predicate Ledger(budget: Budget?, holders: set<Reservation>) reads budget, holders {
    && (forall r <- holders :: r.budget == budget && 0 <= r.bytes)
    && (budget != null ==> budget.used == Total(holders) && budget.used <= budget.limit <= MAX_INT64)
  }

  class Reservation {
    const budget: Budget?
    var bytes: int

    constructor (budget: Budget?, ghost holders: set<Reservation>)
      requires Ledger(budget, holders)
      ensures this.budget == budget && bytes == 0 && fresh(this)
      ensures Ledger(budget, holders + {this})
    {
      this.budget, bytes := budget, 0;
      new;
      assert Bytes(holders + {this}) == Bytes(holders)[this := 0];
      SumPut(Bytes(holders), this, 0);
    }

    ghost predicate Acceptable(sources: seq<Reservation?>) {
      forall s <- sources :: s != null ==> s != this && s.budget == budget
    }

    /** Whether the bytes freed by this reservation and the sources make room for `next`. */
    ghost predicate Fits(next: int, sources: seq<Reservation?>) reads this, budget, Distinct(sources) {
      && 0 <= next && Acceptable(sources)
      && (budget != null ==> budget.used - bytes - Total(Distinct(sources)) + next <= budget.limit)
    }

    /** All or nothing: it succeeds exactly when the new size fits. */
    method ReplaceWith(next: int, sources: seq<Reservation?>, ghost holders: set<Reservation>) returns (ok: bool)
      requires Ledger(budget, holders) && this in holders
      requires forall s <- Distinct(sources) :: s.budget == budget ==> s in holders
      modifies this`bytes, Distinct(sources)`bytes, Owner(budget)`used
      ensures Ledger(budget, holders)
      ensures ok == old(Fits(next, sources))
      ensures ok ==> bytes == next && forall s <- Distinct(sources) :: s.bytes == 0
      ensures !ok ==> bytes == old(bytes) && forall s <- Distinct(sources) :: s.bytes == old(s.bytes)
      ensures budget != null ==> budget.used == old(budget.used) + if ok then next - old(bytes + Total(Distinct(sources))) else 0
    {
      if next < 0 {
        return false;
      }
      var distinct, unique := UniqueSources(sources);
      if !distinct {
        return false;
      }
      ghost var freed := Distinct(sources);
      ghost var before := Bytes(holders);
      if budget != null {
        Freed(holders, this, freed);
        var fits, released := AddUp(unique, holders);
        if !fits || released > budget.used {
          return false;
        }
        var retained := budget.used - released;
        if next > budget.limit - retained {
          return false;
        }
        Transfer(before, this, next, freed);
        budget.used := retained + next;
      }
      assert this !in Distinct(unique);
      Move(next, unique, holders);
      assert Bytes(holders) == Zeroed(before, freed)[this := next];
      return true;
    }

    method UniqueSources(sources: seq<Reservation?>) returns (ok: bool, unique: seq<Reservation>)
      ensures ok == Acceptable(sources)
      ensures ok ==> Distinct(unique) == Distinct(sources) && NoRepeats(unique)
    {
      unique := [];
      for i := 0 to |sources|
        invariant Acceptable(sources[..i]) && Distinct(unique) == Distinct(sources[..i]) && NoRepeats(unique)
      {
        OneMore(sources, i);
        var s := sources[i];
        if s != null {
          if s == this || s.budget != budget {
            assert s in sources;
            return false, unique;
          }
          var r: Reservation := s;
          if r !in unique {
            OneMore(unique + [r], |unique|);
            unique := unique + [r];
          }
        }
      }
      assert sources[..|sources|] == sources;
      return true, unique;
    }

    /** The overflow guard never fires while the ledger holds. */
    method AddUp(unique: seq<Reservation>, ghost holders: set<Reservation>) returns (ok: bool, released: int)
      requires budget != null && Ledger(budget, holders) && this in holders && this !in unique
      requires NoRepeats(unique) && Distinct(unique) <= holders
      ensures ok && released == bytes + Total(Distinct(unique)) <= budget.used
    {
      released := bytes;
      assert Bytes(Distinct(unique[..0])) == map[];
      Freed(holders, this, {});
      for i := 0 to |unique|
        invariant released == bytes + Total(Distinct(unique[..i])) <= budget.used
      {
        AddOne(unique, i, holders, this);
        assert unique[i] in Distinct(unique);
        if unique[i].bytes < 0 || released > MAX_INT64 - unique[i].bytes {
          return false, released;
        }
        released := released + unique[i].bytes;
      }
      assert unique[..|unique|] == unique;
      return true, released;
    }

    method Move(next: int, unique: seq<Reservation>, ghost holders: set<Reservation>)
      requires this in holders && this !in unique && Distinct(unique) <= holders
      modifies this`bytes, Distinct(unique)`bytes
      ensures forall r <- holders :: r.bytes == if r == this then next else if r in unique then 0 else old(r.bytes)
    {
      bytes := next;
      for i := 0 to |unique|
        invariant forall r <- holders :: r.bytes == if r == this then next else if r in unique[..i] then 0 else old(r.bytes)
      {
        assert unique[i] in Distinct(unique);
        unique[i].bytes := 0;
      }
    }

    /** `resize`. */
    method Resize(next: int, ghost holders: set<Reservation>) returns (ok: bool)
      requires Ledger(budget, holders) && this in holders
      modifies this`bytes, Owner(budget)`used
      ensures Ledger(budget, holders)
      ensures ok == (0 <= next && (budget != null ==> old(budget.used - bytes) + next <= budget.limit))
      ensures bytes == if ok then next else old(bytes)
      ensures budget != null ==> budget.used == old(budget.used - bytes) + bytes
    {
      assert Bytes(Distinct([])) == map[];
      ok := ReplaceWith(next, [], holders);
    }

    /** Giving bytes back cannot fail, so a session's share always returns. */
    method Release(ghost holders: set<Reservation>)
      requires Ledger(budget, holders) && this in holders
      modifies this`bytes, Owner(budget)`used
      ensures Ledger(budget, holders) && bytes == 0
      ensures budget != null ==> budget.used == old(budget.used - bytes)
    {
      var ok := Resize(0, holders);
    }
  }

  ghost function Distinct(sources: seq<Reservation?>): set<Reservation> {
    set s: Reservation | s in sources
  }

  ghost predicate NoRepeats(unique: seq<Reservation>) {
    forall j, k :: 0 <= j < k < |unique| ==> unique[j] != unique[k]
  }

  lemma OneMore(sources: seq<Reservation?>, i: nat)
    requires i < |sources|
    ensures sources[..i + 1] == sources[..i] + [sources[i]]
    ensures Distinct(sources[..i + 1]) == Distinct(sources[..i]) + if sources[i] == null then {} else {sources[i]}
    ensures i + 1 == |sources| ==> sources[..i + 1] == sources
  {
  }

  // ---- sums over the ledger --------------------------------------------------------

  ghost function Zeroed<K>(m: map<K, int>, s: set<K>): map<K, int> {
    map k | k in m :: if k in s then 0 else m[k]
  }

  ghost function Part<K>(m: map<K, int>, s: set<K>): map<K, int> {
    map k | k in m && k in s :: m[k]
  }

  lemma {:induction false} SumZeroed<K>(m: map<K, int>, s: set<K>)
    requires s <= m.Keys
    ensures Sum(Zeroed(m, s)) == Sum(m) - Sum(Part(m, s))
    decreases s
  {
    if s == {} {
      assert Zeroed(m, s) == m && Part(m, s) == map[];
    } else {
      var k :| k in s;
      SumZeroed(m, s - {k});
      assert Zeroed(m, s) == Zeroed(m, s - {k})[k := 0];
      SumPut(Zeroed(m, s - {k}), k, 0);
      assert Part(m, s) == Part(m, s - {k})[k := m[k]];
      SumPut(Part(m, s - {k}), k, m[k]);
    }
  }

  /** Moving bytes from the sources to one reservation changes the total by exactly what
      that reservation grows beyond what they gave up. */
  lemma Transfer<K>(m: map<K, int>, r: K, next: int, s: set<K>)
    requires r in m && s <= m.Keys && r !in s
    ensures Sum(Zeroed(m, s)[r := next]) == Sum(m) - m[r] - Sum(Part(m, s)) + next
  {
    SumZeroed(m, s);
    SumPut(Zeroed(m, s), r, next);
  }

  lemma PartOfTotal<K>(m: map<K, int>, r: K, s: set<K>)
    requires r in m && s <= m.Keys && r !in s && forall k <- m :: 0 <= m[k]
    ensures 0 <= Sum(Part(m, s)) && m[r] + Sum(Part(m, s)) <= Sum(m)
  {
    SumNonNegative(Part(m, s));
    SumPut(Part(m, s), r, m[r]);
    SumMonotone(Part(m, s)[r := m[r]], m);
  }

  lemma Freed(holders: set<Reservation>, r: Reservation, s: set<Reservation>)
    requires r in holders && s <= holders && r !in s && forall x <- holders :: 0 <= x.bytes
    ensures Part(Bytes(holders), s) == Bytes(s) && 0 <= Total(s) && r.bytes + Total(s) <= Total(holders)
  {
    assert Part(Bytes(holders), s) == Bytes(s);
    PartOfTotal(Bytes(holders), r, s);
  }

  lemma AddOne(unique: seq<Reservation>, i: nat, holders: set<Reservation>, r: Reservation)
    requires i < |unique| && NoRepeats(unique)
    requires r in holders && Distinct(unique) <= holders && r !in Distinct(unique) && forall x <- holders :: 0 <= x.bytes
    ensures Total(Distinct(unique[..i + 1])) == Total(Distinct(unique[..i])) + unique[i].bytes
    ensures r.bytes + Total(Distinct(unique[..i + 1])) <= Total(holders)
  {
    var before, after := Distinct(unique[..i]), Distinct(unique[..i + 1]);
    assert after == before + {unique[i]} && unique[i] !in before;
    assert Bytes(after) == Bytes(before)[unique[i] := unique[i].bytes];
    SumPut(Bytes(before), unique[i], unique[i].bytes);
    Freed(holders, r, after);
  }
}
