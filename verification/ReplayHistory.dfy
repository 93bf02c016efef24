/** The conversation a session could replay on another account: planned before a turn,
    committed after it, with its bytes reserved in the shared budget. */
module ReplayHistory {
  import opened MapSums
  import opened ReplayBudget
  import opened ReplayItems

  datatype Plan = Plan(useHistory: bool, replaceWithCurrent: bool, currentFrom: nat, itemCount: nat, bytes: nat)
  {
    /** `input`: the full input the turn stands for. */
    function Input(history: seq<Item>, current: seq<Item>): (full: seq<Item>)
      ensures useHistory && !replaceWithCurrent ==> full == history + current
    {
      if !useHistory || replaceWithCurrent then current
      else if |current| == 0 then history
      else history + current
    }
  }

  datatype Snapshot = Snapshot(responseID: string, items: seq<Item>, bytes: int, contexts: set<string>, valid: bool)

  /** A plan made for this history and this input. */
  ghost predicate PlanFits(h: Snapshot, p: Plan, current: seq<Item>) {
    && p.itemCount == |p.Input(h.items, current)| && p.bytes == Size(p.Input(h.items, current))
    && (p.useHistory ==> h.valid)
    && (p.replaceWithCurrent ==> p.currentFrom == (if p.useHistory then |h.items| else 0))
    && (p.useHistory && p.replaceWithCurrent ==> HasPrefix(current, h.items))
  }

  /** The conversation with the input of a turn that continues it, or sends it again. */
  function Joined(items: seq<Item>, current: seq<Item>): seq<Item> {
    if HasPrefix(current, items) then current else items + current
  }

  lemma NothingJoined(items: seq<Item>, current: seq<Item>)
    ensures current == [] ==> Joined(items, current) == items
  {
  }

  const NO_PLAN: Plan := Plan(false, false, 0, 0, 0)

  class History {
    var responseID: string
    var items: seq<Item>
    var bytes: int
    var contexts: set<string>
    var valid: bool
    const reservation: Reservation

    constructor (budget: Budget?, ghost holders: set<Reservation>)
      requires Ledger(budget, holders)
      ensures fresh(reservation) && reservation.budget == budget && Ledger(budget, holders + {reservation})
      ensures !valid && Ok()
    {
      responseID, items, bytes, contexts, valid := "", [], 0, {}, false;
      reservation := new Reservation(budget, holders);
    }

    /** A valid history passes the whole context check on its own, provides exactly the
        contexts it stores, and has reserved exactly its own bytes. */
    ghost predicate Ok() reads this, reservation {
      if valid then
        && responseID != "" && Complete(items) && contexts == Contexts(items)
        && bytes == Size(items) == reservation.bytes && InLimits(|items|, bytes)
      else responseID == "" && items == [] && bytes == 0 && contexts == {} && reservation.bytes == 0
    }

    ghost function Value(): Snapshot reads this {
      Snapshot(responseID, items, bytes, contexts, valid)
    }

    ghost predicate Fits(p: Plan, current: seq<Item>) reads this {
      PlanFits(Value(), p, current)
    }

    /** When the turn may move to another account: exactly when its whole input is known,
        within the limits and free of anything bound to the first account. A turn that
        continues nothing may also move when its input has a shape that is not understood. */
    ghost predicate MayMove(previous: string, current: seq<Item>, replayable: bool) reads this {
      if previous == "" then !replayable || Complete(current)
      else
        var whole := Joined(items, current);
        valid && replayable && previous == responseID && InLimits(|whole|, Size(whole)) && Complete(whole)
    }

    /** `plan`, for a trimmed previous response id. */
    method MakePlan(previous: string, current: seq<Item>, exists_: bool, replayable: bool) returns (p: Plan, retrySafe: bool, commitSafe: bool)
      requires Ok() && (!exists_ ==> current == [])
      ensures retrySafe == MayMove(previous, current, replayable)
      ensures commitSafe == (retrySafe && replayable)
      ensures retrySafe ==> Fits(p, current) && p.useHistory == (previous != "")
      ensures retrySafe ==> p.Input(items, current) == if previous == "" then current else Joined(items, current)
    {
      hide Portable, Required, SameItem, Size;
      var size := RawBytes(current);
      if previous == "" {
        p := Plan(false, true, 0, |current|, size);
        retrySafe := true;
        if replayable {
          var _, complete := ToolContextDelta({}, [current]);
          retrySafe := complete;
          Single(current);
        }
        return p, retrySafe, replayable && retrySafe;
      }
      if !valid || !replayable || previous != responseID {
        return NO_PLAN, false, false;
      }
      hide Complete, Contexts, Size, Portable, Required, SameItem;
      p := Plan(true, false, 0, |items| + |current|, bytes + size);
      SizeConcat(items, current);
      var more := current;
      if exists_ && |current| > 0 {
        var same := RawPrefix(current, items);
        if same {
          p := Plan(true, true, |items|, |current|, size);
          more := current[|items|..];
        }
      }
      NothingJoined(items, current);
      assert p.Input(items, current) == Joined(items, current);
      if LimitExceeded(p.itemCount, p.bytes) {
        return p, false, false;
      }
      var _, complete := ToolContextDelta(contexts, [more]);
      Single(more);
      WholeInput(items, current, p.replaceWithCurrent);
      return p, complete, complete;
    }

    /** Forgets the conversation and gives its bytes back. */
    method Invalidate(ghost holders: set<Reservation>)
      requires Ledger(reservation.budget, holders) && reservation in holders
      modifies this, reservation`bytes, Owner(reservation.budget)`used
      ensures Ledger(reservation.budget, holders) && Ok() && !valid
      ensures reservation.budget != null ==> reservation.budget.used == old(reservation.budget.used - reservation.bytes)
    {
      responseID, items, bytes, contexts, valid := "", [], 0, {}, false;
      reservation.Release(holders);
    }

    method Reject(current: Reservation?, output: Reservation?, ghost holders: set<Reservation>)
      requires Ledger(reservation.budget, holders) && reservation in holders
      requires forall r <- [current, output] :: r != null ==> r in holders
      modifies this, reservation`bytes, Distinct([current, output])`bytes, Owner(reservation.budget)`used
      requires forall r <- [current, output] :: r != null ==> r != reservation
      ensures Ledger(reservation.budget, holders) && Ok() && !valid
      ensures forall r <- Distinct([current, output]) :: r.bytes == 0
      ensures reservation.budget != null ==>
        reservation.budget.used == old(reservation.budget.used - reservation.bytes - Total(Distinct([current, output])))
    {
      TwoSources(current, output);
      Invalidate(holders);
      if current != null {
        assert current in [current, output];
        current.Release(holders);
      }
      if output != null {
        assert output in [current, output];
        output.Release(holders);
      }
    }

    /** Whether the conversation including a finished turn may be kept. */
    ghost predicate Worthy(id: string, p: Plan, current: seq<Item>, output: seq<Item>, replayable: bool) reads this {
      var whole := p.Input(items, current) + output;
      replayable && id != "" && Complete(whole) && InLimits(|whole|, Size(whole))
    }

    method Judge(id: string, p: Plan, current: seq<Item>, output: seq<Item>, replayable: bool) returns (ok: bool, total: int, found: set<string>)
      requires Ok() && (replayable ==> Fits(p, current))
      ensures ok == Worthy(id, p, current, output, replayable)
      ensures ok ==> total == Size(p.Input(items, current) + output)
      ensures ok ==> Contexts(p.Input(items, current) + output) == (if p.useHistory then contexts else {}) + found
    {
      total, found := 0, {};
      if !replayable || id == "" {
        return false, total, found;
      }
      SizeConcat(p.Input(items, current), output);
      var added := RawBytes(output);
      total := p.bytes + added;
      if LimitExceeded(p.itemCount + |output|, total) {
        return false, total, found;
      }
      var more, existing := current, {};
      if p.useHistory {
        existing := contexts;
        if p.replaceWithCurrent {
          more := current[p.currentFrom..];
        }
      }
      WholeTurn(items, current, output, p.useHistory, p.replaceWithCurrent);
      found, ok := ToolContextDelta(existing, [more, output]);
    }

    /** `commit`, for a trimmed response id: the history becomes the whole conversation
        including the new output, or is given up; either way the turn's own reservations
        are empty afterwards. */
    method Commit(id: string, p: Plan, current: seq<Item>, output: seq<Item>, replayable: bool,
                  currentReservation: Reservation?, outputReservation: Reservation?, ghost holders: set<Reservation>)
      requires Ok() && Ledger(reservation.budget, holders) && reservation in holders && (replayable ==> Fits(p, current))
      requires forall r <- [currentReservation, outputReservation] :: r != null ==> r in holders && r != reservation
      modifies this, reservation`bytes, Distinct([currentReservation, outputReservation])`bytes, Owner(reservation.budget)`used
      ensures Ledger(reservation.budget, holders) && Ok()
      ensures valid == old(Worthy(id, p, current, output, replayable)
                          && reservation.Fits(Size(p.Input(items, current) + output), [currentReservation, outputReservation]))
      ensures valid ==> responseID == id && items == p.Input(old(items), current) + output
      ensures forall r <- Distinct([currentReservation, outputReservation]) :: r.bytes == 0
      ensures reservation.budget != null ==>
        reservation.budget.used - reservation.bytes
        == old(reservation.budget.used - reservation.bytes - Total(Distinct([currentReservation, outputReservation])))
    {
      hide Complete, Contexts, Size, Total;
      var ok, total, found := Judge(id, p, current, output, replayable);
      if ok {
        ok := reservation.ReplaceWith(total, [currentReservation, outputReservation], holders);
      }
      if !ok {
        Reject(currentReservation, outputReservation, holders);
        return;
      }
      Install(id, p, current, output, total, found);
    }

    method Install(id: string, p: Plan, current: seq<Item>, output: seq<Item>, total: int, found: set<string>)
      modifies this
      ensures items == p.Input(old(items), current) + output && responseID == id && bytes == total && valid
      ensures contexts == (if p.useHistory then old(contexts) else {}) + found
    {
      if !p.useHistory {
        items, contexts := current, {};
      } else if p.replaceWithCurrent {
        items := current;
      } else {
        items := items + current;
      }
      items := items + output;
      contexts := contexts + found;
      responseID, bytes, valid := id, total, true;
    }
  }

  lemma TwoSources(a: Reservation?, b: Reservation?)
    ensures Total(Distinct([a, b])) == (if a == null then 0 else a.bytes) + (if b == null || b == a then 0 else b.bytes)
  {
    var one, all := OneSource(a), Distinct([a, b]);
    assert all == one + OneSource(b) by {
      assert forall r :: r in all <==> r in [a, b];
    }
    assert Bytes({}) == map[];
    if a == null {
      assert one == {} && Bytes(one) == map[];
    } else {
      var r: Reservation := a;
      assert one == {r} && Bytes(one) == Bytes({})[r := r.bytes];
      SumPut(Bytes({}), r, r.bytes);
    }
    assert Total(one) == if a == null then 0 else a.bytes;
    if b == null || b == a {
      assert all == one;
    } else {
      var r: Reservation := b;
      assert all == one + {r} && r !in one;
      assert Bytes(all) == Bytes(one)[r := r.bytes];
      SumPut(Bytes(one), r, r.bytes);
    }
  }

  ghost function OneSource(a: Reservation?): set<Reservation> {
    if a == null then {} else {a}
  }

  lemma Single(items: seq<Item>)
    ensures Flat([items]) == items
    ensures Extends({}, items) <==> Complete(items)
  {
    assert [items][..0] == [];
  }

  lemma Pair(a: seq<Item>, b: seq<Item>)
    ensures Flat([a, b]) == a + b
  {
    Single(a);
    assert [a, b][..1] == [a];
  }

  /** What the incremental check of a continued turn says about its whole input. */
  lemma WholeInput(items: seq<Item>, current: seq<Item>, resent: bool)
    requires Complete(items) && (resent ==> HasPrefix(current, items))
    ensures var more := if resent then current[|items|..] else current;
            var whole := if resent then current else items + current;
            && (Extends(Contexts(items), more) <==> Complete(whole))
            && Contexts(whole) == Contexts(items) + Contexts(more)
  {
    if resent {
      SamePrefixSameContexts(current, items);
      IncrementalIsBatch(current[..|items|], current[|items|..]);
      assert current[..|items|] + current[|items|..] == current;
    } else {
      IncrementalIsBatch(items, current);
    }
  }

  lemma WholeTurn(items: seq<Item>, current: seq<Item>, output: seq<Item>, useHistory: bool, resent: bool)
    requires useHistory ==> Complete(items) && (resent ==> HasPrefix(current, items))
    ensures var more := if useHistory && resent then current[|items|..] else current;
            var existing := if useHistory then Contexts(items) else {};
            var whole := (if !useHistory || resent then current else items + current) + output;
            && Flat([more, output]) == more + output
            && (Extends(existing, more + output) <==> Complete(whole))
            && Contexts(whole) == existing + Contexts(more + output)
  {
    var more := if useHistory && resent then current[|items|..] else current;
    Pair(more, output);
    if useHistory {
      if resent {
        assert (current + output)[|items|..] == more + output;
        WholeInput(items, current + output, true);
      } else {
        assert items + (current + output) == items + current + output;
        WholeInput(items, current + output, false);
      }
    }
  }
}
