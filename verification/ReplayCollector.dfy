/** The collector of a turn's output items: each item once, whether it arrived on its own
    or again inside the final event, with its bytes reserved as it grows. */
module ReplayCollector {
  import opened ReplayBudget
  import opened ReplayItems

  /** What identifies an item: its id, else its call id, else its own bytes (in place of
      their SHA-256 digest). */
  datatype Key = Named(name: string) | Raw(x: Item)

  function KeyOf(x: Item): Key requires Collectable(x) {
    if x.value.id != "" then Named(x.value.id) else if x.value.callID != "" then Named(x.value.callID) else Raw(x)
  }

  predicate Collectable(x: Item) {
    x.decodes && x.value.Object? && x.value.typed && x.value.kind != ""
  }

  /** The events a turn offers to the collector. */
  datatype Offer = ItemDone(x: Item) | Finished(output: seq<Item>) | Other

  function ItemsOf(e: Offer): seq<Item> {
    match e
    case ItemDone(x) => [x]
    case Finished(output) => output
    case Other => []
  }

  // ---- what is collected ---------------------------------------------------------

  predicate Has(items: seq<Item>, k: Key) {
    exists i :: 0 <= i < |items| && Collectable(items[i]) && KeyOf(items[i]) == k
  }

  function Add(items: seq<Item>, x: Item): seq<Item> {
    if Collectable(x) && !Has(items, KeyOf(x)) then items + [x] else items
  }

  function Collected(offered: seq<Item>): seq<Item> {
    if offered == [] then [] else Add(Collected(offered[..|offered| - 1]), offered[|offered| - 1])
  }

  ghost predicate TooLong(offered: seq<Item>) {
    !InLimits(|Collected(offered)|, Size(Collected(offered)))
  }

  lemma {:induction false} StaysTooLong(offered: seq<Item>, more: seq<Item>)
    requires TooLong(offered)
    ensures TooLong(offered + more)
  {
    if more == [] {
      assert offered + more == offered;
    } else {
      var init, x := more[..|more| - 1], more[|more| - 1];
      StaysTooLong(offered, init);
      assert (offered + more)[..|offered + more| - 1] == offered + init;
      var kept := Collected(offered + init);
      assert (kept + [x])[..|kept|] == kept;
    }
  }

  ghost predicate DistinctKeys(items: seq<Item>) {
    && (forall x <- items :: Collectable(x))
    && (forall i, j :: 0 <= i < j < |items| ==> KeyOf(items[i]) != KeyOf(items[j]))
  }

  ghost function Keys(items: seq<Item>): set<Key>
    requires DistinctKeys(items)
  {
    set x | x in items :: KeyOf(x)
  }

  /** Every collectable item is represented exactly once. */
  lemma {:induction false} CollectedOnce(offered: seq<Item>)
    ensures DistinctKeys(Collected(offered))
    ensures forall x <- offered :: Collectable(x) ==> Has(Collected(offered), KeyOf(x))
  {
    if offered != [] {
      var init, x := offered[..|offered| - 1], offered[|offered| - 1];
      CollectedOnce(init);
      var before, after := Collected(init), Collected(offered);
      if Collectable(x) && !Has(before, KeyOf(x)) {
        assert after[|before|] == x;
        forall y | y in init && Collectable(y) ensures Has(after, KeyOf(y)) {
          var i :| 0 <= i < |before| && Collectable(before[i]) && KeyOf(before[i]) == KeyOf(y);
          assert after[i] == before[i];
        }
      }
      forall y | y in offered && Collectable(y) ensures Has(after, KeyOf(y)) {
        if y !in init {
          assert y == x;
        }
      }
    }
  }

  /** Repeating delivered items, as the final event does, changes nothing. */
  lemma {:induction false} RepeatsAddNothing(offered: seq<Item>, again: seq<Item>)
    requires forall x <- again :: Collectable(x) ==> exists y <- offered :: Collectable(y) && KeyOf(y) == KeyOf(x)
    ensures Collected(offered + again) == Collected(offered)
  {
    if again == [] {
      assert offered + again == offered;
    } else {
      var init, x := again[..|again| - 1], again[|again| - 1];
      RepeatsAddNothing(offered, init);
      assert (offered + again)[..|offered + again| - 1] == offered + init;
      CollectedOnce(offered);
    }
  }

  ghost function Holding(r: Reservation?): set<Reservation> {
    if r == null then {} else {r}
  }

  class Collector {
    var items: seq<Item>
    var seen: set<Key>
    var bytes: int
    var exceedsLimit: bool
    var disabled: bool
    const reservation: Reservation?

    constructor (collect: bool, reservation: Reservation?)
      requires reservation != null ==> reservation.bytes == 0
      ensures this.reservation == reservation && Ok() && !exceedsLimit && disabled == !collect && items == []
    {
      items, seen, bytes, exceedsLimit, disabled := [], {}, 0, false, !collect;
      this.reservation := reservation;
    }

    /** While it collects, it has reserved exactly the bytes of its items. */
    ghost predicate Ok() reads this, reservation {
      && (exceedsLimit ==> disabled)
      && (disabled ==> items == [])
      && DistinctKeys(items) && seen == Keys(items)
      && bytes == Size(items) && InLimits(|items|, bytes)
      && (reservation != null ==> reservation.bytes == bytes)
    }

    ghost predicate Owned(holders: set<Reservation>) reads this, reservation, holders, OwnerOf(reservation) {
      reservation != null ==> Ledger(reservation.budget, holders) && reservation in holders
    }

    /** The bytes of the budget that all other reservations hold. */
    ghost function Others(): int reads reservation, OwnerOf(reservation) {
      if reservation == null || reservation.budget == null then 0 else reservation.budget.used - reservation.bytes
    }

    /** These items are within the limits, and in the budget beside `others`. */
    ghost predicate Fits(wanted: seq<Item>, others: int) {
      && InLimits(|wanted|, Size(wanted))
      && (reservation != null && reservation.budget != null ==> others + Size(wanted) <= reservation.budget.limit)
    }

    method Release(ghost holders: set<Reservation>)
      requires Owned(holders)
      modifies this, Holding(reservation)`bytes, OwnerOf(reservation)`used
      ensures Owned(holders) && items == [] && seen == {} && bytes == 0 && (reservation != null ==> reservation.bytes == 0)
      ensures exceedsLimit == old(exceedsLimit) && disabled == old(disabled) && Others() == old(Others())
    {
      hide Ledger;
      if reservation != null {
        reservation.Release(holders);
      }
      items, seen, bytes := [], {}, 0;
    }

    method Disable(ghost holders: set<Reservation>)
      requires Owned(holders)
      modifies this, Holding(reservation)`bytes, OwnerOf(reservation)`used
      ensures Owned(holders) && Ok() && disabled && exceedsLimit == old(exceedsLimit) && Others() == old(Others())
    {
      Release(holders);
      disabled := true;
    }

    /** A new item is kept, and nothing else; collecting stops exactly when the items with it
        exceed a limit or do not fit the budget. */
    method AddItem(x: Item, ghost holders: set<Reservation>)
      requires Owned(holders) && Ok()
      modifies this, Holding(reservation)`bytes, OwnerOf(reservation)`used
      ensures Owned(holders) && Ok() && (old(disabled) ==> disabled)
      ensures !disabled ==> items == Add(old(items), x)
      ensures !old(disabled) ==> (disabled <==> !Fits(Add(old(items), x), old(Others())))
      ensures disabled == old(disabled) ==> exceedsLimit == old(exceedsLimit)
      ensures disabled != old(disabled) ==> exceedsLimit
      ensures Others() == old(Others())
    {
      KeptFits(holders);
      if disabled || !Collectable(x) {
        return;
      }
      var key := KeyOf(x);
      SeenIsHas(items, key);
      if key in seen {
        return;
      }
      KeepItem(x, key, holders);
    }

    /** What is kept fits. */
    lemma KeptFits(holders: set<Reservation>)
      requires Owned(holders) && Ok()
      ensures Fits(items, Others())
    {
      hide Total, DistinctKeys, Keys;
    }

    /** A new item: reserved and kept, or the end of collecting. */
    method KeepItem(x: Item, key: Key, ghost holders: set<Reservation>)
      requires Owned(holders) && Ok() && !disabled && Collectable(x) && key == KeyOf(x) && key !in seen
      modifies this, Holding(reservation)`bytes, OwnerOf(reservation)`used
      ensures Owned(holders) && Ok()
      ensures if disabled then exceedsLimit else items == Add(old(items), x) && exceedsLimit == old(exceedsLimit)
      ensures disabled <==> !Fits(Add(old(items), x), old(Others()))
      ensures Others() == old(Others())
    {
      OneMoreItem(items, x);
      hide Size, DistinctKeys, Keys, Add, Ledger, Collectable, KeyOf;
      var next := bytes + x.size;
      if LimitExceeded(|items| + 1, next) {
        Exceeded(holders);
        return;
      }
      hide LimitExceeded, InLimits;
      var ok := Reserve(next, holders);
      if !ok {
        Exceeded(holders);
        return;
      }
      seen, items, bytes := seen + {key}, items + [x], next;
    }

    method Reserve(next: int, ghost holders: set<Reservation>) returns (ok: bool)
      requires Owned(holders) && 0 <= next
      modifies Holding(reservation)`bytes, OwnerOf(reservation)`used
      ensures Owned(holders) && (ok && reservation != null ==> reservation.bytes == next) && Others() == old(Others())
      ensures ok <==> reservation != null && reservation.budget != null ==> old(Others()) + next <= reservation.budget.limit
    {
      hide Ledger;
      ok := true;
      if reservation != null {
        ok := reservation.Resize(next, holders);
      }
    }

    method Exceeded(ghost holders: set<Reservation>)
      requires Owned(holders)
      modifies this, Holding(reservation)`bytes, OwnerOf(reservation)`used
      ensures Owned(holders) && Ok() && disabled && exceedsLimit && Others() == old(Others())
    {
      Disable(holders);
      exceedsLimit := true;
    }

    method AddEvent(e: Offer, ghost offered: seq<Item>, ghost holders: set<Reservation>)
      requires Owned(holders) && Ok() && (!disabled ==> items == Collected(offered))
      modifies this, Holding(reservation)`bytes, OwnerOf(reservation)`used
      ensures Owned(holders) && Ok() && (old(disabled) ==> disabled)
      ensures !disabled ==> items == Collected(offered + ItemsOf(e))
      ensures !old(disabled) ==> (disabled <==> !Fits(Collected(offered + ItemsOf(e)), old(Others())))
      ensures disabled == old(disabled) ==> exceedsLimit == old(exceedsLimit)
      ensures disabled != old(disabled) ==> exceedsLimit
    {
      hide Size, DistinctKeys, InLimits, Collected, Add, Ledger, Fits;
      KeptFits(holders);
      if disabled {
        return;
      }
      match e
      case ItemDone(x) =>
        CollectedOneMore(offered, x);
        AddItem(x, holders);
      case Finished(output) =>
        AddAll(output, offered, holders);
      case Other =>
        assert offered + [] == offered;
    }

    /** What does not fit does not fit with more. */
    lemma MoreFitsLess(kept: seq<Item>, x: Item, others: int)
      ensures Fits(Add(kept, x), others) ==> Fits(kept, others)
    {
      assert (kept + [x])[..|kept|] == kept;
    }

    method AddAll(output: seq<Item>, ghost offered: seq<Item>, ghost holders: set<Reservation>)
      requires Owned(holders) && Ok() && !disabled && items == Collected(offered)
      modifies this, Holding(reservation)`bytes, OwnerOf(reservation)`used
      ensures Owned(holders) && Ok()
      ensures !disabled ==> items == Collected(offered + output)
      ensures disabled <==> !Fits(Collected(offered + output), old(Others()))
      ensures if disabled then exceedsLimit else exceedsLimit == old(exceedsLimit)
    {
      hide Size, DistinctKeys, InLimits, Collected, Add, Ledger, Fits;
      assert offered + [] == offered;
      KeptFits(holders);
      ghost var others := Others();
      for i := 0 to |output|
        invariant Owned(holders) && Ok() && (!disabled ==> items == Collected(offered + output[..i]))
        invariant if disabled then exceedsLimit else exceedsLimit == old(exceedsLimit)
        invariant Others() == others && (disabled <==> !Fits(Collected(offered + output[..i]), others))
      {
        assert offered + output[..i + 1] == offered + output[..i] + [output[i]];
        CollectedOneMore(offered + output[..i], output[i]);
        MoreFitsLess(Collected(offered + output[..i]), output[i], others);
        AddItem(output[i], holders);
      }
      assert output[..|output|] == output;
    }
  }

  lemma CollectedOneMore(offered: seq<Item>, x: Item)
    ensures Collected(offered + [x]) == Add(Collected(offered), x)
  {
    assert (offered + [x])[..|offered|] == offered;
  }

  lemma SeenIsHas(items: seq<Item>, k: Key)
    requires DistinctKeys(items)
    ensures k in Keys(items) <==> Has(items, k)
  {
    if Has(items, k) {
      var i :| 0 <= i < |items| && Collectable(items[i]) && KeyOf(items[i]) == k;
      assert items[i] in items;
    }
  }

  lemma OneMoreItem(items: seq<Item>, x: Item)
    requires DistinctKeys(items) && Collectable(x) && KeyOf(x) !in Keys(items)
    ensures Add(items, x) == items + [x] && Size(items + [x]) == Size(items) + x.size
    ensures DistinctKeys(items + [x]) && Keys(items + [x]) == Keys(items) + {KeyOf(x)}
  {
    SeenIsHas(items, KeyOf(x));
    assert (items + [x])[..|items|] == items;
  }
}
