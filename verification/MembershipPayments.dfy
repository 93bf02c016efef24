/** Confirming payments of membership orders and resolving the ones marked for review. Each
    is one transaction over the user's membership and the order. */
module MembershipPayments {
  import opened MapSums
  import opened Units

  const PERIOD: int := 720 * HOUR

  type OrderID = nat
  type TradeNo = nat // zero is the empty string

  datatype Tier = Vip | Svip

  datatype Product = Buy(tier: Tier) | Upgrade

  /** `tier` None is "none"; revisions start at one, a missing row counts as zero. */
  datatype Member = Member(tier: Option<Tier>, expires: Option<int>, revision: nat)
  {
    predicate Active(now: int) {
      tier.Some? && expires.Some? && expires.value > now
    }
  }

  datatype Status = Open | Paid | Review // pending and expired orders are both open to a payment

  datatype Order = Order(
    user: UserID, base: nat, pid: nat, amount: int, product: Product, revision: nat, upgradeExpires: Option<int>,
    status: Status, trade: TradeNo, paidAt: int, serviceExpires: Option<int>)

  datatype Db = Db(members: map<UserID, Member>, orders: map<OrderID, Order>)

  datatype Result = Confirmed | InvalidInput | Conflict | NotFound

  const NOBODY: Member := Member(None, None, 0)

  function MemberOf(db: Db, u: UserID): Member {
    if u in db.members then db.members[u] else NOBODY
  }

  /** What a payment buys: nothing yet (manual review), or a tier until a time. */
  function Grant(m: Member, o: Order, now: int): Option<(Tier, int)> {
    match o.product
    case Upgrade =>
      if !m.Active(now) || m.tier != Some(Vip) || m.revision != o.revision || o.upgradeExpires.None? || o.upgradeExpires.value <= now then None
      else Some((Svip, o.upgradeExpires.value))
    case Buy(tier) =>
      if m.Active(now) && m.tier != Some(tier) then None
      else Some((tier, (if m.Active(now) then m.expires.value else now) + PERIOD))
  }

  predicate SameTrade(db: Db, id: OrderID, o: Order, trade: TradeNo, i: OrderID) requires i in db.orders {
    i != id && db.orders[i].status != Open && db.orders[i].base == o.base && db.orders[i].pid == o.pid && db.orders[i].trade == trade
  }

  /** The unique index on provider and trade number. */
  predicate TradeTaken(db: Db, id: OrderID, o: Order, trade: TradeNo) {
    exists i :: i in db.orders && SameTrade(db, id, o, trade, i)
  }

  function Fulfil(db: Db, id: OrderID, trade: TradeNo, now: int): Db requires id in db.orders {
    var o := db.orders[id];
    var m := MemberOf(db, o.user);
    match Grant(m, o, now)
    case None => db.(orders := db.orders[id := o.(status := Review, trade := trade, paidAt := now, serviceExpires := None)])
    case Some(g) => Db(
      db.members[o.user := Member(Some(g.0), Some(g.1), m.revision + 1)],
      db.orders[id := o.(status := Paid, trade := trade, paidAt := now, serviceExpires := Some(g.1))])
  }

  /** `ConfirmMembershipPayment`. */
  ghost function Confirm(db: Db, id: OrderID, trade: TradeNo, pid: nat, amount: int, now: int): (Db, Result) {
    if trade == 0 then (db, InvalidInput)
    else if id !in db.orders then (db, NotFound)
    else
      var o := db.orders[id];
      if o.pid != pid || o.amount != amount then (db, InvalidInput)
      else if o.status != Open then (db, if o.trade == trade then Confirmed else Conflict)
      else if TradeTaken(db, id, o, trade) then (db, Conflict)
      else (Fulfil(db, id, trade, now), Confirmed)
  }

  /** The order may be resolved for this user. */
  predicate Reviewed(db: Db, user: UserID, id: OrderID) {
    id in db.orders && db.orders[id].user == user && db.orders[id].status == Review
  }

  function Resolved(o: Order, expires: Option<int>): Order {
    o.(status := Paid, serviceExpires := expires)
  }

  /** `AdjustMembership`: an administrator sets a membership at the revision that was looked
      at, and may settle one order under review with it. */
  function Adjust(db: Db, user: UserID, tier: Option<Tier>, expires: Option<int>, revision: nat, review: Option<OrderID>): (Db, Result) {
    var m := MemberOf(db, user);
    if m.revision != revision || (review.Some? && !Reviewed(db, user, review.value)) then (db, Conflict)
    else (Db(
      db.members[user := Member(tier, expires, m.revision + 1)],
      if review.Some? then db.orders[review.value := Resolved(db.orders[review.value], expires)] else db.orders), Confirmed)
  }

  class Payments {
    var db: Db

    constructor ()
      ensures db == Db(map[], map[])
    {
      db := Db(map[], map[]);
    }

    method ConfirmPayment(id: OrderID, trade: TradeNo, pid: nat, amount: int, now: int) returns (r: Result)
      modifies this
      ensures (db, r) == Confirm(old(db), id, trade, pid, amount, now)
    {
      if trade == 0 {
        return InvalidInput;
      }
      if id !in db.orders {
        return NotFound;
      }
      var order := db.orders[id];
      if order.pid != pid || order.amount != amount {
        return InvalidInput;
      }
      if order.status != Open {
        return if order.trade != trade then Conflict else Confirmed;
      }
      var member := MemberOf(db, order.user);
      var members := db.members;
      var status, expires := Paid, None;
      var tier := if order.product.Upgrade? then Svip else order.product.tier;
      if order.product.Upgrade? {
        if !member.Active(now) || member.tier != Some(Vip) || member.revision != order.revision || order.upgradeExpires.None? || order.upgradeExpires.value <= now {
          status := Review;
        } else {
          expires := order.upgradeExpires;
        }
      } else if member.Active(now) && member.tier != Some(tier) {
        status := Review;
      } else {
        var start := now;
        if member.Active(now) {
          start := member.expires.value;
        }
        expires := Some(start + PERIOD);
      }
      if status == Paid {
        members := members[order.user := Member(Some(tier), expires, member.revision + 1)];
      }
      var taken := Taken(db, id, order, trade);
      if taken {
        return Conflict;
      }
      db := Db(members, db.orders[id := order.(status := status, trade := trade, paidAt := now, serviceExpires := expires)]);
      return Confirmed;
    }

    method AdjustMembership(user: UserID, tier: Option<Tier>, expires: Option<int>, revision: nat, review: Option<OrderID>) returns (r: Result)
      modifies this
      ensures (db, r) == Adjust(old(db), user, tier, expires, revision, review)
    {
      var member := MemberOf(db, user);
      if member.revision != revision {
        return Conflict;
      }
      var orders := db.orders;
      if review.Some? {
        if review.value !in orders || orders[review.value].user != user || orders[review.value].status != Review {
          return Conflict;
        }
        orders := orders[review.value := orders[review.value].(status := Paid, serviceExpires := expires)];
      }
      db := Db(db.members[user := Member(tier, expires, member.revision + 1)], orders);
      return Confirmed;
    }
  }

  method Taken(db: Db, id: OrderID, o: Order, trade: TradeNo) returns (taken: bool)
    ensures taken == TradeTaken(db, id, o, trade)
  {
    taken := false;
    var todo := db.orders.Keys;
    while todo != {}
      invariant todo <= db.orders.Keys
      invariant taken <==> exists i :: i in db.orders && i !in todo && SameTrade(db, id, o, trade, i)
      decreases todo
    {
      var i :| i in todo;
      var x := db.orders[i];
      if i != id && x.status != Open && x.base == o.base && x.pid == o.pid && x.trade == trade {
        taken := true;
      }
      todo := todo - {i};
    }
  }

  // ---- runs ---------------------------------------------------------------------------

  datatype Event =
    | Pay(id: OrderID, trade: TradeNo, pid: nat, amount: int, now: int)
    | Place(id: OrderID, order: Order)
    | AdjustBy(user: UserID, tier: Option<Tier>, expires: Option<int>, revision: nat, review: Option<OrderID>)
    | Rollout(user: UserID, tier: Option<Tier>, expires: Option<int>) // the gift at the start of billing

  predicate Enabled(db: Db, e: Event) {
    e.Place? ==> e.id !in db.orders && e.order.status == Open
  }

  ghost function Step(db: Db, e: Event): Db requires Enabled(db, e) {
    match e
    case Pay(id, trade, pid, amount, now) => Confirm(db, id, trade, pid, amount, now).0
    case Place(id, order) => db.(orders := db.orders[id := order])
    case AdjustBy(user, tier, expires, revision, review) => Adjust(db, user, tier, expires, revision, review).0
    case Rollout(user, tier, expires) => db.(members := db.members[user := Member(tier, expires, MemberOf(db, user).revision + 1)])
  }

  /** A payment or a resolution of order `id`. */
  predicate Concerns(e: Event, id: OrderID) {
    (e.Pay? && e.id == id) || (e.AdjustBy? && e.review == Some(id))
  }

  /** Whether this step wrote a membership on account of order `id`. */
  ghost predicate Granted(db: Db, e: Event, id: OrderID) {
    Enabled(db, e) && Concerns(e, id) && Step(db, e).members != db.members
  }

  ghost function Grants(db: Db, es: seq<Event>, id: OrderID): nat
    decreases |es|
  {
    if es == [] || !Enabled(db, es[0]) then 0
    else (if Granted(db, es[0], id) then 1 else 0) + Grants(Step(db, es[0]), es[1..], id)
  }

  predicate Closed(db: Db, id: OrderID) {
    id in db.orders && db.orders[id].status != Open
  }

  /** An administrator's resolution of order `id` that goes through. */
  predicate Resolves(db: Db, e: Event, id: OrderID) {
    e.AdjustBy? && e.review == Some(id) && Reviewed(db, e.user, id) && e.revision == MemberOf(db, e.user).revision
  }

  /** A closed order changes exactly when it is under review and gets resolved: it is then
      paid until the time that was set, and keeps its trade and payment. A paid one never
      changes. Confirming a closed order again, with the same trade number or another one,
      changes nothing at all. */
  lemma ClosedChangesByResolution(db: Db, e: Event, id: OrderID)
    requires Closed(db, id) && Enabled(db, e)
    ensures Closed(Step(db, e), id)
    ensures Step(db, e).orders[id] != db.orders[id] <==> Resolves(db, e, id)
    ensures Resolves(db, e, id) ==> db.orders[id].status == Review && Step(db, e).orders[id] == Resolved(db.orders[id], e.expires)
    ensures e.Pay? && e.id == id ==> Step(db, e) == db
  {
  }

  /** Over any run, a closed order keeps its trade number and time of payment, and once it is
      paid the whole record. */
  lemma {:induction false} PaidIsFinal(db: Db, es: seq<Event>, id: OrderID)
    requires Closed(db, id) && RunOf(db, es).Some?
    ensures Closed(RunOf(db, es).value, id)
    ensures var o, p := db.orders[id], RunOf(db, es).value.orders[id];
            p == o.(status := p.status, serviceExpires := p.serviceExpires) && (o.status == Paid ==> p == o)
    decreases |es|
  {
    if es != [] {
      ClosedChangesByResolution(db, es[0], id);
      PaidIsFinal(Step(db, es[0]), es[1..], id);
    }
  }

  ghost function RunOf(db: Db, es: seq<Event>): Option<Db>
    decreases |es|
  {
    if es == [] then Some(db) else if Enabled(db, es[0]) then RunOf(Step(db, es[0]), es[1..]) else None
  }

  lemma {:induction false} NoGrantOncePaid(db: Db, es: seq<Event>, id: OrderID)
    requires Closed(db, id) && db.orders[id].status == Paid
    ensures Grants(db, es, id) == 0
    decreases |es|
  {
    if es != [] && Enabled(db, es[0]) {
      ClosedChangesByResolution(db, es[0], id);
      NoGrantOncePaid(Step(db, es[0]), es[1..], id);
    }
  }

  /** What writes a membership on account of an order leaves the order paid. */
  lemma GrantPays(db: Db, e: Event, id: OrderID)
    requires Granted(db, e, id)
    ensures Closed(Step(db, e), id) && Step(db, e).orders[id].status == Paid
  {
  }

  /** Over any sequence of confirmations, resolutions, new orders and other changes, the
      payments and the resolution of an order together write a membership at most once. */
  lemma {:induction false} GrantsAtMostOnce(db: Db, es: seq<Event>, id: OrderID)
    ensures Grants(db, es, id) <= 1
    decreases |es|
  {
    if es != [] && Enabled(db, es[0]) {
      GrantsAtMostOnce(Step(db, es[0]), es[1..], id);
      if Granted(db, es[0], id) {
        GrantPays(db, es[0], id);
        NoGrantOncePaid(Step(db, es[0]), es[1..], id);
      }
    }
  }

  /** An order marked for review leaves every membership alone; one that is paid changes only
      its own user's. */
  lemma ReviewTouchesNothing(db: Db, id: OrderID, trade: TradeNo, pid: nat, amount: int, now: int)
    ensures var after := Confirm(db, id, trade, pid, amount, now).0;
            && (Closed(after, id) && after.orders[id].status == Review ==> after.members == db.members)
            && (forall u :: id !in db.orders || u != db.orders[id].user ==> (u in after.members <==> u in db.members) && (u in db.members ==> after.members[u] == db.members[u]))
            && (forall i <- db.orders :: i != id ==> i in after.orders && after.orders[i] == db.orders[i])
  {
  }

  // ---- renewals ----------------------------------------------------------------------------

  datatype Renewal = Renewal(id: OrderID, trade: TradeNo, now: int)

  ghost function PayAll(db: Db, rs: seq<Renewal>): Db
    decreases |rs|
  {
    if rs == [] then db else
      var init, r := PayAll(db, rs[..|rs| - 1]), rs[|rs| - 1];
      if r.id in init.orders then Confirm(init, r.id, r.trade, init.orders[r.id].pid, init.orders[r.id].amount, r.now).0 else init
  }

  /** Distinct open orders of the user's own tier, with trade numbers of their own, all
      confirmed while the membership is still active. */
  ghost predicate Renewals(db: Db, u: UserID, rs: seq<Renewal>) {
    && MemberOf(db, u).tier.Some? && MemberOf(db, u).expires.Some?
    && (forall i :: 0 <= i < |rs| ==> RenewalOk(db, u, rs[i]) && Extended(MemberOf(db, u), i).Active(rs[i].now))
    && (forall i, j :: 0 <= i < j < |rs| ==> rs[i].id != rs[j].id && rs[i].trade != rs[j].trade)
  }

  ghost predicate RenewalOk(db: Db, u: UserID, r: Renewal) {
    var m := MemberOf(db, u);
    && r.id in db.orders && r.trade != 0 && m.tier.Some?
    && db.orders[r.id].user == u && db.orders[r.id].status == Open && db.orders[r.id].product == Buy(m.tier.value)
    && (forall i <- db.orders :: db.orders[i].status != Open ==> db.orders[i].trade != r.trade)
  }

  function Extended(m: Member, n: nat): Member requires m.expires.Some? {
    m.(expires := Some(m.expires.value + n * PERIOD), revision := m.revision + n)
  }

  /** What the renewals do to the orders: only they are closed, under their own numbers. */
  ghost predicate OrdersAfter(db: Db, rs: seq<Renewal>, after: Db) {
    && after.orders.Keys == db.orders.Keys
    && (forall i <- db.orders :: (forall k :: 0 <= k < |rs| ==> rs[k].id != i) ==> after.orders[i] == db.orders[i])
    && (forall i <- db.orders :: after.orders[i].status != Open ==> db.orders[i] == after.orders[i] || exists k :: 0 <= k < |rs| && rs[k].trade == after.orders[i].trade)
  }

  lemma PayOne(db: Db, u: UserID, r: Renewal)
    requires r.id in db.orders && r.trade != 0 && MemberOf(db, u).Active(r.now)
    requires db.orders[r.id].user == u && db.orders[r.id].status == Open && db.orders[r.id].product == Buy(MemberOf(db, u).tier.value)
    requires !TradeTaken(db, r.id, db.orders[r.id], r.trade)
    ensures var after := Confirm(db, r.id, r.trade, db.orders[r.id].pid, db.orders[r.id].amount, r.now).0;
            && MemberOf(after, u) == Extended(MemberOf(db, u), 1)
            && after.orders.Keys == db.orders.Keys && after.orders[r.id].trade == r.trade
            && (forall i <- db.orders :: i != r.id ==> after.orders[i] == db.orders[i])
  {
  }

  lemma ExtendedOnce(m: Member, n: nat)
    requires m.expires.Some?
    ensures Extended(Extended(m, n), 1) == Extended(m, n + 1) && Extended(m, n).tier == m.tier
  {
    assert (n + 1) * PERIOD == n * PERIOD + PERIOD;
  }

  /** n renewals extend the membership by exactly n periods, whatever their order and times. */
  lemma {:induction false} RenewalsAddUp(db: Db, u: UserID, rs: seq<Renewal>)
    requires Renewals(db, u, rs)
    ensures MemberOf(PayAll(db, rs), u) == Extended(MemberOf(db, u), |rs|)
    ensures OrdersAfter(db, rs, PayAll(db, rs))
    decreases |rs|
  {
    if rs != [] {
      var n := |rs| - 1;
      var init, r := rs[..n], rs[n];
      assert RenewalOk(db, u, r) && Extended(MemberOf(db, u), n).Active(r.now);
      RenewalsAddUp(db, u, init);
      var before := PayAll(db, init);
      LastIsOpen(db, before, rs, u);
      ExtendedOnce(MemberOf(db, u), n);
      PayOne(before, u, r);
      MoreOrders(db, before, rs, Confirm(before, r.id, r.trade, before.orders[r.id].pid, before.orders[r.id].amount, r.now).0);
      hide Confirm, Extended, OrdersAfter, Renewals, RenewalOk, TradeTaken, Member.Active;
      assert PayAll(db, rs) == Confirm(before, r.id, r.trade, before.orders[r.id].pid, before.orders[r.id].amount, r.now).0;
    }
  }

  lemma LastIsOpen(db: Db, before: Db, rs: seq<Renewal>, u: UserID)
    requires rs != [] && Renewals(db, u, rs) && OrdersAfter(db, rs[..|rs| - 1], before)
    ensures var r := rs[|rs| - 1];
            r.id in before.orders && before.orders[r.id] == db.orders[r.id] && !TradeTaken(before, r.id, before.orders[r.id], r.trade)
  {
    var init, r := rs[..|rs| - 1], rs[|rs| - 1];
    assert RenewalOk(db, u, r);
    forall k | 0 <= k < |init| ensures init[k].id != r.id {
      assert rs[k].id != rs[|rs| - 1].id;
    }
    NotTaken(db, before, rs, u);
  }

  lemma MoreOrders(db: Db, before: Db, rs: seq<Renewal>, after: Db)
    requires rs != [] && OrdersAfter(db, rs[..|rs| - 1], before) && rs[|rs| - 1].id in db.orders
    requires after.orders.Keys == before.orders.Keys && after.orders[rs[|rs| - 1].id].trade == rs[|rs| - 1].trade
    requires forall i <- before.orders :: i != rs[|rs| - 1].id ==> after.orders[i] == before.orders[i]
    ensures OrdersAfter(db, rs, after)
  {
    var init := rs[..|rs| - 1];
    forall i | i in db.orders && after.orders[i].status != Open && db.orders[i] != after.orders[i] && i != rs[|rs| - 1].id
      ensures exists k :: 0 <= k < |rs| && rs[k].trade == after.orders[i].trade
    {
      var k :| 0 <= k < |init| && init[k].trade == before.orders[i].trade;
      assert rs[k] == init[k];
    }
    forall i | i in db.orders && (forall k :: 0 <= k < |rs| ==> rs[k].id != i) ensures after.orders[i] == db.orders[i] {
      assert forall k :: 0 <= k < |init| ==> init[k] == rs[k];
    }
  }

  lemma NotTaken(db: Db, before: Db, rs: seq<Renewal>, u: UserID)
    requires rs != [] && Renewals(db, u, rs) && OrdersAfter(db, rs[..|rs| - 1], before)
    ensures var r := rs[|rs| - 1]; r.id in db.orders && !TradeTaken(before, r.id, db.orders[r.id], r.trade)
  {
    var r := rs[|rs| - 1];
    assert RenewalOk(db, u, r);
    forall i | i in before.orders && before.orders[i].status != Open ensures before.orders[i].trade != r.trade {
      if db.orders[i] != before.orders[i] {
        var k :| 0 <= k < |rs| - 1 && rs[..|rs| - 1][k].trade == before.orders[i].trade;
        assert rs[k].trade != rs[|rs| - 1].trade;
      }
    }
  }

  // ---- upgrades --------------------------------------------------------------------------------

  /** An upgrade is fulfilled only on the membership revision it was ordered for. */
  ghost predicate Upgrades(db: Db, e: Event, u: UserID, revision: nat) {
    && e.Pay? && Granted(db, e, e.id) && e.id in db.orders && db.orders[e.id].product.Upgrade?
    && db.orders[e.id].user == u && db.orders[e.id].revision == revision
  }

  ghost function UpgradeCount(db: Db, es: seq<Event>, u: UserID, revision: nat): nat
    decreases |es|
  {
    if es == [] || !Enabled(db, es[0]) then 0
    else (if Upgrades(db, es[0], u, revision) then 1 else 0) + UpgradeCount(Step(db, es[0]), es[1..], u, revision)
  }

  lemma RevisionsGrow(db: Db, e: Event, u: UserID)
    requires Enabled(db, e)
    ensures MemberOf(db, u).revision <= MemberOf(Step(db, e), u).revision
    ensures forall r: nat :: Upgrades(db, e, u, r) ==> MemberOf(db, u).revision == r && MemberOf(Step(db, e), u).revision == r + 1
  {
  }

  lemma {:induction false} NoUpgradePastRevision(db: Db, es: seq<Event>, u: UserID, revision: nat)
    requires MemberOf(db, u).revision > revision
    ensures UpgradeCount(db, es, u, revision) == 0
    decreases |es|
  {
    if es != [] && Enabled(db, es[0]) {
      RevisionsGrow(db, es[0], u);
      NoUpgradePastRevision(Step(db, es[0]), es[1..], u, revision);
    }
  }

  /** At most one upgrade is fulfilled per revision of a membership, over every run. */
  lemma {:induction false} OneUpgradePerRevision(db: Db, es: seq<Event>, u: UserID, revision: nat)
    ensures UpgradeCount(db, es, u, revision) <= 1
    decreases |es|
  {
    if es != [] && Enabled(db, es[0]) {
      RevisionsGrow(db, es[0], u);
      OneUpgradePerRevision(Step(db, es[0]), es[1..], u, revision);
      if Upgrades(db, es[0], u, revision) {
        NoUpgradePastRevision(Step(db, es[0]), es[1..], u, revision);
      }
    }
  }

  // ---- what a payment does, on the database before and after ------------------------------------

  /** A payment for an open order that carries its provider's id, its amount and a trade number
      that no other settled order of that provider has. */
  ghost predicate Accepted(db: Db, id: OrderID, trade: TradeNo, pid: nat, amount: int) {
    && trade != 0 && id in db.orders && db.orders[id].status == Open && db.orders[id].pid == pid && db.orders[id].amount == amount
    && forall i <- db.orders :: i != id && db.orders[i].trade == trade && db.orders[i].pid == pid && db.orders[i].base == db.orders[id].base ==>
         db.orders[i].status == Open
  }

  /** The membership is the user's until that time, one revision on, the order is paid with it,
      and nothing else changes. */
  ghost predicate Sold(db: Db, id: OrderID, trade: TradeNo, now: int, tier: Tier, until: int, after: Db)
    requires id in db.orders
  {
    var o := db.orders[id];
    && after.members == db.members[o.user := Member(Some(tier), Some(until), MemberOf(db, o.user).revision + 1)]
    && after.orders == db.orders[id := Order(o.user, o.base, o.pid, o.amount, o.product, o.revision, o.upgradeExpires, Paid, trade, now, Some(until))]
  }

  /** The order waits for review with its payment, and no membership changes. */
  ghost predicate SetAside(db: Db, id: OrderID, trade: TradeNo, now: int, after: Db)
    requires id in db.orders
  {
    var o := db.orders[id];
    && after.members == db.members
    && after.orders == db.orders[id := Order(o.user, o.base, o.pid, o.amount, o.product, o.revision, o.upgradeExpires, Review, trade, now, None)]
  }

  /** A first purchase, or one after the membership ran out, gives the ordered tier for thirty
      days from now; one of the active tier adds thirty days to it; one of another tier is set
      aside. */
  lemma PurchaseGives(db: Db, id: OrderID, trade: TradeNo, pid: nat, amount: int, now: int)
    requires Accepted(db, id, trade, pid, amount) && db.orders[id].product.Buy?
    ensures var (after, r) := Confirm(db, id, trade, pid, amount, now);
            var m, tier := MemberOf(db, db.orders[id].user), db.orders[id].product.tier;
            && r == Confirmed
            && if m.tier.None? || m.expires.None? || m.expires.value <= now then Sold(db, id, trade, now, tier, now + 2_592_000 * SECOND, after)
               else if m.tier.value == tier then Sold(db, id, trade, now, tier, m.expires.value + 2_592_000 * SECOND, after)
               else SetAside(db, id, trade, now, after)
  {
    assert !TradeTaken(db, id, db.orders[id], trade);
  }

  /** An upgrade gives Svip until the time it was ordered for, while the membership is an active
      Vip one at the revision it was ordered at and that time is still ahead; otherwise it is set
      aside. */
  lemma UpgradeGives(db: Db, id: OrderID, trade: TradeNo, pid: nat, amount: int, now: int)
    requires Accepted(db, id, trade, pid, amount) && db.orders[id].product.Upgrade?
    ensures var (after, r) := Confirm(db, id, trade, pid, amount, now);
            var m, o := MemberOf(db, db.orders[id].user), db.orders[id];
            && r == Confirmed
            && if (m.tier == Some(Vip) && m.expires.Some? && now < m.expires.value && m.revision == o.revision
                   && o.upgradeExpires.Some? && now < o.upgradeExpires.value)
               then Sold(db, id, trade, now, Svip, o.upgradeExpires.value, after)
               else SetAside(db, id, trade, now, after)
  {
    assert !TradeTaken(db, id, db.orders[id], trade);
  }

  /** Every other payment changes nothing: without a trade number, for a missing order, or not
      as ordered; one for a settled order is confirmed again exactly if it is the one that
      settled it; and a trade number of another settled order conflicts. */
  lemma OtherPayments(db: Db, id: OrderID, trade: TradeNo, pid: nat, amount: int, now: int)
    requires !Accepted(db, id, trade, pid, amount)
    ensures Confirm(db, id, trade, pid, amount, now) ==
      (db, if trade == 0 then InvalidInput
           else if id !in db.orders then NotFound
           else if db.orders[id].pid != pid || db.orders[id].amount != amount then InvalidInput
           else if db.orders[id].status != Open && db.orders[id].trade == trade then Confirmed
           else Conflict)
  {
    if trade != 0 && id in db.orders && db.orders[id].status == Open && db.orders[id].pid == pid && db.orders[id].amount == amount {
      var i :| i in db.orders && i != id && db.orders[i].trade == trade && db.orders[i].pid == pid && db.orders[i].base == db.orders[id].base
               && db.orders[i].status != Open;
      assert SameTrade(db, id, db.orders[id], trade, i);
    }
  }

  /** A confirmed payment, repeated at any time after any other changes, is confirmed again and
      changes nothing; another payment for the same order conflicts. */
  lemma RepeatedPayment(db: Db, id: OrderID, trade: TradeNo, pid: nat, amount: int, now: int, es: seq<Event>, again: TradeNo, later: int)
    requires Confirm(db, id, trade, pid, amount, now).1 == Confirmed && again != 0
    requires RunOf(Confirm(db, id, trade, pid, amount, now).0, es).Some?
    ensures var end := RunOf(Confirm(db, id, trade, pid, amount, now).0, es).value;
            Confirm(end, id, again, pid, amount, later) == (end, if again == trade then Confirmed else Conflict)
  {
    var after := Confirm(db, id, trade, pid, amount, now).0;
    assert Closed(after, id) && after.orders[id].trade == trade && after.orders[id].pid == pid && after.orders[id].amount == amount;
    PaidIsFinal(after, es, id);
    hide TradeTaken, Fulfil, Grant;
  }

  /** An administrator's change goes through exactly at the revision that was looked at, and
      with a review exactly if that order of the user waits for it. */
  lemma AdjustmentGives(db: Db, user: UserID, tier: Option<Tier>, expires: Option<int>, revision: nat, review: Option<OrderID>)
    ensures var (after, r) := Adjust(db, user, tier, expires, revision, review);
            if (MemberOf(db, user).revision == revision
                && (review.Some? ==> review.value in db.orders && db.orders[review.value].user == user && db.orders[review.value].status == Review))
            then
              && r == Confirmed && after.members == db.members[user := Member(tier, expires, revision + 1)]
              && after.orders.Keys == db.orders.Keys
              && (forall i <- db.orders ::
                    after.orders[i] == if review == Some(i) then db.orders[i].(status := Paid, serviceExpires := expires) else db.orders[i])
            else (after, r) == (db, Conflict)
  {
  }
}
