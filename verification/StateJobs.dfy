/** The leased jobs that collect state tickets: one table shared by all API instances, and
    the workers that claim jobs, probe, and write results back. Ids are numbers, zero is
    the empty string; time is the database's. */
module StateJobs {
  import opened MapSums
  import opened Units

  const LEASE: int := 180 * SECOND
  const UNUSED: int := 24 * 3600 * SECOND
  const COOLDOWN: int := 300 * SECOND
  const LIFETIME: int := 3600 * SECOND
  const RENEW: int := 600 * SECOND
  const MAX_JOBS: nat := 8
  const MAX_CLAIMED: nat := 2

  datatype Key = Key(account: nat, model: nat)

  /** What `statePlan` makes of an account's plan. */
  datatype Plan = Pro | Team | NoState

  /** The account as read; `configuration` stands for its credentials, proxy and mode. */
  datatype Account = Account(id: nat, enabled: bool, active: bool, plan: Plan, configuration: nat)
  {
    predicate Usable() {
      enabled && active && plan != NoState
    }

    function OwnScope(): Scope {
      Scope(id, plan, configuration)
    }
  }

  /** The digests, SHA-256 in the code, are taken to be injective. */
  datatype Scope = Scope(id: nat, plan: Plan, configuration: nat)

  datatype Fingerprint = Fingerprint(scope: Scope, egress: nat)

  function StateLength(plan: Plan): int {
    match plan
    case Pro => 292
    case Team => 332
    case NoState => 0
  }

  const REJECTED_LENGTH: int := 312
  const PREFIX: string := ['g', 'A', 'A', 'A', 'A', 'A']

  predicate StateChar(c: char) {
    'a' <= c <= 'z' || 'A' <= c <= 'Z' || '0' <= c <= '9' || c == '_' || c == '-' || c == '='
  }

  /** `ValidCodexState`. */
  predicate ValidState(value: string, length: int) {
    0 < length == |value| && PREFIX <= value && forall c <- value :: StateChar(c)
  }

  /** AES-GCM with the account, model, fingerprint and version as additional data: it opens
      only under the same four. */
  datatype Sealed = Sealed(value: string, key: Key, fingerprint: Fingerprint, version: nat)

  function Open(c: Option<Sealed>, key: Key, fingerprint: Fingerprint, version: nat): Option<string> {
    if c.Some? && c.value == Sealed(c.value.value, key, fingerprint, version) then Some(c.value.value) else None
  }

  datatype Outcome = Pending | Ready | NotReady | RejectedTicket

  /** One row; `leaseUntil` None is minus infinity. */
  datatype Job = Job(
    fingerprint: Fingerprint, lease: nat, leaseUntil: Option<int>, version: nat, ciphertext: Option<Sealed>, expires: Option<int>,
    nextAttempt: int, outcome: Outcome, attempts: nat, lastUsed: int)
  {
    predicate LeaseOver(now: int) {
      leaseUntil.None? || leaseUntil.value < now
    }

    predicate LeaseLive(now: int) {
      leaseUntil.Some? && leaseUntil.value > now
    }
  }

  type Jobs = map<Key, Job>

  /** The copy of a job that a worker fills in. */
  datatype Work = Work(
    key: Key, fingerprint: Fingerprint, lease: nat, version: nat, ciphertext: Option<Sealed>, expires: Option<int>,
    nextAttempt: int, outcome: Outcome, attempts: nat)

  // ---- the statements -----------------------------------------------------------------

  function Of(jobs: Jobs, account: nat): set<Key> {
    set k | k in jobs && k.account == account
  }

  function NewJob(fingerprint: Fingerprint, now: int): Job {
    Job(fingerprint, 0, None, 0, None, None, now, Pending, 0, now)
  }

  function Outdated(jobs: Jobs, key: Key, fingerprint: Fingerprint, now: int): set<Key> {
    set k | k in jobs && k.account == key.account && (jobs[k].lastUsed < now - UNUSED || (k == key && jobs[k].fingerprint != fingerprint))
  }

  /** `EnsureStateJob`: None is the rollback when the account already has eight jobs. */
  function Ensure(jobs: Jobs, key: Key, fingerprint: Fingerprint, now: int): Option<Jobs> {
    var kept := jobs - Outdated(jobs, key, fingerprint, now);
    var with := if |Of(kept, key.account)| < MAX_JOBS && key !in kept then kept[key := NewJob(fingerprint, now)] else kept;
    if key in with then Some(with[key := with[key].(lastUsed := now)]) else None
  }

  function DropUnused(jobs: Jobs, now: int): Jobs {
    map k | k in jobs && !(jobs[k].lastUsed < now - UNUSED) :: jobs[k]
  }

  predicate Due(j: Job, now: int) {
    j.nextAttempt <= now && j.LeaseOver(now)
  }

  /** The rows a claim may pick: at most two due ones that nobody else has locked. */
  predicate Picks(jobs: Jobs, picked: set<Key>, now: int) {
    |picked| <= 2 && forall k <- picked :: k in DropUnused(jobs, now) && Due(jobs[k], now)
  }

  function Claim(jobs: Jobs, lease: nat, picked: set<Key>, now: int): Jobs {
    var kept := DropUnused(jobs, now);
    map k | k in kept :: if k in picked then kept[k].(lease := lease, leaseUntil := Some(now + LEASE)) else kept[k]
  }

  predicate MayFinish(jobs: Jobs, w: Work, now: int) {
    w.key in jobs && jobs[w.key].fingerprint == w.fingerprint && jobs[w.key].lease == w.lease && jobs[w.key].LeaseLive(now)
  }

  function Finished(j: Job, w: Work): Job {
    var k := j.(lease := 0, leaseUntil := None, nextAttempt := w.nextAttempt, outcome := w.outcome, attempts := w.attempts);
    if w.outcome.Ready? then k.(version := w.version, ciphertext := w.ciphertext, expires := w.expires) else k
  }

  function Finish(jobs: Jobs, w: Work, now: int): Jobs {
    if MayFinish(jobs, w, now) then jobs[w.key := Finished(jobs[w.key], w)] else jobs
  }

  function Reject(jobs: Jobs, key: Key, version: nat, now: int): Jobs {
    if key in jobs && jobs[key].version == version && version != 0
    then jobs[key := jobs[key].(version := 0, ciphertext := None, expires := None, outcome := RejectedTicket, nextAttempt := now + COOLDOWN)]
    else jobs
  }

  /** `RefreshStateJobs`: ready rows that nobody works on become due. */
  function Refreshed(j: Job, now: int): Job {
    if j.outcome.Ready? && j.nextAttempt > now && j.LeaseOver(now) then j.(nextAttempt := now) else j
  }

  function Refresh(jobs: Jobs, account: nat, now: int): Jobs {
    map k | k in jobs :: if k.account == account then Refreshed(jobs[k], now) else jobs[k]
  }

  /** The trigger on credential and configuration changes. */
  function Revoke(jobs: Jobs, account: nat): Jobs {
    map k | k in jobs && k.account != account :: jobs[k]
  }

  // ---- the table ----------------------------------------------------------------------

  class JobTable {
    var jobs: Jobs

    constructor ()
      ensures jobs == map[]
    {
      jobs := map[];
    }

    /** Delete, insert, update in one transaction. */
    method EnsureStateJob(key: Key, fingerprint: Fingerprint, now: int) returns (ok: bool)
      modifies this
      ensures ok == Ensure(old(jobs), key, fingerprint, now).Some?
      ensures jobs == if ok then Ensure(old(jobs), key, fingerprint, now).value else old(jobs)
    {
      var before := jobs;
      jobs := jobs - Outdated(jobs, key, fingerprint, now);
      if |Of(jobs, key.account)| < MAX_JOBS && key !in jobs {
        jobs := jobs[key := NewJob(fingerprint, now)];
      }
      if key !in jobs {
        jobs := before;
        return false;
      }
      jobs := jobs[key := jobs[key].(lastUsed := now)];
      return true;
    }

    /** The two due rows that have waited longest, passing over rows locked by others. */
    method ClaimStateJobs(lease: nat, locked: set<Key>, now: int) returns (picked: set<Key>)
      modifies this
      ensures Picks(old(jobs), picked, now) && picked !! locked && jobs == Claim(old(jobs), lease, picked, now)
      ensures forall k <- DropUnused(old(jobs), now) :: Due(old(jobs)[k], now) && k !in picked && k !in locked ==>
        |picked| == 2 && forall p <- picked :: old(jobs)[p].nextAttempt <= old(jobs)[k].nextAttempt
    {
      jobs := DropUnused(jobs, now);
      picked := {};
      for i := 0 to MAX_CLAIMED
        invariant jobs == DropUnused(old(jobs), now) && |picked| <= i && picked !! locked
        invariant forall k <- picked :: k in jobs && Due(jobs[k], now)
        invariant forall k <- jobs :: Due(jobs[k], now) && k !in picked && k !in locked ==>
          |picked| == i && forall p <- picked :: jobs[p].nextAttempt <= jobs[k].nextAttempt
      {
        var next := EarliestDue(jobs, picked + locked, now);
        if next.Some? {
          picked := picked + {next.value};
        }
      }
      jobs := map k | k in jobs :: if k in picked then jobs[k].(lease := lease, leaseUntil := Some(now + LEASE)) else jobs[k];
    }

    method FinishStateJob(w: Work, now: int)
      modifies this
      ensures jobs == Finish(old(jobs), w, now)
    {
      if w.key in jobs {
        var j := jobs[w.key];
        if j.fingerprint == w.fingerprint && j.lease == w.lease && j.LeaseLive(now) {
          j := j.(lease := 0, leaseUntil := None, nextAttempt := w.nextAttempt, outcome := w.outcome, attempts := w.attempts);
          if w.outcome.Ready? {
            j := j.(version := w.version, ciphertext := w.ciphertext, expires := w.expires);
          }
          jobs := jobs[w.key := j];
        }
      }
    }
  }

  method EarliestDue(jobs: Jobs, skipped: set<Key>, now: int) returns (best: Option<Key>)
    ensures best.Some? ==> best.value in jobs && best.value !in skipped && Due(jobs[best.value], now)
    ensures forall k <- jobs :: Due(jobs[k], now) && k !in skipped ==> best.Some? && jobs[best.value].nextAttempt <= jobs[k].nextAttempt
  {
    best := None;
    var todo := jobs.Keys;
    while todo != {}
      invariant todo <= jobs.Keys
      invariant best.Some? ==> best.value in jobs && best.value !in skipped && Due(jobs[best.value], now)
      invariant forall k <- jobs :: k !in todo && Due(jobs[k], now) && k !in skipped ==> best.Some? && jobs[best.value].nextAttempt <= jobs[k].nextAttempt
      decreases todo
    {
      var k :| k in todo;
      todo := todo - {k};
      if Due(jobs[k], now) && k !in skipped && (best.None? || jobs[k].nextAttempt < jobs[best.value].nextAttempt) {
        best := Some(k);
      }
    }
  }

  // ---- the worker ----------------------------------------------------------------------

  /** What one round of probing meets, in order: the account as read each time, if it could
      be read and its tokens opened, and what the upstream returned. */
  datatype Round = Round(
    first: Option<Account>, probed: Option<string>, second: Option<Account>, validated: Option<string>, third: Option<Account>,
    version: Option<nat>, seals: bool)

  /** `probeIdentity`: the account is still the one that the job was claimed for. */
  predicate Identified(a: Option<Account>, fingerprint: Fingerprint) {
    a.Some? && a.value.Usable() && Fingerprint(a.value.OwnScope(), fingerprint.egress) == fingerprint
  }

  /** `collect`, up to the write. A ticket is ready only with a new version, well-formed for the
      plan and sealed under the identity the job was claimed with. */
  method Collect(key: Key, j: Job, captured: int, now: int, r: Round) returns (w: Work)
    ensures w.key == key && w.fingerprint == j.fingerprint && w.lease == j.lease && w.attempts == j.attempts + 1
    ensures w.outcome.Ready? || w.outcome.NotReady?
    ensures w.outcome.Ready? ==>
      && r.version == Some(w.version) && r.probed.Some? && w.ciphertext == Some(Sealed(r.probed.value, key, j.fingerprint, w.version))
      && ValidState(r.probed.value, StateLength(j.fingerprint.scope.plan))
      && w.expires == Some(captured + 3600 * SECOND) && w.nextAttempt == captured + 3000 * SECOND
    ensures w.outcome.Ready? <==>
      && Identified(r.first, j.fingerprint) && Identified(r.second, j.fingerprint) && Identified(r.third, j.fingerprint)
      && r.probed.Some? && ValidState(r.probed.value, StateLength(r.first.value.plan))
      && r.validated.Some? && !ValidState(r.validated.value, 312) && r.version.Some? && r.seals
    ensures w.outcome.NotReady? ==> w.nextAttempt == now + 300 * SECOND
  {
    w := Work(key, j.fingerprint, j.lease, j.version, j.ciphertext, j.expires, now + COOLDOWN, NotReady, j.attempts + 1);
    if !Identified(r.first, j.fingerprint) || r.probed.None? || !ValidState(r.probed.value, StateLength(r.first.value.plan)) {
      return;
    }
    if !Identified(r.second, j.fingerprint) || r.validated.None? || ValidState(r.validated.value, REJECTED_LENGTH) {
      return;
    }
    if !Identified(r.third, j.fingerprint) || r.version.None? {
      return;
    }
    w := w.(version := r.version.value);
    if !r.seals {
      return;
    }
    var expires := captured + LIFETIME;
    w := w.(ciphertext := Some(Sealed(r.probed.value, key, j.fingerprint, w.version)), expires := Some(expires),
            nextAttempt := expires - RENEW, outcome := Ready);
  }

  predicate Live(jobs: Jobs, key: Key, fingerprint: Fingerprint, now: int) {
    && key in jobs && jobs[key].fingerprint == fingerprint && jobs[key].version != 0
    && jobs[key].expires.Some? && jobs[key].expires.value > now
  }

  /** `PrepareState`: the live ticket of this account, model and fingerprint, for an account
      read now that still is what the request was resolved for. */
  function Prepare(jobs: Jobs, a: Option<Account>, key: Key, scope: Scope, egress: nat, now: int): Option<string> {
    if a.None? || !a.value.Usable() || scope != a.value.OwnScope() then None else
      var fingerprint := Fingerprint(a.value.OwnScope(), egress);
      if !Live(jobs, key, fingerprint, now) then None else
        match Open(jobs[key].ciphertext, key, fingerprint, jobs[key].version)
        case Some(value) => if ValidState(value, StateLength(a.value.plan)) then Some(value) else None
        case None => None
  }

  // ---- runs -----------------------------------------------------------------------------

  datatype Ticket = Ticket(sealed: Sealed, expires: int)

  /** The table, the work in flight, every lease handed out, the ticket of every version, and
      how often a finish took effect under each lease. */
  datatype System = System(
    jobs: Jobs, works: set<Work>, leases: set<nat>, tickets: map<nat, Ticket>, finishes: map<(nat, Key), int>)

  datatype Event =
    | DoEnsure(key: Key, fingerprint: Fingerprint, now: int)
    | DoClaim(lease: nat, picked: set<Key>, now: int)
    | DoCollected(w: Work) // a worker has its result
    | DoFinish(w: Work, now: int)
    | DoReject(key: Key, version: nat, now: int)
    | DoRefresh(account: nat, now: int)
    | DoRevoke(account: nat)

  /** Work belongs to a lease that was handed out; a ready one carries a new version, sealed
      as `Collect` seals it. A worker may be arbitrarily late. */
  predicate Enabled(x: System, e: Event) {
    match e
    case DoClaim(lease, picked, now) => lease != 0 && lease !in x.leases && Picks(x.jobs, picked, now)
    case DoCollected(w) => w.lease in x.leases && (w.outcome.Ready? ==> NewVersion(x, w))
    case DoFinish(w, _) => w in x.works
    case _ => true
  }

  predicate NewVersion(x: System, w: Work) {
    && w.version != 0 && w.version !in x.tickets && w.expires.Some? && w.ciphertext.Some?
    && w.ciphertext == Some(Sealed(w.ciphertext.value.value, w.key, w.fingerprint, w.version))
    && ValidState(w.ciphertext.value.value, StateLength(w.fingerprint.scope.plan))
  }

  function Step(x: System, e: Event): System requires Enabled(x, e) {
    match e
    case DoEnsure(key, fp, now) => (match Ensure(x.jobs, key, fp, now) case Some(jobs) => x.(jobs := jobs) case None => x)
    case DoClaim(lease, picked, now) => x.(jobs := Claim(x.jobs, lease, picked, now), leases := x.leases + {lease})
    case DoCollected(w) => x.(works := x.works + {w}, tickets := if w.outcome.Ready? then x.tickets[w.version := Ticket(w.ciphertext.value, w.expires.value)] else x.tickets)
    case DoFinish(w, now) =>
      if MayFinish(x.jobs, w, now)
      then x.(jobs := Finish(x.jobs, w, now), finishes := x.finishes[(w.lease, w.key) := Get(x.finishes, (w.lease, w.key)) + 1])
      else x
    case DoReject(key, version, now) => x.(jobs := Reject(x.jobs, key, version, now))
    case DoRefresh(account, now) => x.(jobs := Refresh(x.jobs, account, now))
    case DoRevoke(account) => x.(jobs := Revoke(x.jobs, account))
  }

  predicate JobOk(x: System, k: Key, j: Job) {
    // version, ciphertext and expiry come and go together, and the seal is the row's own
    && (j.version == 0 ==> j.ciphertext.None? && j.expires.None?)
    && (j.version != 0 ==> Holds(x, k, j.fingerprint, j.version, j.ciphertext, j.expires))
    // a lease on a row was handed out and has not been used up
    && (j.lease != 0 ==> j.lease in x.leases && Get(x.finishes, (j.lease, k)) == 0)
  }

  /** The ticket of the version, sealed for this key and fingerprint and well-formed for its
      plan. */
  predicate Holds(x: System, k: Key, fingerprint: Fingerprint, version: nat, ciphertext: Option<Sealed>, expires: Option<int>) {
    && version in x.tickets
    && ciphertext == Some(x.tickets[version].sealed) && expires == Some(x.tickets[version].expires)
    && x.tickets[version].sealed == Sealed(x.tickets[version].sealed.value, k, fingerprint, version)
    && ValidState(x.tickets[version].sealed.value, StateLength(fingerprint.scope.plan))
  }

  predicate WorkOk(x: System, w: Work) {
    w.lease in x.leases && (w.outcome.Ready? ==> w.version != 0 && Holds(x, w.key, w.fingerprint, w.version, w.ciphertext, w.expires))
  }

  ghost predicate Inv(x: System) {
    && 0 !in x.leases && 0 !in x.tickets
    && (forall k <- x.jobs :: JobOk(x, k, x.jobs[k]))
    && (forall w <- x.works :: WorkOk(x, w))
    && (forall p <- x.finishes :: p.0 in x.leases && 0 <= x.finishes[p] <= 1)
    && (forall a: nat :: |Of(x.jobs, a)| <= MAX_JOBS)
  }

  lemma FewerJobs(jobs: Jobs, fewer: Jobs, a: nat)
    requires fewer.Keys <= jobs.Keys
    ensures |Of(fewer, a)| <= |Of(jobs, a)|
  {
    SubsetSize(Of(fewer, a), Of(jobs, a));
  }

  lemma {:induction false} SubsetSize<T>(a: set<T>, b: set<T>)
    requires a <= b
    ensures |a| <= |b|
    decreases a
  {
    if a != {} {
      var x :| x in a;
      SubsetSize(a - {x}, b - {x});
    }
  }

  lemma EnsureKeepsCount(jobs: Jobs, key: Key, fingerprint: Fingerprint, now: int, a: nat)
    requires |Of(jobs, a)| <= MAX_JOBS && Ensure(jobs, key, fingerprint, now).Some?
    ensures |Of(Ensure(jobs, key, fingerprint, now).value, a)| <= MAX_JOBS
  {
    var kept := jobs - Outdated(jobs, key, fingerprint, now);
    var after := Ensure(jobs, key, fingerprint, now).value;
    FewerJobs(jobs, kept, a);
    if key in kept {
      PutSize(kept, key, after[key], a);
    } else {
      PutSize(kept, key, NewJob(fingerprint, now), a);
      PutSize(kept[key := NewJob(fingerprint, now)], key, after[key], a);
    }
  }

  lemma PutSize(jobs: Jobs, key: Key, j: Job, a: nat)
    ensures |Of(jobs[key := j], a)| == |Of(jobs, a)| + if key.account == a && key !in jobs then 1 else 0
  {
    var more := Of(jobs[key := j], a);
    assert more == if key.account == a then Of(jobs, a) + {key} else Of(jobs, a);
  }

  lemma EnsureKeepsInv(x: System, key: Key, fingerprint: Fingerprint, now: int)
    requires Inv(x)
    ensures Inv(Step(x, DoEnsure(key, fingerprint, now)))
  {
    hide ValidState;
    if Ensure(x.jobs, key, fingerprint, now).Some? {
      forall a: nat ensures |Of(Ensure(x.jobs, key, fingerprint, now).value, a)| <= MAX_JOBS {
        EnsureKeepsCount(x.jobs, key, fingerprint, now, a);
      }
      var after := Ensure(x.jobs, key, fingerprint, now).value;
      forall k | k in after ensures JobOk(x, k, after[k]) {
        if k in x.jobs {
          assert JobOk(x, k, x.jobs[k]);
        }
      }
    }
  }

  lemma ClaimKeepsInv(x: System, lease: nat, picked: set<Key>, now: int)
    requires Inv(x) && Enabled(x, DoClaim(lease, picked, now))
    ensures Inv(Step(x, DoClaim(lease, picked, now)))
  {
    hide ValidState;
    var y := Step(x, DoClaim(lease, picked, now));
    forall k | k in y.jobs ensures JobOk(y, k, y.jobs[k]) {
      assert JobOk(x, k, x.jobs[k]);
    }
    forall a: nat ensures |Of(y.jobs, a)| <= MAX_JOBS {
      FewerJobs(x.jobs, y.jobs, a);
    }
  }

  lemma FinishKeepsInv(x: System, w: Work, now: int)
    requires Inv(x) && w in x.works
    ensures Inv(Step(x, DoFinish(w, now)))
  {
    hide ValidState;
    if MayFinish(x.jobs, w, now) {
      var y := Step(x, DoFinish(w, now));
      assert JobOk(x, w.key, x.jobs[w.key]);
      forall k | k in y.jobs ensures JobOk(y, k, y.jobs[k]) {
        assert JobOk(x, k, x.jobs[k]);
      }
      forall a: nat ensures |Of(y.jobs, a)| <= MAX_JOBS {
        FewerJobs(x.jobs, y.jobs, a);
      }
    }
  }

  lemma RejectKeepsInv(x: System, key: Key, version: nat, now: int)
    requires Inv(x)
    ensures Inv(Step(x, DoReject(key, version, now)))
  {
    hide ValidState;
    var y := Step(x, DoReject(key, version, now));
    forall k | k in y.jobs ensures JobOk(y, k, y.jobs[k]) {
      assert JobOk(x, k, x.jobs[k]);
    }
    forall a: nat ensures |Of(y.jobs, a)| <= MAX_JOBS {
      FewerJobs(x.jobs, y.jobs, a);
    }
  }

  lemma RefreshKeepsInv(x: System, account: nat, now: int)
    requires Inv(x)
    ensures Inv(Step(x, DoRefresh(account, now)))
  {
    hide ValidState;
    var y := Step(x, DoRefresh(account, now));
    forall k | k in y.jobs ensures JobOk(y, k, y.jobs[k]) {
      assert JobOk(x, k, x.jobs[k]);
    }
    forall a: nat ensures |Of(y.jobs, a)| <= MAX_JOBS {
      FewerJobs(x.jobs, y.jobs, a);
    }
  }

  lemma CollectedKeepsInv(x: System, w: Work)
    requires Inv(x) && Enabled(x, DoCollected(w))
    ensures Inv(Step(x, DoCollected(w)))
  {
    hide ValidState;
    var y := Step(x, DoCollected(w));
    forall k | k in y.jobs ensures JobOk(y, k, y.jobs[k]) {
      assert JobOk(x, k, x.jobs[k]);
    }
  }

  lemma RevokeKeepsInv(x: System, account: nat)
    requires Inv(x)
    ensures Inv(Step(x, DoRevoke(account)))
  {
    hide ValidState;
    var y := Step(x, DoRevoke(account));
    forall k | k in y.jobs ensures JobOk(y, k, y.jobs[k]) {
      assert JobOk(x, k, x.jobs[k]);
    }
    forall a: nat ensures |Of(y.jobs, a)| <= MAX_JOBS {
      FewerJobs(x.jobs, y.jobs, a);
    }
  }

  lemma StepKeepsInv(x: System, e: Event)
    requires Inv(x) && Enabled(x, e)
    ensures Inv(Step(x, e))
  {
    match e
    case DoEnsure(key, fp, now) => EnsureKeepsInv(x, key, fp, now);
    case DoClaim(lease, picked, now) => ClaimKeepsInv(x, lease, picked, now);
    case DoCollected(w) => CollectedKeepsInv(x, w);
    case DoFinish(w, now) => FinishKeepsInv(x, w, now);
    case DoReject(key, version, now) => RejectKeepsInv(x, key, version, now);
    case DoRefresh(account, now) => RefreshKeepsInv(x, account, now);
    case DoRevoke(account) => RevokeKeepsInv(x, account);
    hide *;
  }

  ghost predicate Run(x: System, es: seq<Event>, y: System)
    decreases |es|
  {
    if es == [] then x == y else Enabled(x, es[0]) && Run(Step(x, es[0]), es[1..], y)
  }

  /** Over any interleaving of instances, late workers and lost leases: a claim is finished
      at most once, and every row that has a version has a ticket sealed for exactly that
      row. */
  lemma {:induction false} RunKeepsInv(x: System, es: seq<Event>, y: System)
    requires Inv(x) && Run(x, es, y)
    ensures Inv(y)
    decreases |es|
  {
    if es != [] {
      StepKeepsInv(x, es[0]);
      RunKeepsInv(Step(x, es[0]), es[1..], y);
    }
  }

  lemma EmptyInv()
    ensures Inv(System(map[], {}, {}, map[], map[]))
  {
    forall a: nat ensures |Of(map[], a)| <= MAX_JOBS {
      assert Of(map[], a) == {};
    }
  }

  /** A finish takes effect at most once per claim. */
  lemma {:induction false} FinishedOnce(x: System, es: seq<Event>, y: System, w: Work, now: int)
    requires Inv(x) && w in x.works && MayFinish(x.jobs, w, now)
    requires Run(Step(x, DoFinish(w, now)), es, y)
    ensures forall v: Work, later: int :: v.lease == w.lease && v.key == w.key ==> !MayFinish(y.jobs, v, later)
  {
    var z := Step(x, DoFinish(w, now));
    assert JobOk(x, w.key, x.jobs[w.key]);
    FinishKeepsInv(x, w, now);
    UsedUpStays(z, es, y, w.lease, w.key);
    RunKeepsInv(z, es, y);
    if w.key in y.jobs {
      assert JobOk(y, w.key, y.jobs[w.key]);
    }
  }

  lemma {:induction false} UsedUpStays(x: System, es: seq<Event>, y: System, lease: nat, key: Key)
    requires Inv(x) && Run(x, es, y) && Get(x.finishes, (lease, key)) == 1
    ensures Get(y.finishes, (lease, key)) == 1
    decreases |es|
  {
    if es != [] {
      StepKeepsInv(x, es[0]);
      UsedUpStays(Step(x, es[0]), es[1..], y, lease, key);
    }
  }

  /** A request gets a ticket exactly when its account, read now, is usable and still what the
      request was resolved for and the row of its fingerprint is live: a live ticket always
      opens and has the plan's form. It is the one ticket of the row's version. */
  lemma LiveTicketOpens(x: System, a: Option<Account>, key: Key, scope: Scope, egress: nat, now: int)
    requires Inv(x)
    ensures Prepare(x.jobs, a, key, scope, egress, now).Some? <==>
      a.Some? && a.value.Usable() && scope == a.value.OwnScope() && Live(x.jobs, key, Fingerprint(scope, egress), now)
    ensures Prepare(x.jobs, a, key, scope, egress, now).Some? ==>
      x.jobs[key].version in x.tickets && Prepare(x.jobs, a, key, scope, egress, now) == Some(x.tickets[x.jobs[key].version].sealed.value)
  {
    if key in x.jobs {
      assert JobOk(x, key, x.jobs[key]);
    }
    hide ValidState;
  }

  /** A manual refresh revokes no ticket and respects the cooldown: what it makes due had been
      ready, and was not being worked on. */
  lemma RefreshRespectsCooldown(jobs: Jobs, account: nat, now: int, a: Option<Account>, key: Key, scope: Scope, egress: nat, later: int)
    ensures Prepare(Refresh(jobs, account, now), a, key, scope, egress, later) == Prepare(jobs, a, key, scope, egress, later)
    ensures key in jobs && Due(Refresh(jobs, account, now)[key], now) && !Due(jobs[key], now) ==>
      key.account == account && jobs[key].outcome.Ready? && jobs[key].LeaseOver(now)
    ensures key in jobs && key.account == account && jobs[key].outcome.Ready? && jobs[key].LeaseOver(now) ==> Due(Refresh(jobs, account, now)[key], now)
  {
    hide ValidState;
  }

  /** A version stands for one ticket for ever, so a rejection that names a version can only
      clear the ticket it was about, however late it comes. */
  lemma {:induction false} LateRejectionHitsItsTicket(x: System, es: seq<Event>, y: System, key: Key, version: nat, now: int)
    requires Inv(x) && Run(x, es, y) && key in x.jobs && x.jobs[key].version == version != 0
    ensures key in y.jobs && y.jobs[key].version != version ==> Reject(y.jobs, key, version, now) == y.jobs
    ensures key in y.jobs && y.jobs[key].version == version ==>
      y.jobs[key].ciphertext == x.jobs[key].ciphertext && y.jobs[key].expires == x.jobs[key].expires
  {
    RunKeepsInv(x, es, y);
    TicketsStay(x, es, y, version);
    assert JobOk(x, key, x.jobs[key]);
    if key in y.jobs {
      assert JobOk(y, key, y.jobs[key]);
    }
  }

  lemma {:induction false} TicketsStay(x: System, es: seq<Event>, y: System, version: nat)
    requires Run(x, es, y) && version in x.tickets
    ensures version in y.tickets && y.tickets[version] == x.tickets[version]
    decreases |es|
  {
    if es != [] {
      TicketsStay(Step(x, es[0]), es[1..], y, version);
    }
  }

  // ---- what the statements do, row by row ---------------------------------------------------

  /** The work was done under the lease that the row still has, for the account it still is
      about, and in time. */
  predicate Holder(jobs: Jobs, w: Work, now: int) {
    && w.key in jobs && jobs[w.key].lease == w.lease && jobs[w.key].fingerprint == w.fingerprint
    && jobs[w.key].leaseUntil.Some? && now < jobs[w.key].leaseUntil.value
  }

  /** A finish changes its row exactly when it is the holder's, and no other row: the lease is
      used up, the outcome and the next attempt are the work's, and the ticket is the work's if
      it is ready and stays otherwise. */
  lemma FinishIsExact(jobs: Jobs, w: Work, now: int)
    ensures var after := Finish(jobs, w, now);
            && (after != jobs <==> Holder(jobs, w, now))
            && after.Keys == jobs.Keys && (forall k <- jobs :: k != w.key ==> after[k] == jobs[k])
            && (Holder(jobs, w, now) ==>
                  var before, j := jobs[w.key], after[w.key];
                  && j.leaseUntil.None? && j.lease == 0 && j.outcome == w.outcome && j.nextAttempt == w.nextAttempt && j.attempts == w.attempts
                  && j.fingerprint == before.fingerprint && j.lastUsed == before.lastUsed
                  && (w.outcome.Ready? ==> j.version == w.version && j.ciphertext == w.ciphertext && j.expires == w.expires)
                  && (!w.outcome.Ready? ==> j.version == before.version && j.ciphertext == before.ciphertext && j.expires == before.expires))
  {
    var after := Finish(jobs, w, now);
    if Holder(jobs, w, now) {
      assert after[w.key].leaseUntil != jobs[w.key].leaseUntil;
    }
  }

  /** Ready work that its holder finishes in time is what requests get from then on, until the
      ticket expires. */
  lemma FinishedTicketIsServed(x: System, w: Work, now: int, a: Account, egress: nat, later: int)
    requires Inv(x) && w in x.works && w.outcome.Ready? && Holder(x.jobs, w, now)
    requires a.Usable() && Fingerprint(a.OwnScope(), egress) == w.fingerprint
    ensures w.expires.Some? && w.ciphertext.Some?
    ensures Prepare(Step(x, DoFinish(w, now)).jobs, Some(a), w.key, a.OwnScope(), egress, later)
            == if later < w.expires.value then Some(w.ciphertext.value.value) else None
  {
    assert WorkOk(x, w);
    hide ValidState;
  }

  /** Work that is not ready leaves what requests get as it is. */
  lemma UnreadyKeepsTicket(jobs: Jobs, w: Work, now: int, a: Option<Account>, key: Key, scope: Scope, egress: nat, later: int)
    requires !w.outcome.Ready?
    ensures Prepare(Finish(jobs, w, now), a, key, scope, egress, later) == Prepare(jobs, a, key, scope, egress, later)
  {
    hide ValidState;
  }

  /** A claim gives its rows to this lease for 180 seconds, in which no other claim takes them,
      and deletes exactly the rows unused for a day. */
  lemma ClaimIsExclusive(jobs: Jobs, lease: nat, picked: set<Key>, now: int, other: set<Key>, later: int)
    requires Picks(jobs, picked, now)
    ensures var after := Claim(jobs, lease, picked, now);
            && (forall k <- jobs :: k in after <==> now - 24 * 3600 * SECOND <= jobs[k].lastUsed)
            && (forall k <- after :: k in jobs && (k !in picked ==> after[k] == jobs[k]))
            && (forall k <- picked :: k in after && after[k] == jobs[k].(lease := lease, leaseUntil := Some(now + 180 * SECOND)))
            && (Picks(after, other, later) && later <= now + 180 * SECOND ==> picked !! other)
  {
  }

  /** A rejection of the row's own version takes the ticket away at once and lets the job try
      again after five minutes; any other changes nothing. */
  lemma RejectionIsExact(jobs: Jobs, key: Key, version: nat, now: int, a: Option<Account>, scope: Scope, egress: nat, later: int)
    ensures var after := Reject(jobs, key, version, now);
            if version != 0 && key in jobs && jobs[key].version == version then
              && Prepare(after, a, key, scope, egress, later).None? && after[key].nextAttempt == now + 300 * SECOND
              && after[key].leaseUntil == jobs[key].leaseUntil && after[key].fingerprint == jobs[key].fingerprint
              && after == jobs[key := after[key]]
            else after == jobs
  {
  }

  /** Enrolling keeps the ticket of an unchanged account, starts over, due at once, for a
      changed or unknown one, and fails exactly when eight other jobs are in use. */
  lemma EnrollIsExact(jobs: Jobs, key: Key, fingerprint: Fingerprint, now: int)
    ensures var r := Ensure(jobs, key, fingerprint, now);
            var others := set k | k in jobs && k.account == key.account && k != key && now - 24 * 3600 * SECOND <= jobs[k].lastUsed;
            var known := key in jobs && jobs[key].fingerprint == fingerprint && now - 24 * 3600 * SECOND <= jobs[key].lastUsed;
            && (r.None? <==> !known && |others| >= 8)
            && (r.Some? && known ==> key in r.value && r.value[key] == jobs[key].(lastUsed := now))
            && (r.Some? && !known ==> key in r.value && r.value[key] == Job(fingerprint, 0, None, 0, None, None, now, Pending, 0, now))
            && (r.Some? ==> forall k <- jobs :: k != key && (k.account != key.account || k in others) ==> k in r.value && r.value[k] == jobs[k])
            && (r.Some? ==> forall k <- r.value :: k == key || (k in jobs && (k.account == key.account ==> k in others)))
  {
    var kept := jobs - Outdated(jobs, key, fingerprint, now);
    var others := set k | k in jobs && k.account == key.account && k != key && now - 24 * 3600 * SECOND <= jobs[k].lastUsed;
    if key !in kept {
      assert Of(kept, key.account) == others;
    }
  }

  /** Changed credentials take away every ticket of the account. */
  lemma RevokedIsGone(jobs: Jobs, account: nat, a: Option<Account>, key: Key, scope: Scope, egress: nat, later: int)
    ensures key.account == account ==> Prepare(Revoke(jobs, account), a, key, scope, egress, later).None?
    ensures key.account != account ==> Prepare(Revoke(jobs, account), a, key, scope, egress, later) == Prepare(jobs, a, key, scope, egress, later)
  {
    hide ValidState;
  }
}
