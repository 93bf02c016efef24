/** Request limits per API key, backoffs after upstream trouble, and blocked models, with
    pruning of entries that no longer matter. */
module ApiKeyLimiter {
  import opened MapSums
  import opened Units

  const COOLDOWN: int := 30 * MINUTE
  const DEFAULT_BACKOFF: int := SECOND
  const MAX_BACKOFF: int := 5 * SECOND
  const MAX_KEYS: nat := 8192
  const DEFAULT_RPM: int := 300

  type Key = string

  datatype Window = Window(started: int, count: int)

  datatype Limits = Limits(windows: map<Key, Window>, backoffs: map<Key, int>, blocks: map<Key, int>)

  datatype Answer = Allowed | Refused(retryAfter: int)

  // ---- without pruning ------------------------------------------------------------

  predicate Before(now: int, m: map<Key, int>, k: Key) {
    k in m && now < m[k]
  }

  function CurrentWindow(l: Limits, k: Key, now: int): Window {
    if k !in l.windows || now - l.windows[k].started >= MINUTE || now < l.windows[k].started then Window(now, 0) else l.windows[k]
  }

  function Admit(l: Limits, rpm: int, k: Key, now: int): (Limits, Answer) {
    if k == "" then (l, Allowed)
    else if Before(now, l.backoffs, k) then (l, Refused(l.backoffs[k] - now))
    else
      var w := CurrentWindow(l, k, now);
      if w.count >= rpm then (l, Refused(MINUTE - (now - w.started)))
      else (l.(windows := l.windows[k := w.(count := w.count + 1)]), Allowed)
  }

  /** int64 arithmetic of time.Duration. */
  function Wrap(x: int): int {
    (x + 0x8000_0000_0000_0000) % 0x1_0000_0000_0000_0000 - 0x8000_0000_0000_0000
  }

  /** The delay for a Retry-After header of that many seconds, if it has one. */
  function BackoffDelay(seconds: Option<int>): int {
    var delay := if seconds.Some? && seconds.value > 0 then Wrap(seconds.value * SECOND) else DEFAULT_BACKOFF;
    if delay > MAX_BACKOFF then MAX_BACKOFF else delay
  }

  function Raise(m: map<Key, int>, k: Key, until: int): map<Key, int> {
    if k in m && until <= m[k] then m else m[k := until]
  }

  function Backoff(l: Limits, k: Key, seconds: Option<int>, now: int): Limits {
    if k == "" then l else l.(backoffs := Raise(l.backoffs, k, now + BackoffDelay(seconds)))
  }

  function Block(l: Limits, k: Key, now: int): Limits {
    l.(blocks := l.blocks[k := now + COOLDOWN])
  }

  function Blocked(l: Limits, k: Key, now: int): (Limits, bool) {
    if Before(now, l.blocks, k) then (l, true) else (l.(blocks := l.blocks - {k}), false)
  }

  function Clear(l: Limits, k: Key): Limits {
    l.(blocks := l.blocks - {k})
  }

  // ---- pruning ---------------------------------------------------------------------

  predicate StaleWindow(w: Window, now: int) {
    now - w.started >= MINUTE
  }

  function Unexpired(m: map<Key, int>, now: int): map<Key, int> {
    if |m| > MAX_KEYS then map k | k in m && now < m[k] :: m[k] else m
  }

  function Prune(l: Limits, now: int): Limits {
    Limits(
      if |l.windows| > MAX_KEYS then map k | k in l.windows && !StaleWindow(l.windows[k], now) :: l.windows[k] else l.windows,
      Unexpired(l.backoffs, now), Unexpired(l.blocks, now))
  }

  // ---- the object --------------------------------------------------------------------

  class Protection {
    const rpm: int
    var limits: Limits

    constructor (rpm: int)
      ensures this.rpm > 0 && (rpm > 0 ==> this.rpm == rpm) && limits == Limits(map[], map[], map[])
    {
      this.rpm := if rpm <= 0 then DEFAULT_RPM else rpm;
      limits := Limits(map[], map[], map[]);
    }

    method AdmitAPIKey(k: Key, now: int) returns (a: Answer)
      modifies this
      ensures (limits, a) == if k == "" then (old(limits), Allowed) else Admit(Prune(old(limits), now), rpm, k, now)
    {
      if k == "" {
        return Allowed;
      }
      PruneLocked(now);
      if k in limits.backoffs && now < limits.backoffs[k] {
        return Refused(limits.backoffs[k] - now);
      }
      var window := if k in limits.windows then limits.windows[k] else Window(now, 0);
      if k !in limits.windows || now - window.started >= MINUTE || now < window.started {
        window := Window(now, 0);
      }
      if window.count >= rpm {
        return Refused(MINUTE - (now - window.started));
      }
      window := window.(count := window.count + 1);
      limits := limits.(windows := limits.windows[k := window]);
      return Allowed;
    }

    method BackoffAPIKey(k: Key, seconds: Option<int>, now: int)
      modifies this
      ensures limits == if k == "" then old(limits) else Prune(Backoff(old(limits), k, seconds, now), now)
    {
      if k == "" {
        return;
      }
      var delay := DEFAULT_BACKOFF;
      if seconds.Some? && seconds.value > 0 {
        delay := Wrap(seconds.value * SECOND);
      }
      if delay > MAX_BACKOFF {
        delay := MAX_BACKOFF;
      }
      if k !in limits.backoffs || now + delay > limits.backoffs[k] {
        limits := limits.(backoffs := limits.backoffs[k := now + delay]);
      }
      PruneLocked(now);
    }

    method BlockModel(k: Key, now: int)
      modifies this
      ensures limits == Prune(Block(old(limits), k, now), now)
    {
      limits := limits.(blocks := limits.blocks[k := now + COOLDOWN]);
      PruneLocked(now);
    }

    method ModelBlocked(k: Key, now: int) returns (blocked: bool)
      modifies this
      ensures (limits, blocked) == Blocked(old(limits), k, now)
    {
      blocked := k in limits.blocks && now < limits.blocks[k];
      if !blocked {
        limits := limits.(blocks := limits.blocks - {k});
      }
    }

    method ClearModel(k: Key)
      modifies this
      ensures limits == Clear(old(limits), k)
    {
      limits := limits.(blocks := limits.blocks - {k});
    }

    method PruneLocked(now: int)
      modifies this
      ensures limits == Prune(old(limits), now)
    {
      var windows := limits.windows;
      if |windows| > MAX_KEYS {
        var todo := windows.Keys;
        ghost var before := windows;
        while todo != {}
          invariant todo <= before.Keys && windows.Keys <= before.Keys
          invariant forall k <- windows :: windows[k] == before[k]
          invariant forall k <- before :: k in windows <==> k in todo || !StaleWindow(before[k], now)
          decreases todo
        {
          var k :| k in todo;
          todo := todo - {k};
          if now - windows[k].started >= MINUTE {
            windows := windows - {k};
          }
        }
      }
      var backoffs := DropExpired(limits.backoffs, now);
      var blocks := DropExpired(limits.blocks, now);
      limits := Limits(windows, backoffs, blocks);
    }
  }

  method DropExpired(m: map<Key, int>, now: int) returns (out: map<Key, int>)
    ensures out == Unexpired(m, now)
  {
    out := m;
    if |m| > MAX_KEYS {
      var todo := m.Keys;
      while todo != {}
        invariant todo <= m.Keys && out.Keys <= m.Keys
        invariant forall k <- out :: out[k] == m[k]
        invariant forall k <- m :: k in out <==> k in todo || now < m[k]
        decreases todo
      {
        var k :| k in todo;
        todo := todo - {k};
        if !(now < out[k]) {
          out := out - {k};
        }
      }
    }
  }

  // ---- pruning changes no answer ---------------------------------------------------------

  datatype Call =
    | DoAdmit(k: Key, now: int)
    | DoBackoff(k: Key, seconds: Option<int>, now: int)
    | DoBlock(k: Key, now: int)
    | DoBlocked(k: Key, now: int)
    | DoClear(k: Key, now: int)

  datatype Reply = Admission(a: Answer) | ModelReply(blocked: bool) | Done

  function Plain(l: Limits, rpm: int, c: Call): (Limits, Reply) {
    match c
    case DoAdmit(k, now) => (Admit(l, rpm, k, now).0, Admission(Admit(l, rpm, k, now).1))
    case DoBackoff(k, seconds, now) => (Backoff(l, k, seconds, now), Done)
    case DoBlock(k, now) => (Block(l, k, now), Done)
    case DoBlocked(k, now) => (Blocked(l, k, now).0, ModelReply(Blocked(l, k, now).1))
    case DoClear(k, _) => (Clear(l, k), Done)
  }

  function Pruned(l: Limits, rpm: int, c: Call): (Limits, Reply) {
    match c
    case DoAdmit(k, now) =>
      if k == "" then (l, Admission(Allowed))
      else (Admit(Prune(l, now), rpm, k, now).0, Admission(Admit(Prune(l, now), rpm, k, now).1))
    case DoBackoff(k, seconds, now) => (if k == "" then l else Prune(Backoff(l, k, seconds, now), now), Done)
    case DoBlock(k, now) => (Prune(Block(l, k, now), now), Done)
    case DoBlocked(k, now) => (Blocked(l, k, now).0, ModelReply(Blocked(l, k, now).1))
    case DoClear(k, _) => (Clear(l, k), Done)
  }

  function Replies(l: Limits, rpm: int, calls: seq<Call>, pruning: bool): seq<Reply>
    decreases |calls|
  {
    if calls == [] then [] else
      var r := if pruning then Pruned(l, rpm, calls[0]) else Plain(l, rpm, calls[0]);
      [r.1] + Replies(r.0, rpm, calls[1..], pruning)
  }

  /** The same deadlines are still ahead of `now`. */
  predicate SameUntil(small: map<Key, int>, big: map<Key, int>, now: int) {
    && (forall k <- small :: now < small[k] ==> k in big && big[k] == small[k])
    && (forall k <- big :: now < big[k] ==> k in small && small[k] == big[k])
  }

  predicate SameWindows(small: map<Key, Window>, big: map<Key, Window>, now: int) {
    && (forall k <- small :: !StaleWindow(small[k], now) ==> k in big && big[k] == small[k])
    && (forall k <- big :: !StaleWindow(big[k], now) ==> k in small && small[k] == big[k])
  }

  predicate Agree(small: Limits, big: Limits, now: int) {
    SameWindows(small.windows, big.windows, now) && SameUntil(small.backoffs, big.backoffs, now) && SameUntil(small.blocks, big.blocks, now)
  }

  predicate Ordered(calls: seq<Call>, from: int) {
    (forall i :: 0 <= i < |calls| ==> from <= calls[i].now) && forall i, j :: 0 <= i < j < |calls| ==> calls[i].now <= calls[j].now
  }

  lemma PruneAgrees(small: Limits, big: Limits, now: int)
    requires Agree(small, big, now)
    ensures Agree(Prune(small, now), big, now)
  {
  }

  lemma LaterAgrees(small: Limits, big: Limits, now: int, later: int)
    requires Agree(small, big, now) && now <= later
    ensures Agree(small, big, later)
  {
  }

  lemma AdmitAgrees(small: Limits, big: Limits, rpm: int, k: Key, now: int)
    requires Agree(small, big, now)
    ensures Admit(small, rpm, k, now).1 == Admit(big, rpm, k, now).1
    ensures Agree(Admit(small, rpm, k, now).0, Admit(big, rpm, k, now).0, now)
  {
  }

  lemma RaiseAgrees(small: map<Key, int>, big: map<Key, int>, k: Key, until: int, now: int)
    requires SameUntil(small, big, now)
    ensures SameUntil(Raise(small, k, until), Raise(big, k, until), now)
  {
  }

  lemma BackoffAgrees(small: Limits, big: Limits, k: Key, seconds: Option<int>, now: int)
    requires Agree(small, big, now)
    ensures Agree(if k == "" then small else Prune(Backoff(small, k, seconds, now), now), Backoff(big, k, seconds, now), now)
  {
    hide BackoffDelay, Raise, SameUntil, SameWindows;
    RaiseAgrees(small.backoffs, big.backoffs, k, now + BackoffDelay(seconds), now);
    PruneAgrees(Backoff(small, k, seconds, now), Backoff(big, k, seconds, now), now);
  }

  lemma BlockAgrees(small: Limits, big: Limits, k: Key, now: int)
    requires Agree(small, big, now)
    ensures Agree(Prune(Block(small, k, now), now), Block(big, k, now), now)
  {
    assert Agree(Block(small, k, now), Block(big, k, now), now);
    PruneAgrees(Block(small, k, now), Block(big, k, now), now);
  }

  lemma CallAgrees(small: Limits, big: Limits, rpm: int, c: Call)
    requires Agree(small, big, c.now)
    ensures Pruned(small, rpm, c).1 == Plain(big, rpm, c).1 && Agree(Pruned(small, rpm, c).0, Plain(big, rpm, c).0, c.now)
  {
    match c
    case DoAdmit(k, now) =>
      PruneAgrees(small, big, now);
      AdmitAgrees(small, big, rpm, k, now);
      AdmitAgrees(Prune(small, now), big, rpm, k, now);
    case DoBackoff(k, seconds, now) => BackoffAgrees(small, big, k, seconds, now);
    case DoBlock(k, now) => BlockAgrees(small, big, k, now);
    case DoBlocked(k, now) =>
    case DoClear(k, now) =>
  }

  /** On every run with non-decreasing times the pruned limiter answers exactly like one that
      forgets nothing: for rates, backoffs and blocked models alike. */
  lemma {:induction false} PruningChangesNoAnswer(small: Limits, big: Limits, rpm: int, calls: seq<Call>, now: int)
    requires Agree(small, big, now) && Ordered(calls, now)
    ensures Replies(small, rpm, calls, true) == Replies(big, rpm, calls, false)
    decreases |calls|
  {
    if calls != [] {
      var c := calls[0];
      LaterAgrees(small, big, now, c.now);
      CallAgrees(small, big, rpm, c);
      PruningChangesNoAnswer(Pruned(small, rpm, c).0, Plain(big, rpm, c).0, rpm, calls[1..], c.now);
    }
  }

  // ---- backoffs ----------------------------------------------------------------------------

  /** A deadline that is still ahead never moves earlier. */
  lemma BackoffNeverShortens(l: Limits, rpm: int, c: Call, k: Key)
    requires k in l.backoffs && c.now < l.backoffs[k]
    ensures k in Pruned(l, rpm, c).0.backoffs && l.backoffs[k] <= Pruned(l, rpm, c).0.backoffs[k]
  {
  }

  /** The time a Retry-After header asks for, a second if it has no usable number. */
  function Asked(seconds: Option<int>): int {
    if seconds.Some? && seconds.value > 0 then seconds.value * SECOND else DEFAULT_BACKOFF
  }

  /** What a response does to a key without a live backoff: it is held back exactly when the
      time asked for is positive in 64 bits, never for more than five seconds, and for that
      time, up to five seconds, exactly when it does not wrap or still says five seconds. */
  lemma DelayIsBounded(l: Limits, k: Key, seconds: Option<int>, now: int)
    requires k != "" && !Before(now, l.backoffs, k)
    ensures var after := Prune(Backoff(l, k, seconds, now), now).backoffs;
            var low := Asked(seconds) % 0x1_0000_0000_0000_0000;
            && (Before(now, after, k) <==> 0 < low < 0x8000_0000_0000_0000)
            && (k in after ==> after[k] <= now + MAX_BACKOFF)
            && (k in after && after[k] == now + Min(Asked(seconds), MAX_BACKOFF)
                <==> seconds.None? || seconds.value <= 9_223_372_036 || MAX_BACKOFF <= low < 0x8000_0000_0000_0000)
  {
    WrapIs(Asked(seconds));
    RaisedTo(l.backoffs, k, now + BackoffDelay(seconds), now);
    hide Wrap, Unexpired, Raise;
  }

  lemma WrapIs(x: nat)
    ensures var low := x % 0x1_0000_0000_0000_0000;
            Wrap(x) == if low < 0x8000_0000_0000_0000 then low else low - 0x1_0000_0000_0000_0000
    ensures x < 0x8000_0000_0000_0000 ==> Wrap(x) == x
  {
  }

  lemma RaisedTo(m: map<Key, int>, k: Key, until: int, now: int)
    requires !Before(now, m, k)
    ensures var after := Unexpired(Raise(m, k, until), now);
            && (k in after && after[k] > now <==> until > now)
            && (until > now ==> k in after && after[k] == until)
  {
  }

  /** ... beyond that the multiplication overflows and there may be no backoff at all. */
  lemma HugeRetryAfterIsIgnored(k: Key)
    requires k != ""
    ensures var l := Backoff(Limits(map[], map[], map[]), k, Some(9_223_372_037), 0);
            Admit(l, DEFAULT_RPM, k, 0).1 == Allowed
  {
    assert Wrap(9_223_372_037 * SECOND) < 0;
  }

  // ---- rate ------------------------------------------------------------------------------------

  /** The admissions of one key, each with the start of its window. */
  datatype Admitted = Admitted(at: int, window: int)

  function Log(l: Limits, rpm: int, k: Key, calls: seq<Call>): seq<Admitted>
    decreases |calls|
  {
    if calls == [] then [] else
      var r := Plain(l, rpm, calls[0]);
      LogOf(r, k, calls[0]) + Log(r.0, rpm, k, calls[1..])
  }

  function LogOf(r: (Limits, Reply), k: Key, c: Call): seq<Admitted> {
    if c.DoAdmit? && c.k == k && r.1 == Admission(Allowed) && k in r.0.windows then [Admitted(c.now, r.0.windows[k].started)] else []
  }

  function InWindow(log: seq<Admitted>, w: int): nat {
    if log == [] then 0 else InWindow(log[1..], w) + if log[0].window == w then 1 else 0
  }

  function Within(log: seq<Admitted>, from: int): nat {
    if log == [] then 0 else Within(log[1..], from) + if from <= log[0].at < from + MINUTE then 1 else 0
  }

  /** The log that follows when the key's window is as in `l` at time `now`: admissions lie
      in their windows, windows are a minute apart, and none holds more than the limit. */
  ghost predicate LogOk(log: seq<Admitted>, rpm: int, l: Limits, k: Key, now: int) {
    && (forall e <- log :: e.window <= e.at < e.window + MINUTE && now <= e.at)
    && (forall e <- log :: k in l.windows ==> e.window == l.windows[k].started || l.windows[k].started + MINUTE <= e.window)
    && Apart(log)
    && (forall e <- log :: (k in l.windows && e.window == l.windows[k].started) || Opened(log, e.window))
    && (forall w: int :: InWindow(log, w) == 0 || InWindow(log, w) + Used(l, k, w) <= rpm)
  }

  ghost predicate Apart(log: seq<Admitted>) {
    forall e, f :: e in log && f in log && e.window < f.window ==> e.window + MINUTE <= f.window
  }

  /** The first admission of a window is the one that opened it. */
  ghost predicate Opened(log: seq<Admitted>, w: int) {
    exists f :: f in log && f.window == w && f.at == w
  }

  function Used(l: Limits, k: Key, w: int): int {
    if k in l.windows && l.windows[k].started == w then l.windows[k].count else 0
  }

  lemma {:induction false} NoneInWindow(log: seq<Admitted>, w: int)
    requires forall e <- log :: e.window != w
    ensures InWindow(log, w) == 0
  {
    if log != [] {
      assert log[0] in log;
      NoneInWindow(log[1..], w);
    }
  }

  ghost predicate WindowOk(l: Limits, rpm: int, k: Key, now: int) {
    k in l.windows ==> l.windows[k].started <= now && 0 <= l.windows[k].count <= rpm
  }

  lemma {:induction false} LogIsOk(l: Limits, rpm: int, k: Key, calls: seq<Call>, now: int)
    requires Ordered(calls, now) && 0 < rpm && WindowOk(l, rpm, k, now) && k != ""
    ensures LogOk(Log(l, rpm, k, calls), rpm, l, k, now)
    decreases |calls|
  {
    if calls != [] {
      var c := calls[0];
      var r := Plain(l, rpm, c);
      var rest := Log(r.0, rpm, k, calls[1..]);
      WindowStaysOk(l, rpm, k, c, now);
      hide LogOk, WindowOk;
      LogIsOk(r.0, rpm, k, calls[1..], c.now);
      if LogOf(r, k, c) == [] {
        NotAdmitted(l, rpm, k, c, now, rest);
        assert [] + rest == rest;
      } else {
        AdmittedNext(l, rpm, k, c, now, rest);
      }
    }
  }

  lemma NotAdmitted(l: Limits, rpm: int, k: Key, c: Call, now: int, rest: seq<Admitted>)
    requires now <= c.now && WindowOk(l, rpm, k, now) && LogOf(Plain(l, rpm, c), k, c) == []
    requires LogOk(rest, rpm, Plain(l, rpm, c).0, k, c.now)
    ensures LogOk(rest, rpm, l, k, now)
  {
    var next := Plain(l, rpm, c).0;
    assert (k in next.windows <==> k in l.windows) && (k in l.windows ==> next.windows[k] == l.windows[k]);
    assert forall w: int :: Used(next, k, w) == Used(l, k, w);
  }

  lemma WindowStaysOk(l: Limits, rpm: int, k: Key, c: Call, now: int)
    requires now <= c.now && 0 < rpm && WindowOk(l, rpm, k, now)
    ensures WindowOk(Plain(l, rpm, c).0, rpm, k, c.now)
  {
  }

  lemma AdmittedNext(l: Limits, rpm: int, k: Key, c: Call, now: int, rest: seq<Admitted>)
    requires now <= c.now && WindowOk(l, rpm, k, now) && k != "" && LogOf(Plain(l, rpm, c), k, c) != []
    requires LogOk(rest, rpm, Plain(l, rpm, c).0, k, c.now)
    ensures LogOk(LogOf(Plain(l, rpm, c), k, c) + rest, rpm, l, k, now)
  {
    var next := Plain(l, rpm, c).0;
    var w := CurrentWindow(l, k, c.now);
    assert next.windows[k] == w.(count := w.count + 1) && w.count < rpm;
    var e := Admitted(c.now, w.started);
    OneMoreAdmission(l, rpm, k, now, w, e, next, rest);
  }

  lemma OneMoreAdmission(l: Limits, rpm: int, k: Key, now: int, w: Window, e: Admitted, next: Limits, rest: seq<Admitted>)
    requires WindowOk(l, rpm, k, now) && now <= e.at && w == CurrentWindow(l, k, e.at) && e.window == w.started && w.count < rpm
    requires k in next.windows && next.windows[k] == w.(count := w.count + 1) && LogOk(rest, rpm, next, k, e.at)
    ensures LogOk([e] + rest, rpm, l, k, now)
  {
    var log := [e] + rest;
    assert log[0] == e && log[1..] == rest;
    assert forall x :: x in log <==> x == e || x in rest;
    assert e.window <= e.at < e.window + MINUTE;
    forall x | x in log ensures (k in l.windows && x.window == l.windows[k].started) || Opened(log, x.window) {
      if x in rest && x.window != e.window {
        var f :| f in rest && f.window == x.window && f.at == x.window;
        assert f in log;
      } else if !(k in l.windows && e.window == l.windows[k].started) {
        assert e in log && e.at == e.window;
      }
    }
    forall v: int ensures InWindow(log, v) == 0 || InWindow(log, v) + Used(l, k, v) <= rpm {
      assert InWindow(log, v) == InWindow(rest, v) + if e.window == v then 1 else 0;
      if v != e.window && Used(l, k, v) != 0 {
        NoneInWindow(rest, v);
      }
    }
  }

  lemma WindowsInAMinute(x: int, y: int, z: int, from: int)
    requires from - MINUTE < x < from + MINUTE && from - MINUTE < y < from + MINUTE && from - MINUTE < z < from + MINUTE
    requires (x < y ==> x + MINUTE <= y) && (y < x ==> y + MINUTE <= x)
    requires (x < z ==> x + MINUTE <= z) && (z < x ==> z + MINUTE <= x)
    requires (y < z ==> y + MINUTE <= z) && (z < y ==> z + MINUTE <= y)
    ensures x == y || x == z || y == z
  {
  }

  predicate InMinute(e: Admitted, from: int) {
    from <= e.at < from + MINUTE
  }

  /** A minute meets one window, or the end of one and the start of the next. */
  lemma TwoWindows(log: seq<Admitted>, from: int) returns (a: int, b: int)
    requires Apart(log) && forall e <- log :: e.window <= e.at < e.window + MINUTE
    ensures forall e <- log :: InMinute(e, from) ==> e.window == a || e.window == b
    ensures a == b || (a < from && exists e :: e in log && e.window == a)
  {
    a, b := 0, 0;
    if e :| e in log && InMinute(e, from) {
      a, b := e.window, e.window;
      if f :| f in log && InMinute(f, from) && f.window != a {
        a, b := Min(e.window, f.window), Max(e.window, f.window);
        forall g | g in log && InMinute(g, from) ensures g.window == a || g.window == b {
          WindowsInAMinute(e.window, f.window, g.window, from);
        }
      }
    }
  }

  lemma {:induction false} OneWindowBound(log: seq<Admitted>, from: int, a: int)
    requires forall e <- log :: InMinute(e, from) ==> e.window == a
    ensures Within(log, from) <= InWindow(log, a)
  {
    if log != [] {
      assert log[0] in log;
      OneWindowBound(log[1..], from, a);
    }
  }

  /** The admission f, which opened window a, is outside the minute. */
  lemma {:induction false} TwoWindowsBound(log: seq<Admitted>, from: int, a: int, b: int, f: Admitted, seen: bool)
    requires a != b && forall e <- log :: InMinute(e, from) ==> e.window == a || e.window == b
    requires seen || f in log
    requires f.window == a && !InMinute(f, from)
    ensures Within(log, from) + (if seen then 0 else 1) <= InWindow(log, a) + InWindow(log, b)
  {
    if log != [] {
      assert log[0] in log;
      TwoWindowsBound(log[1..], from, a, b, f, seen || log[0] == f);
    }
  }

  /** How many calls in the minute from `from` on admitted key k, by the replies given. */
  function AdmittedWithin(calls: seq<Call>, replies: seq<Reply>, k: Key, from: int): nat
    requires |calls| == |replies|
  {
    if calls == [] then 0 else
      AdmittedWithin(calls[1..], replies[1..], k, from)
      + if calls[0].DoAdmit? && calls[0].k == k && replies[0] == Admission(Allowed) && from <= calls[0].now < from + MINUTE then 1 else 0
  }

  lemma {:induction false} OneReplyEach(l: Limits, rpm: int, calls: seq<Call>, pruning: bool)
    ensures |Replies(l, rpm, calls, pruning)| == |calls|
    decreases |calls|
  {
    if calls != [] {
      OneReplyEach((if pruning then Pruned(l, rpm, calls[0]) else Plain(l, rpm, calls[0])).0, rpm, calls[1..], pruning);
    }
  }

  lemma {:induction false} LogCountsReplies(l: Limits, rpm: int, calls: seq<Call>, k: Key, from: int)
    requires k != ""
    ensures |Replies(l, rpm, calls, false)| == |calls|
    ensures AdmittedWithin(calls, Replies(l, rpm, calls, false), k, from) == Within(Log(l, rpm, k, calls), from)
    decreases |calls|
  {
    OneReplyEach(l, rpm, calls, false);
    if calls != [] {
      var r := Plain(l, rpm, calls[0]);
      var rest := Log(r.0, rpm, k, calls[1..]);
      LogCountsReplies(r.0, rpm, calls[1..], k, from);
      assert Replies(l, rpm, calls, false)[1..] == Replies(r.0, rpm, calls[1..], false);
      assert calls[0].DoAdmit? && calls[0].k == k && r.1 == Admission(Allowed) ==> k in r.0.windows;
      assert ([] + rest) == rest;
      if LogOf(r, k, calls[0]) != [] {
        assert (LogOf(r, k, calls[0]) + rest)[1..] == rest;
      }
    }
  }

  const NONE: Limits := Limits(map[], map[], map[])

  /** No key is admitted twice its limit in any minute, wherever the minute starts: this is
      about the limiter as it runs, with pruning, over any calls at non-decreasing times. */
  lemma BelowTwiceTheLimit(rpm: int, k: Key, calls: seq<Call>, now: int, from: int)
    requires 0 < rpm && Ordered(calls, now) && k != ""
    ensures |Replies(NONE, rpm, calls, true)| == |calls|
    ensures AdmittedWithin(calls, Replies(NONE, rpm, calls, true), k, from) <= 2 * rpm - 1
  {
    hide Plain, Pruned;
    PruningChangesNoAnswer(NONE, NONE, rpm, calls, now);
    LogCountsReplies(NONE, rpm, calls, k, from);
    LogBelowTwice(rpm, k, calls, now, from);
  }

  lemma LogBelowTwice(rpm: int, k: Key, calls: seq<Call>, now: int, from: int)
    requires 0 < rpm && Ordered(calls, now) && k != ""
    ensures Within(Log(NONE, rpm, k, calls), from) <= 2 * rpm - 1
  {
    LogIsOk(NONE, rpm, k, calls, now);
    var log := Log(NONE, rpm, k, calls);
    var a, b := TwoWindows(log, from);
    assert InWindow(log, a) <= rpm && InWindow(log, b) <= rpm;
    if a == b {
      OneWindowBound(log, from, a);
    } else {
      assert Opened(log, a);
      var f :| f in log && f.window == a && f.at == a;
      TwoWindowsBound(log, from, a, b, f, false);
    }
  }

  // ---- the bound is met ----------------------------------------------------------------------

  function Times(n: nat, c: Call): seq<Call> {
    if n == 0 then [] else [c] + Times(n - 1, c)
  }

  function OneWindow(k: Key, started: int, count: int): Limits {
    Limits(map[k := Window(started, count)], map[], map[])
  }

  /** The first call at a minute's end opens a window, the others follow in its last instant
      and at the start of the next. */
  function TwoBursts(rpm: nat, k: Key): seq<Call>
    requires 0 < rpm
  {
    [DoAdmit(k, 0)] + Times(rpm - 1, DoAdmit(k, MINUTE - 1)) + Times(rpm, DoAdmit(k, MINUTE))
  }

  lemma {:induction false} Burst(rpm: int, k: Key, started: int, count: int, at: int, n: nat, rest: seq<Call>, from: int)
    requires k != "" && started <= at < started + MINUTE && count + n <= rpm
    ensures var calls := Times(n, DoAdmit(k, at)) + rest;
            && |Replies(OneWindow(k, started, count), rpm, calls, true)| == |calls|
            && |Replies(OneWindow(k, started, count + n), rpm, rest, true)| == |rest|
            && AdmittedWithin(calls, Replies(OneWindow(k, started, count), rpm, calls, true), k, from)
               == (if from <= at < from + MINUTE then n else 0)
                  + AdmittedWithin(rest, Replies(OneWindow(k, started, count + n), rpm, rest, true), k, from)
    decreases n
  {
    hide Pruned, Replies, AdmittedWithin, OneWindow;
    var calls := Times(n, DoAdmit(k, at)) + rest;
    OneReplyEach(OneWindow(k, started, count), rpm, calls, true);
    OneReplyEach(OneWindow(k, started, count + n), rpm, rest, true);
    if n == 0 {
      assert calls == rest;
    } else {
      AdmitsOneMore(rpm, k, started, count, at);
      NextReply(OneWindow(k, started, count), OneWindow(k, started, count + 1), rpm, k, at, Times(n - 1, DoAdmit(k, at)) + rest, from);
      assert calls == [DoAdmit(k, at)] + (Times(n - 1, DoAdmit(k, at)) + rest);
      Burst(rpm, k, started, count + 1, at, n - 1, rest, from);
    }
  }

  lemma AdmitsOneMore(rpm: int, k: Key, started: int, count: int, at: int)
    requires k != "" && started <= at < started + MINUTE && count < rpm
    ensures Pruned(OneWindow(k, started, count), rpm, DoAdmit(k, at)) == (OneWindow(k, started, count + 1), Admission(Allowed))
  {
    var l := OneWindow(k, started, count);
    assert |l.windows| == 1 && Prune(l, at) == l;
    assert l.windows[k := Window(started, count + 1)] == OneWindow(k, started, count + 1).windows;
  }

  lemma OpensWindow(rpm: int, k: Key, l: Limits, at: int)
    requires k != "" && 0 < rpm && (l == NONE || exists started, count :: l == OneWindow(k, started, count) && at - started >= MINUTE)
    ensures Pruned(l, rpm, DoAdmit(k, at)) == (OneWindow(k, at, 1), Admission(Allowed))
  {
    assert |l.windows| <= 1 && Prune(l, at) == l;
    assert l.windows[k := Window(at, 1)] == map[k := Window(at, 1)];
  }

  lemma NextReply(l: Limits, next: Limits, rpm: int, k: Key, at: int, rest: seq<Call>, from: int)
    requires Pruned(l, rpm, DoAdmit(k, at)) == (next, Admission(Allowed))
    ensures var calls := [DoAdmit(k, at)] + rest;
            && |Replies(l, rpm, calls, true)| == |calls| && |Replies(next, rpm, rest, true)| == |rest|
            && AdmittedWithin(calls, Replies(l, rpm, calls, true), k, from)
               == (if from <= at < from + MINUTE then 1 else 0) + AdmittedWithin(rest, Replies(next, rpm, rest, true), k, from)
  {
    hide Pruned;
    var calls := [DoAdmit(k, at)] + rest;
    assert calls[1..] == rest;
    OneReplyEach(l, rpm, calls, true);
    OneReplyEach(next, rpm, rest, true);
    assert Replies(l, rpm, calls, true)[1..] == Replies(next, rpm, rest, true);
  }

  /** The bound is met for every limit: a burst at the end of a window and one at the start
      of the next. */
  lemma OneLessThanTwiceHappens(rpm: nat, k: Key)
    requires 0 < rpm && k != ""
    ensures |Replies(NONE, rpm, TwoBursts(rpm, k), true)| == |TwoBursts(rpm, k)|
    ensures AdmittedWithin(TwoBursts(rpm, k), Replies(NONE, rpm, TwoBursts(rpm, k), true), k, MINUTE - 1) == 2 * rpm - 1
  {
    hide Pruned, AdmittedWithin, Replies;
    var first, second := DoAdmit(k, MINUTE - 1), DoAdmit(k, MINUTE);
    var late := Times(rpm - 1, second);
    var middle := Times(rpm - 1, first) + ([second] + late);
    assert Times(rpm, second) == [second] + late;
    assert TwoBursts(rpm, k) == [DoAdmit(k, 0)] + middle;
    OpensWindow(rpm, k, NONE, 0);
    NextReply(NONE, OneWindow(k, 0, 1), rpm, k, 0, middle, MINUTE - 1);
    Burst(rpm, k, 0, 1, MINUTE - 1, rpm - 1, [second] + late, MINUTE - 1);
    OpensWindow(rpm, k, OneWindow(k, 0, rpm), MINUTE);
    NextReply(OneWindow(k, 0, rpm), OneWindow(k, MINUTE, 1), rpm, k, MINUTE, late, MINUTE - 1);
    Burst(rpm, k, MINUTE, 1, MINUTE, rpm - 1, [], MINUTE - 1);
    assert late + [] == late;
    NothingAdmitted(OneWindow(k, MINUTE, rpm), rpm, k, MINUTE - 1);
  }

  lemma NothingAdmitted(l: Limits, rpm: int, k: Key, from: int)
    ensures Replies(l, rpm, [], true) == [] && AdmittedWithin([], [], k, from) == 0
  {
  }
}
