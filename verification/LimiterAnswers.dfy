/** What the limiter answers to a call, told from the calls before it and the answers they got:
    who is held back and until when, which windows are full, and which models are blocked. */
module LimiterAnswers {
  import opened MapSums
  import opened ApiKeyLimiter
  import opened Units

  // ---- what was asked and answered ------------------------------------------------------

  /** How long a response holds its key back: the Retry-After seconds as they are in 64 bits, or
      one second, and at most five. */
  function HeldFor(seconds: Option<int>): int {
    var asked := if seconds.Some? && seconds.value > 0 then seconds.value * SECOND else SECOND;
    var low := asked % 0x1_0000_0000_0000_0000;
    if low < 0x8000_0000_0000_0000 then Min(low, 5 * SECOND) else 0
  }

  /** The latest time up to which a response holds the key back. */
  function HeldUntil(calls: seq<Call>, k: Key): Option<int> {
    if calls == [] then None else
      var before, c := HeldUntil(calls[..|calls| - 1], k), calls[|calls| - 1];
      if c.DoBackoff? && c.k == k then
        Some(if before.Some? then Max(before.value, c.now + HeldFor(c.seconds)) else c.now + HeldFor(c.seconds))
      else before
  }

  /** Blocked less than half an hour ago, and not cleared since. */
  ghost predicate BlockStands(calls: seq<Call>, k: Key, now: int) {
    exists i :: 0 <= i < |calls| && BlocksAt(calls, k, i) && now < calls[i].now + 1800 * SECOND
  }

  ghost predicate BlocksAt(calls: seq<Call>, k: Key, i: nat) {
    i < |calls| && calls[i].DoBlock? && calls[i].k == k && forall j :: i < j < |calls| ==> !(calls[j].DoClear? && calls[j].k == k)
  }

  /** When the key was admitted. */
  function AdmittedAt(calls: seq<Call>, replies: seq<Reply>, k: Key): seq<int>
    requires |calls| == |replies|
  {
    if calls == [] then [] else
      var n := |calls| - 1;
      AdmittedAt(calls[..n], replies[..n], k)
      + if calls[n].DoAdmit? && calls[n].k == k && replies[n] == Admission(Allowed) then [calls[n].now] else []
  }

  /** An admission opens a window unless one is open, and windows last sixty seconds. */
  function Entered(open: Option<Window>, at: int): Window {
    if open.Some? && at < open.value.started + 60 * SECOND then Window(open.value.started, open.value.count + 1) else Window(at, 1)
  }

  /** The window of the last admission. */
  function LastWindow(times: seq<int>): Option<Window> {
    if times == [] then None else
      Some(Entered(LastWindow(times[..|times| - 1]), times[|times| - 1]))
  }

  ghost function Expected(calls: seq<Call>, replies: seq<Reply>, rpm: int, c: Call): Reply
    requires |calls| == |replies|
  {
    match c
    case DoAdmit(k, now) =>
      var held, open := HeldUntil(calls, k), LastWindow(AdmittedAt(calls, replies, k));
      Admission(
        if k == "" then Allowed
        else if held.Some? && now < held.value then Refused(held.value - now)
        else if open.Some? && now < open.value.started + 60 * SECOND && open.value.count >= rpm then Refused(open.value.started + 60 * SECOND - now)
        else Allowed)
    case DoBlocked(k, now) => ModelReply(BlockStands(calls, k, now))
    case _ => Done
  }

  // ---- the limiter without pruning ---------------------------------------------------------

  function After(rpm: int, calls: seq<Call>): Limits {
    if calls == [] then NONE else Plain(After(rpm, calls[..|calls| - 1]), rpm, calls[|calls| - 1]).0
  }

  function From(l: Limits, rpm: int, calls: seq<Call>): Limits
    decreases |calls|
  {
    if calls == [] then l else From(Plain(l, rpm, calls[0]).0, rpm, calls[1..])
  }

  lemma {:induction false} FromLast(l: Limits, rpm: int, calls: seq<Call>, c: Call)
    ensures From(l, rpm, calls + [c]) == Plain(From(l, rpm, calls), rpm, c).0
    ensures Replies(l, rpm, calls + [c], false) == Replies(l, rpm, calls, false) + [Plain(From(l, rpm, calls), rpm, c).1]
    decreases |calls|
  {
    hide Plain;
    var all := calls + [c];
    if calls == [] {
      assert all == [c] && all[1..] == [];
    } else {
      assert all[0] == calls[0] && all[1..] == calls[1..] + [c];
      FromLast(Plain(l, rpm, calls[0]).0, rpm, calls[1..], c);
    }
  }

  lemma {:induction false} AfterIsFrom(rpm: int, calls: seq<Call>)
    ensures After(rpm, calls) == From(NONE, rpm, calls)
  {
    hide Plain;
    if calls != [] {
      var init, c := calls[..|calls| - 1], calls[|calls| - 1];
      AfterIsFrom(rpm, init);
      FromLast(NONE, rpm, init, c);
      assert calls == init + [c];
    }
  }

  // ---- what it remembers -----------------------------------------------------------------------

  /** The limits say what the calls and answers say, for every time from `now` on. */
  ghost predicate Remembers(l: Limits, calls: seq<Call>, replies: seq<Reply>, k: Key, now: int)
    requires |calls| == |replies|
  {
    && (k != "" ==> HoldsBack(l, calls, k, now))
    && (forall t :: now <= t ==> (Before(t, l.blocks, k) <==> BlockStands(calls, k, t)))
    && (k != "" ==> HasWindow(l, LastWindow(AdmittedAt(calls, replies, k)), k, now))
  }

  ghost predicate HoldsBack(l: Limits, calls: seq<Call>, k: Key, now: int) {
    var held := HeldUntil(calls, k);
    && (Before(now, l.backoffs, k) <==> held.Some? && now < held.value)
    && (Before(now, l.backoffs, k) ==> l.backoffs[k] == held.value)
  }

  ghost predicate HasWindow(l: Limits, open: Option<Window>, k: Key, now: int) {
    if open.None? then k !in l.windows
    else k in l.windows && l.windows[k] == open.value && open.value.started <= now
  }

  lemma DelayIsHeldFor(seconds: Option<int>)
    ensures HeldFor(seconds) == Max(0, BackoffDelay(seconds))
  {
    WrapIs(Asked(seconds));
    hide Wrap;
  }

  lemma HeldNext(l: Limits, rpm: int, calls: seq<Call>, c: Call, k: Key, now: int)
    requires k != "" && HoldsBack(l, calls, k, now) && now <= c.now
    ensures HoldsBack(Plain(l, rpm, c).0, calls + [c], k, c.now)
  {
    assert (calls + [c])[..|calls|] == calls;
    if c.DoBackoff? {
      DelayIsHeldFor(c.seconds);
    }
    if c.DoAdmit? {
      AdmitKeeps(l, rpm, c);
    }
    hide HeldFor, BackoffDelay, Admit;
  }

  lemma AdmitKeeps(l: Limits, rpm: int, c: Call)
    requires c.DoAdmit?
    ensures Plain(l, rpm, c).0.backoffs == l.backoffs && Plain(l, rpm, c).0.blocks == l.blocks
  {
  }

  lemma BlockNext(calls: seq<Call>, c: Call, k: Key, now: int)
    requires forall i :: 0 <= i < |calls| ==> calls[i].now <= c.now
    ensures BlockStands(calls + [c], k, now)
            <==> if c.DoBlock? && c.k == k then now < c.now + 1800 * SECOND
                 else BlockStands(calls, k, now) && !(c.DoClear? && c.k == k)
  {
    var all, n := calls + [c], |calls|;
    assert all[n] == c && forall i :: 0 <= i < n ==> all[i] == calls[i];
    if c.DoBlock? && c.k == k {
      assert BlocksAt(all, k, n);
    } else if BlockStands(calls, k, now) && !(c.DoClear? && c.k == k) {
      var i :| 0 <= i < |calls| && BlocksAt(calls, k, i) && now < calls[i].now + 1800 * SECOND;
      assert BlocksAt(all, k, i);
    }
    if BlockStands(all, k, now) && !(c.DoBlock? && c.k == k) {
      var i :| 0 <= i < |all| && BlocksAt(all, k, i) && now < all[i].now + 1800 * SECOND;
      assert !(all[n].DoClear? && all[n].k == k);
      assert BlocksAt(calls, k, i);
    }
  }

  lemma BlocksNext(l: Limits, rpm: int, calls: seq<Call>, c: Call, k: Key, now: int)
    requires (forall i :: 0 <= i < |calls| ==> calls[i].now <= c.now) && now <= c.now
    requires forall t :: now <= t ==> (Before(t, l.blocks, k) <==> BlockStands(calls, k, t))
    ensures forall t :: c.now <= t ==> (Before(t, Plain(l, rpm, c).0.blocks, k) <==> BlockStands(calls + [c], k, t))
  {
    if c.DoAdmit? {
      AdmitKeeps(l, rpm, c);
    }
    hide BlockStands, Admit;
    forall t | c.now <= t ensures Before(t, Plain(l, rpm, c).0.blocks, k) <==> BlockStands(calls + [c], k, t) {
      BlockNext(calls, c, k, t);
      assert Before(t, l.blocks, k) <==> BlockStands(calls, k, t);
      if c.DoBlocked? && c.k == k && !Before(c.now, l.blocks, k) {
        assert !Before(t, l.blocks, k);
      }
    }
  }

  lemma AdmittedNext(calls: seq<Call>, replies: seq<Reply>, c: Call, r: Reply, k: Key)
    requires |calls| == |replies|
    ensures AdmittedAt(calls + [c], replies + [r], k)
            == AdmittedAt(calls, replies, k) + if c.DoAdmit? && c.k == k && r == Admission(Allowed) then [c.now] else []
  {
    assert (calls + [c])[..|calls|] == calls && (replies + [r])[..|replies|] == replies;
  }

  lemma LastWindowNext(times: seq<int>, at: int)
    ensures LastWindow(times + []) == LastWindow(times)
    ensures LastWindow(times + [at]) == Some(Entered(LastWindow(times), at))
  {
    assert times + [] == times && (times + [at])[..|times|] == times;
  }

  lemma WindowKept(l: Limits, rpm: int, c: Call, k: Key, now: int, open: Option<Window>)
    requires k != "" && now <= c.now && HasWindow(l, open, k, now)
    ensures var admitted := c.DoAdmit? && c.k == k && Plain(l, rpm, c).1 == Admission(Allowed);
            HasWindow(Plain(l, rpm, c).0, if admitted then Some(Entered(open, c.now)) else open, k, c.now)
  {
  }

  lemma WindowNext(l: Limits, rpm: int, calls: seq<Call>, replies: seq<Reply>, c: Call, k: Key, now: int)
    requires |calls| == |replies| && k != "" && now <= c.now && HasWindow(l, LastWindow(AdmittedAt(calls, replies, k)), k, now)
    ensures HasWindow(Plain(l, rpm, c).0, LastWindow(AdmittedAt(calls + [c], replies + [Plain(l, rpm, c).1], k)), k, c.now)
  {
    hide HasWindow, Plain, Entered, AdmittedAt, LastWindow;
    AdmittedNext(calls, replies, c, Plain(l, rpm, c).1, k);
    LastWindowNext(AdmittedAt(calls, replies, k), c.now);
    WindowKept(l, rpm, c, k, now, LastWindow(AdmittedAt(calls, replies, k)));
  }

  lemma {:induction false} AfterRemembers(rpm: int, calls: seq<Call>, k: Key, from: int)
    requires Ordered(calls, from)
    ensures |Replies(NONE, rpm, calls, false)| == |calls|
    ensures Remembers(After(rpm, calls), calls, Replies(NONE, rpm, calls, false), k, if calls == [] then from else calls[|calls| - 1].now)
    decreases |calls|
  {
    OneReplyEach(NONE, rpm, calls, false);
    if calls != [] {
      hide HoldsBack, BlockStands, HasWindow, Plain;
      var init, c := calls[..|calls| - 1], calls[|calls| - 1];
      var l, now := After(rpm, init), if init == [] then from else init[|init| - 1].now;
      AfterRemembers(rpm, init, k, from);
      AfterIsFrom(rpm, init);
      FromLast(NONE, rpm, init, c);
      assert calls == init + [c];
      BlocksNext(l, rpm, init, c, k, now);
      if k != "" {
        HeldNext(l, rpm, init, c, k, now);
        WindowNext(l, rpm, init, Replies(NONE, rpm, init, false), c, k, now);
      }
    }
  }

  lemma HeldLater(l: Limits, calls: seq<Call>, k: Key, now: int, later: int)
    requires HoldsBack(l, calls, k, now) && now <= later
    ensures HoldsBack(l, calls, k, later)
  {
  }

  lemma AnswerAsRemembered(l: Limits, rpm: int, calls: seq<Call>, replies: seq<Reply>, c: Call, now: int)
    requires 0 < rpm && |calls| == |replies| && now <= c.now && Remembers(l, calls, replies, c.k, now)
    ensures Plain(l, rpm, c).1 == Expected(calls, replies, rpm, c)
  {
    if c.k != "" {
      HeldLater(l, calls, c.k, now, c.now);
    }
    hide HeldUntil, AdmittedAt, LastWindow;
  }

  /** After any calls at non-decreasing times, the next one is answered exactly so, by the limiter
      as it runs, with pruning. */
  lemma AnswerIsExact(rpm: int, calls: seq<Call>, c: Call, from: int)
    requires 0 < rpm && Ordered(calls + [c], from)
    ensures |Replies(NONE, rpm, calls, true)| == |calls|
    ensures Replies(NONE, rpm, calls + [c], true) == Replies(NONE, rpm, calls, true) + [Expected(calls, Replies(NONE, rpm, calls, true), rpm, c)]
  {
    hide Plain, Pruned, Expected;
    OrderedInit(calls, c, from);
    PruningChangesNoAnswer(NONE, NONE, rpm, calls, from);
    PruningChangesNoAnswer(NONE, NONE, rpm, calls + [c], from);
    AfterRemembers(rpm, calls, c.k, from);
    AfterIsFrom(rpm, calls);
    FromLast(NONE, rpm, calls, c);
    AnswerAsRemembered(After(rpm, calls), rpm, calls, Replies(NONE, rpm, calls, false), c, if calls == [] then from else calls[|calls| - 1].now);
  }

  lemma OrderedInit(calls: seq<Call>, c: Call, from: int)
    requires Ordered(calls + [c], from)
    ensures Ordered(calls, from) && (if calls == [] then from else calls[|calls| - 1].now) <= c.now
  {
    var all := calls + [c];
    assert all[|calls|] == c;
    forall i | 0 <= i < |calls| ensures calls[i] == all[i] {
    }
  }
}
