/** One WebSocket session: its turns, the attempts of each turn, and what may be replayed
    on another account. What the client sends, how dialling goes and what each upstream
    answers is a script; everything else follows the session's own rules. */
module ReplaySession {
  import opened MapSums
  import opened ReplayBudget
  import opened ReplayItems
  import opened ReplayHistory
  import opened RelayEvents
  import opened RelayProgress
  import opened RelayTurn
  import opened ReplayCollector

  /** The input of a response.create: not JSON, or its items, whether the field was present,
      and whether its shape is understood. */
  datatype Input = BadInput | Input(items: seq<Item>, present: bool, replayable: bool)
  {
    predicate Ok() {
      Input? ==> (!present ==> items == [])
    }
  }

  datatype Dial = Connected | Unauthorized | RateLimited | Refused

  /** How one attempt goes: dialling, or whether an open connection is still the one that the
      turn's credentials are bound to; writing the create frame, the events that come back, and
      whether a hook offers another account. */
  datatype AttemptScript = AttemptScript(dial: Dial, stillBound: bool, createWritten: bool, upstreamReads: seq<UpstreamRead>, hookAgrees: bool)

  /** `patience`: how many client frames the session waits for after this turn before a timer
      or an unexpected upstream message ends it. */
  datatype TurnScript = TurnScript(
    parses: bool, previous: string, frameBytes: nat, input: Input, admitted: bool, dialHook: bool, errorHook: bool,
    attempts: seq<AttemptScript>, patience: nat)

  datatype Outcome =
    | Continue // the turn is over and the session goes on
    | End
    | NotSafeToReplay // the conversation of a retry-safe turn turned out not to be replayable

  /** The same items up to their spelling. */
  predicate SameItems(a: seq<Item>, b: seq<Item>) {
    |a| == |b| && forall i :: 0 <= i < |a| ==> SameItem(a[i], b[i])
  }

  /** A valid history is the conversation so far, up to spelling. */
  ghost predicate Known(h: Snapshot, conversation: seq<Item>) {
    h.valid ==> SameItems(h.items, conversation)
  }

  /** What the turn adds to a conversation of n items. */
  function Added(p: Plan, items: seq<Item>, n: nat): seq<Item> {
    if p.useHistory && p.replaceWithCurrent && n <= |items| then items[n..] else items
  }

  /** The whole input that a turn stands for. */
  function Whole(h: Snapshot, t: TurnScript): seq<Item>
    requires t.input.Input?
  {
    if t.previous == "" then t.input.items else Joined(h.items, t.input.items)
  }

  predicate Short(items: seq<Item>) {
    InLimits(|items|, Size(items))
  }

  /** When a turn may run on another account: its frame and input are within the limits, and
      its whole input is known and free of anything bound to an account. */
  ghost predicate RetrySafe(h: Snapshot, safe: bool, t: TurnScript) {
    && safe && t.frameBytes <= 4 * 1024 * 1024 && t.input.Input? && Short(t.input.items)
    && if t.previous == "" then t.input.replayable ==> Complete(t.input.items)
       else h.valid && t.previous == h.responseID && t.input.replayable && Short(Whole(h, t)) && Complete(Whole(h, t))
  }

  /** The input is read, and found not to be one. */
  predicate Malformed(safe: bool, t: TurnScript) {
    safe && t.frameBytes <= 4 * 1024 * 1024 && t.input.BadInput?
  }

  /** The replay plan of one turn. */
  datatype Prepared = Prepared(plan: Plan, retrySafe: bool, commitSafe: bool)

  ghost predicate PreparedOk(h: Snapshot, input: seq<Item>, t: TurnScript, p: Prepared) {
    && (p.commitSafe ==> p.retrySafe)
    && (p.commitSafe ==> PlanFits(h, p.plan, input) && p.plan.useHistory == (t.previous != ""))
    && (p.commitSafe ==> t.input.Input? && input == t.input.items && p.plan.Input(h.items, input) == Whole(h, t))
    && (p.retrySafe && t.previous != "" ==> p.commitSafe && Complete(p.plan.Input(h.items, input)))
    && (!p.commitSafe ==> !h.valid)
  }

  /** A turn is taken for retry-safe only if it is, and without a budget exactly then, and
      its input is never malformed. */
  ghost predicate Judged(h: Snapshot, safe: bool, budget: Budget?, t: TurnScript, p: Prepared) {
    && (p.retrySafe ==> RetrySafe(h, safe, t))
    && (budget == null && RetrySafe(h, safe, t) ==> p.retrySafe)
    && (budget == null ==> !Malformed(safe, t))
    && (p.commitSafe <==> p.retrySafe && t.input.replayable)
  }

  /** Reserving the turn's input and planning its replay. */
  method Prepare(replay: SessionReplay, t: TurnScript, ghost holders: set<Reservation>) returns (ok: bool, p: Prepared)
    requires replay.Ready(holders) && t.input.Ok()
    modifies replay.Cells()
    ensures replay.Ready(holders) && replay.output.bytes == 0 && replay.safe == old(replay.safe)
    ensures ok ==> PreparedOk(replay.history.Value(), replay.input, t, p)
    ensures ok ==> t.parses && Judged(old(replay.history.Value()), old(replay.safe), replay.current.budget, t, p)
    ensures !ok ==> !t.parses || Malformed(old(replay.safe), t)
    ensures replay.history.valid ==> replay.history.Value() == old(replay.history.Value())
    ensures ok && p.commitSafe ==> replay.safe && (t.previous != "" ==> replay.history.valid)
  {
    hide Complete, Contexts, Size, HasPrefix, Total, InLimits;
    replay.EndTurn(holders);
    replay.OthersMove(holders);
    p := Prepared(NO_PLAN, false, false);
    if !t.parses {
      return false, p;
    }
    if t.previous == "" {
      replay.history.Invalidate(holders);
    }
    replay.OthersMove(holders);
    ok, p := PlanTurn(replay, t, holders);
    replay.OthersMove(holders);
    if !ok {
      return;
    }
    if !p.retrySafe && !p.commitSafe {
      replay.current.Release(holders);
      replay.input := [];
    }
    if !p.commitSafe {
      replay.history.Invalidate(holders);
    }
  }

  method PlanTurn(replay: SessionReplay, t: TurnScript, ghost holders: set<Reservation>) returns (ok: bool, p: Prepared)
    requires replay.Ready(holders) && t.input.Ok() && replay.input == [] && replay.output.bytes == 0
    modifies replay`input, replay.current`bytes, replay.rest`bytes, Owner(replay.current.budget)`used
    ensures replay.Ready(holders)
    ensures p.commitSafe ==> p.retrySafe && replay.history.Fits(p.plan, replay.input) && p.plan.useHistory == (t.previous != "")
    ensures p.retrySafe && t.previous != "" ==> p.commitSafe && Complete(p.plan.Input(replay.history.items, replay.input))
    ensures p.commitSafe ==>
      && t.input.Input? && replay.input == t.input.items && replay.safe && (t.previous != "" ==> replay.history.valid)
      && p.plan.Input(replay.history.items, replay.input) == Whole(replay.history.Value(), t)
    ensures if ok then Judged(replay.history.Value(), replay.safe, replay.current.budget, t, p) else Malformed(replay.safe, t)
  {
    hide Complete, Contexts, Size, HasPrefix, Total;
    ok, p := true, Prepared(NO_PLAN, false, false);
    if !replay.safe || t.frameBytes > MAX_BYTES {
      return;
    }
    var reserved := replay.current.Resize(t.frameBytes, holders);
    if !reserved {
      return;
    }
    replay.OthersMove(holders);
    if t.input.BadInput? {
      return false, p;
    }
    var items := t.input.items;
    replay.input := items;
    var size := RawBytes(items);
    if LimitExceeded(|items|, size) {
      return;
    }
    var fits := replay.current.Resize(size, holders);
    if fits {
      var plan, retrySafe, commitSafe := replay.history.MakePlan(t.previous, items, t.input.present, t.input.replayable);
      p := Prepared(plan, retrySafe, commitSafe);
    }
  }

  /** `prepareRetryTurnRequest`: rebuilding the whole input of a retry-safe turn. The check
      inside it never fails, so a session never ends with "not safe to replay". */
  method RebuildInput(replay: SessionReplay, t: TurnScript, p: Prepared) returns (full: seq<Item>, safe: bool)
    requires PreparedOk(replay.history.Value(), replay.input, t, p) && p.retrySafe
    ensures safe
    ensures t.previous != "" ==> full == p.plan.Input(replay.history.items, replay.input) && Complete(full)
  {
    if t.previous == "" {
      return [], true; // the client's frame is sent again as it is
    }
    full := p.plan.Input(replay.history.items, replay.input);
    var _, complete := ToolContextDelta({}, [full]);
    Single(full);
    return full, complete;
  }

  // ---- the conversation -----------------------------------------------------------

  lemma SameTail(a: seq<Item>, b: seq<Item>, tail: seq<Item>)
    requires SameItems(a, b)
    ensures SameItems(a + tail, b + tail)
  {
  }

  /** Whether the client continues or resends it, the planned input is the conversation plus
      what the turn adds, up to spelling. */
  lemma InputIsConversation(p: Plan, items: seq<Item>, current: seq<Item>, conversation: seq<Item>)
    requires SameItems(items, conversation) && p.useHistory
    requires p.replaceWithCurrent ==> HasPrefix(current, items)
    ensures SameItems(p.Input(items, current), conversation + Added(p, current, |items|))
  {
    if p.replaceWithCurrent {
      assert current == current[..|items|] + current[|items|..];
      SameTail(current[..|items|], conversation, current[|items|..]);
    } else {
      assert p.Input(items, current) == items + current;
      SameTail(items, conversation, current);
    }
  }

  /** The conversation after a turn: what was there, what the turn added, and its output. */
  function Extended(conversation: seq<Item>, continues: bool, p: Plan, current: seq<Item>, n: nat, output: seq<Item>): seq<Item> {
    (if continues then conversation else []) + Added(p, current, n) + output
  }

  lemma KeptIsConversation(h: Snapshot, p: Plan, current: seq<Item>, output: seq<Item>, conversation: seq<Item>)
    requires PlanFits(h, p, current) && Known(h, conversation)
    ensures SameItems(p.Input(h.items, current) + output, Extended(conversation, p.useHistory, p, current, |h.items|, output))
  {
    if p.useHistory {
      InputIsConversation(p, h.items, current, conversation);
      SameTail(p.Input(h.items, current), conversation + Added(p, current, |h.items|), output);
    }
  }

  /** How an answered turn extends the conversation: by its input, or by what is new in an input
      that repeats the history, and then by its output. */
  ghost predicate Grown(before: seq<Item>, after: seq<Item>, h: Snapshot, t: TurnScript, output: seq<Item>) {
    t.input.Input? &&
    if t.previous == "" then after == t.input.items + output
    else h.valid && after == before + (if HasPrefix(t.input.items, h.items) then t.input.items[|h.items|..] else t.input.items) + output
  }

  lemma ExtendedIsGrown(h: Snapshot, t: TurnScript, p: Prepared, before: seq<Item>, output: seq<Item>)
    requires t.input.Input? && PreparedOk(h, t.input.items, t, p) && p.commitSafe
    ensures Grown(before, Extended(before, t.previous != "", p.plan, t.input.items, |h.items|, output), h, t, output)
  {
    hide SameItem;
    assert [] + t.input.items == t.input.items;
    if t.previous != "" && HasPrefix(t.input.items, h.items) && !p.plan.replaceWithCurrent {
      assert |h.items + t.input.items| == |t.input.items|;
      assert t.input.items[|h.items|..] == t.input.items;
    }
  }

  lemma SameGrowth(h: Snapshot, g: Snapshot, t: TurnScript, before: seq<Item>, after: seq<Item>, output: seq<Item>)
    requires Grown(before, after, h, t, output) && (h.valid ==> g == h)
    ensures Grown(before, after, g, t, output)
  {
  }

  /** What an attempt's events deliver as output. */
  function OutputOf(received: seq<UpstreamRead>): seq<Item> {
    Collected(Offers(Events(received)))
  }

  lemma {:induction false} ControlsConcat(a: seq<ClientRead>, b: seq<ClientRead>)
    ensures Controls(a + b) == Controls(a) + Controls(b)
  {
    if b == [] {
      assert a + b == a;
    } else {
      hide ControlOf;
      var init, last := b[..|b| - 1], b[|b| - 1];
      ControlsConcat(a, init);
      assert (a + b)[..|a + b| - 1] == a + init;
      ConcatAssociates(Controls(a), Controls(init), ControlOf(last));
    }
  }

  lemma ControlsBetween(received: seq<ClientRead>, i: nat, j: nat, n: nat)
    requires i <= j && j + n <= |received|
    ensures Controls(received[i..j + n]) == Controls(received[i..j]) + Controls(received[j..][..n])
  {
    assert received[i..j + n] == received[i..j] + received[j..][..n];
    ControlsConcat(received[i..j], received[j..][..n]);
  }

  /** The attempt ended as its reads say: Events are those it received, and `clientBroken` and
      `upstreamBroken` tell of failed writes. */
  ghost predicate Accounted(a: Attempt, mayMove: bool, inbox: seq<ClientRead>, start: nat, from: nat, received: seq<UpstreamRead>,
                            clientBroken: bool, upstreamBroken: bool) {
    && start <= from && from + a.taken <= |inbox| && a.got <= |received|
    && |Events(received[..a.got])| == a.got
    && Explained(
         Trace(mayMove, Controls(inbox[start..from]), inbox[from..from + a.taken], from + a.taken < |inbox|,
               Events(received[..a.got]), received[a.got..], clientBroken, upstreamBroken),
         a.requestID, a.nextFrame, a.allowQueuedCreate, a.exit, a.terminalEvent)
  }

  // ---- what becomes of an attempt -------------------------------------------------------

  /** The create frame gets to an account; `connected`: on a connection that is there already. */
  predicate Reaches(s: AttemptScript, connected: bool) {
    (if connected then s.stillBound else s.dial.Connected?) && s.createWritten
  }

  /** A refused dial after which a hook offers another account. */
  predicate Redials(t: TurnScript, p: Prepared, s: AttemptScript, connected: bool) {
    !connected && t.dialHook && s.hookAgrees && (s.dial.Unauthorized? || (s.dial.RateLimited? && p.retrySafe))
  }

  /** The turn goes on with another account: after such a dial, or after a rate limit that came
      before anything else. */
  predicate Skipped(t: TurnScript, p: Prepared, s: AttemptScript, connected: bool) {
    || Redials(t, p, s, connected)
    || (&& Reaches(s, connected) && p.retrySafe && t.errorHook && s.hookAgrees
        && s.upstreamReads != [] && s.upstreamReads[0].FromUpstream? && Limited(s.upstreamReads[0].event))
  }

  /** An attempt that ends the session. */
  predicate Fatal(t: TurnScript, p: Prepared, s: AttemptScript, connected: bool, a: Option<Attempt>) {
    if a.None? then !Reaches(s, connected) && !Redials(t, p, s, connected)
    else Reaches(s, connected) && (a.value.exit.Closed? || a.value.exit.ClientGone? || (a.value.exit.MoveOn? && !s.hookAgrees))
  }

  lemma FirstEvent(received: seq<UpstreamRead>)
    requires received != [] && |Events(received[..1])| == 1
    ensures received[0].FromUpstream? && Events(received[..1]) == [received[0].event]
  {
    assert received[..1][..0] == [];
  }

  /** How a turn ended: its plan, the attempt it reached, whether a connection was there before,
      and the client frame it began with. */
  datatype Ending = Ending(p: Prepared, k: nat, last: Option<Attempt>, connected: bool, start: nat, upstreamBroken: bool)

  ghost predicate LastAccounted(t: TurnScript, inbox: seq<ClientRead>, e: Ending, from: nat, clientBroken: bool) {
    && e.k < |t.attempts| && e.last.Some?
    && Accounted(e.last.value, e.p.retrySafe && t.errorHook, inbox, e.start, from, t.attempts[e.k].upstreamReads, clientBroken, e.upstreamBroken)
  }

  predicate AllSkipped(t: TurnScript, e: Ending) {
    e.k <= |t.attempts| && forall i :: 0 <= i < e.k ==> Skipped(t, e.p, t.attempts[i], e.connected && i == 0)
  }

  /** Attempt k is the last one, all before it were skipped, and it went as its reads say. */
  ghost predicate Ended(t: TurnScript, inbox: seq<ClientRead>, e: Ending, position: nat, clientBroken: bool) {
    && AllSkipped(t, e)
    && (e.last.Some? ==> e.last.value.taken <= position && LastAccounted(t, inbox, e, position - e.last.value.taken, clientBroken))
  }

  /** Why a turn ends the session at client frame `position`. */
  ghost predicate Stopped(t: TurnScript, inbox: seq<ClientRead>, safe: bool, e: Ending, position: nat, clientBroken: bool) {
    || !t.parses || !t.admitted || Malformed(safe, t)
    || (&& Ended(t, inbox, e, position, clientBroken)
        && (e.k < |t.attempts| ==> Fatal(t, e.p, t.attempts[e.k], e.connected && e.k == 0, e.last)))
  }

  /** The conversation with a finished answer can be kept. */
  ghost predicate Worthy(h: Snapshot, t: TurnScript, p: Prepared, safe: bool, a: Attempt) {
    && a.exit.Finished? && p.commitSafe && safe && !a.outputExceedsLimit && a.requestID != "" && t.input.Input?
    && Complete(Whole(h, t) + a.output) && Short(Whole(h, t) + a.output)
  }

  /** How a session went, from client frame `start` to `position`: `served` turns were answered,
      every turn but the first was started by the next create of the client, and it ended in the
      turn that `e` tells of, or waiting since `idle`. */
  ghost predicate Told(turns: seq<TurnScript>, inbox: seq<ClientRead>, start: nat, position: nat, outcome: Outcome, served: nat,
                       started: seq<ClientFrame>, e: Ending, idle: nat, clientBroken: bool, broken: bool) {
    && served <= |turns| && |started| <= served <= |started| + 1 && start <= position <= |inbox|
    && started <= Creates(inbox[start..position])
    && (served < |turns| && |started| == served ==>
          outcome.End? && e.upstreamBroken == broken && exists safe :: Stopped(turns[served], inbox, safe, e, position, clientBroken))
    && (|started| < served ==>
          && outcome.Continue? && Creates(inbox[start..position]) == started
          && IdleOver(inbox, idle, position, turns[served - 1].patience, broken))
  }

  lemma StoppedTold(turns: seq<TurnScript>, inbox: seq<ClientRead>, start: nat, from: nat, position: nat, served: nat,
                    started: seq<ClientFrame>, e: Ending, idle: nat, safe: bool, clientBroken: bool, broken: bool)
    requires served < |turns| && |started| == served && start <= from <= position <= |inbox| && Creates(inbox[start..from]) == started
    requires e.upstreamBroken == broken && Stopped(turns[served], inbox, safe, e, position, clientBroken)
    ensures Told(turns, inbox, start, position, End, served, started, e, idle, clientBroken, broken)
  {
    hide Stopped, Creates, IdleOver;
    CreatesBetween(inbox, start, from, position);
  }

  lemma WaitedTold(turns: seq<TurnScript>, inbox: seq<ClientRead>, start: nat, from: nat, position: nat, served: nat,
                   started: seq<ClientFrame>, e: Ending, idle: nat, clientBroken: bool, broken: bool)
    requires 0 < served <= |turns| && |started| == served - 1 && start <= from <= position <= |inbox|
    requires Creates(inbox[start..from]) == started && Creates(inbox[from..position]) == []
    requires IdleOver(inbox, idle, position, turns[served - 1].patience, broken)
    ensures Told(turns, inbox, start, position, Continue, served, started, e, idle, clientBroken, broken)
  {
    hide Stopped, Creates, IdleOver;
    CreatesBetween(inbox, start, from, position);
  }

  lemma AllTold(turns: seq<TurnScript>, inbox: seq<ClientRead>, start: nat, position: nat, outcome: Outcome,
                started: seq<ClientFrame>, e: Ending, idle: nat, clientBroken: bool, broken: bool)
    requires |started| == |turns| && start <= position <= |inbox| && Creates(inbox[start..position]) == started
    ensures Told(turns, inbox, start, position, outcome, |turns|, started, e, idle, clientBroken, broken)
  {
  }

  class Session {
    const client: Connection<Event>
    const queue: PendingFrames
    const replay: SessionReplay
    const clientReads: seq<ClientRead>
    var upstream: Connection?<ClientFrame>
    var position: nat // client frames read so far
    ghost const holders: set<Reservation>
    ghost var conversation: seq<Item> // what the upstreams were told and answered, in order

    constructor (client: Connection<Event>, queue: PendingFrames, replay: SessionReplay, clientReads: seq<ClientRead>, ghost holders: set<Reservation>)
      requires replay.Ready(holders) && replay.Released() && !replay.history.valid && queue.Bounded() && queue.frames == []
      requires client !in replay.Cells() + holders && queue !in replay.Cells() + holders && !client.broken
      ensures this.client == client && this.queue == queue && this.replay == replay && this.clientReads == clientReads && this.holders == holders
      ensures BetweenTurns() && Live() && upstream == null && position == 0
    {
      this.client, this.queue, this.replay, this.clientReads, this.holders := client, queue, replay, clientReads, holders;
      upstream, position, conversation := null, 0, [];
    }

    ghost predicate Apart() reads `upstream {
      && client !in replay.Cells() + holders && queue !in replay.Cells() + holders && this !in replay.Cells() + holders
      && (upstream != null ==> upstream !in replay.Cells() + holders)
    }

    /** No write has failed. */
    ghost predicate Live() reads `upstream, client, upstream {
      !client.broken && (upstream != null ==> !upstream.broken)
    }

    ghost predicate Broken() reads `upstream, upstream {
      upstream != null && upstream.broken
    }

    /** Beside what the others hold, the budget has room for a conversation of that size. */
    ghost predicate Room(size: nat) reads replay.history.reservation, Owner(replay.history.reservation.budget) {
      var r := replay.history.reservation;
      r.budget != null ==> r.budget.used - r.bytes + size <= r.budget.limit
    }

    ghost predicate Valid() reads this, queue, replay, replay.history, holders, Owner(replay.history.reservation.budget) {
      && Apart() && replay.Ready(holders) && queue.Bounded() && position <= |clientReads|
      && Known(replay.history.Value(), conversation)
    }

    ghost predicate BetweenTurns() reads this, queue, replay, replay.history, replay.current, replay.output, holders, Owner(replay.history.reservation.budget) {
      Valid() && queue.frames == [] && replay.current.bytes == 0 && replay.output.bytes == 0
    }

    /** Relaying one attempt, from where the client was last read. */
    method RelayOnce(t: TurnScript, p: Prepared, script: AttemptScript, ghost start: nat) returns (a: Attempt)
      requires Valid() && Live() && upstream != null && replay.output.bytes == 0
      requires start <= position && queue.frames == Controls(clientReads[start..position]) && (queue.frames != [] ==> p.retrySafe && t.errorHook)
      modifies `position, client, queue, upstream, replay.Cells()
      ensures Valid() && position == old(position) + a.taken && a.got <= |script.upstreamReads|
      ensures Accounted(a, p.retrySafe && t.errorHook, clientReads, start, old(position), script.upstreamReads, client.broken, Broken())
      ensures ControlsHandled(a.exit, old(upstream.written), old(queue.frames), Controls(clientReads[old(position)..position]), upstream.written, queue.frames)
      ensures EventsHandled(a.exit, old(client.written), Events(script.upstreamReads[..a.got]), client.written)
      ensures if KeepsReplay(Controls(clientReads[old(position)..position]))
              then replay.Kept(old(replay.history.Value()), old(replay.safe), old(replay.input), old(replay.current.bytes))
              else replay.Forgotten()
      ensures a.exit.MoveOn? ==> KeepsReplay(Controls(clientReads[old(position)..position])) && a.nextFrame.None?
      ensures a.terminalEvent.None? ==> replay.output.bytes == 0
      ensures replay.safe && p.commitSafe && a.terminalEvent.Some? && !a.outputExceedsLimit ==> a.output == OutputOf(script.upstreamReads[..a.got])
      ensures replay.safe && p.commitSafe && replay.output.budget == null ==>
        (a.outputExceedsLimit <==> TooLong(Offers(Events(script.upstreamReads[..a.got]))))
      ensures a.exit.MoveOn? || a.exit.Finished? || a.exit.Failed? ==> (a.terminalEvent.None? <==> a.exit.MoveOn?)
    {
      hide Complete, Contexts, Size, HasPrefix, Total, InLimits, Controls, Events, SameItems, History.Ok, Ledger, KeepsReplay, Bills, Explained, TooLong;
      hide ControlsHandled, EventsHandled;
      a := RelayAttempt(client, upstream, queue, replay, clientReads[position..], script.upstreamReads,
                        p.retrySafe && t.errorHook, p.commitSafe, holders);
      assert clientReads[position..][..a.taken] == clientReads[position..position + a.taken];
      position := position + a.taken;
    }

    /** One attempt, from the create frame to the end of its answer. None: the create frame
        could not be written. */
    method TryTurn(t: TurnScript, p: Prepared, script: AttemptScript, ghost start: nat) returns (a: Option<Attempt>)
      requires Valid() && Live() && upstream != null && replay.output.bytes == 0
      requires start <= position && queue.frames == Controls(clientReads[start..position]) && (queue.frames != [] ==> p.retrySafe && t.errorHook)
      modifies `position, client, queue, upstream, replay.Cells()
      ensures Valid() && (a.Some? <==> script.createWritten)
      ensures a.None? ==> position == old(position) && queue.frames == old(queue.frames)
      ensures a.Some? ==> position == old(position) + a.value.taken && a.value.got <= |script.upstreamReads|
      ensures a.Some? ==>
        Accounted(a.value, p.retrySafe && t.errorHook, clientReads, start, old(position), script.upstreamReads, client.broken, Broken())
      ensures a.Some? ==> ControlsHandled(a.value.exit, old(upstream.written), old(queue.frames), Controls(clientReads[old(position)..position]), upstream.written, queue.frames)
      ensures a.Some? ==> EventsHandled(a.value.exit, old(client.written), Events(script.upstreamReads[..a.value.got]), client.written)
      ensures a.Some? ==>
        if KeepsReplay(Controls(clientReads[old(position)..position]))
        then replay.Kept(old(replay.history.Value()), old(replay.safe), old(replay.input), old(replay.current.bytes))
        else replay.Forgotten()
      ensures a.Some? && a.value.exit.MoveOn? ==> KeepsReplay(Controls(clientReads[old(position)..position])) && a.value.nextFrame.None?
      ensures a.Some? && a.value.terminalEvent.None? ==> replay.output.bytes == 0
      ensures a.Some? && replay.safe && p.commitSafe && a.value.terminalEvent.Some? && !a.value.outputExceedsLimit ==>
        a.value.output == OutputOf(script.upstreamReads[..a.value.got])
      ensures a.Some? && replay.safe && p.commitSafe && replay.output.budget == null ==>
        (a.value.outputExceedsLimit <==> TooLong(Offers(Events(script.upstreamReads[..a.value.got]))))
      ensures a.Some? && (a.value.exit.MoveOn? || a.value.exit.Finished? || a.value.exit.Failed?) ==> (a.value.terminalEvent.None? <==> a.value.exit.MoveOn?)
    {
      if !script.createWritten {
        return None;
      }
      hide Complete, Contexts, Size, History.Ok, Ledger, Controls, Events, SameItems, ControlsHandled, EventsHandled, Accounted, TooLong, KeepsReplay, OutputOf;
      replay.DropOutput(holders);
      var r := RelayOnce(t, p, script, start);
      return Some(r);
    }

    /** A successful response extends the history exactly when the conversation with it can be
        kept and fits the budget. */
    method Extend(t: TurnScript, p: Prepared, a: Attempt)
      requires Valid() && a.exit.Finished? && (replay.safe ==> PreparedOk(replay.history.Value(), replay.input, t, p))
      modifies `conversation, replay.Cells()
      ensures Valid() && replay.safe == old(replay.safe) && replay.current.bytes == replay.output.bytes == 0
      ensures conversation == Extended(old(conversation), t.previous != "", p.plan, old(replay.input), |old(replay.history.items)|, a.output)
      ensures replay.history.valid <==>
        Worthy(old(replay.history.Value()), t, p, replay.safe, a) && Room(Size(Whole(old(replay.history.Value()), t) + a.output))
      ensures replay.history.valid ==>
        replay.history.responseID == a.requestID && replay.history.items == Whole(old(replay.history.Value()), t) + a.output
    {
      hide Complete, Contexts, Size, HasPrefix, Total, InLimits, SameItem, SameItems, Added, Extended, Plan.Input, Joined;
      var keep := p.commitSafe && replay.safe && !a.outputExceedsLimit;
      ghost var said := Extended(conversation, t.previous != "", p.plan, replay.input, |replay.history.items|, a.output);
      if keep {
        KeptIsConversation(replay.history.Value(), p.plan, replay.input, a.output, conversation);
      }
      TwoSources(replay.current, replay.output);
      replay.history.Commit(a.requestID, p.plan, replay.input, a.output, keep, replay.current, replay.output, holders);
      conversation := said;
    }

    /** The end of an answered turn: a successful response extends the history and the
        conversation, anything else gives the history up. */
    method Conclude(t: TurnScript, p: Prepared, a: Attempt)
      requires Valid() && queue.frames == [] && a.terminalEvent.Some?
      requires replay.safe ==> PreparedOk(replay.history.Value(), replay.input, t, p)
      modifies `conversation, replay.Cells()
      ensures BetweenTurns() && replay.safe == old(replay.safe)
      ensures a.exit.Finished? ==>
        conversation == Extended(old(conversation), t.previous != "", p.plan, old(replay.input), |old(replay.history.items)|, a.output)
      ensures !a.exit.Finished? ==> conversation == old(conversation)
      ensures replay.history.valid <==>
        Worthy(old(replay.history.Value()), t, p, replay.safe, a) && Room(Size(Whole(old(replay.history.Value()), t) + a.output))
      ensures replay.history.valid ==>
        replay.history.responseID == a.requestID && replay.history.items == Whole(old(replay.history.Value()), t) + a.output
    {
      hide Complete, Contexts, Size, HasPrefix, Total, InLimits, SameItem, SameItems, Added, Extended, Plan.Input, PreparedOk, Ledger, Joined, Whole;
      replay.OthersMove(holders);
      if a.exit.Finished? {
        Extend(t, p, a);
      } else {
        replay.history.Invalidate(holders);
      }
      replay.EndTurn(holders);
    }

    /** Another account may take a retry-safe turn once its input is rebuilt and a hook
        offers one. */
    method Reroute(t: TurnScript, p: Prepared, hookAgrees: bool) returns (stop: Option<Outcome>)
      requires PreparedOk(replay.history.Value(), replay.input, t, p) && p.retrySafe
      ensures stop == if hookAgrees then None else Some(End)
    {
      var _, safe := RebuildInput(replay, t, p);
      if !safe {
        return Some(NotSafeToReplay);
      }
      return if hookAgrees then None else Some(End);
    }

    /** Dialling, unless a connection is there, which must still be the turn's: `again` asks
        for the next account. */
    method Connect(t: TurnScript, p: Prepared, script: AttemptScript) returns (stop: Option<Outcome>, again: bool)
      requires Valid() && Live() && PreparedOk(replay.history.Value(), replay.input, t, p)
      modifies `upstream
      ensures Valid() && Live() && (stop.None? || stop == Some(End))
      ensures stop.None? && !again <==> if old(upstream) != null then script.stillBound else script.dial.Connected?
      ensures stop.None? && again <==> Redials(t, p, script, old(upstream) != null)
      ensures old(upstream) != null ==> upstream == old(upstream)
      ensures old(upstream) == null && (stop.Some? || again) ==> upstream == null
      ensures old(upstream) == null && stop.None? && !again ==> upstream != null && fresh(upstream) && upstream.written == []
    {
      stop, again := None, false;
      if upstream != null {
        stop := if script.stillBound then None else Some(End);
        return;
      }
      match script.dial {
        case Connected =>
          upstream := new Connection<ClientFrame>();
        case Refused =>
          stop := Some(End);
        case Unauthorized =>
          again := t.dialHook && script.hookAgrees;
          stop := if again then None else Some(End);
        case RateLimited =>
          if p.retrySafe && t.dialHook {
            stop := Reroute(t, p, script.hookAgrees);
            again := true;
          } else {
            stop := Some(End);
          }
      }
    }

    /** What holds before every attempt of a turn: no account was sent any of its controls,
        and they are all queued in order. */
    ghost predicate Undecided(t: TurnScript, p: Prepared, start: nat)
      reads this, client, queue, upstream, replay, replay.history, replay.output, holders, Owner(replay.history.reservation.budget)
    {
      && Valid() && Live() && replay.output.bytes == 0 && start <= position
      && PreparedOk(replay.history.Value(), replay.input, t, p)
      && queue.frames == Controls(clientReads[start..position]) && KeepsReplay(queue.frames) && Creates(clientReads[start..position]) == []
      && (queue.frames != [] ==> p.retrySafe && t.errorHook)
    }

    /** One connected attempt. No stop: the turn moves on to the next account. */
    method Answer(t: TurnScript, p: Prepared, script: AttemptScript, ghost start: nat) returns (stop: Option<Outcome>, a: Option<Attempt>)
      requires Undecided(t, p, start) && upstream != null
      modifies `position, `upstream, `conversation, client, queue, upstream, replay.Cells()
      ensures Valid() && (stop.Some? ==> stop.value.End? || stop.value.Continue?)
      ensures upstream == null || upstream == old(upstream)
      ensures (a.Some? <==> script.createWritten) && (a.None? ==> stop == Some(End) && position == old(position))
      ensures a.Some? ==> position == old(position) + a.value.taken
      ensures a.Some? ==>
        Accounted(a.value, p.retrySafe && t.errorHook, clientReads, start, old(position), script.upstreamReads, client.broken, Broken())
      ensures a.Some? ==> stop == if a.value.exit.MoveOn? && script.hookAgrees then None
                                  else if a.value.exit.Finished? || a.value.exit.Failed? then Some(Continue) else Some(End)
      ensures stop.None? ==> Undecided(t, p, start) && upstream == null && client.written == old(client.written)
      ensures stop.None? ==>
        conversation == old(conversation) && replay.history.Value() == old(replay.history.Value()) && replay.input == old(replay.input) && replay.safe == old(replay.safe)
      ensures stop == Some(Continue) ==>
        && BetweenTurns() && Live() && upstream == old(upstream) && start <= position && a.value.got <= |script.upstreamReads|
        && upstream.written == old(upstream.written) + Controls(clientReads[start..position])
        && client.written == old(client.written) + Events(script.upstreamReads[..a.value.got])
        && Creates(clientReads[start..position]) == ListOf(a.value.nextFrame)
      ensures stop == Some(Continue) ==> Concluded(t, p, a.value, old(replay.history.Value()), old(replay.safe), Controls(clientReads[start..position]), script.upstreamReads)
      ensures stop == Some(Continue) && replay.history.valid ==>
        conversation == Extended(old(conversation), t.previous != "", p.plan, old(replay.input), |old(replay.history.items)|, OutputOf(script.upstreamReads[..a.value.got]))
    {
      hide Complete, Contexts, Size, HasPrefix, Total, InLimits, SameItem, SameItems, Added, Extended, Plan.Input, Controls, Events, PlanFits, History.Ok, Ledger, Accounted, TooLong, OutputOf, Whole, Creates;
      ghost var from, waiting := position, queue.frames;
      a := TryTurn(t, p, script, start);
      if a.None? {
        return Some(End), None;
      }
      ControlsBetween(clientReads, start, from, a.value.taken);
      assert clientReads[from..][..a.value.taken] == clientReads[from..position];
      KeepsBoth(waiting, Controls(clientReads[from..position]));
      CreatesBetween(clientReads, start, from, position);
      NotBroken(a.value, p.retrySafe && t.errorHook, clientReads, start, from, script.upstreamReads, client.broken, Broken());
      if a.value.exit.MoveOn? {
        MovedOn(a.value, p.retrySafe && t.errorHook, clientReads, start, from, script.upstreamReads, client.broken, Broken());
        upstream := null;
        stop := Reroute(t, p, script.hookAgrees);
        return;
      }
      if !a.value.exit.Finished? && !a.value.exit.Failed? {
        return Some(End), a;
      }
      Conclude(t, p, a.value);
      return Some(Continue), a;
    }

    /** After an answered turn that began with history h: whether the session is still safe, and
        whether and as what the history is kept. */
    ghost predicate Concluded(t: TurnScript, p: Prepared, a: Attempt, h: Snapshot, safe: bool, controls: seq<ClientFrame>, received: seq<UpstreamRead>)
      reads replay, replay.history, replay.history.reservation, Owner(replay.history.reservation.budget)
    {
      && (replay.safe <==> safe && KeepsReplay(controls))
      && (replay.history.valid <==> Worthy(h, t, p, replay.safe, a) && Room(Size(Whole(h, t) + a.output)))
      && (replay.history.valid ==> replay.history.responseID == a.requestID && replay.history.items == Whole(h, t) + a.output)
      && a.got <= |received|
      && (replay.safe && p.commitSafe && !a.outputExceedsLimit ==> a.output == OutputOf(received[..a.got]))
      && (replay.safe && p.commitSafe && replay.output.budget == null ==> (a.outputExceedsLimit <==> TooLong(Offers(Events(received[..a.got])))))
    }

    /** One attempt with its dialling. No stop: the turn goes on with the next account. */
    method TryAccount(t: TurnScript, p: Prepared, script: AttemptScript, ghost start: nat) returns (stop: Option<Outcome>, a: Option<Attempt>)
      requires Undecided(t, p, start)
      modifies `position, `upstream, `conversation, client, queue, upstream, replay.Cells()
      ensures Valid() && (stop.Some? ==> stop.value.End? || stop.value.Continue?)
      ensures upstream == null || upstream == old(upstream) || fresh(upstream)
      ensures a.None? ==> position == old(position)
      ensures stop.None? ==> Skipped(t, p, script, old(upstream) != null)
      ensures stop == Some(End) ==> Fatal(t, p, script, old(upstream) != null, a)
      ensures stop == Some(Continue) ==> Reaches(script, old(upstream) != null) && a.Some? && (a.value.exit.Finished? || a.value.exit.Failed?)
      ensures a.Some? ==> position == old(position) + a.value.taken
      ensures a.Some? ==>
        Accounted(a.value, p.retrySafe && t.errorHook, clientReads, start, old(position), script.upstreamReads, client.broken, Broken())
      ensures stop.None? ==> Undecided(t, p, start) && upstream == null && client.written == old(client.written)
      ensures stop.None? ==>
        conversation == old(conversation) && replay.history.Value() == old(replay.history.Value()) && replay.input == old(replay.input) && replay.safe == old(replay.safe)
      ensures stop == Some(Continue) ==>
        && BetweenTurns() && Live() && upstream != null && start <= position && a.value.got <= |script.upstreamReads|
        && upstream.written == (if upstream == old(upstream) then old(upstream.written) else []) + Controls(clientReads[start..position])
        && client.written == old(client.written) + Events(script.upstreamReads[..a.value.got])
        && Creates(clientReads[start..position]) == ListOf(a.value.nextFrame)
      ensures stop == Some(Continue) ==> Concluded(t, p, a.value, old(replay.history.Value()), old(replay.safe), Controls(clientReads[start..position]), script.upstreamReads)
      ensures stop == Some(Continue) && replay.history.valid ==>
        conversation == Extended(old(conversation), t.previous != "", p.plan, old(replay.input), |old(replay.history.items)|, OutputOf(script.upstreamReads[..a.value.got]))
    {
      hide Complete, Contexts, Size, HasPrefix, Total, InLimits, SameItem, SameItems, Added, Extended, Plan.Input, Controls, Events, PlanFits, History.Ok, Ledger, PreparedOk, Accounted, Concluded, OutputOf, KeepsReplay, Creates;
      a := None;
      replay.OthersMove(holders);
      var again;
      stop, again := Connect(t, p, script);
      if stop.None? && !again {
        ghost var from := position;
        stop, a := Answer(t, p, script, start);
        if stop.None? {
          MovedOn(a.value, p.retrySafe && t.errorHook, clientReads, start, from, script.upstreamReads, client.broken, Broken());
        }
      }
    }

    /** The attempts of a turn, one account after the other. */
    method TryAccounts(t: TurnScript, p: Prepared) returns (outcome: Outcome, k: nat, last: Option<Attempt>)
      requires Undecided(t, p, position)
      modifies `position, `upstream, `conversation, client, queue, upstream, replay.Cells()
      ensures Valid() && (outcome.End? || outcome.Continue?) && old(position) <= position
      ensures upstream == null || upstream == old(upstream) || fresh(upstream)
      ensures Ended(t, clientReads, Ending(p, k, last, old(upstream != null), old(position), Broken()), position, client.broken)
      ensures outcome.End? && k < |t.attempts| ==> Fatal(t, p, t.attempts[k], old(upstream != null) && k == 0, last)
      ensures outcome.Continue? ==>
        && k < |t.attempts| && last.Some? && (last.value.exit.Finished? || last.value.exit.Failed?)
        && BetweenTurns() && Live() && upstream != null && last.value.got <= |t.attempts[k].upstreamReads|
        && upstream.written == (if upstream == old(upstream) then old(upstream.written) else []) + Controls(clientReads[old(position)..position])
        && client.written == old(client.written) + Events(t.attempts[k].upstreamReads[..last.value.got])
        && Creates(clientReads[old(position)..position]) == ListOf(last.value.nextFrame)
        && Concluded(t, p, last.value, old(replay.history.Value()), old(replay.safe), Controls(clientReads[old(position)..position]), t.attempts[k].upstreamReads)
      ensures outcome.Continue? && replay.history.valid ==>
        conversation == Extended(old(conversation), t.previous != "", p.plan, old(replay.input), |old(replay.history.items)|, OutputOf(t.attempts[k].upstreamReads[..last.value.got]))
    {
      hide OutputOf, Accounted, Skipped, Fatal, Reaches, Extended, Controls, Creates, Events, History.Ok, Ledger, Concluded, PreparedOk, BetweenTurns, Known, KeepsReplay, SessionReplay.Ready;
      k, last := 0, None;
      ghost var connected, start := upstream != null, position;
      while k < |t.attempts|
        invariant k <= |t.attempts| && Undecided(t, p, start) && client.written == old(client.written) && last.None?
        invariant conversation == old(conversation) && replay.history.Value() == old(replay.history.Value()) && replay.input == old(replay.input) && replay.safe == old(replay.safe)
        invariant upstream != null ==> upstream == old(upstream) && upstream.written == old(upstream.written)
        invariant (upstream != null) == (connected && k == 0)
        invariant forall i :: 0 <= i < k ==> Skipped(t, p, t.attempts[i], connected && i == 0)
      {
        var stop;
        stop, last := TryAccount(t, p, t.attempts[k], start);
        if stop.Some? {
          return stop.value, k, last;
        }
        last := None;
        k := k + 1;
      }
      return End, k, last;
    }

    /** One turn with all its attempts: attempt k is the last, and all before it were skipped. */
    method RunTurn(t: TurnScript) returns (outcome: Outcome, p: Prepared, k: nat, last: Option<Attempt>)
      requires BetweenTurns() && Live() && t.input.Ok()
      modifies this, client, queue, upstream, replay.Cells()
      ensures Valid() && (outcome.End? || outcome.Continue?) && old(position) <= position
      ensures upstream == null || upstream == old(upstream) || fresh(upstream)
      ensures outcome.End? ==>
        Stopped(t, clientReads, old(replay.safe), Ending(p, k, last, old(upstream != null), old(position), Broken()), position, client.broken)
      ensures outcome.Continue? ==>
        && t.parses && t.admitted && Judged(old(replay.history.Value()), old(replay.safe), replay.current.budget, t, p)
        && k < |t.attempts| && last.Some? && (last.value.exit.Finished? || last.value.exit.Failed?)
        && Ended(t, clientReads, Ending(p, k, last, old(upstream != null), old(position), Broken()), position, client.broken)
      ensures outcome.Continue? ==>
        && BetweenTurns() && Live() && upstream != null && last.value.got <= |t.attempts[k].upstreamReads|
        && upstream.written == (if upstream == old(upstream) then old(upstream.written) else []) + Controls(clientReads[old(position)..position])
        && client.written == old(client.written) + Events(t.attempts[k].upstreamReads[..last.value.got])
        && Creates(clientReads[old(position)..position]) == ListOf(last.value.nextFrame)
        && (replay.history.valid ==>
              Grown(old(conversation), conversation, old(replay.history.Value()), t, OutputOf(t.attempts[k].upstreamReads[..last.value.got])))
      ensures outcome.Continue? ==>
        Concluded(t, p, last.value, old(replay.history.Value()), old(replay.safe), Controls(clientReads[old(position)..position]), t.attempts[k].upstreamReads)
      ensures outcome.Continue? && replay.current.budget == null ==>
        (replay.history.valid <==>
           Keeps(old(replay.history.Value()), old(replay.safe), t, last.value, Controls(clientReads[old(position)..position]), t.attempts[k].upstreamReads[..last.value.got]))
      ensures outcome.Continue? && replay.history.valid ==>
        && t.input.Input? && replay.history.responseID == last.value.requestID
        && replay.history.items == Whole(old(replay.history.Value()), t) + OutputOf(t.attempts[k].upstreamReads[..last.value.got])
    {
      assert position <= |clientReads| && Controls(clientReads[position..position]) == [] && Creates(clientReads[position..position]) == [];
      hide Creates, OutputOf, Grown, Worthy, Judged, Ended, Malformed, Fatal, Extended, Plan.Input, Controls, Events, PlanFits, History.Ok, Ledger, TooLong, KeepsReplay, SameItems, Keeps, Complete, Size;
      k, last := 0, None;
      ghost var was, safe, start := replay.history.Value(), replay.safe, position;
      var ok;
      ok, p := Prepare(replay, t, holders);
      if !ok || !t.admitted {
        return End, p, k, last;
      }
      NothingKept();
      ghost var h, input := replay.history.Value(), replay.input;
      outcome, k, last := TryAccounts(t, p);
      hide PreparedOk, Concluded, Stopped;
      if outcome.Continue? {
        TurnConcluded(t, p, last.value, h, was, safe, input, Controls(clientReads[start..position]), t.attempts[k].upstreamReads, old(conversation));
      }
    }

    /** What an answered turn leaves, told from the history before the turn. */
    lemma TurnConcluded(t: TurnScript, p: Prepared, a: Attempt, h: Snapshot, was: Snapshot, safe: bool, input: seq<Item>,
                        controls: seq<ClientFrame>, received: seq<UpstreamRead>, before: seq<Item>)
      requires Concluded(t, p, a, h, safe, controls, received) && PreparedOk(h, input, t, p) && Judged(was, safe, replay.current.budget, t, p)
      requires (h.valid ==> h == was) && (p.commitSafe && t.previous != "" ==> h.valid)
      requires replay.output.budget == replay.current.budget == replay.history.reservation.budget
      requires replay.history.valid ==> conversation == Extended(before, t.previous != "", p.plan, input, |h.items|, OutputOf(received[..a.got]))
      ensures Concluded(t, p, a, was, safe, controls, received)
      ensures replay.history.valid ==> t.input.Input? && replay.history.items == Whole(was, t) + OutputOf(received[..a.got])
      ensures replay.history.valid ==> Grown(before, conversation, was, t, OutputOf(received[..a.got]))
      ensures replay.current.budget == null ==> (replay.history.valid <==> Keeps(was, safe, t, a, controls, received[..a.got]))
    {
      hide Complete, Size, Extended, Grown, KeepsReplay, OutputOf, TooLong, RetrySafe, Plan.Input, PlanFits, InLimits;
      if replay.history.valid {
        ExtendedIsGrown(h, t, p, before, OutputOf(received[..a.got]));
        SameGrowth(h, was, t, before, conversation, OutputOf(received[..a.got]));
      }
      if RetrySafe(was, safe, t) {
        SafeHasInput(was, safe, t);
      }
    }

    /** Between turns: controls go straight up, and one that a replay would not repeat ends
        replaying for good. The session also ends here on a timeout or an upstream event. */
    method Idle(patience: nat) returns (create: Option<ClientFrame>)
      requires BetweenTurns() && Live() && upstream != null
      modifies `position, upstream, replay.Cells()
      ensures BetweenTurns() && old(position) <= position
      ensures Creates(clientReads[old(position)..position]) == ListOf(create)
      ensures create.Some? ==> Live() && upstream.written == old(upstream.written) + Controls(clientReads[old(position)..position])
      ensures create.None? ==> IdleOver(clientReads, old(position), position, patience, upstream.broken)
      ensures StillKept(Controls(clientReads[old(position)..position]), old(replay.history.Value()), old(replay.safe))
    {
      assert position <= |clientReads| && Controls(clientReads[position..position]) == [] && Creates(clientReads[position..position]) == [];
      hide BetweenTurns, Controls, Creates, ControlOf, CreateOf, KeepsReplay;
      create := None;
      var start := position;
      ghost var base, h, safe := upstream.written, replay.history.Value(), replay.safe;
      assert StillKept([], h, safe) by { NothingKept(); }
      hide StillKept;
      while position < |clientReads| && position - start < patience
        invariant BetweenTurns() && Live() && start <= position <= |clientReads| && create.None? && position - start <= patience
        invariant upstream.written == base + Controls(clientReads[start..position])
        invariant Creates(clientReads[start..position]) == [] && StillKept(Controls(clientReads[start..position]), h, safe)
        decreases |clientReads| - position
      {
        var over;
        over, create := IdleStep(start, base, h, safe);
        if over || create.Some? {
          return;
        }
      }
    }

    lemma NothingKept()
      ensures KeepsReplay([])
    {
    }

    method IdleStep(ghost start: nat, ghost base: seq<ClientFrame>, ghost h: Snapshot, ghost safe: bool)
      returns (over: bool, create: Option<ClientFrame>)
      requires BetweenTurns() && Live() && upstream != null && start <= position < |clientReads|
      requires upstream.written == base + Controls(clientReads[start..position]) && Creates(clientReads[start..position]) == []
      requires StillKept(Controls(clientReads[start..position]), h, safe)
      modifies `position, upstream, replay.Cells()
      ensures BetweenTurns() && position == old(position) + 1 && Creates(clientReads[start..position]) == ListOf(create)
      ensures StillKept(Controls(clientReads[start..position]), h, safe)
      ensures if over then create.None? && (clientReads[position - 1].ClientLost? || upstream.broken)
              else Live() && upstream.written == base + Controls(clientReads[start..position])
    {
      hide BetweenTurns, Valid, Apart, SessionReplay.Ready, Controls, Creates, ControlOf, CreateOf, KeepsReplay;
      ghost var sent, c := Controls(clientReads[start..position]), ControlOf(clientReads[position]);
      OneRead(clientReads, start, position);
      over, create := IdleRead();
      KeepsBoth(sent, c);
      ConcatAssociates(base, sent, c);
      assert [] + ListOf(create) == ListOf(create);
    }

    /** Only a control that a replay would not repeat ends replaying. */
    ghost predicate StillKept(controls: seq<ClientFrame>, h: Snapshot, safe: bool) reads replay, replay.history {
      if KeepsReplay(controls) then replay.history.Value() == h && replay.safe == safe else !replay.safe && !replay.history.valid
    }

    method OthersMove()
      requires BetweenTurns()
      modifies replay.rest`bytes, Owner(replay.history.reservation.budget)`used
      ensures BetweenTurns()
    {
      hide Known, History.Ok, Ledger, PendingFrames.Bounded;
      replay.OthersMove(holders);
    }

    method IdleRead() returns (over: bool, create: Option<ClientFrame>)
      requires BetweenTurns() && Live() && upstream != null && position < |clientReads|
      modifies `position, upstream, replay.Cells()
      ensures BetweenTurns() && position == old(position) + 1 && ListOf(create) == CreateOf(clientReads[old(position)])
      ensures if over then create.None? && (clientReads[old(position)].ClientLost? || upstream.broken)
              else Live() && upstream.written == old(upstream.written) + ControlOf(clientReads[old(position)])
      ensures if KeepsReplay(ControlOf(clientReads[old(position)])) then replay.history.Value() == old(replay.history.Value()) && replay.safe == old(replay.safe)
              else !replay.safe && !replay.history.valid
    {
      hide Known, History.Ok, Ledger, SessionReplay.Ready, PendingFrames.Bounded;
      OthersMove();
      var r := clientReads[position];
      over, create := false, None;
      position := position + 1;
      if r.ClientLost? {
        over := true;
      } else if r.frame.kind.Create? {
        create := Some(r.frame);
      } else {
        var ok := PassIdle(r.frame);
        over := !ok;
      }
    }

    method PassIdle(f: ClientFrame) returns (ok: bool)
      requires BetweenTurns() && upstream != null
      modifies upstream, replay.Cells()
      ensures BetweenTurns() && upstream.written == (old(upstream.written) + if ok then [f] else []) && upstream.broken == !ok
      ensures f.keepsReplay ==> replay.history.Value() == old(replay.history.Value()) && replay.safe == old(replay.safe)
      ensures !f.keepsReplay ==> !replay.safe && !replay.history.valid
    {
      hide Complete, Contexts, Size, Total, InLimits, SameItem, SameItems;
      if !f.keepsReplay {
        replay.safe := false;
        replay.history.Invalidate(holders);
      }
      ok := upstream.Write(f);
    }

    /** One turn, and waiting for the create that starts the next one. */
    method Serve(t: TurnScript) returns (outcome: Outcome, create: Option<ClientFrame>, ghost e: Ending, ghost idle: nat)
      requires BetweenTurns() && Live() && t.input.Ok()
      modifies this, client, queue, upstream, replay.Cells()
      ensures Valid() && (outcome.End? || outcome.Continue?) && old(position) <= position <= |clientReads|
      ensures upstream == null || upstream == old(upstream) || fresh(upstream)
      ensures outcome.End? ==> create.None? && e.upstreamBroken == Broken() && Stopped(t, clientReads, old(replay.safe), e, position, client.broken)
      ensures outcome.Continue? ==>
        && Creates(clientReads[old(position)..position]) == ListOf(create)
        && if create.Some? then BetweenTurns() && Live() else IdleOver(clientReads, idle, position, t.patience, Broken())
    {
      hide BetweenTurns, Valid, Stopped, Ended, Concluded, Keeps, Creates, Controls, Events, Grown, Judged, Apart, Whole, OutputOf, StillKept, KeepsReplay, Malformed;
      ghost var start, connected := position, upstream != null;
      var p, k, last;
      outcome, p, k, last := RunTurn(t);
      Within();
      e, idle, create := Ending(p, k, last, connected, start, Broken()), position, None;
      if outcome.Continue? {
        create := last.value.nextFrame;
        if create.None? {
          create := Idle(t.patience);
          hide IdleOver;
          ValidBetween();
          CreatesBetween(clientReads, start, idle, position);
        }
      }
    }

    lemma Within()
      requires Valid()
      ensures position <= |clientReads|
    {
      hide Apart, Known, SessionReplay.Ready, PendingFrames.Bounded;
    }

    lemma ValidBetween()
      requires BetweenTurns()
      ensures Valid() && Apart() && position <= |clientReads|
    {
      hide Known, History.Ok, Ledger, SessionReplay.Ready, PendingFrames.Bounded;
    }

    /** The deferred releases of `Run`. */
    method ReturnShare()
      requires Valid()
      modifies replay.Cells()
      ensures replay.Ready(holders) && replay.Released() && Broken() == old(Broken()) && client.broken == old(client.broken)
    {
      hide Known, History.Ok, PendingFrames.Bounded;
      replay.EndTurn(holders);
      replay.history.Invalidate(holders);
    }

    /** Turns until the session ends. */
    method ServeAll(turns: seq<TurnScript>) returns (outcome: Outcome, served: nat, started: seq<ClientFrame>, ghost e: Ending, ghost idle: nat)
      requires BetweenTurns() && Live() && forall t <- turns :: t.input.Ok()
      modifies this, client, queue, upstream, replay.Cells()
      ensures Valid() && outcome != NotSafeToReplay
      ensures Told(turns, clientReads, old(position), position, outcome, served, started, e, idle, client.broken, Broken())
    {
      outcome, served, started, idle := End, 0, [], position;
      e := Ending(Prepared(NO_PLAN, false, false), 0, None, false, position, false);
      ghost var first := position;
      assert Creates(clientReads[position..position]) == [];
      ValidBetween();
      hide Stopped, IdleOver, Creates, BetweenTurns, Valid, Told;
      while served < |turns|
        invariant BetweenTurns() && Valid() && Live() && outcome != NotSafeToReplay && served <= |turns| && |started| == served
        invariant first <= position <= |clientReads| && Creates(clientReads[first..position]) == started
        invariant upstream == null || upstream == old(upstream) || fresh(upstream)
      {
        ghost var from, safe := position, replay.safe;
        var create;
        outcome, create, e, idle := Serve(turns[served]);
        CreatesBetween(clientReads, first, from, position);
        if !outcome.Continue? {
          StoppedTold(turns, clientReads, first, from, position, served, started, e, idle, safe, client.broken, Broken());
          return;
        }
        served := served + 1;
        if create.None? {
          WaitedTold(turns, clientReads, first, from, position, served, started, e, idle, client.broken, Broken());
          return;
        }
        started := started + [create.value];
      }
      AllTold(turns, clientReads, first, position, outcome, started, e, idle, client.broken, Broken());
    }

    /** `Run`: whatever ends the session, nothing stays reserved. */
    method Run(turns: seq<TurnScript>) returns (outcome: Outcome, served: nat, started: seq<ClientFrame>, ghost e: Ending, ghost idle: nat)
      requires BetweenTurns() && Live() && forall t <- turns :: t.input.Ok()
      modifies this, client, queue, upstream, replay.Cells()
      ensures outcome != NotSafeToReplay
      ensures replay.Ready(holders) && replay.Released()
      ensures Told(turns, clientReads, old(position), position, outcome, served, started, e, idle, client.broken, Broken())
    {
      hide Told, BetweenTurns, Valid;
      outcome, served, started, e, idle := ServeAll(turns);
      ReturnShare();
    }
  }

  /** Why a session ends between two turns: everything was read, the client is gone, a write
      failed, or it waited long enough. */
  predicate IdleOver(inbox: seq<ClientRead>, start: nat, position: nat, patience: nat, broken: bool) {
    || position == |inbox| || broken || position == start + patience
    || (start < position < |inbox| && inbox[position - 1].ClientLost?)
  }

  lemma OneRead(received: seq<ClientRead>, i: nat, j: nat)
    requires i <= j < |received|
    ensures Controls(received[i..j + 1]) == Controls(received[i..j]) + ControlOf(received[j])
    ensures Creates(received[i..j + 1]) == Creates(received[i..j]) + CreateOf(received[j])
  {
    assert received[i..j + 1][..j - i] == received[i..j];
  }

  lemma {:induction false} CreatesConcat(a: seq<ClientRead>, b: seq<ClientRead>)
    ensures Creates(a + b) == Creates(a) + Creates(b)
  {
    if b == [] {
      assert a + b == a;
    } else {
      hide CreateOf;
      var init, last := b[..|b| - 1], b[|b| - 1];
      CreatesConcat(a, init);
      assert (a + b)[..|a + b| - 1] == a + init;
      ConcatAssociates(Creates(a), Creates(init), CreateOf(last));
    }
  }

  lemma CreatesBetween(received: seq<ClientRead>, i: nat, j: nat, n: nat)
    requires i <= j <= n <= |received|
    ensures Creates(received[i..n]) == Creates(received[i..j]) + Creates(received[j..n])
  {
    assert received[i..n] == received[i..j] + received[j..n];
    CreatesConcat(received[i..j], received[j..n]);
  }

  lemma KeepsBoth(a: seq<ClientFrame>, b: seq<ClientFrame>)
    ensures KeepsReplay(a + b) <==> KeepsReplay(a) && KeepsReplay(b)
  {
    assert forall c :: c in a + b <==> c in a || c in b;
  }

  /** Only an attempt that closes the session leaves a broken connection, and only one that the
      client left, or that closes it, a lost client. */
  lemma NotBroken(a: Attempt, mayMove: bool, inbox: seq<ClientRead>, start: nat, from: nat, received: seq<UpstreamRead>, clientBroken: bool, upstreamBroken: bool)
    requires Accounted(a, mayMove, inbox, start, from, received, clientBroken, upstreamBroken)
    ensures a.exit.MoveOn? || a.exit.Finished? || a.exit.Failed? ==> !clientBroken && !upstreamBroken
    ensures !a.exit.Closed? ==> Creates(inbox[from..from + a.taken]) == ListOf(a.nextFrame)
  {
    hide NamedBy, EndsTurn, EndsAs, Limited, Holdable, Creates, Controls, Events, Overlaps, Overflows, Unreadable, Silent;
  }

  lemma MovedOn(a: Attempt, mayMove: bool, inbox: seq<ClientRead>, start: nat, from: nat, received: seq<UpstreamRead>, clientBroken: bool, upstreamBroken: bool)
    requires Accounted(a, mayMove, inbox, start, from, received, clientBroken, upstreamBroken) && a.exit.MoveOn?
    ensures mayMove && received != [] && received[0].FromUpstream? && Limited(received[0].event)
  {
    hide NamedBy, EndsTurn, EndsAs, Limited, Holdable, Creates, Controls, Events, Overlaps, Overflows, Unreadable, Silent;
    assert received != [];
    FirstEvent(received);
  }

  lemma SafeHasInput(h: Snapshot, safe: bool, t: TurnScript)
    requires RetrySafe(h, safe, t)
    ensures safe && t.input.Input?
  {
  }

  /** Without a budget, the history after an answered turn that found history h. */
  ghost predicate Keeps(h: Snapshot, safe: bool, t: TurnScript, a: Attempt, controls: seq<ClientFrame>, received: seq<UpstreamRead>) {
    && a.exit.Finished? && a.requestID != "" && RetrySafe(h, safe, t) && t.input.Input? && t.input.replayable && KeepsReplay(controls)
    && !TooLong(Offers(Events(received)))
    && Complete(Whole(h, t) + OutputOf(received)) && Short(Whole(h, t) + OutputOf(received))
  }

  /** A whole session, while all others, `rest`, take and return bytes of the budget as they
      like: it never ends with a conversation that is not safe to replay, and it returns its
      whole share. */
  method RunSession(client: Connection<Event>, clientReads: seq<ClientRead>, turns: seq<TurnScript>, budget: Budget?, rest: Reservation)
    returns (outcome: Outcome, served: nat, started: seq<ClientFrame>, ghost e: Ending, ghost idle: nat, ghost position: nat, ghost broken: bool)
    requires Ledger(budget, {rest}) && !client.broken && forall t <- turns :: t.input.Ok()
    requires client !in Owner(budget) + {rest}
    modifies client, rest, Owner(budget)
    ensures outcome != NotSafeToReplay
    ensures Ledger(budget, {rest})
    ensures Told(turns, clientReads, 0, position, outcome, served, started, e, idle, client.broken, broken)
  {
    hide Total, Bytes, History.Ok, Known, Session.BetweenTurns, Session.Valid, PendingFrames.Bounded, Told;
    var replay := new SessionReplay(budget, rest, {rest});
    var queue := new PendingFrames();
    ghost var holders := {rest} + {replay.history.reservation, replay.current, replay.output};
    var session := new Session(client, queue, replay, clientReads, holders);
    outcome, served, started, e, idle := session.Run(turns);
    position, broken := session.position, session.Broken();
    ShareReturned(budget, {rest}, replay.history.reservation, replay.current, replay.output);
  }

  lemma ShareReturned(budget: Budget?, others: set<Reservation>, a: Reservation, b: Reservation, c: Reservation)
    requires Ledger(budget, others + {a, b, c}) && a.bytes == 0 && b.bytes == 0 && c.bytes == 0
    ensures Ledger(budget, others)
  {
    DropEmpty(others + {a, b, c}, a, others);
    DropEmpty(others + {a, b, c} - ({a} - others), b, others);
    DropEmpty(others + {a, b, c} - ({a} - others) - ({b} - others), c, others);
    assert others + {a, b, c} - ({a} - others) - ({b} - others) - ({c} - others) == others;
  }

  lemma DropEmpty(holders: set<Reservation>, r: Reservation, others: set<Reservation>)
    requires r.bytes == 0
    ensures Total(holders - ({r} - others)) == Total(holders)
  {
    if r in holders && r !in others {
      SumDrop(Bytes(holders), r);
      assert Bytes(holders) - {r} == Bytes(holders - ({r} - others));
    } else {
      assert holders - ({r} - others) == holders;
    }
  }
}
