/** One attempt of a WebSocket turn: events go down to the client, controls go up to the
    account, and until the first event is delivered the turn may still move to another
    account. Which channel is served next, and whether a write succeeds, is arbitrary. */
module RelayTurn {
  import opened MapSums
  import opened ReplayBudget
  import opened ReplayItems
  import opened ReplayHistory
  import opened ReplayCollector
  import opened ResponseUsage
  import opened RelayEvents
  import opened RelayProgress

  class Connection<F> {
    var written: seq<F>
    var broken: bool // the last write failed

    constructor ()
      ensures written == [] && !broken
    {
      written, broken := [], false;
    }

    method Write(f: F) returns (ok: bool)
      modifies this
      ensures written == old(written) + if ok then [f] else []
      ensures broken == !ok
    {
      ok := *;
      broken := !ok;
      if ok {
        written := written + [f];
      }
    }
  }

  /** `responsesWebSocketPendingClientFrames`. */
  class PendingFrames {
    var frames: seq<ClientFrame>
    var bytes: int

    constructor ()
      ensures frames == [] && Bounded()
    {
      frames, bytes := [], 0;
    }

    predicate Bounded() reads this {
      |frames| <= QUEUE_FRAMES && bytes == FrameBytes(frames) <= QUEUE_BYTES
    }

    method Append(f: ClientFrame) returns (ok: bool)
      requires Bounded()
      modifies this
      ensures Bounded()
      ensures ok == (|old(frames)| < QUEUE_FRAMES && FrameBytes(old(frames)) + f.size <= QUEUE_BYTES)
      ensures frames == old(frames) + if ok then [f] else []
    {
      if |frames| >= QUEUE_FRAMES || f.size > QUEUE_BYTES - bytes {
        return false;
      }
      assert (frames + [f])[..|frames|] == frames;
      frames, bytes := frames + [f], bytes + f.size;
      return true;
    }

    /** Delivers the queue in order; after a failed write it stays as it was. */
    method Flush(upstream: Connection<ClientFrame>) returns (ok: bool)
      requires Bounded() && !upstream.broken
      modifies this, upstream
      ensures Bounded() && upstream.broken == !ok
      ensures ok ==> frames == [] && upstream.written == old(upstream.written) + old(frames)
      ensures !ok ==> frames == old(frames) && old(upstream.written) <= upstream.written <= old(upstream.written) + old(frames)
    {
      for i := 0 to |frames|
        invariant !upstream.broken
        invariant frames == old(frames) && bytes == old(bytes) && upstream.written == old(upstream.written) + frames[..i]
      {
        ok := upstream.Write(frames[i]);
        if !ok {
          return false;
        }
      }
      frames, bytes := [], 0;
      return true;
    }
  }

  lemma ConcatAssociates<T>(a: seq<T>, b: seq<T>, c: seq<T>)
    ensures (a + b) + c == a + (b + c)
  {
  }

  /** What a session keeps for replaying its current turn. */
  class SessionReplay {
    const history: History
    const current: Reservation
    const output: Reservation
    const rest: Reservation // all reservations of other sessions together
    var safe: bool
    var input: seq<Item>

    ghost predicate Ready(holders: set<Reservation>)
      reads this, history, holders, Owner(history.reservation.budget)
    {
      && Ledger(history.reservation.budget, holders)
      && {history.reservation, current, output, rest} <= holders
      && history.reservation != current && history.reservation != output && current != output
      && rest != history.reservation && rest != current && rest != output
      && history.Ok()
    }

    constructor (budget: Budget?, rest: Reservation, ghost holders: set<Reservation>)
      requires Ledger(budget, holders) && rest in holders
      ensures this.rest == rest && fresh(history) && fresh({history.reservation, current, output})
      ensures Ready(holders + {history.reservation, current, output}) && history.reservation.budget == budget
      ensures Released() && safe && !history.valid
    {
      hide Complete, Contexts, Size, Total, InLimits, History.Ok, Ledger;
      var h := new History(budget, holders);
      var c := new Reservation(budget, holders + {h.reservation});
      var o := new Reservation(budget, holders + {h.reservation} + {c});
      this.rest, history, current, output, safe, input := rest, h, c, o, true, [];
      assert holders + {h.reservation} + {c} + {o} == holders + {h.reservation, c, o};
    }

    ghost predicate Kept(h: Snapshot, wasSafe: bool, wasInput: seq<Item>, inputBytes: int) reads this, history, current {
      history.Value() == h && safe == wasSafe && input == wasInput && current.bytes == inputBytes
    }

    ghost predicate Forgotten() reads this, history, current {
      !safe && !history.valid && input == [] && current.bytes == 0
    }

    /** Everything that changes during the session. */
    ghost function Cells(): set<object> {
      {this, history, history.reservation, current, output, rest} + Owner(history.reservation.budget)
    }

    /** The session's share of the budget is zero. */
    ghost predicate Released() reads this, history.reservation, current, output {
      history.reservation.bytes == 0 && current.bytes == 0 && output.bytes == 0
    }

    /** Other sessions take and return bytes of the budget at any time, as far as they fit. */
    method OthersMove(ghost holders: set<Reservation>)
      requires Ready(holders)
      modifies rest`bytes, Owner(history.reservation.budget)`used
      ensures Ready(holders)
    {
      hide Complete, Contexts, Size, History.Ok;
      var next: int := *;
      var moved := rest.Resize(next, holders);
    }

    /** The turn's own reservations are given back; the history stays. */
    method EndTurn(ghost holders: set<Reservation>)
      requires Ready(holders)
      modifies `input, current`bytes, output`bytes, Owner(history.reservation.budget)`used
      ensures Ready(holders) && input == [] && current.bytes == 0 && output.bytes == 0
      ensures var b := history.reservation.budget; b != null ==> b.used == old(b.used - current.bytes - output.bytes)
    {
      current.Release(holders);
      output.Release(holders);
      input := [];
    }

    /** What an earlier attempt collected is given back. */
    method DropOutput(ghost holders: set<Reservation>)
      requires Ready(holders)
      modifies output`bytes, Owner(history.reservation.budget)`used
      ensures Ready(holders) && output.bytes == 0
    {
      hide Complete, Contexts, Size, History.Ok;
      output.Release(holders);
    }

    /** After a control that a replay would not repeat, nothing of the turn is kept. */
    method Forget(ghost holders: set<Reservation>)
      requires Ready(holders)
      modifies Cells()
      ensures Ready(holders) && !safe && !history.valid && input == [] && current.bytes == 0
      ensures output.bytes == old(output.bytes)
    {
      safe := false;
      history.Invalidate(holders);
      input := [];
      current.Release(holders);
    }
  }

  /** The replay side of one attempt: the session's history and reservations, and the
      collector of this attempt's output. */
  class AttemptReplay {
    const replay: SessionReplay
    const collector: Collector
    var collect: bool
    ghost const holders: set<Reservation>
    ghost const before: Snapshot // the history before this attempt
    ghost const wasSafe: bool
    ghost const input: seq<Item>
    ghost const inputBytes: int
    ghost const collecting: bool
    ghost const Mine: set<object> // what this attempt writes to
    ghost const Repr: set<object> // what it depends on

    constructor (replay: SessionReplay, collecting: bool, ghost holders: set<Reservation>)
      requires replay.Ready(holders) && replay.output.bytes == 0
      ensures this.replay == replay && this.holders == holders && before == replay.history.Value() && wasSafe == replay.safe
      ensures input == replay.input && inputBytes == replay.current.bytes && Mine == {this, collector} + replay.Cells() && Repr == Mine + holders
      ensures collector.reservation == (if collecting then replay.output else null)
      ensures Ok([]) && Untouched() && this.collecting == collecting && fresh(collector)
    {
      this.replay, this.holders, this.collect, this.collecting := replay, holders, collecting, collecting;
      before, wasSafe, input, inputBytes := replay.history.Value(), replay.safe, replay.input, replay.current.bytes;
      var c := new Collector(collecting, if collecting then replay.output else null);
      collector := c;
      Mine := {this, c} + replay.Cells();
      Repr := {this, c} + replay.Cells() + holders;
    }

    ghost predicate Ok(offered: seq<Item>) reads Repr {
      && Mine == {this, collector} + replay.Cells() && Repr == Mine + holders
      && replay.Ready(holders)
      && (collector.reservation == replay.output || collector.reservation == null)
      && collector.Owned(holders) && collector.Ok()
      && (collector.reservation == null ==> replay.output.bytes == 0 && collector.disabled && !collect)
      && (collect ==> collecting)
      && (if collector.disabled then collect ==> collector.exceedsLimit else collector.items == Collected(offered))
      && (collect && replay.output.budget == null ==> (collector.exceedsLimit <==> TooLong(offered)))
    }

    ghost predicate Untouched() reads this, replay, replay.history, replay.current {
      collect == collecting && replay.Kept(before, wasSafe, input, inputBytes)
    }

    ghost predicate Forgotten() reads this, replay, replay.history, replay.current, collector {
      replay.Forgotten() && collector.disabled && !collect
    }

    /** After a control that a replay would not repeat. */
    method GiveUp(ghost offered: seq<Item>)
      requires Ok(offered)
      modifies Mine
      ensures Ok(offered) && Forgotten()
    {
      hide Complete, Contexts, Size, Total, InLimits, History.Ok, Collected, DistinctKeys;
      replay.Forget(holders);
      collect := false;
      collector.Disable(holders);
    }

    method OthersMove(ghost offered: seq<Item>)
      requires Ok(offered)
      modifies Mine
      ensures Ok(offered)
      ensures old(Untouched()) ==> Untouched()
      ensures old(Forgotten()) ==> Forgotten()
    {
      replay.OthersMove(holders);
    }

    method Offered(e: Offer, ghost offered: seq<Item>)
      requires Ok(offered)
      modifies Mine
      ensures Ok(offered + ItemsOf(e)) && collect == old(collect)
      ensures old(Untouched()) ==> Untouched()
      ensures old(Forgotten()) ==> Forgotten()
      ensures replay.current.bytes == old(replay.current.bytes)
    {
      hide Complete, Contexts, Size, Total, InLimits, History.Ok, DistinctKeys, Collected, Keys;
      if TooLong(offered) {
        StaysTooLong(offered, ItemsOf(e));
      }
      collector.AddEvent(e, offered, holders);
    }

    /** At the end of the attempt: the output of a finished turn stays reserved for the
        commit, everything else is given back. */
    method Settle(finished: bool, ghost offered: seq<Item>) returns (output: seq<Item>)
      requires Ok(offered)
      modifies Mine
      ensures replay.Ready(holders)
      ensures old(Untouched()) ==> Untouched()
      ensures old(Forgotten()) ==> Forgotten() && output == []
      ensures finished && collecting && old(Untouched()) ==> replay.output.bytes == Size(output)
      ensures !finished || !collecting || old(Forgotten()) ==> replay.output.bytes == 0
      ensures finished && collecting && old(Untouched()) && !collector.exceedsLimit ==> output == Collected(offered)
      ensures collector.exceedsLimit == old(collector.exceedsLimit)
    {
      output := if finished then collector.items else [];
      if !finished || !collect || collector.reservation == null {
        collector.Release(holders);
      }
    }
  }

  class Relay {
    const client: Connection<Event>
    const upstream: Connection<ClientFrame>
    const queue: PendingFrames
    const turn: AttemptReplay
    const clientReads: seq<ClientRead>
    const upstreamReads: seq<UpstreamRead>
    const mayMove: bool // whether this turn may move to another account at all
    var taken: nat
    var got: nat
    var allowRetry: bool
    var wroteDownstream: bool
    var disconnected: bool
    var steerAccepted: bool
    var awaiting: bool // a steered response ended; its continuation has not started
    var held: Option<EventKind>
    var terminal: Terminal
    var steeredUsage: Terminal
    var segments: seq<Metrics>
    var metrics: Metrics
    var requestID: string
    var nextFrame: Option<ClientFrame>
    var allowQueuedCreate: bool
    var terminalEvent: Option<EventKind>
    ghost const up: seq<ClientFrame>      // written upstream before this attempt
    ghost const waiting: seq<ClientFrame> // queued before this attempt
    ghost const down: seq<Event>          // delivered before this attempt

    constructor (client: Connection<Event>, upstream: Connection<ClientFrame>, queue: PendingFrames, turn: AttemptReplay,
                 clientReads: seq<ClientRead>, upstreamReads: seq<UpstreamRead>, allowRetry: bool)
      requires turn.Ok([]) && turn.Untouched() && client !in turn.Repr && upstream !in turn.Repr && queue !in turn.Repr
      requires queue.Bounded() && (queue.frames != [] ==> allowRetry) && !client.broken && !upstream.broken
      ensures this.client == client && this.upstream == upstream && this.queue == queue && this.turn == turn
      ensures this.clientReads == clientReads && this.upstreamReads == upstreamReads
      ensures up == upstream.written && waiting == queue.frames && down == client.written
      ensures Valid() && taken == 0 && got == 0 && mayMove == allowRetry
    {
      hide Complete, Contexts, Size, History.Ok, SessionReplay.Ready, Ledger, Collector.Ok, Collected, TooLong, Stands, AttemptReplay.Forgotten;
      this.client, this.upstream, this.queue, this.turn := client, upstream, queue, turn;
      this.clientReads, this.upstreamReads, this.allowRetry, mayMove := clientReads, upstreamReads, allowRetry, allowRetry;
      taken, got, wroteDownstream, disconnected, steerAccepted, awaiting, held := 0, 0, false, false, false, false, None;
      terminal, steeredUsage, segments, metrics := NO_TERMINAL, NO_TERMINAL, [], NO_METRICS;
      requestID, nextFrame, allowQueuedCreate, terminalEvent := "", None, false, None;
      up, waiting, down := upstream.written, queue.frames, client.written;
      new;
      StandsAtFirst();
    }

    // ---- what holds between two reads ----------------------------------------------

    /** The controls read in this attempt. */
    ghost function Own(): seq<ClientFrame> reads `taken {
      if taken <= |clientReads| then Controls(clientReads[..taken]) else []
    }

    ghost function Received(): seq<Event> reads `got {
      if got <= |upstreamReads| then Events(upstreamReads[..got]) else []
    }

    /** The client frames read so far, and what upstream still has to say. */
    ghost function Seen(): seq<ClientRead> reads `taken {
      if taken <= |clientReads| then clientReads[..taken] else []
    }

    ghost function Left(): seq<UpstreamRead> reads `got {
      if got <= |upstreamReads| then upstreamReads[got..] else []
    }

    ghost function Memory(): Steering reads `steerAccepted, `awaiting, `held {
      Steering(steerAccepted, awaiting, held)
    }

    ghost function Here(): Place
      reads `taken, `got, `allowRetry, `wroteDownstream, `disconnected, `nextFrame, client`broken, upstream`broken
    {
      Place(mayMove, waiting, Seen(), taken < |clientReads|, Received(), Left(), nextFrame,
            allowRetry, wroteDownstream, disconnected, client.broken, upstream.broken)
    }

    ghost predicate PlaceOk()
      reads `taken, `got, `allowRetry, `wroteDownstream, `disconnected, `nextFrame, client`broken, upstream`broken
    {
      |Received()| == got && Placed(Here())
    }

    ghost predicate MindOk() reads `got, `steerAccepted, `awaiting, `held, `requestID, `allowQueuedCreate {
      Minded(Received(), Memory(), requestID, allowQueuedCreate)
    }

    ghost predicate AfterEvent(e: Event, logical: Option<EventKind>) reads `got, `steerAccepted, `awaiting, `held, `requestID, `allowQueuedCreate {
      After(Received() + [e], Memory(), requestID, allowQueuedCreate, logical)
    }

    /** Why the attempt ends here. */
    ghost predicate Reasoned(exit: Exit)
      reads `taken, `got, `allowRetry, `wroteDownstream, `disconnected, `nextFrame, client`broken, upstream`broken
      reads `requestID, `allowQueuedCreate, `terminalEvent
    {
      |Received()| == got && Explained(Here().Seen(), requestID, nextFrame, allowQueuedCreate, exit, terminalEvent)
    }

    /** Every control is delivered to this account or still queued, in order; the queue is
        only used while the turn may move. */
    ghost predicate ControlsOk() reads `taken, `allowRetry, `wroteDownstream, queue, upstream {
      && taken <= |clientReads|
      && queue.Bounded() && (allowRetry ==> mayMove) && !upstream.broken
      && upstream.written + queue.frames == up + waiting + Own()
      && (if allowRetry && !wroteDownstream then upstream.written == up && KeepsReplay(Own()) else queue.frames == [])
    }

    /** Only events read so far came down, in order. */
    ghost predicate DeliveredOk() reads `got, client {
      got <= |upstreamReads| && down <= client.written <= down + Received()
    }

    ghost predicate DeliveryOk() reads `got, `disconnected, `wroteDownstream, client {
      && DeliveredOk()
      && (!disconnected ==> client.written == down + Received())
      && (!wroteDownstream ==> client.written == down)
    }

    ghost predicate SteeringOk() reads `steerAccepted, `awaiting, `held, `nextFrame, `segments, `wroteDownstream, `disconnected {
      && (steerAccepted || awaiting || nextFrame.Some? || segments != [] ==> wroteDownstream || disconnected)
      && (awaiting ==> held.Some?)
    }

    ghost predicate UsageOk() reads `terminal, `segments, `steeredUsage {
      terminal == NO_TERMINAL && TotalOf(segments) == Billed(steeredUsage)
    }

    ghost predicate BilledOk(events: seq<Event>) reads `segments {
      segments == Bills(events)
    }

    /** Usage of what was recorded so far, whether or not a terminal event is being handled. */
    ghost predicate UsageTotal() reads `terminal, `segments, `steeredUsage {
      TotalOf(segments) == Plus(Billed(terminal), Billed(steeredUsage))
    }

    ghost predicate ReplayOk() reads `taken, `got, turn, turn.Repr {
      ReplayAt(Offers(Received()))
    }

    ghost predicate ReplayAt(offered: seq<Item>) reads `taken, turn, turn.Repr {
      ReplayGiven(offered, Own())
    }

    ghost predicate ReplayGiven(offered: seq<Item>, controls: seq<ClientFrame>) reads turn, turn.Repr {
      && this !in turn.Repr && client !in turn.Repr && upstream !in turn.Repr && queue !in turn.Repr
      && turn in turn.Mine && turn.Mine <= turn.Repr
      && turn.Ok(offered)
      && (if KeepsReplay(controls) then turn.Untouched() else turn.Forgotten())
    }

    ghost predicate Valid() reads this, client, upstream, queue, turn, turn.Repr {
      ControlsOk() && DeliveryOk() && SteeringOk() && UsageOk() && ReplayOk() && terminalEvent.None? && BilledOk(Received()) && PlaceOk() && MindOk()
    }

    /** What is guaranteed however the attempt ends. */
    ghost predicate AtExit(exit: Exit) reads this, client, upstream, queue, turn, turn.Repr {
      && SentOk() && ReplayOk() && DeliveredOk() && BilledOk(Received()) && Reasoned(exit)
      && metrics == TotalOf(segments)
      && (exit.MoveOn? ==>
            && mayMove && upstream.written == up && queue.frames == waiting + Own() && client.written == down
            && segments == [] && nextFrame.None? && terminalEvent.None? && KeepsReplay(Own()))
      && (exit.Finished? || exit.Failed? ==>
            && upstream.written == up + waiting + Own() && queue.frames == [] && client.written == down + Received()
            && terminalEvent.Some? && (exit.Finished? <==> IsSuccess(terminalEvent.value)))
    }

    // ---- the attempt ------------------------------------------------------------------

    method FinishMetrics()
      requires UsageTotal()
      modifies this`terminal, this`steeredUsage, this`metrics
      ensures metrics == TotalOf(segments)
    {
      hide TotalOf, Billed, Plus, Merge;
      MergeIsBilledAsSum(terminal, steeredUsage);
      terminal := Merge(terminal, steeredUsage);
      steeredUsage := NO_TERMINAL;
      metrics := BillingMetrics(terminal);
    }

    lemma UsageTotals()
      requires UsageOk()
      ensures UsageTotal()
    {
      hide TotalOf, Billed, Plus;
      BlankAddsNothing(Billed(steeredUsage));
    }

    /** No more than the controls read so far went up, in order. */
    ghost predicate SentOk() reads `taken, queue, upstream {
      taken <= |clientReads| && queue.Bounded() && up <= upstream.written <= up + waiting + Own()
    }

    lemma ControlsSent()
      requires ControlsOk()
      ensures SentOk()
    {
      var all := up + waiting + Own();
      assert up <= all && upstream.written <= all;
    }

    /** Any exit that neither moves on nor ends with a delivered terminal event. */
    method Close(exit: Exit)
      requires exit.Closed? || exit.ClientGone?
      requires SentOk() && DeliveryOk() && ReplayOk() && UsageTotal() && BilledOk(Received()) && Reasoned(exit)
      modifies this`terminal, this`steeredUsage, this`metrics
      ensures AtExit(exit)
    {
      hide AttemptReplay.Ok, AttemptReplay.Untouched, AttemptReplay.Forgotten, Controls, Events, Offers, Bills, KeepsReplay, TotalOf, UsageTotal;
      hide Explained, PendingFrames.Bounded;
      FinishMetrics();
    }

    /** The same between two reads. */
    method End(exit: Exit)
      requires Valid() && (exit.Closed? || exit.ClientGone?) && Reasoned(exit)
      modifies this`terminal, this`steeredUsage, this`metrics
      ensures AtExit(exit)
    {
      hide AttemptReplay.Ok, AttemptReplay.Untouched, AttemptReplay.Forgotten, Controls, Events, Offers, Bills, KeepsReplay;
      hide ControlsOk, DeliveryOk, UsageOk, UsageTotal, AtExit, SteeringOk;
      ControlsSent();
      UsageTotals();
      Close(exit);
    }

    /** The turn will not move any more: what is queued goes up. */
    method StayHere() returns (ok: bool)
      requires ControlsOk()
      modifies `allowRetry, queue, upstream
      ensures queue.Bounded() && !allowRetry && up <= upstream.written <= up + waiting + Own() && upstream.broken == !ok
      ensures ok ==> upstream.written == up + waiting + Own() && queue.frames == []
    {
      ghost var all := up + waiting + Own();
      assert upstream.written <= all && up <= upstream.written;
      allowRetry := false;
      ok := queue.Flush(upstream);
    }

    /** A control waits while the turn may move. */
    method Hold(f: ClientFrame) returns (ok: bool)
      requires ControlsOk() && allowRetry && !wroteDownstream && f.keepsReplay
      modifies queue
      ensures queue.Bounded() && upstream.written + queue.frames == up + waiting + Own() + if ok then [f] else []
      ensures !ok ==> NoRoom(waiting + Own(), f)
    {
      hide FrameBytes, KeepsReplay, Controls;
      ghost var before := queue.frames;
      AllQueued();
      ok := queue.Append(f);
      ConcatAssociates(upstream.written, before, if ok then [f] else []);
    }

    lemma AllQueued()
      requires ControlsOk() && allowRetry && !wroteDownstream
      ensures queue.frames == waiting + Own()
    {
      assert queue.frames == (up + queue.frames)[|up|..] && waiting + Own() == (up + waiting + Own())[|up|..];
    }

    /** A control goes straight up, after those that waited. */
    method SendUp(f: ClientFrame) returns (ok: bool)
      requires ControlsOk()
      modifies `allowRetry, queue, upstream
      ensures queue.Bounded() && (allowRetry ==> mayMove && wroteDownstream) && upstream.broken == !ok
      ensures up <= upstream.written <= up + waiting + Own() + [f]
      ensures ok ==> upstream.written == up + waiting + Own() + [f] && queue.frames == []
    {
      hide FrameBytes, KeepsReplay, Controls;
      ghost var all := up + waiting + Own();
      assert all <= all + [f] && upstream.written <= all && up <= upstream.written;
      if allowRetry && !wroteDownstream {
        ok := StayHere();
        if !ok {
          return false;
        }
      }
      ok := upstream.Write(f);
    }

    /** Handing a control on: queue it while the turn may move; a cancel, or a control that a
        replay would not repeat, first commits the turn to this account. */
    method PassOn(f: ClientFrame) returns (ok: bool)
      requires ControlsOk()
      modifies `allowRetry, queue, upstream
      ensures queue.Bounded() && (allowRetry ==> mayMove)
      ensures ok ==> upstream.written + queue.frames == up + waiting + Own() + [f]
      ensures ok ==> if allowRetry && !wroteDownstream then upstream.written == up && f.keepsReplay && KeepsReplay(Own()) else queue.frames == []
      ensures up <= upstream.written <= up + waiting + Own() + [f]
      ensures !wroteDownstream ==> (allowRetry <==> old(allowRetry) && f.keepsReplay && !f.kind.Cancel?)
      ensures ok ==> !upstream.broken
      ensures !ok ==> upstream.broken || (old(allowRetry) && !wroteDownstream && f.keepsReplay && !f.kind.Cancel? && NoRoom(waiting + Own(), f))
    {
      hide FrameBytes, KeepsReplay, Controls, PendingFrames.Bounded, NoRoom;
      if allowRetry && !wroteDownstream && f.keepsReplay && !f.kind.Cancel? {
        ok := Hold(f);
      } else {
        ok := SendUp(f);
      }
    }

    lemma OneMoreRead()
      requires taken < |clientReads|
      ensures Controls(clientReads[..taken + 1]) == Own() + ControlOf(clientReads[taken])
      ensures KeepsReplay(Controls(clientReads[..taken + 1])) <==> KeepsReplay(Own()) && KeepsReplay(ControlOf(clientReads[taken]))
      ensures clientReads[taken].FromClient? ==> (KeepsReplay([clientReads[taken].frame]) <==> clientReads[taken].frame.keepsReplay)
    {
      assert clientReads[..taken + 1][..taken] == clientReads[..taken];
    }

    lemma OneMoreEvent()
      requires got < |upstreamReads| && upstreamReads[got].FromUpstream?
      ensures Events(upstreamReads[..got + 1]) == Received() + [upstreamReads[got].event]
      ensures Offers(Received() + [upstreamReads[got].event]) == Offers(Received()) + OffersOf(upstreamReads[got].event)
      ensures Bills(Received() + [upstreamReads[got].event]) == Bills(Received()) + BillOf(upstreamReads[got].event)
    {
      assert upstreamReads[..got + 1][..got] == upstreamReads[..got];
      assert (Received() + [upstreamReads[got].event])[..|Received()|] == Received();
      hide Billed;
    }

    method TakeClient() returns (exit: Option<Exit>)
      requires Valid() && !disconnected && taken < |clientReads|
      modifies this, queue, upstream, turn.Mine
      ensures exit.None? ==> Valid() && taken == old(taken) + 1 && got == old(got)
      ensures exit.Some? ==> AtExit(exit.value)
    {
      var r := clientReads[taken];
      if r.ClientLost? {
        exit := None;
        LoseClient();
      } else if r.frame.kind.Create? {
        exit := TakeCreate(r.frame);
      } else {
        exit := TakeControl(r.frame);
      }
    }

    method LoseClient()
      requires Valid() && !disconnected && taken < |clientReads| && clientReads[taken].ClientLost?
      modifies this
      ensures Valid() && taken == old(taken) + 1 && got == old(got)
    {
      hide UsageOk, AttemptReplay.Ok, AttemptReplay.Untouched, AttemptReplay.Forgotten, Controls, Events, Offers, Bills, DeliveredOk;
      hide Placed, Minded;
      ghost var p := Here();
      OneMoreRead();
      taken, disconnected := taken + 1, true;
      LostPlaced(p, taken < |clientReads|);
      assert Seen() == p.clients + [ClientLost];
      assert Here() == p.(clients := p.clients + [ClientLost], more := taken < |clientReads|, disconnected := true);
    }

    /** While a steered response may still continue, one further create is kept for the next turn. */
    method TakeCreate(f: ClientFrame) returns (exit: Option<Exit>)
      requires Valid() && !disconnected && taken < |clientReads| && clientReads[taken] == FromClient(f) && f.kind.Create?
      modifies this
      ensures exit.None? ==> Valid() && taken == old(taken) + 1 && got == old(got)
      ensures exit.Some? ==> AtExit(exit.value)
    {
      hide AttemptReplay.Ok, AttemptReplay.Untouched, AttemptReplay.Forgotten, UsageOk, DeliveryOk, AtExit, Controls, Events, Offers, Bills, KeepsReplay;
      hide UsageTotal, Placed, Minded, Explained, Reasoned, PendingFrames.Bounded;
      ghost var p, own := Here(), Own();
      OneMoreRead();
      if (steerAccepted || awaiting) && nextFrame.None? {
        CreatePlaced(p, Memory(), requestID, allowQueuedCreate, f, taken + 1 < |clientReads|);
        taken, nextFrame := taken + 1, Some(f);
        assert Own() == own && Seen() == p.clients + [FromClient(f)];
        assert Here() == p.(clients := p.clients + [FromClient(f)], more := taken < |clientReads|, next := Some(f));
        return None;
      }
      CreateRefused(f, p);
      taken := taken + 1;
      assert Own() == own && Seen() == p.clients + [FromClient(f)];
      SeenReasoned(p, Closed);
      ControlsSent();
      UsageTotals();
      Close(Closed);
      return Some(Closed);
    }

    lemma CreateRefused(f: ClientFrame, p: Place)
      requires p == Here() && PlaceOk() && MindOk() && f.kind.Create? && (nextFrame.Some? || (!steerAccepted && !awaiting))
      ensures Explained(p.Seen().(clients := p.clients + [FromClient(f)], more := taken + 1 < |clientReads|, upstreamBroken := false),
                        requestID, nextFrame, allowQueuedCreate, Closed, None)
    {
      MindIs();
      hide Placed, Minded, Explained;
      CreateOverlaps(p, Memory(), requestID, f, taken + 1 < |clientReads|);
    }

    /** What explains the end was seen from `p`, one client frame ago. */
    lemma SeenReasoned(p: Place, exit: Exit)
      requires Explained(p.Seen().(clients := Seen(), more := taken < |clientReads|, upstreamBroken := upstream.broken),
                         requestID, nextFrame, allowQueuedCreate, exit, terminalEvent)
      requires Here() == p.(clients := Seen(), more := taken < |clientReads|, allowRetry := allowRetry, upstreamBroken := upstream.broken)
      requires |Received()| == got
      ensures Reasoned(exit)
    {
      hide Explained, Events;
    }

    lemma MindIs()
      requires MindOk()
      ensures !allowQueuedCreate && Stands(Received(), Memory()) && NamedBy(Received(), requestID)
      ensures Minded(Received(), Memory(), requestID, false)
    {
    }

    /** The replay side of a control: one that a replay would not repeat ends it. */
    method NoteControl(f: ClientFrame)
      requires ReplayOk() && taken < |clientReads| && clientReads[taken] == FromClient(f) && !f.kind.Create?
      modifies turn.Mine
      ensures ReplayGiven(Offers(Received()), Controls(clientReads[..taken + 1]))
    {
      hide AttemptReplay.Ok, AttemptReplay.Untouched, AttemptReplay.Forgotten, Controls, Events, Offers, KeepsReplay;
      OneMoreRead();
      if !f.keepsReplay {
        turn.GiveUp(Offers(Received()));
      }
    }

    method TakeControl(f: ClientFrame) returns (exit: Option<Exit>)
      requires Valid() && !disconnected && taken < |clientReads| && clientReads[taken] == FromClient(f) && !f.kind.Create?
      modifies this, queue, upstream, turn.Mine
      ensures exit.None? ==> Valid() && taken == old(taken) + 1 && got == old(got)
      ensures exit.Some? ==> AtExit(exit.value)
    {
      hide AttemptReplay.Ok, AttemptReplay.Untouched, AttemptReplay.Forgotten, UsageOk, DeliveryOk, SteeringOk, BilledOk, UsageTotal, AtExit, Controls, Events, Offers, Bills, KeepsReplay, PendingFrames.Bounded;
      hide Placed, Minded, NoRoom, FrameBytes;
      ghost var p := Here();
      NoteControl(f);
      var ok := PassOn(f);
      hide ReplayGiven;
      if !ok {
        Refuse(f, p);
        return Some(Closed);
      }
      Count(f, p);
      return None;
    }

    /** The place after a control was handed on, before it counts as taken. */
    ghost predicate Handed(f: ClientFrame, p: Place)
      reads `taken, `got, `allowRetry, `wroteDownstream, `disconnected, `nextFrame, client`broken, upstream`broken
    {
      && taken < |clientReads| && clientReads[taken] == FromClient(f) && !f.kind.Create?
      && |Received()| == got && Placed(p) && !p.disconnected && !p.upstreamBroken
      && Here() == p.(allowRetry := allowRetry, upstreamBroken := upstream.broken)
    }

    method Count(f: ClientFrame, ghost p: Place)
      requires Handed(f, p) && !upstream.broken && ReplayGiven(Offers(Received()), Controls(clientReads[..taken + 1]))
      requires queue.Bounded() && (allowRetry ==> mayMove) && upstream.written + queue.frames == up + waiting + Own() + [f]
      requires if allowRetry && !wroteDownstream then upstream.written == up && f.keepsReplay && KeepsReplay(Own()) else queue.frames == []
      requires !wroteDownstream ==> (allowRetry <==> p.allowRetry && f.keepsReplay && !f.kind.Cancel?)
      modifies `taken
      ensures ControlsOk() && PlaceOk() && ReplayOk() && taken == old(taken) + 1
    {
      hide AttemptReplay.Ok, AttemptReplay.Untouched, AttemptReplay.Forgotten, Placed, Controls, Events, Offers, KeepsReplay, PendingFrames.Bounded;
      ghost var own := Own();
      OneMoreRead();
      ControlPlaced(p, f, taken + 1 < |clientReads|, allowRetry);
      taken := taken + 1;
      assert Own() == own + [f] && Seen() == p.clients + [FromClient(f)];
      assert Here() == p.(clients := p.clients + [FromClient(f)], more := taken < |clientReads|, allowRetry := allowRetry);
      ConcatAssociates(up + waiting, own, [f]);
    }

    method Refuse(f: ClientFrame, ghost p: Place)
      requires Handed(f, p) && ReplayGiven(Offers(Received()), Controls(clientReads[..taken + 1]))
      requires queue.Bounded() && up <= upstream.written <= up + waiting + Own() + [f]
      requires upstream.broken || (p.allowRetry && !p.wrote && f.keepsReplay && !f.kind.Cancel? && NoRoom(waiting + Own(), f))
      requires DeliveryOk() && UsageOk() && BilledOk(Received()) && MindOk() && terminalEvent.None?
      modifies `taken, `terminal, `steeredUsage, `metrics
      ensures AtExit(Closed)
    {
      hide AttemptReplay.Ok, AttemptReplay.Untouched, AttemptReplay.Forgotten, Placed, Minded, Explained, Controls, Events, Offers, KeepsReplay, PendingFrames.Bounded, DeliveryOk, UsageOk, BilledOk, UsageTotal, NoRoom, AtExit;
      ghost var own := Own();
      OneMoreRead();
      ControlRefused(f, p);
      taken := taken + 1;
      assert Own() == own + [f] && Seen() == p.clients + [FromClient(f)];
      SeenReasoned(p, Closed);
      ConcatAssociates(up + waiting, own, [f]);
      UsageTotals();
      Close(Closed);
    }

    lemma ControlRefused(f: ClientFrame, p: Place)
      requires Placed(p) && p.events == Received() && p.next == nextFrame && MindOk() && !p.disconnected && !f.kind.Create?
      requires upstream.broken || (p.allowRetry && !p.wrote && f.keepsReplay && f.kind.Control? && NoRoom(p.waiting + Controls(p.clients), f))
      ensures Explained(p.Seen().(clients := p.clients + [FromClient(f)], more := taken + 1 < |clientReads|, upstreamBroken := upstream.broken),
                        requestID, nextFrame, allowQueuedCreate, Closed, None)
    {
      MindIs();
      hide Placed, Minded, Explained, NoRoom, Controls;
      ControlCloses(p, Memory(), requestID, f, taken + 1 < |clientReads|, upstream.broken);
    }

    // ---- events from upstream ------------------------------------------------------------

    /** A terminal response is billed as a segment of its own. If it was steered, its usage is
        kept for the continuation; otherwise it ends the turn with everything kept so far. */
    method RecordTerminal(e: Event) returns (last: bool)
      requires UsageOk() && IsTerminal(e.kind)
      modifies `segments, `steeredUsage, `terminal, `awaiting, `held, `steerAccepted
      ensures last <==> !(old(steerAccepted) || (e.steered && e.kind.ResponseIncomplete?))
      ensures segments == old(segments) + [Billed(e.response)]
      ensures if last then UsageTotal() && awaiting == old(awaiting) && held == old(held) && steerAccepted == old(steerAccepted)
              else UsageOk() && awaiting && !steerAccepted && held == Some(Normalized(e.kind))
    {
      hide TotalOf, Billed, Plus, Merge;
      var m := BillingMetrics(e.response);
      TotalWithOneMore(segments, m);
      PlusCommutes(Billed(steeredUsage), m);
      segments := segments + [m];
      if (e.kind.ResponseIncomplete? && e.steered) || steerAccepted {
        MergeIsBilledAsSum(steeredUsage, e.response);
        steeredUsage := Merge(steeredUsage, e.response);
        terminal := NO_TERMINAL;
        awaiting, held, steerAccepted := true, Some(Normalized(e.kind)), false;
        last := false;
      } else {
        MergeIsBilledAsSum(e.response, steeredUsage);
        terminal := Merge(e.response, steeredUsage);
        steeredUsage := NO_TERMINAL;
        BlankAddsNothing(Billed(terminal));
        last := true;
      }
    }

    /** Between noticing an event and delivering it; `logical` names the terminal event that
        ends the turn, if any. */
    ghost predicate Observed(e: Event, logical: Option<EventKind>) reads this, client, upstream, queue, turn, turn.Repr {
      && ControlsOk() && DeliveryOk() && ReplayAt(Offers(Received()) + OffersOf(e))
      && (awaiting ==> held.Some?)
      && UsageTotal() && (logical.None? ==> UsageOk()) && BilledOk(Received() + [e])
      && terminalEvent.None? && PlaceOk() && AfterEvent(e, logical) && !(Limited(e) && allowRetry && !wroteDownstream && !disconnected)
    }

    method Steer(e: Event) returns (ok: bool)
      modifies `steerAccepted, `awaiting, `held
      ensures ok <==> !(e.kind.ResponseCreated? && old(awaiting) && nextFrame.Some?)
      ensures Memory() == if ok then Steered(old(Memory()), e) else old(Memory())
      ensures awaiting ==> old(awaiting) && held == old(held)
      ensures steerAccepted ==> old(steerAccepted) || e.kind.SteerAccepted?
    {
      ok := true;
      if e.kind.SteerAccepted? {
        steerAccepted := true;
      } else if e.kind.SteerFailed? {
        steerAccepted := false;
      } else if e.kind.ResponseCreated? && awaiting {
        if nextFrame.Some? {
          return false;
        }
        awaiting, held := false, None;
      }
    }

    /** Rate limited before anything was delivered: the turn can run elsewhere. */
    method MoveAway(e: Event)
      requires ControlsOk() && DeliveryOk() && SteeringOk() && UsageTotal() && ReplayAt(Offers(Received()) + OffersOf(e)) && BilledOk(Received() + [e])
      requires got < |upstreamReads| && upstreamReads[got] == FromUpstream(e)
      requires allowRetry && !wroteDownstream && !disconnected && terminalEvent.None? && PlaceOk()
      requires Stands(Received(), Memory()) && NamedBy(Received() + [e], requestID) && !allowQueuedCreate && Limited(e)
      modifies `got, `terminal, `steeredUsage, `metrics
      ensures AtExit(MoveOn)
    {
      hide AttemptReplay.Ok, AttemptReplay.Untouched, AttemptReplay.Forgotten, Controls, Events, Offers, Bills, KeepsReplay, TotalOf, Billed;
      hide Placed, Explained, Stands, NamedBy, Reasoned, PendingFrames.Bounded;
      OneMoreEvent();
      ControlsSent();
      AllQueued();
      assert Received() <= Received() + [e] && down + Received() <= down + (Received() + [e]);
      FinishMetrics();
      CountLimit(e);
    }

    method CountLimit(e: Event)
      requires ControlsOk() && PlaceOk() && Stands(Received(), Memory()) && NamedBy(Received() + [e], requestID) && !allowQueuedCreate && Limited(e)
      requires got < |upstreamReads| && upstreamReads[got] == FromUpstream(e)
      requires allowRetry && !wroteDownstream && !disconnected && terminalEvent.None?
      modifies `got
      ensures got == old(got) + 1 && Reasoned(MoveOn)
    {
      hide Placed, Explained, Stands, NamedBy, Events;
      OneMoreEvent();
      LimitMoves(Here(), Memory(), e, requestID, upstreamReads[got + 1..]);
      ghost var p := Here();
      got := got + 1;
      assert Here().Seen() == p.Seen().(events := p.events + [e], rest := upstreamReads[got..]);
    }

    method Observe(e: Event) returns (exit: Option<Exit>, logical: Option<EventKind>)
      requires Valid() && got < |upstreamReads| && upstreamReads[got] == FromUpstream(e) && e.shape.Text?
      modifies this, turn.Mine
      ensures exit.Some? ==> AtExit(exit.value)
      ensures exit.None? ==> Observed(e, logical) && taken == old(taken) && got == old(got)
    {
      hide AttemptReplay.Ok, AttemptReplay.Untouched, AttemptReplay.Forgotten, Controls, Events, Offers, Bills, KeepsReplay;
      hide ControlsOk, DeliveryOk, UsageOk, UsageTotal, AtExit, Placed, Explained, Stands, NamedBy;
      ghost var s := Memory();
      MindIs();
      hide Minded;
      var ok := Notice(e);
      if !ok {
        Overlapped(e);
        End(Closed);
        return Some(Closed), None;
      }
      exit, logical := Conclude(e, s);
    }

    lemma Overlapped(e: Event)
      requires PlaceOk() && MindOk() && ControlsOk() && terminalEvent.None?
      requires got < |upstreamReads| && upstreamReads[got] == FromUpstream(e) && e.shape.Text? && e.kind.ResponseCreated?
      requires awaiting && nextFrame.Some?
      ensures Reasoned(Closed)
    {
      MindIs();
      hide Placed, Explained, Minded, Events;
      assert Left()[0] == upstreamReads[got];
      StartOverlaps(Here(), Memory(), requestID, e);
    }

    method Offer(e: Event)
      requires ReplayOk() && e.shape.Text?
      modifies turn.Mine
      ensures ReplayAt(Offers(Received()) + OffersOf(e))
    {
      hide AttemptReplay.Ok, AttemptReplay.Untouched, AttemptReplay.Forgotten, Controls, Events, Offers, KeepsReplay;
      turn.Offered(e.offer, Offers(Received()));
    }

    /** Steering state, the collector and the response id follow the event. */
    method Notice(e: Event) returns (ok: bool)
      requires Valid() && e.shape.Text?
      modifies `steerAccepted, `awaiting, `held, `requestID, turn.Mine
      ensures ok <==> !(e.kind.ResponseCreated? && old(awaiting) && nextFrame.Some?)
      ensures !ok ==> Valid() && awaiting && nextFrame.Some?
      ensures ok ==> Memory() == Steered(old(Memory()), e) && NamedBy(Received() + [e], requestID) && PlaceOk()
      ensures ok ==> ControlsOk() && DeliveryOk() && ReplayAt(Offers(Received()) + OffersOf(e)) && UsageOk() && BilledOk(Received())
      ensures ok ==> (awaiting ==> held.Some?) && (e.kind.ErrorEvent? ==> SteeringOk())
    {
      hide AttemptReplay.Ok, AttemptReplay.Untouched, AttemptReplay.Forgotten, Controls, Events, Offers, Bills, KeepsReplay;
      hide ControlsOk, DeliveryOk, UsageOk, Placed, Stands, NamedBy, Steered;
      MindIs();
      NamedNext(Received(), requestID, e);
      ok := Steer(e);
      if !ok {
        return;
      }
      Offer(e);
      if requestID == "" {
        requestID := e.responseID;
      }
    }

    /** Billing a terminal event; `first` names it if it ends the turn. */
    method Bill(e: Event) returns (first: Option<EventKind>)
      requires UsageOk() && BilledOk(Received()) && (awaiting ==> held.Some?) && e.shape.Text?
      modifies `segments, `steeredUsage, `terminal, `awaiting, `held, `steerAccepted
      ensures UsageTotal() && (first.None? ==> UsageOk()) && BilledOk(Received() + [e]) && (awaiting ==> held.Some?)
      ensures (Memory(), first) == Recorded(old(Memory()), e)
      ensures !IsTerminal(e.kind) ==> segments == old(segments)
    {
      hide Events, Bills, Billed, TotalOf, UsageOk, UsageTotal, Plus;
      first := None;
      UsageTotals();
      OneMoreBill(e);
      if IsTerminal(e.kind) {
        var last := RecordTerminal(e);
        if last {
          first := Some(e.kind);
        } else {
          UsageTotals();
        }
      }
    }

    lemma OneMoreBill(e: Event)
      ensures Bills(Received() + [e]) == Bills(Received()) + BillOf(e)
    {
      assert (Received() + [e])[..|Received()|] == Received();
      hide Billed, Events;
    }

    method Conclude(e: Event, ghost s: Steering) returns (exit: Option<Exit>, logical: Option<EventKind>)
      requires got < |upstreamReads| && upstreamReads[got] == FromUpstream(e) && e.shape.Text?
      requires ControlsOk() && DeliveryOk() && ReplayAt(Offers(Received()) + OffersOf(e)) && UsageOk() && terminalEvent.None? && BilledOk(Received())
      requires (awaiting ==> held.Some?) && (e.kind.ErrorEvent? ==> SteeringOk())
      requires PlaceOk() && Stands(Received(), s) && Memory() == Steered(s, e) && NamedBy(Received() + [e], requestID) && !allowQueuedCreate
      modifies `segments, `steeredUsage, `terminal, `awaiting, `held, `steerAccepted, `got, `metrics, `allowQueuedCreate
      ensures exit.Some? ==> AtExit(exit.value)
      ensures exit.None? ==> Observed(e, logical) && got == old(got)
    {
      hide AttemptReplay.Ok, AttemptReplay.Untouched, AttemptReplay.Forgotten, Controls, Events, Offers, Bills, KeepsReplay;
      hide ControlsOk, DeliveryOk, UsageOk, UsageTotal, AtExit, PlaceOk, Explained, Stands, NamedBy, BilledOk, After, Concluded;
      var first := Bill(e);
      if e.kind.ErrorEvent? && e.rateLimited && allowRetry && !wroteDownstream && !disconnected {
        MoveAway(e);
        return Some(MoveOn), None;
      }
      logical := PutOff(e, first, s);
      hide Recorded, SteeringOk;
      exit := None;
    }

    /** A continuation that is put off, or fails, ends the turn as its held event said. */
    method PutOff(e: Event, first: Option<EventKind>, ghost s: Steering) returns (logical: Option<EventKind>)
      requires e.shape.Text? && Stands(Received(), s) && NamedBy(Received() + [e], requestID) && !allowQueuedCreate
      requires (Memory(), first) == Recorded(Steered(s, e), e)
      modifies `awaiting, `allowQueuedCreate
      ensures AfterEvent(e, logical) && (awaiting ==> old(awaiting)) && (logical.None? ==> first.None?)
    {
      hide Events, NamedBy;
      HeldWhileAwaiting(s, e);
      hide Stands;
      logical := first;
      if awaiting && (e.kind.SteerPending? || e.kind.SteerFailed?) {
        logical := held;
        awaiting, allowQueuedCreate := false, e.kind.SteerPending?;
      }
      EventMinded(Received(), s, e, Memory(), requestID, allowQueuedCreate, logical);
    }

    lemma HeldWhileAwaiting(s: Steering, e: Event)
      requires Stands(Received(), s)
      ensures var t := Recorded(Steered(s, e), e).0; t.awaiting ==> t.held.Some?
    {
      hide SteerOpen, Awaiting;
    }

    method TakeUpstream() returns (exit: Option<Exit>)
      requires Valid() && got < |upstreamReads|
      modifies this, client, upstream, queue, turn.Mine
      ensures exit.None? ==> Valid() && taken == old(taken) && got == old(got) + 1
      ensures exit.Some? ==> AtExit(exit.value)
    {
      hide AttemptReplay.Ok, AttemptReplay.Untouched, AttemptReplay.Forgotten, Controls, Events, Offers, Bills, KeepsReplay;
      hide ControlsOk, DeliveryOk, UsageOk, UsageTotal, AtExit, SteeringOk, ReplayAt, Placed, Minded, Explained;
      var r := upstreamReads[got];
      if !r.FromUpstream? || r.event.shape.Unsupported? {
        exit := Some(if disconnected && !r.FromUpstream? then ClientGone else Closed);
        LastRead(exit.value);
        End(exit.value);
        return;
      }
      var e := r.event;
      var logical: Option<EventKind> := None;
      if e.shape.Text? {
        exit, logical := Observe(e);
        if exit.Some? {
          return;
        }
      } else {
        Unobserved(e);
      }
      exit := Deliver(e, logical);
    }

    lemma LastRead(exit: Exit)
      requires PlaceOk() && MindOk() && ControlsOk() && terminalEvent.None? && got < |upstreamReads|
      requires !upstreamReads[got].FromUpstream? || upstreamReads[got].event.shape.Unsupported?
      requires exit == if disconnected && !upstreamReads[got].FromUpstream? then ClientGone else Closed
      ensures Reasoned(exit)
    {
      MindIs();
      hide Events, Minded, Explained;
      assert Here().rest[0] == upstreamReads[got];
      StillOpen(Here(), Memory(), requestID, exit);
    }

    lemma NothingLeft(exit: Exit)
      requires PlaceOk() && MindOk() && !upstream.broken && terminalEvent.None? && got == |upstreamReads| && (disconnected || taken == |clientReads|)
      requires exit == if disconnected then ClientGone else Closed
      ensures Reasoned(exit)
    {
      MindIs();
      hide Events, Minded, Explained;
      assert Here().rest == [];
      StillOpen(Here(), Memory(), requestID, exit);
    }

    lemma Unobserved(e: Event)
      requires Valid() && !e.shape.Text? && got < |upstreamReads| && upstreamReads[got] == FromUpstream(e)
      ensures Observed(e, None)
    {
      hide AttemptReplay.Ok, AttemptReplay.Untouched, AttemptReplay.Forgotten, Controls, Events, Offers, Bills, KeepsReplay;
      hide ControlsOk, DeliveryOk, UsageOk, UsageTotal, ReplayAt, PlaceOk, Stands, NamedBy;
      MindIs();
      NamedNext(Received(), requestID, e);
      EventMinded(Received(), Memory(), e, Memory(), requestID, false, None);
      UsageTotals();
      OneMoreEvent();
      assert Offers(Received()) + OffersOf(e) == Offers(Received());
    }

    /** The terminal event was handled: the turn is over. */
    method Finish(logical: EventKind) returns (exit: Exit)
      requires ControlsOk() && DeliveryOk() && ReplayOk() && UsageTotal() && BilledOk(Received()) && (wroteDownstream || disconnected)
      requires PlaceOk() && After(Received(), Memory(), requestID, allowQueuedCreate, Some(logical))
      modifies `terminal, `steeredUsage, `metrics, `terminalEvent
      ensures AtExit(exit)
    {
      hide AttemptReplay.Ok, AttemptReplay.Untouched, AttemptReplay.Forgotten, Controls, Events, Offers, Bills, KeepsReplay, UsageTotal, TotalOf;
      hide Placed, After, Explained;
      ControlsSent();
      TurnEnds(Here(), Memory(), requestID, allowQueuedCreate, logical);
      terminalEvent := Some(Normalized(logical));
      FinishMetrics();
      return if disconnected then ClientGone else if IsSuccess(logical) then Exit.Finished else Failed;
    }

    /** Passing the event down, and the queue up once something was delivered. */
    method Deliver(e: Event, logical: Option<EventKind>) returns (exit: Option<Exit>)
      requires got < |upstreamReads| && upstreamReads[got] == FromUpstream(e) && Observed(e, logical)
      modifies this, client, upstream, queue
      ensures exit.None? ==> Valid() && taken == old(taken) && got == old(got) + 1
      ensures exit.Some? ==> AtExit(exit.value)
    {
      hide AttemptReplay.Ok, AttemptReplay.Untouched, AttemptReplay.Forgotten, Controls, Events, Offers, Bills, KeepsReplay;
      hide ControlsOk, DeliveryOk, UsageOk, UsageTotal, AtExit, Placed, Explained, Stands, NamedBy;
      var ok := Send(e, logical);
      if !ok {
        FlushFailed(Here(), Memory(), requestID, allowQueuedCreate, logical);
        Close(Closed);
        return Some(Closed);
      }
      if logical.None? {
        return None;
      }
      var last := Finish(logical.value);
      return Some(last);
    }

    method Send(e: Event, ghost logical: Option<EventKind>) returns (ok: bool)
      requires got < |upstreamReads| && upstreamReads[got] == FromUpstream(e)
      requires ControlsOk() && DeliveryOk() && ReplayAt(Offers(Received()) + OffersOf(e)) && BilledOk(Received() + [e])
      requires PlaceOk() && AfterEvent(e, logical) && !(Limited(e) && allowRetry && !wroteDownstream && !disconnected)
      modifies `got, `disconnected, `wroteDownstream, client, upstream, queue
      ensures got == old(got) + 1 && SentOk() && DeliveryOk() && ReplayOk() && BilledOk(Received()) && (wroteDownstream || disconnected)
      ensures ok ==> ControlsOk()
      ensures PlaceOk() && After(Received(), Memory(), requestID, allowQueuedCreate, logical) && upstream.broken == !ok
    {
      hide AttemptReplay.Ok, AttemptReplay.Untouched, AttemptReplay.Forgotten, Controls, Events, Offers, Bills, KeepsReplay, Placed, After, Limited;
      ghost var p := Here();
      OneMoreEvent();
      ControlsSent();
      got, ok := got + 1, true;
      if !disconnected {
        ok := PassDown(e);
      }
      EventPlaced(p, e, Left(), wroteDownstream, disconnected, client.broken, upstream.broken);
      assert Here() == p.(events := p.events + [e], rest := Left(), wrote := wroteDownstream, disconnected := disconnected, clientBroken := client.broken, upstreamBroken := upstream.broken);
    }

    /** Delivering an event commits the turn to this account: what waited goes up. */
    method PassDown(e: Event) returns (ok: bool)
      requires !disconnected && queue.Bounded() && !upstream.broken
      modifies `disconnected, `wroteDownstream, client, upstream, queue
      ensures queue.Bounded() && upstream.broken == !ok
      ensures client.written == old(client.written) + (if disconnected then [] else [e]) && client.broken == disconnected
      ensures wroteDownstream == (old(wroteDownstream) || !disconnected) && (disconnected ==> ok)
      ensures disconnected ==> queue.frames == old(queue.frames) && upstream.written == old(upstream.written)
      ensures !disconnected && ok ==> queue.frames == [] && upstream.written == old(upstream.written) + old(queue.frames)
      ensures !ok ==> queue.frames == old(queue.frames) && old(upstream.written) <= upstream.written <= old(upstream.written) + old(queue.frames)
    {
      ok := true;
      var written := client.Write(e);
      if !written {
        disconnected := true;
        return;
      }
      wroteDownstream := true;
      ok := queue.Flush(upstream);
    }

    /** Other sessions may act before every step of this one. */
    method OthersMove()
      requires Valid()
      modifies turn.Mine
      ensures Valid()
    {
      hide AttemptReplay.Ok, AttemptReplay.Untouched, AttemptReplay.Forgotten, Controls, Events, Offers, Bills, KeepsReplay, UsageOk, PendingFrames.Bounded;
      turn.OthersMove(Offers(Received()));
    }

    /** The loop: whichever channel is ready is served next, until the attempt ends. */
    method Run() returns (exit: Exit)
      requires Valid()
      modifies this, client, upstream, queue, turn.Mine
      ensures AtExit(exit)
    {
      hide AttemptReplay.Ok, AttemptReplay.Untouched, AttemptReplay.Forgotten, Controls, Events, Offers, Bills, KeepsReplay;
      hide UsageOk, SteeringOk, AtExit, Placed, Minded, Explained;
      while true
        invariant Valid()
        decreases |clientReads| - taken + |upstreamReads| - got
      {
        OthersMove();
        var clientFirst: bool := *;
        var ended: Option<Exit>;
        if (clientFirst || got == |upstreamReads|) && !disconnected && taken < |clientReads| {
          ended := TakeClient();
        } else if got < |upstreamReads| {
          ended := TakeUpstream();
        } else {
          exit := if disconnected then ClientGone else Closed;
          NothingLeft(exit);
          End(exit);
          return;
        }
        if ended.Some? {
          return ended.value;
        }
      }
    }
  }

  datatype Attempt = Attempt(
    exit: Exit, taken: nat, got: nat, segments: seq<Metrics>, metrics: Metrics, requestID: string, nextFrame: Option<ClientFrame>,
    allowQueuedCreate: bool, terminalEvent: Option<EventKind>, output: seq<Item>, outputExceedsLimit: bool)

  /** Whatever happens, only the controls read so far reach this account, in order. A turn
      that moves on sent none of them and keeps them all queued; a turn that ends with a
      delivered terminal event sent them all, exactly once. */
  ghost predicate ControlsHandled(exit: Exit, before: seq<ClientFrame>, waiting: seq<ClientFrame>, read: seq<ClientFrame>,
                                  after: seq<ClientFrame>, left: seq<ClientFrame>) {
    && before <= after <= before + waiting + read
    && (exit.MoveOn? ==> after == before && left == waiting + read)
    && (exit.Finished? || exit.Failed? ==> after == before + waiting + read && left == [])
  }

  /** The client gets the events of this account in order and unchanged; nothing at all of a
      turn that moves on. */
  ghost predicate EventsHandled(exit: Exit, before: seq<Event>, events: seq<Event>, after: seq<Event>) {
    && before <= after <= before + events
    && (exit.MoveOn? ==> after == before)
    && (exit.Finished? || exit.Failed? ==> after == before + events)
  }

  /** `relayTurn`. */
  method RelayAttempt(client: Connection<Event>, upstream: Connection<ClientFrame>, queue: PendingFrames, replay: SessionReplay,
                      clientReads: seq<ClientRead>, upstreamReads: seq<UpstreamRead>, allowRetry: bool, collecting: bool,
                      ghost holders: set<Reservation>)
    returns (a: Attempt)
    requires replay.Ready(holders) && replay.output.bytes == 0
    requires client !in replay.Cells() + holders && upstream !in replay.Cells() + holders && queue !in replay.Cells() + holders
    requires queue.Bounded() && (queue.frames != [] ==> allowRetry) && !client.broken && !upstream.broken
    modifies client, upstream, queue, replay.Cells()
    ensures replay.Ready(holders) && queue.Bounded() && a.taken <= |clientReads| && a.got <= |upstreamReads|
    ensures a.metrics == TotalOf(a.segments) && a.segments == Bills(Events(upstreamReads[..a.got]))
    ensures ControlsHandled(a.exit, old(upstream.written), old(queue.frames), Controls(clientReads[..a.taken]), upstream.written, queue.frames)
    ensures EventsHandled(a.exit, old(client.written), Events(upstreamReads[..a.got]), client.written)
    ensures |Events(upstreamReads[..a.got])| == a.got
    ensures Explained(
      Trace(allowRetry, old(queue.frames), clientReads[..a.taken], a.taken < |clientReads|, Events(upstreamReads[..a.got]), upstreamReads[a.got..], client.broken, upstream.broken),
      a.requestID, a.nextFrame, a.allowQueuedCreate, a.exit, a.terminalEvent)
    ensures a.exit.MoveOn? ==> allowRetry && KeepsReplay(Controls(clientReads[..a.taken])) && a.segments == [] && a.nextFrame.None? && a.terminalEvent.None?
    ensures a.exit.Finished? || a.exit.Failed? ==> a.terminalEvent.Some? && (a.exit.Finished? <==> IsSuccess(a.terminalEvent.value))
    ensures if KeepsReplay(Controls(clientReads[..a.taken]))
            then replay.Kept(old(replay.history.Value()), old(replay.safe), old(replay.input), old(replay.current.bytes))
            else replay.Forgotten() && a.output == [] && replay.output.bytes == 0
    ensures if a.terminalEvent.None? || !collecting then replay.output.bytes == 0
            else KeepsReplay(Controls(clientReads[..a.taken])) ==> replay.output.bytes == Size(a.output)
    ensures a.terminalEvent.Some? && collecting && KeepsReplay(Controls(clientReads[..a.taken])) && !a.outputExceedsLimit ==>
      a.output == Collected(Offers(Events(upstreamReads[..a.got])))
    ensures collecting && KeepsReplay(Controls(clientReads[..a.taken])) && replay.output.budget == null ==>
      (a.outputExceedsLimit <==> TooLong(Offers(Events(upstreamReads[..a.got]))))
  {
    hide Complete, Contexts, Size, History.Ok, KeepsReplay, Controls, Events, Offers, Collected, TooLong, InLimits, DistinctKeys, TotalOf, Bills, Total;
    var turn := new AttemptReplay(replay, collecting, holders);
    var relay := new Relay(client, upstream, queue, turn, clientReads, upstreamReads, allowRetry);
    var exit := relay.Run();
    hide AttemptReplay.Ok, AttemptReplay.Untouched, AttemptReplay.Forgotten, Explained;
    var output := turn.Settle(relay.terminalEvent.Some?, Offers(relay.Received()));
    a := Attempt(exit, relay.taken, relay.got, relay.segments, relay.metrics, relay.requestID, relay.nextFrame,
                 relay.allowQueuedCreate, relay.terminalEvent, output, turn.collector.exceedsLimit);
  }
}
