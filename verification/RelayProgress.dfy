/** Where a relayed attempt stands between two reads, and what explains each way it can end,
    told from the reads and the failed writes alone. */
module RelayProgress {
  import opened MapSums
  import opened RelayEvents

  datatype Exit =
    | Finished   // the terminal event of a successful response was delivered
    | Failed     // the terminal event of a failed response was delivered
    | MoveOn     // rate limited before anything was delivered
    | ClientGone
    | Closed     // any other error that ends the session

  /** An attempt from outside: whether the turn could move to another account, the controls
      that waited, what was read from both sides and what is left, and the failed writes. */
  datatype Trace = Trace(
    mayMove: bool, waiting: seq<ClientFrame>, clients: seq<ClientRead>, more: bool, events: seq<Event>, rest: seq<UpstreamRead>,
    clientBroken: bool, upstreamBroken: bool)
  {
    predicate Lost() {
      clientBroken || ClientLost in clients
    }
  }

  /** And how the relay sees it. */
  datatype Place = Place(
    mayMove: bool, waiting: seq<ClientFrame>, clients: seq<ClientRead>, more: bool, events: seq<Event>, rest: seq<UpstreamRead>,
    next: Option<ClientFrame>, allowRetry: bool, wrote: bool, disconnected: bool, clientBroken: bool, upstreamBroken: bool)
  {
    function Seen(): Trace {
      Trace(mayMove, waiting, clients, more, events, rest, clientBroken, upstreamBroken)
    }
  }

  function ListOf(next: Option<ClientFrame>): seq<ClientFrame> {
    if next.Some? then [next.value] else []
  }

  // ---- why an attempt ends ----------------------------------------------------------------

  /** A create that no open or held steer allows, or a second one, or a continuation that
      starts although one is waiting. */
  ghost predicate Overlaps(x: Trace) {
    || (x.clients != [] && CreateOf(x.clients[|x.clients| - 1]) != []
        && (|Creates(x.clients)| > 1 || (!SteerOpen(x.events) && !Awaiting(x.events))))
    || (Creates(x.clients) != [] && Awaiting(x.events) && x.rest != [] && x.rest[0].FromUpstream?
        && x.rest[0].event.shape.Text? && x.rest[0].event.kind.ResponseCreated?)
  }

  /** The last control does not fit into the queue of a turn that may still move. */
  predicate Overflows(x: Trace) {
    && x.mayMove && x.events == [] && x.clients != [] && Holdable(x.clients)
    && NoRoom(x.waiting + Controls(x.clients[..|x.clients| - 1]), x.clients[|x.clients| - 1].frame)
  }

  predicate NoRoom(held: seq<ClientFrame>, f: ClientFrame) {
    |held| >= 64 || FrameBytes(held) + f.size > 4 * 1024 * 1024
  }

  /** Nothing more comes: the connection is lost, a timer fires, or everything was read. */
  predicate Silent(x: Trace) {
    if x.rest == [] then x.Lost() || !x.more else x.rest[0].UpstreamLost? || x.rest[0].TimerFired?
  }

  /** Some time so far, a steer was open or had held a terminal event back. */
  ghost predicate SteeredOnce(es: seq<Event>) {
    exists k: nat :: k <= |es| && (SteerOpen(es[..k]) || Awaiting(es[..k]))
  }

  predicate Unreadable(x: Trace) {
    x.rest != [] && x.rest[0].FromUpstream? && x.rest[0].event.shape.Unsupported?
  }

  /** How the attempt ended, from what was read. It moves on exactly when its first event is a
      rate limit and the client has sent nothing that ties the turn to this account; it ends
      with the first event that ends the turn, as that event says; and every other end has its
      reason. */
  ghost predicate Explained(x: Trace, id: string, next: Option<ClientFrame>, queued: bool, exit: Exit, terminal: Option<EventKind>) {
    var es, last := x.events, |x.events| - 1;
    && NamedBy(es, id)
    && (exit.MoveOn? <==> es != [] && Limited(es[0]) && x.mayMove && Holdable(x.clients))
    && (exit.MoveOn? ==> last == 0 && !x.Lost())
    && (forall k :: 0 <= k < last ==> !EndsTurn(es, k))
    && (if terminal.Some?
        then EndsAs(es, last, terminal.value) && (queued <==> es[last].kind.SteerPending?)
             && exit == if x.Lost() then ClientGone else if IsSuccess(terminal.value) then Finished else Failed
        else
          && (EndsTurn(es, last) ==> exit.Closed? && x.upstreamBroken)
          && !exit.Finished? && !exit.Failed?
          && (exit.ClientGone? ==> x.Lost() && Silent(x))
          && (exit.Closed? ==> x.upstreamBroken || Overlaps(x) || Overflows(x) || Unreadable(x) || (!x.Lost() && Silent(x))))
    && (!exit.Closed? ==> Creates(x.clients) == ListOf(next) && !x.upstreamBroken)
    && (next.Some? ==> SteeredOnce(es))
  }

  // ---- between two reads --------------------------------------------------------------------

  ghost predicate Placed(p: Place) {
    && (p.disconnected <==> p.Seen().Lost())
    && (!p.wrote && !p.disconnected ==> p.events == [] && (p.allowRetry <==> p.mayMove && Holdable(p.clients)))
    && (p.events == [] ==> !p.wrote && !p.clientBroken)
    && (p.events != [] ==> !(Limited(p.events[0]) && p.mayMove && Holdable(p.clients)))
    && Creates(p.clients) == ListOf(p.next) && (p.next.Some? ==> SteeredOnce(p.events))
  }

  /** What the relay remembers is right, and the turn has not ended. */
  ghost predicate Minded(es: seq<Event>, s: Steering, id: string, queued: bool) {
    Stands(es, s) && NamedBy(es, id) && !queued
  }

  /** The last event was noticed and recorded; `logical` names the terminal event that ends the
      turn, if it does. */
  ghost predicate After(es: seq<Event>, s: Steering, id: string, queued: bool, logical: Option<EventKind>) {
    && es != [] && NamedBy(es, id)
    && (forall k :: 0 <= k < |es| - 1 ==> !EndsTurn(es, k))
    && if logical.None? then Stands(es, s) && !queued
       else EndsAs(es, |es| - 1, Normalized(logical.value)) && (queued <==> es[|es| - 1].kind.SteerPending?)
  }

  lemma OneMoreClient(clients: seq<ClientRead>, r: ClientRead)
    ensures Controls(clients + [r]) == Controls(clients) + ControlOf(r)
    ensures Creates(clients + [r]) == Creates(clients) + CreateOf(r)
    ensures Holdable(clients + [r]) <==> Holdable(clients) && Holdable([r])
    ensures ClientLost in clients + [r] <==> ClientLost in clients || r == ClientLost
  {
    var all := clients + [r];
    assert all[..|all| - 1] == clients && all[|all| - 1] == r;
    assert forall x :: x in all <==> x in clients || x == r;
  }

  lemma LostPlaced(p: Place, more: bool)
    requires Placed(p) && !p.disconnected
    ensures Placed(p.(clients := p.clients + [ClientLost], more := more, disconnected := true))
  {
    OneMoreClient(p.clients, ClientLost);
    assert !Holdable([ClientLost]) by { assert ClientLost in [ClientLost]; }
    hide Creates, Holdable;
  }

  /** A create that an open or held steer allows. */
  lemma CreatePlaced(p: Place, s: Steering, id: string, queued: bool, f: ClientFrame, more: bool)
    requires Placed(p) && !p.disconnected && f.kind.Create? && p.next.None? && p.wrote
    requires Minded(p.events, s, id, queued) && (s.accepted || s.awaiting)
    ensures Placed(p.(clients := p.clients + [FromClient(f)], more := more, next := Some(f)))
  {
    OneMoreClient(p.clients, FromClient(f));
    assert CreateOf(FromClient(f)) == [f];
    assert p.events[..|p.events|] == p.events;
    hide Creates, Holdable, SteerOpen, Awaiting, NamedBy, EndsTurn;
  }

  lemma ControlPlaced(p: Place, f: ClientFrame, more: bool, allowRetry: bool)
    requires Placed(p) && !p.disconnected && !f.kind.Create?
    requires !p.wrote ==> (allowRetry <==> p.allowRetry && f.keepsReplay && !f.kind.Cancel?)
    ensures Placed(p.(clients := p.clients + [FromClient(f)], more := more, allowRetry := allowRetry))
  {
    OneMoreClient(p.clients, FromClient(f));
    assert Holdable([FromClient(f)]) <==> f.keepsReplay && !f.kind.Cancel? by { assert FromClient(f) in [FromClient(f)]; }
    hide Creates, Holdable;
  }

  /** The event goes down, unless the client is gone. */
  lemma EventPlaced(p: Place, e: Event, rest: seq<UpstreamRead>, wrote: bool, disconnected: bool, clientBroken: bool, upstreamBroken: bool)
    requires Placed(p) && !(Limited(e) && p.allowRetry && !p.wrote && !p.disconnected)
    requires if p.disconnected then wrote == p.wrote && disconnected && clientBroken == p.clientBroken
             else clientBroken == disconnected && wrote == (p.wrote || !disconnected)
    ensures Placed(p.(events := p.events + [e], rest := rest, wrote := wrote, disconnected := disconnected, clientBroken := clientBroken, upstreamBroken := upstreamBroken))
  {
    if SteeredOnce(p.events) {
      SteeredOnceStays(p.events, e);
    }
    hide SteeredOnce;
    if p.events == [] {
      assert (p.events + [e])[0] == e;
      assert p.disconnected ==> ClientLost in p.clients;
    } else {
      assert (p.events + [e])[0] == p.events[0];
    }
    hide Creates;
  }

  lemma SteeredOnceStays(es: seq<Event>, e: Event)
    requires SteeredOnce(es)
    ensures SteeredOnce(es + [e])
  {
    var k: nat :| k <= |es| && (SteerOpen(es[..k]) || Awaiting(es[..k]));
    assert (es + [e])[..k] == es[..k];
  }

  /** An event that was noticed and recorded. */
  lemma EventMinded(es: seq<Event>, s: Steering, e: Event, t: Steering, id: string, queued: bool, logical: Option<EventKind>)
    requires Stands(es, s) && (t, logical) == Turned(s, e) && NamedBy(es + [e], id) && (queued <==> logical.Some? && e.kind.SteerPending?)
    ensures After(es + [e], t, id, queued, logical)
  {
    StandsNext(es, s, e);
    PrefixKeeps(es, e);
    assert (es + [e])[|es|] == e;
    hide NamedBy, EndsTurn, EndsAs, Turned, SteerOpen, Awaiting;
  }

  // ---- closing ----------------------------------------------------------------------------------

  lemma NothingEnds(es: seq<Event>, s: Steering)
    requires Stands(es, s)
    ensures forall k :: !EndsTurn(es, k)
  {
  }

  /** No event read so far ended the turn, and it did not move on. */
  lemma StillOpen(p: Place, s: Steering, id: string, exit: Exit)
    requires Placed(p) && !p.upstreamBroken && Minded(p.events, s, id, false) && (exit.Closed? || exit.ClientGone?)
    requires var x := p.Seen();
             if exit.Closed? then Overlaps(x) || Unreadable(x) || (!x.Lost() && Silent(x)) else x.Lost() && Silent(x)
    ensures Explained(p.Seen(), id, p.next, false, exit, None)
  {
    NothingEnds(p.events, s);
    hide EndsTurn, SteerOpen, Awaiting, NamedBy, Overlaps, Unreadable, Silent, Holdable, Creates, EndsAs;
  }

  /** A client frame that closes the session. */
  lemma FrameCloses(p: Place, s: Steering, id: string, r: ClientRead, more: bool, upstreamBroken: bool)
    requires Placed(p) && Minded(p.events, s, id, false)
    requires var x := p.Seen().(clients := p.clients + [r], more := more, upstreamBroken := upstreamBroken);
             upstreamBroken || Overlaps(x) || Overflows(x)
    ensures Explained(p.Seen().(clients := p.clients + [r], more := more, upstreamBroken := upstreamBroken), id, p.next, false, Closed, None)
  {
    OneMoreClient(p.clients, r);
    NothingEnds(p.events, s);
    hide EndsTurn, SteerOpen, Awaiting, NamedBy, Overlaps, Overflows, Holdable, Creates, EndsAs;
  }

  lemma CreateOverlaps(p: Place, s: Steering, id: string, f: ClientFrame, more: bool)
    requires Placed(p) && Minded(p.events, s, id, false) && f.kind.Create? && (p.next.Some? || (!s.accepted && !s.awaiting))
    ensures Explained(p.Seen().(clients := p.clients + [FromClient(f)], more := more, upstreamBroken := false), id, p.next, false, Closed, None)
  {
    OneMoreClient(p.clients, FromClient(f));
    var x := p.Seen().(clients := p.clients + [FromClient(f)], more := more, upstreamBroken := false);
    assert x.clients[|x.clients| - 1] == FromClient(f);
    assert Overlaps(x) by { hide EndsTurn, SteerOpen, Awaiting, NamedBy, Holdable, Creates; }
    FrameCloses(p, s, id, FromClient(f), more, false);
    hide *;
  }

  lemma ControlCloses(p: Place, s: Steering, id: string, f: ClientFrame, more: bool, upstreamBroken: bool)
    requires Placed(p) && Minded(p.events, s, id, false) && !p.disconnected && !f.kind.Create?
    requires upstreamBroken ||
             (p.allowRetry && !p.wrote && f.keepsReplay && f.kind.Control? && NoRoom(p.waiting + Controls(p.clients), f))
    ensures Explained(p.Seen().(clients := p.clients + [FromClient(f)], more := more, upstreamBroken := upstreamBroken), id, p.next, false, Closed, None)
  {
    OneMoreClient(p.clients, FromClient(f));
    var x := p.Seen().(clients := p.clients + [FromClient(f)], more := more, upstreamBroken := upstreamBroken);
    assert x.clients[|x.clients| - 1] == FromClient(f) && x.clients[..|x.clients| - 1] == p.clients;
    if !upstreamBroken {
      assert Holdable([FromClient(f)]);
      assert Overflows(x) by { hide Stands, NamedBy, Creates, Holdable, Controls, NoRoom; }
    }
    FrameCloses(p, s, id, FromClient(f), more, upstreamBroken);
    hide *;
  }

  /** A continuation that starts although another create is waiting. */
  lemma StartOverlaps(p: Place, s: Steering, id: string, e: Event)
    requires Placed(p) && !p.upstreamBroken && Minded(p.events, s, id, false)
    requires p.rest != [] && p.rest[0] == FromUpstream(e) && e.shape.Text? && e.kind.ResponseCreated?
    requires s.awaiting && p.next.Some?
    ensures Explained(p.Seen(), id, p.next, false, Closed, None)
  {
    assert Overlaps(p.Seen()) by { hide SteerOpen, Awaiting, NamedBy, Holdable, Creates; }
    StillOpen(p, s, id, Closed);
    hide *;
  }

  lemma LimitMoves(p: Place, s: Steering, e: Event, id: string, rest: seq<UpstreamRead>)
    requires Placed(p) && !p.upstreamBroken && Stands(p.events, s) && NamedBy(p.events + [e], id)
    requires Limited(e) && p.allowRetry && !p.wrote && !p.disconnected
    ensures Explained(p.Seen().(events := p.events + [e], rest := rest), id, p.next, false, MoveOn, None)
  {
    EndsNext(p.events, e);
    assert p.events == [] && p.events + [e] == [e];
    hide NamedBy, EndsTurn, Creates, Holdable, Overlaps, Overflows, Silent, SteerOpen, Awaiting;
  }

  lemma FlushFailed(p: Place, s: Steering, id: string, queued: bool, logical: Option<EventKind>)
    requires Placed(p) && After(p.events, s, id, queued, logical) && p.upstreamBroken
    ensures Explained(p.Seen(), id, p.next, queued, Closed, None)
  {
    hide NamedBy, EndsTurn, SteerOpen, Awaiting, Overlaps, Overflows, Silent, Holdable, Creates;
  }

  lemma TurnEnds(p: Place, s: Steering, id: string, queued: bool, logical: EventKind)
    requires Placed(p) && After(p.events, s, id, queued, Some(logical)) && !p.upstreamBroken
    ensures Explained(p.Seen(), id, p.next, queued,
                      if p.disconnected then ClientGone else if IsSuccess(logical) then Finished else Failed, Some(Normalized(logical)))
  {
    hide NamedBy, EndsTurn, SteerOpen, Awaiting, Overlaps, Overflows, Silent, Holdable, Creates;
  }
}
