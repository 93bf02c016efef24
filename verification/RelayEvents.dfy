/** What the two sides of a WebSocket turn send, and what the events say on their own: which
    steers are open, which terminal events they hold back, and which event ends the turn. */
module RelayEvents {
  import opened MapSums
  import opened ReplayItems
  import opened ReplayCollector
  import opened ResponseUsage

  const QUEUE_FRAMES: int := 64
  const QUEUE_BYTES: int := 4 * 1024 * 1024

  datatype FrameKind = Create | Cancel | Control

  /** A frame of the client. `keepsReplay`: replaying the turn elsewhere would still mean
      the same after it. */
  datatype ClientFrame = ClientFrame(kind: FrameKind, keepsReplay: bool, size: nat, text: string)

  datatype ClientRead = FromClient(frame: ClientFrame) | ClientLost

  datatype EventShape = Text | Binary | Unsupported

  /** The event types the relay tells apart. */
  datatype EventKind =
    | ResponseCreated | ResponseCompleted | ResponseDone | ResponseFailed | ResponseIncomplete
    | ResponseCancelled // spelt "response.cancelled"
    | ResponseCanceled  // spelt "response.canceled"
    | SteerAccepted | SteerFailed | SteerPending | ErrorEvent | OtherEvent(name: string)

  datatype Event = Event(
    shape: EventShape, kind: EventKind, responseID: string, response: Terminal,
    steered: bool, rateLimited: bool, offer: Offer)

  /** What the relay waits for besides the client: an event, the loss of the connection, or a
      timer, which stands for the cancelling of the session too. */
  datatype UpstreamRead = FromUpstream(event: Event) | UpstreamLost | TimerFired

  predicate IsTerminal(k: EventKind) {
    k.ResponseCompleted? || k.ResponseDone? || k.ResponseFailed? || k.ResponseIncomplete? || k.ResponseCancelled? || k.ResponseCanceled?
  }

  function Normalized(k: EventKind): EventKind {
    if k.ResponseCanceled? then ResponseCancelled else k
  }

  predicate IsSuccess(k: EventKind) {
    k.ResponseCompleted? || k.ResponseDone?
  }

  // ---- what was read --------------------------------------------------------------------

  /** The controls among the frames read so far, in order; a create is never one. */
  function Controls(received: seq<ClientRead>): seq<ClientFrame> {
    if received == [] then []
    else Controls(received[..|received| - 1]) + ControlOf(received[|received| - 1])
  }

  function ControlOf(r: ClientRead): seq<ClientFrame> {
    if r.FromClient? && !r.frame.kind.Create? then [r.frame] else []
  }

  function Creates(received: seq<ClientRead>): seq<ClientFrame> {
    if received == [] then []
    else Creates(received[..|received| - 1]) + CreateOf(received[|received| - 1])
  }

  function CreateOf(r: ClientRead): seq<ClientFrame> {
    if r.FromClient? && r.frame.kind.Create? then [r.frame] else []
  }

  function Events(received: seq<UpstreamRead>): seq<Event> {
    if received == [] then []
    else Events(received[..|received| - 1]) + if received[|received| - 1].FromUpstream? then [received[|received| - 1].event] else []
  }

  function Offers(events: seq<Event>): seq<Item> {
    if events == [] then []
    else Offers(events[..|events| - 1]) + OffersOf(events[|events| - 1])
  }

  function OffersOf(e: Event): seq<Item> {
    if e.shape.Text? then ItemsOf(e.offer) else []
  }

  /** One segment is billed for every terminal event, steered or final. */
  ghost function Bills(events: seq<Event>): seq<Metrics> {
    if events == [] then [] else Bills(events[..|events| - 1]) + BillOf(events[|events| - 1])
  }

  ghost function BillOf(e: Event): seq<Metrics> {
    if e.shape.Text? && IsTerminal(e.kind) then [Billed(e.response)] else []
  }

  function FrameBytes(frames: seq<ClientFrame>): nat {
    if frames == [] then 0 else FrameBytes(frames[..|frames| - 1]) + frames[|frames| - 1].size
  }

  predicate KeepsReplay(controls: seq<ClientFrame>) {
    forall c <- controls :: c.keepsReplay
  }

  /** The client has sent nothing but controls that can wait for another account. */
  predicate Holdable(received: seq<ClientRead>) {
    forall r <- received :: r.FromClient? && r.frame.kind.Control? && r.frame.keepsReplay
  }

  predicate Limited(e: Event) {
    e.shape.Text? && e.kind.ErrorEvent? && e.rateLimited
  }

  /** The response id of a turn: the first one that an event carries. */
  ghost predicate NamedBy(es: seq<Event>, id: string) {
    if id == "" then forall e <- es :: e.shape.Text? ==> e.responseID == ""
    else exists i :: FirstNamed(es, i) && es[i].responseID == id
  }

  ghost predicate FirstNamed(es: seq<Event>, i: int) {
    && 0 <= i < |es| && es[i].shape.Text? && es[i].responseID != ""
    && forall j :: 0 <= j < i && es[j].shape.Text? ==> es[j].responseID == ""
  }

  // ---- steering -------------------------------------------------------------------------

  predicate Terminates(e: Event) {
    e.shape.Text? && IsTerminal(e.kind)
  }

  /** An accepted steer is open until it fails or a terminal event answers it. */
  ghost predicate SteerOpen(es: seq<Event>) {
    exists i :: 0 <= i < |es| && Accepts(es[i]) && forall j :: i < j < |es| ==> !Settles(es[j])
  }

  predicate Accepts(e: Event) {
    e.shape.Text? && e.kind.SteerAccepted?
  }

  predicate Settles(e: Event) {
    e.shape.Text? && (e.kind.SteerFailed? || IsTerminal(e.kind))
  }

  /** A terminal event that does not end the turn: the response goes on as another one. */
  ghost predicate HeldBack(es: seq<Event>, k: int) {
    0 <= k < |es| && Terminates(es[k]) && ((es[k].kind.ResponseIncomplete? && es[k].steered) || SteerOpen(es[..k]))
  }

  /** The last terminal event was held back, and the continuation has not started. */
  ghost predicate Awaiting(es: seq<Event>) {
    exists i :: WaitsFor(es, i)
  }

  ghost predicate WaitsFor(es: seq<Event>, i: int) {
    HeldBack(es, i) && forall j :: i < j < |es| ==> !Supersedes(es[j])
  }

  predicate Supersedes(e: Event) {
    e.shape.Text? && (e.kind.ResponseCreated? || IsTerminal(e.kind))
  }

  /** A turn ends with a terminal event that is not held back, or when the continuation it waits
      for is put off or fails. */
  ghost predicate EndsTurn(es: seq<Event>, k: int) {
    && 0 <= k < |es|
    && ((Terminates(es[k]) && !HeldBack(es, k)) || (PutsOff(es[k]) && Awaiting(es[..k])))
  }

  predicate PutsOff(e: Event) {
    e.shape.Text? && (e.kind.SteerPending? || e.kind.SteerFailed?)
  }

  /** How it ends: as that event says, or as the one that was held back did. */
  ghost predicate EndsAs(es: seq<Event>, k: int, kind: EventKind) {
    && EndsTurn(es, k)
    && if Terminates(es[k]) then kind == Normalized(es[k].kind)
       else exists i :: WaitsFor(es[..k], i) && kind == Normalized(es[i].kind)
  }

  // ---- one event at a time ------------------------------------------------------------------

  /** What the relay remembers of the events so far. */
  datatype Steering = Steering(accepted: bool, awaiting: bool, held: Option<EventKind>)

  ghost predicate Stands(es: seq<Event>, s: Steering) {
    && (s.accepted <==> SteerOpen(es))
    && (s.awaiting <==> Awaiting(es))
    && (s.awaiting ==> s.held.Some? && exists i :: WaitsFor(es, i) && s.held.value == Normalized(es[i].kind))
    && forall k :: 0 <= k < |es| ==> !EndsTurn(es, k)
  }

  function Steered(s: Steering, e: Event): Steering {
    if e.kind.SteerAccepted? then s.(accepted := true)
    else if e.kind.SteerFailed? then s.(accepted := false)
    else if e.kind.ResponseCreated? && s.awaiting then s.(awaiting := false, held := None)
    else s
  }

  function Recorded(s: Steering, e: Event): (Steering, Option<EventKind>) {
    if !IsTerminal(e.kind) then (s, None)
    else if s.accepted || (e.kind.ResponseIncomplete? && e.steered) then (Steering(false, true, Some(Normalized(e.kind))), None)
    else (s, Some(e.kind))
  }

  function Concluded(s: Steering, logical: Option<EventKind>, e: Event): (Steering, Option<EventKind>) {
    if s.awaiting && (e.kind.SteerPending? || e.kind.SteerFailed?) then (s.(awaiting := false), s.held) else (s, logical)
  }

  function Turned(s: Steering, e: Event): (Steering, Option<EventKind>) {
    if e.shape.Text? then
      var (t, logical) := Recorded(Steered(s, e), e);
      Concluded(t, logical, e)
    else (s, None)
  }

  lemma StandsAtFirst()
    ensures Stands([], Steering(false, false, None)) && NamedBy([], "")
  {
  }

  lemma PrefixKeeps(es: seq<Event>, e: Event)
    ensures forall k :: 0 <= k < |es| ==> (HeldBack(es + [e], k) <==> HeldBack(es, k))
    ensures forall k :: 0 <= k < |es| ==> (EndsTurn(es + [e], k) <==> EndsTurn(es, k))
  {
    forall k | 0 <= k <= |es| ensures (es + [e])[..k] == es[..k] {
    }
  }

  lemma SteerOpenNext(es: seq<Event>, e: Event)
    ensures SteerOpen(es + [e]) <==> Accepts(e) || (SteerOpen(es) && !Settles(e))
  {
    var all := es + [e];
    assert all[|es|] == e && forall j :: 0 <= j < |es| ==> all[j] == es[j];
    if SteerOpen(all) {
      var i :| 0 <= i < |all| && Accepts(all[i]) && forall j :: i < j < |all| ==> !Settles(all[j]);
      assert i < |es| ==> !Settles(all[|es|]) && forall j :: i < j < |es| ==> !Settles(all[j]) && all[j] == es[j];
    }
    if SteerOpen(es) && !Settles(e) {
      var i :| 0 <= i < |es| && Accepts(es[i]) && forall j :: i < j < |es| ==> !Settles(es[j]);
      assert Accepts(all[i]);
    }
  }

  lemma HeldBackNext(es: seq<Event>, e: Event)
    ensures HeldBack(es + [e], |es|) <==> Terminates(e) && ((e.kind.ResponseIncomplete? && e.steered) || SteerOpen(es))
  {
    assert (es + [e])[..|es|] == es;
  }

  lemma WaitsNext(es: seq<Event>, e: Event, i: int)
    ensures i < |es| ==> (WaitsFor(es + [e], i) <==> WaitsFor(es, i) && !Supersedes(e))
    ensures WaitsFor(es + [e], |es|) <==> HeldBack(es + [e], |es|)
  {
    var all := es + [e];
    PrefixKeeps(es, e);
    assert all[|es|] == e && forall j :: 0 <= j < |es| ==> all[j] == es[j];
    if WaitsFor(all, i) && i < |es| {
      assert !Supersedes(all[|es|]);
      forall j | i < j < |es| ensures !Supersedes(es[j]) {
        assert !Supersedes(all[j]);
      }
    }
  }

  lemma AwaitingNext(es: seq<Event>, e: Event)
    ensures Awaiting(es + [e]) <==> HeldBack(es + [e], |es|) || (Awaiting(es) && !Supersedes(e))
  {
    hide WaitsFor;
    if Awaiting(es + [e]) {
      var i :| WaitsFor(es + [e], i);
      WaitsNext(es, e, i);
      WithinEvents(es + [e], i);
    }
    if Awaiting(es) {
      var i :| WaitsFor(es, i);
      WaitsNext(es, e, i);
      WithinEvents(es, i);
    }
    WaitsNext(es, e, |es|);
  }

  lemma WithinEvents(es: seq<Event>, i: int)
    requires WaitsFor(es, i)
    ensures 0 <= i < |es|
  {
  }

  lemma EndsNext(es: seq<Event>, e: Event)
    ensures EndsTurn(es + [e], |es|)
            <==> (Terminates(e) && !(e.kind.ResponseIncomplete? && e.steered) && !SteerOpen(es)) || (PutsOff(e) && Awaiting(es))
  {
    HeldBackNext(es, e);
    assert (es + [e])[..|es|] == es;
  }

  /** One more event: the relay's memory stays right, and it sees the end of the turn. */
  lemma StandsNext(es: seq<Event>, s: Steering, e: Event)
    requires Stands(es, s)
    ensures Turned(s, e).1.None? ==> Stands(es + [e], Turned(s, e).0)
    ensures Turned(s, e).1.Some? ==> EndsAs(es + [e], |es|, Normalized(Turned(s, e).1.value))
  {
    var t, logical := Turned(s, e).0, Turned(s, e).1;
    SteerOpenNext(es, e);
    HeldBackNext(es, e);
    AwaitingNext(es, e);
    EndsNext(es, e);
    PrefixKeeps(es, e);
    hide SteerOpen, Awaiting, HeldBack, EndsTurn, Normalized;
    if logical.Some? {
      EndsAsNext(es, s, e);
    } else if t.awaiting {
      HeldNext(es, s, e);
    }
  }

  lemma HeldAt(es: seq<Event>, s: Steering) returns (i: nat)
    requires Stands(es, s) && s.awaiting
    ensures i < |es| && WaitsFor(es, i) && s.held == Some(Normalized(es[i].kind))
  {
    i :| 0 <= i < |es| && WaitsFor(es, i) && s.held.value == Normalized(es[i].kind);
  }

  lemma HeldNext(es: seq<Event>, s: Steering, e: Event)
    requires Stands(es, s) && Turned(s, e).1.None? && Turned(s, e).0.awaiting
    ensures Turned(s, e).0.held.Some? && exists i :: WaitsFor(es + [e], i) && Turned(s, e).0.held.value == Normalized((es + [e])[i].kind)
  {
    hide SteerOpen, HeldBack, EndsTurn, Normalized;
    HeldBackNext(es, e);
    WaitsNext(es, e, |es|);
    if !Terminates(e) {
      var i := HeldAt(es, s);
      WaitsNext(es, e, i);
      assert (es + [e])[i] == es[i];
    }
  }

  lemma EndsAsNext(es: seq<Event>, s: Steering, e: Event)
    requires Stands(es, s) && Turned(s, e).1.Some?
    ensures EndsAs(es + [e], |es|, Normalized(Turned(s, e).1.value))
  {
    EndsNext(es, e);
    hide SteerOpen, HeldBack, EndsTurn;
    assert (es + [e])[..|es|] == es;
    if !Terminates(e) {
      var i := HeldAt(es, s);
      assert (es + [e])[i] == es[i];
    }
  }

  lemma NamedNext(es: seq<Event>, id: string, e: Event)
    requires NamedBy(es, id)
    ensures NamedBy(es + [e], if e.shape.Text? && id == "" then e.responseID else id)
  {
    var all := es + [e];
    if id != "" {
      var i :| FirstNamed(es, i) && es[i].responseID == id;
      assert FirstNamed(all, i) && all[i] == es[i];
    } else if e.shape.Text? && e.responseID != "" {
      forall j | 0 <= j < |es| ensures all[j] in es {
      }
      assert FirstNamed(all, |es|) && all[|es|] == e;
    }
  }
}
