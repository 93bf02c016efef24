/** Copying an upstream event stream to the client: held back until the client needs it or
    the buffer is full, passed through afterwards. The request can fail over to another
    account only while nothing was sent. */
module SseCopier {
  import opened MapSums
  import opened SseStream

  /** A failure reported by the upstream, with what its text is classified as. */
  datatype Failure = Failure(status: nat, retryable: bool, capacity: bool)

  datatype Terminal = Terminal(hasUsage: bool, hasOutput: bool, error: Option<Failure>)
  {
    predicate EmptyCompleted() {
      !hasUsage && !hasOutput && error.None?
    }

    /** `retryableTerminalFailure`. */
    function Status(): nat {
      if error.None? then 502 else error.value.status
    }

    predicate Retryable() {
      error.None? || error.value.retryable
    }
  }

  datatype EventKind =
    | Created | InProgress | Completed | Done | Failed | Incomplete | Cancelled | Canceled
    | Error | RateLimits | Other

  predicate IsTerminal(k: EventKind) {
    k.Completed? || k.Done? || k.Failed? || k.Incomplete? || k.Cancelled? || k.Canceled?
  }

  /** A line as the copier reads it: the type of the event it carries, the response of a
      terminal event, and the error of an error event. */
  datatype Line = Line(text: Bytes, event: Option<EventKind>, response: Option<Terminal>, error: Option<Failure>, blank: bool)
  {
    predicate Ok() {
      && (event.Some? ==> !blank)
      && (response.Some? ==> event.Some? && IsTerminal(event.value))
      && (error.Some? ==> event == Some(Error))
    }

    /** `isClientOutputEvent`. */
    predicate StartsOutput() {
      match event
      case None => false
      case Some(k) =>
        if k.Created? || k.InProgress? || k.Failed? || k.RateLimits? then false
        else if k.Error? then error.Some? && !error.value.retryable
        else true
    }

    predicate Terminal() {
      event.Some? && IsTerminal(event.value)
    }
  }

  datatype End = CleanEnd | Broken

  datatype Result =
    | Failover(status: nat, body: Bytes, capacity: bool)
    | Copied
    | IncompleteStream
    | ReadFailed

  function Texts(lines: seq<Line>): (texts: seq<Bytes>)
    ensures |texts| == |lines|
  {
    if lines == [] then [] else Texts(lines[..|lines| - 1]) + [lines[|lines| - 1].text]
  }

  predicate LinesOk(lines: seq<Line>) {
    IsStream(Texts(lines)) && forall l <- lines :: l.Ok()
  }

  /** A rewritten event is still an event. */
  predicate RewritesOk(rewrites: Rewrites) {
    forall line <- rewrites :: rewrites[line] != []
  }

  lemma {:induction false} TextsAt(lines: seq<Line>)
    ensures forall i :: 0 <= i < |lines| ==> Texts(lines)[i] == lines[i].text
  {
    if lines != [] {
      TextsAt(lines[..|lines| - 1]);
    }
  }

  lemma PrefixOfTexts(lines: seq<Line>, n: nat)
    requires n <= |lines|
    ensures Texts(lines[..n]) == Texts(lines)[..n]
    ensures LinesOk(lines) ==> IsStream(Texts(lines[..n]))
  {
    hide Texts, Complete, Partial, Line.Ok;
    TextsAt(lines);
    TextsAt(lines[..n]);
    assert Texts(lines[..n]) == Texts(lines)[..n];
    PrefixOfStream(Texts(lines), n);
    hide IsStream;
  }

  lemma PrefixOfStream(lines: seq<Bytes>, n: nat)
    requires n <= |lines|
    ensures IsStream(lines) ==> IsStream(lines[..n])
  {
    hide Complete, Partial;
  }

  predicate IsPrefix(a: Bytes, b: Bytes) {
    |a| <= |b| && b[..|a|] == a
  }

  /** What the copy loop knows of the response. */
  datatype Words = Words(terminal: Terminal, topLevelError: Option<Failure>, terminalSeen: bool)

  /** What it does with it; `sent` is what the client got. */
  datatype Copy = Copy(
    started: bool, disconnected: bool, delivered: bool, boundaryPending: bool,
    pendingTerminal: bool, pendingComplete: bool, pendingAtBoundary: bool, pending: Bytes, sent: Bytes)

  /** How many bytes the client takes; the write that gets there fails. None: it takes all. */
  type Room = Option<nat>

  predicate Lost(room: Room, wanted: Bytes) {
    room.Some? && wanted != [] && |wanted| >= room.value
  }

  /** The part of what was to be written that the client takes. */
  function Taken(room: Room, wanted: Bytes): Bytes {
    if room.Some? && |wanted| >= room.value then wanted[..room.value] else wanted
  }

  const START: Copy := Copy(false, false, false, false, false, false, false, [], [])

  // ---- what holds after n lines -----------------------------------------------------

  ghost function RawTo(lines: seq<Line>, n: nat): Bytes requires n <= |lines| {
    Raw(Texts(lines[..n]))
  }

  ghost function CleanTo(rewrites: Rewrites, lines: seq<Line>, n: nat): Bytes requires n <= |lines| {
    Clean(rewrites, Texts(lines[..n]))
  }

  ghost predicate Terminated(lines: seq<Line>, n: nat) requires n <= |lines| {
    exists a :: 0 <= a < n && lines[a].Terminal()
  }

  /** A terminal event and the blank line that closes it. */
  ghost predicate TerminatedAndClosed(lines: seq<Line>, n: nat) requires n <= |lines| {
    exists a, b :: 0 <= a < b < n && lines[a].Terminal() && lines[b].blank
  }

  /** While held back, everything read is pending and nothing was sent. */
  ghost predicate Held(c: Copy, lines: seq<Line>, n: nat, limit: int) requires n <= |lines| {
    && c.sent == [] && !c.disconnected && !c.delivered && !c.boundaryPending
    && c.pending == RawTo(lines, n) && (c.pending == [] || |c.pending| < limit)
    && (c.pendingTerminal <==> Terminated(lines, n)) && (c.pendingComplete <==> TerminatedAndClosed(lines, n))
    && (c.pendingAtBoundary <==> n > 0 && lines[n - 1].blank)
  }

  /** Afterwards the client has the rewritten lines, all of them unless it went away. */
  ghost predicate Passed(c: Copy, rewrites: Rewrites, lines: seq<Line>, n: nat, room: Room) requires n <= |lines| {
    && c.pending == []
    && c.sent == Taken(room, CleanTo(rewrites, lines, n)) && (c.disconnected <==> Lost(room, CleanTo(rewrites, lines, n)))
    && (c.boundaryPending ==> Terminated(lines, n))
    && (c.delivered ==> Received(c.sent, rewrites, lines, n))
    && (!c.disconnected && Terminated(lines, n) ==> c.delivered || c.boundaryPending)
    && (!c.disconnected && TerminatedAndClosed(lines, n) ==> c.delivered)
  }

  /** The client has a terminal event together with the blank line after it. */
  ghost predicate Received(sent: Bytes, rewrites: Rewrites, lines: seq<Line>, n: nat) requires n <= |lines| {
    exists m :: 0 <= m <= n && TerminatedAndClosed(lines, m) && IsPrefix(CleanTo(rewrites, lines, m), sent)
  }

  ghost predicate Valid(c: Copy, rewrites: Rewrites, lines: seq<Line>, n: nat, limit: int, room: Room) requires n <= |lines| {
    if c.started then Passed(c, rewrites, lines, n, room) else Held(c, lines, n, limit)
  }

  // ---- what the lines decide -----------------------------------------------------------

  /** What a line tells about the response. */
  function Heard(w: Words, line: Line): Words {
    var told := if line.error.Some? then line.error else w.topLevelError;
    var parsed := if line.response.None? then w.terminal
                  else if line.response.value.error.None? && w.topLevelError.Some? then line.response.value.(error := w.topLevelError)
                  else line.response.value;
    Words(if line.error.Some? then parsed.(error := line.error) else parsed, told, w.terminalSeen || line.Terminal())
  }

  const SILENCE: Words := Words(Terminal(false, false, None), None, false)

  function WordsAt(lines: seq<Line>, n: nat): Words requires n <= |lines| {
    if n == 0 then SILENCE else Heard(WordsAt(lines, n - 1), lines[n - 1])
  }

  /** How a copy that no clock interrupts stands after n lines: held back, passed on, or
      given up at one of the lines. */
  datatype Fate = Holding | Flowing | Moved(status: nat, capacity: bool)

  function Capacity(t: Terminal): bool {
    t.error.Some? && t.error.value.capacity
  }

  function NextFate(held: nat, w: Words, line: Line, limit: int): Fate {
    if |line.text| >= limit - held then Flowing
    else if (line.event == Some(Completed) || line.event == Some(Done)) && w.terminal.EmptyCompleted() then Moved(502, false)
    else if line.event == Some(Failed) then
      if w.terminal.Retryable() then Moved(w.terminal.Status(), Capacity(w.terminal)) else Flowing
    else if line.StartsOutput() then Flowing
    else Holding
  }

  ghost function FateAt(lines: seq<Line>, n: nat, limit: int): Fate requires n <= |lines| {
    if n == 0 then Holding
    else
      var before := FateAt(lines, n - 1, limit);
      if before.Holding? then NextFate(|RawTo(lines, n - 1)|, WordsAt(lines, n), lines[n - 1], limit) else before
  }

  /** A stream without a terminal event that ends in an error of its own, which another
      account may retry while nothing has been passed on. */
  predicate Unfinished(w: Words, success: bool) {
    success && !w.terminalSeen
  }

  ghost function FateAtEnd(lines: seq<Line>, success: bool, limit: int): Fate {
    var fate, w := FateAt(lines, |lines|, limit), WordsAt(lines, |lines|);
    if fate.Holding? && Unfinished(w, success) && w.topLevelError.Some? && w.terminal.Retryable()
    then Moved(w.terminal.Status(), Capacity(w.terminal)) else fate
  }

  /** How a copy ends that does not fail over. */
  function Ending(w: Words, end: End, success: bool): Result {
    if Unfinished(w, success) then if w.topLevelError.Some? then Copied else IncompleteStream
    else if end.CleanEnd? then Copied else ReadFailed
  }

  lemma {:induction false} MovedStays(lines: seq<Line>, n: nat, m: nat, limit: int)
    requires n <= m <= |lines| && !FateAt(lines, n, limit).Holding?
    ensures FateAt(lines, m, limit) == FateAt(lines, n, limit)
    decreases m
  {
    hide NextFate;
    if n < m {
      MovedStays(lines, n, m - 1, limit);
    }
  }

  lemma {:induction false} WordsSay(lines: seq<Line>, n: nat)
    requires n <= |lines|
    ensures WordsAt(lines, n).terminalSeen <==> Terminated(lines, n)
    ensures WordsAt(lines, n).topLevelError.Some? <==> exists a :: 0 <= a < n && lines[a].error.Some?
  {
    if n > 0 {
      WordsSay(lines, n - 1);
    }
  }

  // ---- writing -----------------------------------------------------------------------

  /** A write that fails or stops early loses the client; nothing is written after that. */
  method WriteClient(c: Copy, data: Bytes, room: Room, ghost wanted: Bytes) returns (d: Copy, ok: bool)
    requires c.sent == Taken(room, wanted) && (c.disconnected <==> Lost(room, wanted))
    ensures ok == (!c.disconnected && data != [] && !d.disconnected)
    ensures d == c.(sent := d.sent, disconnected := d.disconnected)
    ensures c.disconnected || data == [] ==> d == c
    ensures d.sent == Taken(room, wanted + data) && (d.disconnected <==> Lost(room, wanted + data))
  {
    if c.disconnected || |data| == 0 {
      assert data == [] ==> wanted + data == wanted;
      return c, false;
    }
    var written := |data|;
    var failed := false;
    if room.Some? && |c.sent| + |data| >= room.value {
      written, failed := room.value - |c.sent|, true;
    }
    d := c.(sent := c.sent + data[..written]);
    if failed {
      assert (wanted + data)[..room.value] == d.sent;
      return d.(disconnected := true), false;
    }
    assert data[..written] == data;
    return d, true;
  }

  lemma OneMoreLine(rewrites: Rewrites, lines: seq<Line>, n: nat)
    requires n < |lines| && LinesOk(lines)
    ensures RawTo(lines, n + 1) == RawTo(lines, n) + lines[n].text && lines[n].text != []
    ensures CleanTo(rewrites, lines, n + 1) == CleanTo(rewrites, lines, n) + Sanitize(rewrites, lines[n].text)
    ensures RewritesOk(rewrites) ==> Sanitize(rewrites, lines[n].text) != []
  {
    assert lines[..n + 1][..n] == lines[..n];
    TextsAt(lines);
    assert Texts(lines)[n] == lines[n].text;
    assert Texts(lines[..n + 1])[..n] == Texts(lines[..n]);
  }

  lemma SomethingToSend(rewrites: Rewrites, lines: seq<Line>, n: nat)
    requires n <= |lines| && LinesOk(lines) && RewritesOk(rewrites)
    ensures n > 0 ==> CleanTo(rewrites, lines, n) != []
  {
    if n > 0 {
      OneMoreLine(rewrites, lines, n - 1);
    }
  }

  /** What one more line says about the stream so far. */
  lemma WordsGrow(lines: seq<Line>, n: nat)
    requires n < |lines| && LinesOk(lines)
    ensures Terminated(lines, n + 1) <==> Terminated(lines, n) || lines[n].Terminal()
    ensures TerminatedAndClosed(lines, n + 1) <==> TerminatedAndClosed(lines, n) || (Terminated(lines, n) && lines[n].blank)
    ensures lines[n].blank ==> !lines[n].Terminal()
  {
    assert lines[n] in lines;
  }

  /** `startClientOutput`: everything held back goes out at once. */
  method StartOutput(c: Copy, rewrites: Rewrites, lines: seq<Line>, ghost n: nat, room: Room) returns (d: Copy)
    requires n <= |lines| && LinesOk(lines) && RewritesOk(rewrites) && !c.started
    requires c.sent == [] && !c.disconnected && !c.delivered && !c.boundaryPending && c.pending == RawTo(lines, n)
    ensures d.started && d.pending == []
    ensures d.sent == Taken(room, CleanTo(rewrites, lines, n)) && (d.disconnected <==> Lost(room, CleanTo(rewrites, lines, n)))
    ensures d.delivered <==> n > 0 && !d.disconnected && c.pendingComplete
    ensures d.boundaryPending <==> n > 0 && !d.disconnected && !c.pendingComplete && c.pendingTerminal
  {
    PrefixOfTexts(lines, n);
    WholeIsLineWise(rewrites, Texts(lines[..n]));
    SomethingToSend(rewrites, lines, n);
    NothingTaken(room);
    hide Clean, SplitAfter, Texts, Raw, IsStream, Taken, Lost;
    var clean := SanitizeAll(rewrites, c.pending);
    var ok;
    assert clean == CleanTo(rewrites, lines, n) && [] + clean == clean && (n == 0 ==> clean == []);
    d, ok := WriteClient(c.(started := true), clean, room, []);
    if ok {
      if d.pendingComplete {
        d := d.(delivered := true);
      } else if d.pendingTerminal {
        d := d.(boundaryPending := true);
      }
    }
    d := d.(pending := [], pendingTerminal := false, pendingComplete := false, pendingAtBoundary := false);
  }

  /** What was held back has passed. */
  lemma StartedPassed(c: Copy, d: Copy, rewrites: Rewrites, lines: seq<Line>, n: nat, limit: int, room: Room)
    requires n <= |lines| && Held(c, lines, n, limit) && d.started && d.pending == []
    requires d.sent == Taken(room, CleanTo(rewrites, lines, n)) && (d.disconnected <==> Lost(room, CleanTo(rewrites, lines, n)))
    requires d.delivered <==> n > 0 && !d.disconnected && c.pendingComplete
    requires d.boundaryPending <==> n > 0 && !d.disconnected && !c.pendingComplete && c.pendingTerminal
    ensures Passed(d, rewrites, lines, n, room)
  {
    hide CleanTo, RawTo;
    if !d.disconnected {
      AllTaken(room, CleanTo(rewrites, lines, n));
    }
    hide Taken, Lost, IsPrefix;
  }

  /** Starting the output of a copy that is held back. */
  method Release(c: Copy, rewrites: Rewrites, lines: seq<Line>, ghost n: nat, ghost limit: int, room: Room) returns (d: Copy)
    requires n <= |lines| && LinesOk(lines) && RewritesOk(rewrites) && !c.started && Held(c, lines, n, limit)
    ensures d.started && Passed(d, rewrites, lines, n, room)
  {
    d := StartOutput(c, rewrites, lines, n, room);
    StartedPassed(c, d, rewrites, lines, n, limit, room);
    hide *;
  }

  lemma NothingTaken(room: Room)
    ensures Taken(room, []) == [] && !Lost(room, [])
  {
  }

  /** What is not lost was taken as a whole. */
  lemma AllTaken(room: Room, wanted: Bytes)
    requires !Lost(room, wanted)
    ensures Taken(room, wanted) == wanted && IsPrefix(wanted, Taken(room, wanted))
  {
  }

  method AppendPending(c: Copy, lines: seq<Line>, ghost n: nat, line: Line) returns (d: Copy)
    requires n < |lines| && LinesOk(lines) && line == lines[n] && !c.started
    ensures d == c.(pending := c.pending + line.text, pendingAtBoundary := line.blank, pendingComplete := c.pendingComplete || (c.pendingTerminal && line.blank))
  {
    d := c.(pending := c.pending + line.text, pendingAtBoundary := line.blank);
    if d.pendingTerminal && d.pendingAtBoundary {
      d := d.(pendingComplete := true);
    }
  }

  method Observe(w: Words, line: Line) returns (v: Words)
    ensures v == Heard(w, line)
  {
    v := w;
    if line.response.Some? {
      var parsed := line.response.value;
      if parsed.error.None? && v.topLevelError.Some? {
        parsed := parsed.(error := v.topLevelError);
      }
      v := v.(terminal := parsed);
    }
    if line.error.Some? {
      v := v.(topLevelError := line.error, terminal := v.terminal.(error := line.error));
    }
    if line.Terminal() {
      v := v.(terminalSeen := true);
    }
  }

  /** The copy stands as its lines decide. */
  ghost predicate Fated(c: Copy, lines: seq<Line>, n: nat, limit: int) requires n <= |lines| {
    FateAt(lines, n, limit) == if c.started then Flowing else Holding
  }

  /** One line of the stream: held back, passed on, or the reason to fail over. */
  method Feed(c: Copy, w: Words, rewrites: Rewrites, lines: seq<Line>, n: nat, limit: int, room: Room) returns (d: Copy, v: Words, failover: Option<Result>)
    requires n < |lines| && LinesOk(lines) && RewritesOk(rewrites) && Valid(c, rewrites, lines, n, limit, room)
    requires w == WordsAt(lines, n) && Fated(c, lines, n, limit)
    ensures failover.None? ==> Valid(d, rewrites, lines, n + 1, limit, room) && Fated(d, lines, n + 1, limit)
    ensures failover.Some? ==> failover.value.Failover? && FailedOver(d, failover.value.body, lines, n + 1, limit)
    ensures failover.Some? ==> FateAt(lines, n + 1, limit) == Moved(failover.value.status, failover.value.capacity)
    ensures v == WordsAt(lines, n + 1)
  {
    HeldOrFull(c, lines, n, limit);
    FateGrows(lines, n, limit);
    hide Held, Passed, IsStream, FateAt, Heard;
    v := Observe(w, lines[n]);
    d := c;
    if !d.started && |lines[n].text| >= limit - |d.pending| {
      d := Release(d, rewrites, lines, n, limit, room);
    }
    if d.started {
      d := PassLine(d, rewrites, lines, n, room);
      return d, v, None;
    }
    d, failover := HoldLine(d, v, rewrites, lines, n, limit, room);
  }

  lemma FateGrows(lines: seq<Line>, n: nat, limit: int)
    requires n < |lines|
    ensures WordsAt(lines, n + 1) == Heard(WordsAt(lines, n), lines[n])
    ensures FateAt(lines, n + 1, limit) ==
      if FateAt(lines, n, limit).Holding? then NextFate(|RawTo(lines, n)|, WordsAt(lines, n + 1), lines[n], limit)
      else FateAt(lines, n, limit)
  {
    hide NextFate, Heard;
  }

  /** More was wanted: the client has at least what it had. */
  lemma TakenGrows(room: Room, wanted: Bytes, more: Bytes)
    ensures IsPrefix(Taken(room, wanted), Taken(room, wanted + more))
    ensures Lost(room, wanted) ==> Taken(room, wanted + more) == Taken(room, wanted) && Lost(room, wanted + more)
  {
    assert room.Some? && |wanted| >= room.value ==> (wanted + more)[..room.value] == wanted[..room.value];
  }

  lemma ReceivedGrows(sent: Bytes, after: Bytes, rewrites: Rewrites, lines: seq<Line>, n: nat)
    requires n < |lines| && IsPrefix(sent, after)
    ensures Received(sent, rewrites, lines, n) ==> Received(after, rewrites, lines, n + 1)
    ensures TerminatedAndClosed(lines, n + 1) && after == CleanTo(rewrites, lines, n + 1) ==> Received(after, rewrites, lines, n + 1)
  {
    if Received(sent, rewrites, lines, n) {
      var m :| 0 <= m <= n && TerminatedAndClosed(lines, m) && IsPrefix(CleanTo(rewrites, lines, m), sent);
      assert after[..|CleanTo(rewrites, lines, m)|] == sent[..|CleanTo(rewrites, lines, m)|];
    }
    assert after[..|after|] == after;
  }

  /** Noting that the client got a terminal event, and the blank line after it. */
  method MarkLine(c: Copy, line: Line) returns (d: Copy)
    ensures d == c.(delivered := d.delivered, boundaryPending := d.boundaryPending)
    ensures d.boundaryPending <==> (c.boundaryPending || line.Terminal()) && !line.blank
    ensures d.delivered <==> c.delivered || ((c.boundaryPending || line.Terminal()) && line.blank)
  {
    d := c;
    if line.Terminal() {
      d := d.(boundaryPending := true);
    }
    if d.boundaryPending && line.blank {
      d := d.(delivered := true, boundaryPending := false);
    }
  }

  method PassLine(c: Copy, rewrites: Rewrites, lines: seq<Line>, n: nat, room: Room) returns (d: Copy)
    requires n < |lines| && LinesOk(lines) && RewritesOk(rewrites) && c.started && Passed(c, rewrites, lines, n, room)
    ensures d.started && Passed(d, rewrites, lines, n + 1, room)
  {
    hide Taken, Lost, LinesOk, RewritesOk, Line.Ok, Sanitize, Received, Terminated, TerminatedAndClosed;
    OneMoreLine(rewrites, lines, n);
    ghost var clean := CleanTo(rewrites, lines, n);
    hide CleanTo;
    var ok;
    d, ok := WriteClient(c, Sanitize(rewrites, lines[n].text), room, clean);
    if ok {
      d := MarkLine(d, lines[n]);
    }
    PassedNext(c, d, rewrites, lines, n, room);
  }

  lemma PassedNext(c: Copy, d: Copy, rewrites: Rewrites, lines: seq<Line>, n: nat, room: Room)
    requires n < |lines| && LinesOk(lines) && Passed(c, rewrites, lines, n, room)
    requires d.pending == [] && d.sent == Taken(room, CleanTo(rewrites, lines, n + 1)) && (d.disconnected <==> Lost(room, CleanTo(rewrites, lines, n + 1)))
    requires CleanTo(rewrites, lines, n + 1) == CleanTo(rewrites, lines, n) + Sanitize(rewrites, lines[n].text)
    requires if d.disconnected then d.boundaryPending == c.boundaryPending && d.delivered == c.delivered
             else
               && (d.boundaryPending <==> (c.boundaryPending || lines[n].Terminal()) && !lines[n].blank)
               && (d.delivered <==> c.delivered || ((c.boundaryPending || lines[n].Terminal()) && lines[n].blank))
    ensures Passed(d, rewrites, lines, n + 1, room)
  {
    hide CleanTo, Sanitize, Terminated, TerminatedAndClosed, Received, Taken, Lost, LinesOk, Line.Ok;
    WordsGrow(lines, n);
    TakenGrows(room, CleanTo(rewrites, lines, n), Sanitize(rewrites, lines[n].text));
    ReceivedGrows(c.sent, d.sent, rewrites, lines, n);
    if !d.disconnected {
      AllTaken(room, CleanTo(rewrites, lines, n + 1));
    }
    hide IsPrefix, Line.Terminal;
  }

  ghost predicate FailedOver(c: Copy, body: Bytes, lines: seq<Line>, n: nat, limit: int) {
    n <= |lines| && c.sent == [] && !c.disconnected && !c.started && !c.delivered && body == RawTo(lines, n) && (body == [] || |body| < limit)
  }

  method HoldLine(c: Copy, w: Words, rewrites: Rewrites, lines: seq<Line>, n: nat, limit: int, room: Room) returns (d: Copy, failover: Option<Result>)
    requires n < |lines| && LinesOk(lines) && RewritesOk(rewrites)
    requires !c.started && Held(c, lines, n, limit) && |c.pending| + |lines[n].text| < limit
    ensures failover.None? ==> Valid(d, rewrites, lines, n + 1, limit, room)
    ensures failover.None? ==> NextFate(|c.pending|, w, lines[n], limit) == if d.started then Flowing else Holding
    ensures failover.Some? ==> failover.value.Failover? && FailedOver(d, failover.value.body, lines, n + 1, limit)
    ensures failover.Some? ==> NextFate(|c.pending|, w, lines[n], limit) == Moved(failover.value.status, failover.value.capacity)
  {
    hide LinesOk, RewritesOk, Line.Ok, CleanTo, RawTo;
    var terminal := w.terminal;
    var line := lines[n];
    WordsGrow(lines, n);
    OneMoreLine(rewrites, lines, n);
    hide Clean, Texts, Raw, IsStream, Terminated, TerminatedAndClosed, Sanitize, Passed;
    d := c;
    if line.Terminal() {
      d := d.(pendingTerminal := true);
    }
    d := AppendPending(d, lines, n, line);
    failover := None;
    if (line.event == Some(Completed) || line.event == Some(Done)) && terminal.EmptyCompleted() {
      failover := Some(Failover(502, d.pending, false));
    } else if line.event == Some(Failed) {
      if terminal.Retryable() {
        failover := Some(Failover(terminal.Status(), d.pending, terminal.error.Some? && terminal.error.value.capacity));
      } else {
        d := Release(d, rewrites, lines, n + 1, limit, room);
      }
    } else if line.StartsOutput() {
      d := Release(d, rewrites, lines, n + 1, limit, room);
    }
  }

  lemma HeldOrFull(c: Copy, lines: seq<Line>, n: nat, limit: int)
    requires n < |lines| && (!c.started ==> Held(c, lines, n, limit))
    ensures !c.started && !(|lines[n].text| >= limit - |c.pending|) ==> |c.pending| + |lines[n].text| < limit
    ensures !c.started ==> c.pending == RawTo(lines, n)
  {
  }

  /** What the client takes of one more write. */
  function TakenAfter(room: Room, sent: Bytes, data: Bytes): Bytes {
    if room.None? || |sent| + |data| < room.value then data
    else if |sent| <= room.value then data[..room.value - |sent|] else []
  }

  /** An error of the upstream that nothing followed, held back to the end, and not to be
      retried: it then counts as its last word. */
  ghost predicate ErrorHeld(lines: seq<Line>, success: bool, limit: int) {
    FateAt(lines, |lines|, limit).Holding? && Unfinished(WordsAt(lines, |lines|), success) && WordsAt(lines, |lines|).topLevelError.Some?
  }

  /** How a copy that did not fail over stands at the end: what the client got, and whether it
      has the last word of the upstream as a whole. */
  ghost predicate Over(d: Copy, rewrites: Rewrites, lines: seq<Line>, success: bool, limit: int, room: Room) {
    var clean := CleanTo(rewrites, lines, |lines|);
    if d.started then
      && d.sent == Taken(room, clean) && (d.disconnected <==> Lost(room, clean))
      && if ErrorHeld(lines, success, limit) then d.delivered <==> !d.disconnected && lines != [] && lines[|lines| - 1].blank
         else (d.delivered ==> Received(d.sent, rewrites, lines, |lines|)) && (!d.disconnected && TerminatedAndClosed(lines, |lines|) ==> d.delivered)
    else d.sent == [] && !d.disconnected && !d.delivered
  }

  /** The end of the stream: what is still held back goes out, unless the error that the
      upstream reported can be retried elsewhere. A stream that ends without a last word
      gets a failure event of the gateway's own. */
  method Finish(c: Copy, w: Words, end: End, success: bool, rewrites: Rewrites, lines: seq<Line>, failureEvent: Bytes, limit: int, room: Room)
    returns (d: Copy, result: Result, tail: Bytes)
    requires LinesOk(lines) && RewritesOk(rewrites) && Valid(c, rewrites, lines, |lines|, limit, room)
    requires w == WordsAt(lines, |lines|) && Fated(c, lines, |lines|, limit)
    ensures result.Failover? ==> FailedOver(d, result.body, lines, |lines|, limit) && tail == []
    ensures result.Failover? ==> FateAtEnd(lines, success, limit) == Moved(result.status, result.capacity)
    ensures !result.Failover? ==> !FateAtEnd(lines, success, limit).Moved? && result == Ending(w, end, success)
    ensures !result.Failover? ==> Over(d, rewrites, lines, success, limit, room)
    ensures !result.Failover? ==> (d.started <==> c.started || !result.ReadFailed?)
    ensures tail == if result.IncompleteStream? && !d.disconnected then TakenAfter(room, d.sent, failureEvent) else []
  {
    hide IsStream, Terminated, FateAt, WordsAt, RawTo, CleanTo, Taken, Lost, TakenAfter, Received, TerminatedAndClosed;
    d, tail := c, [];
    if success && !w.terminalSeen {
      if w.topLevelError.Some? {
        if !d.started {
          if w.terminal.Retryable() {
            result := Failover(w.terminal.Status(), d.pending, w.terminal.error.Some? && w.terminal.error.value.capacity);
            return;
          }
          d := d.(pendingTerminal := true, pendingComplete := d.pendingAtBoundary);
          d := StartOutput(d, rewrites, lines, |lines|, room);
        }
        return d, Copied, [];
      }
      if !d.started {
        d := Release(d, rewrites, lines, |lines|, limit, room);
      }
      if !d.disconnected {
        tail := TakenAfter(room, d.sent, failureEvent);
      }
      return d, IncompleteStream, tail;
    }
    if end.CleanEnd? {
      if !d.started {
        d := Release(d, rewrites, lines, |lines|, limit, room);
      }
      return d, Copied, [];
    }
    return d, ReadFailed, [];
  }

  /** `copySSEWithPendingLimitAndTimeout`: `n` lines were read, `tail` is the part of the
      gateway's own failure event that was written. `timeout`: the first-output timer fires when
      that many lines were read. */
  method CopyStream(lines: seq<Line>, end: End, success: bool, limit: int, timeout: Option<nat>, room: Room, rewrites: Rewrites, failureEvent: Bytes)
    returns (result: Result, d: Copy, n: nat, tail: Bytes)
    requires LinesOk(lines) && RewritesOk(rewrites)
    ensures n <= |lines| && (result.Failover? || n == |lines|)
    ensures !result.Failover? ==> Over(d, rewrites, lines, success, limit, room)
    ensures tail == if result.IncompleteStream? && !d.disconnected then TakenAfter(room, d.sent, failureEvent) else []
    ensures result.Failover? ==> d.sent == [] && tail == [] && !d.started && !d.disconnected && !d.delivered
    ensures result.Failover? ==> result.body == RawTo(lines, n) && (result.body == [] || |result.body| < limit)
    ensures TimesOut(lines, timeout, limit) ==> result == Failover(504, RawTo(lines, timeout.value), false) && n == timeout.value
    ensures result.Failover? && !TimesOut(lines, timeout, limit) ==>
      || FateAt(lines, n, limit) == Moved(result.status, result.capacity)
      || (n == |lines| && FateAtEnd(lines, success, limit) == Moved(result.status, result.capacity))
    ensures !TimesOut(lines, timeout, limit) ==> (result.Failover? <==> FateAtEnd(lines, success, limit).Moved?)
    ensures !result.Failover? ==> result == Ending(WordsAt(lines, |lines|), end, success)
    ensures !result.Failover? ==> (d.started <==> FateAt(lines, |lines|, limit).Flowing? || end.CleanEnd? || !result.ReadFailed?)
  {
    hide Held, Passed, Valid, IsStream, Over, FailedOver, FateAt, FateAtEnd, WordsAt, Ending;
    var w, gaveUp;
    d, w, n, gaveUp := CopyLines(lines, limit, timeout, room, rewrites);
    tail := [];
    if gaveUp.Some? {
      result := gaveUp.value;
      FailedOverSendsNothing(d, result.body, rewrites, lines, n, limit);
      if !TimesOut(lines, timeout, limit) {
        MovedAtEnd(lines, success, limit, n);
      }
      return;
    }
    d, result, tail := Finish(d, w, end, success, rewrites, lines, failureEvent, limit, room);
    if result.Failover? {
      FailedOverSendsNothing(d, result.body, rewrites, lines, n, limit);
    } else {
      NothingUnsent(w, end, success);
    }
  }

  /** The loop over the lines, until one of them or the timer gives the copy up. */
  method CopyLines(lines: seq<Line>, limit: int, timeout: Option<nat>, room: Room, rewrites: Rewrites)
    returns (d: Copy, w: Words, n: nat, gaveUp: Option<Result>)
    requires LinesOk(lines) && RewritesOk(rewrites)
    ensures n <= |lines| && (TimesOut(lines, timeout, limit) ==> gaveUp.Some?)
    ensures gaveUp.None? ==> n == |lines| && Valid(d, rewrites, lines, n, limit, room) && w == WordsAt(lines, n) && Fated(d, lines, n, limit)
    ensures gaveUp.Some? ==> gaveUp.value.Failover? && FailedOver(d, gaveUp.value.body, lines, n, limit)
    ensures gaveUp.Some? && TimesOut(lines, timeout, limit) ==> gaveUp.value == Failover(504, RawTo(lines, timeout.value), false) && n == timeout.value
    ensures gaveUp.Some? && !TimesOut(lines, timeout, limit) ==> FateAt(lines, n, limit) == Moved(gaveUp.value.status, gaveUp.value.capacity)
  {
    n, d, w, gaveUp := 0, START, SILENCE, None;
    StartHeld(rewrites, lines, limit, room);
    hide Held, Passed, Valid, IsStream, FailedOver, Fated, FateAt, WordsAt, LinesOk, RewritesOk, RawTo;
    while n < |lines|
      invariant n <= |lines| && Valid(d, rewrites, lines, n, limit, room)
      invariant w == WordsAt(lines, n) && Fated(d, lines, n, limit) && gaveUp.None?
      invariant timeout.Some? && timeout.value < n ==> !TimesOut(lines, timeout, limit)
    {
      FatedIs(d, lines, n, limit);
      if timeout == Some(n) && !d.started {
        TimedOut(d, rewrites, lines, n, limit, room);
        gaveUp := Some(Failover(504, d.pending, false));
        return;
      }
      d, w, gaveUp := Feed(d, w, rewrites, lines, n, limit, room);
      n := n + 1;
      if gaveUp.Some? {
        MovedBefore(lines, limit, n, timeout);
        return;
      }
    }
  }

  /** The timer fires while more is to be read and everything is still held back. */
  ghost predicate TimesOut(lines: seq<Line>, timeout: Option<nat>, limit: int) {
    timeout.Some? && timeout.value < |lines| && FateAt(lines, timeout.value, limit).Holding?
  }

  lemma FatedIs(c: Copy, lines: seq<Line>, n: nat, limit: int)
    requires n <= |lines| && Fated(c, lines, n, limit)
    ensures FateAt(lines, n, limit) == if c.started then Flowing else Holding
  {
  }

  /** A timer later than the line at which the copy was given up never fires. */
  lemma MovedBefore(lines: seq<Line>, limit: int, n: nat, timeout: Option<nat>)
    requires n <= |lines| && FateAt(lines, n, limit).Moved?
    ensures timeout.Some? && n <= timeout.value <= |lines| ==> !TimesOut(lines, timeout, limit)
  {
    if timeout.Some? && n <= timeout.value <= |lines| {
      MovedStays(lines, n, timeout.value, limit);
    }
  }

  /** A clean end is never a read error. */
  lemma NothingUnsent(w: Words, end: End, success: bool)
    ensures end.CleanEnd? ==> !Ending(w, end, success).ReadFailed?
  {
  }

  lemma StartHeld(rewrites: Rewrites, lines: seq<Line>, limit: int, room: Room)
    ensures Valid(START, rewrites, lines, 0, limit, room)
    ensures SILENCE == WordsAt(lines, 0) && Fated(START, lines, 0, limit)
  {
  }

  lemma FailedOverSendsNothing(c: Copy, body: Bytes, rewrites: Rewrites, lines: seq<Line>, n: nat, limit: int)
    requires FailedOver(c, body, lines, n, limit)
    ensures n <= |lines| && c.sent == [] && !c.disconnected && !c.started && !c.delivered && body == RawTo(lines, n) && (body == [] || |body| < limit)
  {
  }

  lemma TimedOut(c: Copy, rewrites: Rewrites, lines: seq<Line>, n: nat, limit: int, room: Room)
    requires n <= |lines| && !c.started && Valid(c, rewrites, lines, n, limit, room) && Fated(c, lines, n, limit)
    ensures FateAt(lines, n, limit).Holding? && FailedOver(c, c.pending, lines, n, limit) && c.pending == RawTo(lines, n)
  {
  }

  /** A copy that is given up at a line stays given up. */
  lemma MovedAtEnd(lines: seq<Line>, success: bool, limit: int, n: nat)
    requires n <= |lines| && FateAt(lines, n, limit).Moved?
    ensures FateAtEnd(lines, success, limit) == FateAt(lines, n, limit)
  {
    MovedStays(lines, n, |lines|, limit);
  }
}
