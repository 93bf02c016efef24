/** The observer of a streamed response that decides whether the upstream answered with the
    expected model: it reads the stream in arbitrary pieces, keeps at most one bounded line
    and one bounded event, and is proved to agree with a definition on the whole stream. */
module StateCompletion {
  import opened SseStream

  const LIMIT: nat := 0x10_0000
  const PROBE_LIMIT: nat := 0x40_0000
  const DATA: Bytes := "data:"

  /** The event texts that report a completed response without an error, with the model
      each names. Parsing them is not part of this model. */
  type Reports = map<Bytes, Bytes>

  // ---- the whole stream ---------------------------------------------------------------

  /** The lines of a stream that have ended, without their newline, and the rest of it. */
  function Ended(s: Bytes): seq<Bytes> {
    if s == [] then []
    else if s[|s| - 1] == NEWLINE then Ended(s[..|s| - 1]) + [Tail(s[..|s| - 1])]
    else Ended(s[..|s| - 1])
  }

  function Tail(s: Bytes): Bytes {
    if s == [] || s[|s| - 1] == NEWLINE then [] else Tail(s[..|s| - 1]) + [s[|s| - 1]]
  }

  function AllLines(s: Bytes): seq<Bytes> {
    if Tail(s) == [] then Ended(s) else Ended(s) + [Tail(s)]
  }

  function Terminated(lines: seq<Bytes>): Bytes {
    if lines == [] then [] else Terminated(lines[..|lines| - 1]) + lines[|lines| - 1] + [NEWLINE]
  }

  /** The lines and the rest are the stream: nothing is lost, reordered or cut elsewhere. */
  lemma {:induction false} LinesRebuild(s: Bytes)
    ensures Terminated(Ended(s)) + Tail(s) == s
    ensures NEWLINE !in Tail(s) && forall line <- Ended(s) :: NEWLINE !in line
  {
    if s != [] {
      LinesRebuild(s[..|s| - 1]);
      assert s == s[..|s| - 1] + [s[|s| - 1]];
    }
  }

  function Cut(line: Bytes): Bytes {
    if line != [] && line[|line| - 1] == '\r' then line[..|line| - 1] else line
  }

  predicate Long(line: Bytes) {
    |line| > 1024 * 1024
  }

  predicate Blank(line: Bytes) {
    !Long(line) && Cut(line) == []
  }

  predicate HasData(line: Bytes) {
    DATA <= Cut(line)
  }

  predicate Space(c: char) {
    c == ' ' || '\t' <= c <= '\r'
  }

  function TrimRight(s: Bytes): Bytes {
    if s != [] && Space(s[|s| - 1]) then TrimRight(s[..|s| - 1]) else s
  }

  function TrimSpace(s: Bytes): Bytes {
    if s != [] && Space(s[0]) then TrimSpace(s[1..]) else TrimRight(s)
  }

  function DataOf(line: Bytes): Bytes {
    if HasData(line) then TrimSpace(Cut(line)[5..]) + [NEWLINE] else []
  }

  /** Blank lines close events: the closed ones, and the lines of the one still open. */
  function Open(lines: seq<Bytes>): seq<Bytes> {
    if lines == [] || Blank(lines[|lines| - 1]) then [] else Open(lines[..|lines| - 1]) + [lines[|lines| - 1]]
  }

  function Closed(lines: seq<Bytes>): seq<seq<Bytes>> {
    if lines == [] then []
    else if Blank(lines[|lines| - 1]) then Closed(lines[..|lines| - 1]) + [Open(lines[..|lines| - 1])]
    else Closed(lines[..|lines| - 1])
  }

  function Events(s: Bytes): seq<seq<Bytes>> {
    Closed(AllLines(s)) + [Open(AllLines(s))]
  }

  function Payload(event: seq<Bytes>): Bytes {
    if event == [] then [] else Payload(event[..|event| - 1]) + DataOf(event[|event| - 1])
  }

  /** Only an event of short lines with a short text is looked at. */
  predicate Bounded(event: seq<Bytes>) {
    (forall line <- event :: !Long(line)) && |Payload(event)| <= 1024 * 1024
  }

  predicate Reported(reports: Reports, event: seq<Bytes>) {
    Bounded(event) && Payload(event) in reports
  }

  /** Some event reports a completed response. */
  predicate Completes(reports: Reports, events: seq<seq<Bytes>>) {
    exists i :: 0 <= i < |events| && Reported(reports, events[i])
  }

  /** Every event that reports one names the expected model. */
  predicate NamesOnly(reports: Reports, expected: Bytes, events: seq<seq<Bytes>>) {
    forall i :: 0 <= i < |events| && Reported(reports, events[i]) ==> reports[Payload(events[i])] == expected
  }

  lemma OneMore(reports: Reports, expected: Bytes, events: seq<seq<Bytes>>, event: seq<Bytes>)
    ensures Completes(reports, events + [event]) <==> Completes(reports, events) || Reported(reports, event)
    ensures NamesOnly(reports, expected, events + [event]) <==>
            NamesOnly(reports, expected, events) && (Reported(reports, event) ==> reports[Payload(event)] == expected)
  {
    hide Reported, Payload;
    var more := events + [event];
    assert more[|events|] == event;
    assert forall i :: 0 <= i < |events| ==> more[i] == events[i];
  }

  /** Looking at the last event once more changes no verdict. */
  lemma OnceMore(reports: Reports, expected: Bytes, events: seq<seq<Bytes>>)
    requires events != []
    ensures var again := events + [events[|events| - 1]];
            && (Completes(reports, again) <==> Completes(reports, events))
            && (NamesOnly(reports, expected, again) <==> NamesOnly(reports, expected, events))
  {
    hide Reported, Payload;
    OneMore(reports, expected, events, events[|events| - 1]);
  }

  lemma {:induction false} PayloadGrows(event: seq<Bytes>, line: Bytes)
    ensures Payload(event + [line]) == Payload(event) + DataOf(line)
    ensures Bounded(event + [line]) <==> Bounded(event) && !Long(line) && |Payload(event) + DataOf(line)| <= LIMIT
    ensures Bounded([]) && Payload([]) == []
  {
    hide DataOf, Long;
    var more := event + [line];
    assert more[..|event|] == event && more[|event|] == line;
    if Bounded(more) {
      forall l | l in event ensures !Long(l) {
        assert l in more;
      }
      assert line in more;
    }
  }

  lemma LinesGrow(lines: seq<Bytes>, line: Bytes)
    ensures Blank(line) ==> Closed(lines + [line]) == Closed(lines) + [Open(lines)] && Open(lines + [line]) == []
    ensures !Blank(line) ==> Closed(lines + [line]) == Closed(lines) && Open(lines + [line]) == Open(lines) + [line]
  {
    hide Blank;
    var more := lines + [line];
    assert more[..|lines|] == lines && more[|lines|] == line;
  }

  lemma StreamGrows(s: Bytes, c: char)
    ensures c == NEWLINE ==> Ended(s + [c]) == Ended(s) + [Tail(s)] && Tail(s + [c]) == []
    ensures c != NEWLINE ==> Ended(s + [c]) == Ended(s) && Tail(s + [c]) == Tail(s) + [c]
  {
    assert (s + [c])[..|s|] == s;
  }

  // ---- the observer ---------------------------------------------------------------------

  class Completion {
    const expected: Bytes
    const reports: Reports
    var line: Bytes
    var event: Bytes
    var overflow: bool
    var eventOverflow: bool
    var complete: bool
    var matches: bool

    constructor (expected: Bytes, reports: Reports)
      ensures this.expected == expected && this.reports == reports && Watching([])
    {
      this.expected, this.reports := expected, reports;
      line, event, overflow, eventOverflow, complete, matches := [], [], false, false, false, false;
    }

    ghost predicate Judged(events: seq<seq<Bytes>>)
      reads `complete, `matches
    {
      && complete == Completes(reports, events)
      && matches == (complete && NamesOnly(reports, expected, events))
    }

    ghost predicate Gathered(lines: seq<Bytes>)
      reads `event, `eventOverflow
    {
      && |event| <= LIMIT
      && eventOverflow == !Bounded(lines)
      && (!eventOverflow ==> event == Payload(lines))
    }

    ghost predicate Holds(text: Bytes)
      reads `line, `overflow
    {
      && overflow == Long(text)
      && line == if overflow then [] else text
    }

    /** The observer after the bytes of `s`, before the end of the stream. */
    ghost predicate Watching(s: Bytes)
      reads this
    {
      Holds(Tail(s)) && Gathered(Open(Ended(s))) && Judged(Closed(Ended(s)))
    }

    /** The observer after `finish`. */
    ghost predicate Finished(s: Bytes)
      reads this
    {
      Holds([]) && Gathered(Open(AllLines(s))) && Judged(Events(s))
    }

    /** `inspect`. */
    method Inspect(ghost events: seq<seq<Bytes>>, ghost last: seq<Bytes>)
      requires Judged(events) && Gathered(last)
      modifies `complete, `matches
      ensures Judged(events + [last])
    {
      OneMore(reports, expected, events, last);
      hide Completes, NamesOnly, Bounded, Payload;
      if eventOverflow || event !in reports {
        return;
      }
      var same := reports[event] == expected;
      matches := if complete then matches && same else same;
      complete := true;
      NoneNamed(reports, expected, events);
    }

    /** `consumeLine`. */
    method ConsumeLine(ghost lines: seq<Bytes>, ghost text: Bytes)
      requires Holds(text) && Gathered(Open(lines)) && Judged(Closed(lines))
      modifies this
      ensures Holds([]) && Gathered(Open(lines + [text])) && Judged(Closed(lines + [text]))
    {
      LinesGrow(lines, text);
      PayloadGrows(Open(lines), text);
      hide Open, Closed, Completes, NamesOnly, Judged, TrimSpace, Bounded, Payload;
      var cut := Cut(line);
      if overflow {
        eventOverflow := true;
      } else if |cut| == 0 {
        Inspect(Closed(lines), Open(lines));
        event, eventOverflow := [], false;
      } else if DATA <= cut && !eventOverflow {
        var data := TrimSpace(cut[5..]);
        if |event| + |data| + 1 > LIMIT {
          event, eventOverflow := [], true;
        } else {
          event := event + data;
          event := event + [NEWLINE];
          assert Payload(Open(lines)) + data + [NEWLINE] == Payload(Open(lines)) + (data + [NEWLINE]);
        }
      }
      line, overflow := [], false;
    }

    /** `feed`: whatever pieces the stream comes in, the observer follows the whole of it. */
    method Feed(p: Bytes, ghost s: Bytes)
      requires Watching(s)
      modifies this
      ensures Watching(s + p)
    {
      hide Ended, Tail, Open, Closed, Judged, Gathered;
      assert s + p[..0] == s;
      for i := 0 to |p|
        invariant Watching(s + p[..i])
      {
        ghost var seen := s + p[..i];
        var c := p[i];
        StreamGrows(seen, c);
        assert s + p[..i + 1] == seen + [c];
        if c == NEWLINE {
          ConsumeLine(Ended(seen), Tail(seen));
        } else if !overflow {
          if |line| >= LIMIT {
            line, overflow := [], true;
          } else {
            line := line + [c];
          }
        }
      }
      assert s + p[..|p|] == s + p;
    }

    /** `finish`, which a reader may reach more than once. */
    method Finish(ghost s: Bytes)
      requires Watching(s) || Finished(s)
      modifies this
      ensures Finished(s)
    {
      hide Ended, Open, Closed, Completes, NamesOnly, Bounded, Payload, Long;
      ghost var again := Finished(s);
      if |line| > 0 || overflow {
        LongIsText([]);
        ConsumeLine(Ended(s), Tail(s));
      }
      LongIsText(Tail(s));
      ghost var events := if again then Events(s) else Closed(AllLines(s));
      Inspect(events, Open(AllLines(s)));
      if again {
        OnceMore(reports, expected, Events(s));
      }
    }
  }

  lemma LongIsText(text: Bytes)
    ensures Long(text) ==> text != []
    ensures !Long([])
  {
  }

  lemma NoneNamed(reports: Reports, expected: Bytes, events: seq<seq<Bytes>>)
    ensures !Completes(reports, events) ==> NamesOnly(reports, expected, events)
  {
    hide Reported, Payload;
  }

  // ---- the two readers --------------------------------------------------------------------

  datatype Call = Reject | Confirm

  /** `stateObservedBody`: the body handed to the client, watched as it is read. */
  class ObservedBody {
    const observer: Completion
    var rejected: bool
    var confirmed: bool
    var calls: seq<Call>

    constructor (expected: Bytes, reports: Reports)
      ensures observer.expected == expected && observer.reports == reports
      ensures observer.Watching([]) && Called() && !rejected && !confirmed && fresh(observer)
    {
      observer := new Completion(expected, reports);
      rejected, confirmed, calls := false, false, [];
      new;
      NothingSeen(reports);
    }

    /** The controller has heard what the observer knows, each word at most once and no
        confirmation after a rejection. */
    ghost predicate Called()
      reads `rejected, `confirmed, `calls, observer`complete, observer`matches
    {
      && calls == (if confirmed then [Confirm] else []) + (if rejected then [Reject] else [])
      && rejected == (observer.complete && !observer.matches)
      && (observer.matches ==> confirmed)
    }

    method Tell()
      requires calls == (if confirmed then [Confirm] else []) + (if rejected then [Reject] else [])
      requires rejected ==> observer.complete && !observer.matches
      requires observer.matches ==> observer.complete
      modifies this
      ensures Called() && (old(rejected) ==> rejected) && (old(confirmed) ==> confirmed)
      ensures confirmed <==> old(confirmed) || observer.matches
    {
      if observer.complete && !observer.matches && !rejected {
        rejected := true;
        calls := calls + [Reject];
      }
      if observer.complete && observer.matches && !confirmed {
        confirmed := true;
        calls := calls + [Confirm];
      }
    }

    /** `Read`, with the bytes that came and whether the stream ended with them. */
    method Read(p: Bytes, eof: bool, ghost s: Bytes)
      requires Called() && observer.Watching(s)
      modifies this, observer
      ensures Called() && (old(rejected) ==> rejected)
      ensures confirmed <==> old(confirmed) || Matched(observer.reports, observer.expected, if eof then Events(s + p) else Closed(Ended(s + p)))
      ensures if eof then observer.Finished(s + p) else observer.Watching(s + p)
    {
      observer.Feed(p, s);
      MismatchStays(observer.reports, observer.expected, s, p);
      if eof {
        observer.Finish(s + p);
        MismatchStaysAtEnd(observer.reports, observer.expected, s + p);
      }
      Tell();
    }

    /** A read after the end of the stream brings nothing and changes nothing. */
    method ReadAgain(ghost s: Bytes)
      requires Called() && observer.Finished(s)
      modifies this, observer
      ensures Called() && observer.Finished(s) && calls == old(calls)
    {
      observer.Finish(s);
      Tell();
    }
  }

  lemma NothingSeen(reports: Reports)
    ensures !Completes(reports, [])
  {
  }

  /** What the observer would confirm: completed, and by the expected model alone. */
  predicate Matched(reports: Reports, expected: Bytes, events: seq<seq<Bytes>>) {
    Completes(reports, events) && NamesOnly(reports, expected, events)
  }

  /** Some event reports a response completed by the expected model. */
  predicate Named(reports: Reports, expected: Bytes, events: seq<seq<Bytes>>) {
    exists i :: 0 <= i < |events| && Reported(reports, events[i]) && reports[Payload(events[i])] == expected
  }

  lemma NamedByOneMore(reports: Reports, expected: Bytes, events: seq<seq<Bytes>>, event: seq<Bytes>)
    ensures Named(reports, expected, events) ==> Named(reports, expected, events + [event])
  {
    hide Reported, Payload;
    assert forall i :: 0 <= i < |events| ==> (events + [event])[i] == events[i];
  }

  lemma MatchedIsNamed(reports: Reports, expected: Bytes, events: seq<seq<Bytes>>)
    ensures Matched(reports, expected, events) ==> Named(reports, expected, events)
  {
    hide Bounded, Payload;
  }

  lemma {:induction false} NamedStays(reports: Reports, expected: Bytes, s: Bytes, p: Bytes)
    ensures Named(reports, expected, Closed(Ended(s))) ==> Named(reports, expected, Closed(Ended(s + p)))
    decreases |p|
  {
    hide Named, Ended, Tail, Open, Closed;
    if p == [] {
      assert s + p == s;
    } else {
      StreamGrows(s, p[0]);
      LinesGrow(Ended(s), Tail(s));
      NamedByOneMore(reports, expected, Closed(Ended(s)), Open(Ended(s)));
      NamedStays(reports, expected, s + [p[0]], p[1..]);
      assert s + [p[0]] + p[1..] == s + p;
    }
  }

  lemma NamedAtEnd(reports: Reports, expected: Bytes, s: Bytes)
    ensures Named(reports, expected, Closed(Ended(s))) ==> Named(reports, expected, Events(s))
  {
    hide Named, Ended, Tail, Open, Closed;
    LinesGrow(Ended(s), Tail(s));
    NamedByOneMore(reports, expected, Closed(Ended(s)), Open(Ended(s)));
    NamedByOneMore(reports, expected, Closed(AllLines(s)), Open(AllLines(s)));
  }

  /** After j pieces the observer would confirm. */
  predicate MatchedAfter(reports: Reports, expected: Bytes, pieces: seq<Bytes>, j: nat)
    requires j <= |pieces|
  {
    Matched(reports, expected, Closed(Ended(Joined(pieces[..j]))))
  }

  /** At the end of one of the first n reads it would. */
  ghost predicate MatchedWithin(reports: Reports, expected: Bytes, pieces: seq<Bytes>, n: nat)
    requires n <= |pieces|
  {
    exists j :: 0 <= j <= n && MatchedAfter(reports, expected, pieces, j)
  }

  lemma OneMoreRead(reports: Reports, expected: Bytes, pieces: seq<Bytes>, n: nat)
    requires n < |pieces|
    ensures MatchedWithin(reports, expected, pieces, n + 1) <==>
      MatchedWithin(reports, expected, pieces, n) || Matched(reports, expected, Closed(Ended(Joined(pieces[..n]) + pieces[n])))
  {
    JoinedStep(pieces, n);
    assert MatchedAfter(reports, expected, pieces, n + 1) <==> Matched(reports, expected, Closed(Ended(Joined(pieces[..n]) + pieces[n])));
    hide MatchedAfter;
  }

  lemma ConfirmedIsNamed(reports: Reports, expected: Bytes, pieces: seq<Bytes>, last: Bytes)
    ensures MatchedWithin(reports, expected, pieces, |pieces|) ==> Named(reports, expected, Events(Joined(pieces) + last))
  {
    hide Matched, Named, Ended, Closed, Events;
    if MatchedWithin(reports, expected, pieces, |pieces|) {
      var j :| 0 <= j <= |pieces| && MatchedAfter(reports, expected, pieces, j);
      MatchedIsNamed(reports, expected, Closed(Ended(Joined(pieces[..j]))));
      var rest := JoinedPrefix(pieces, j);
      NamedStays(reports, expected, Joined(pieces[..j]), rest + last);
      assert Joined(pieces[..j]) + (rest + last) == Joined(pieces) + last;
      NamedAtEnd(reports, expected, Joined(pieces) + last);
    }
  }

  lemma {:induction false} JoinedPrefix(pieces: seq<Bytes>, j: nat) returns (rest: Bytes)
    requires j <= |pieces|
    ensures Joined(pieces) == Joined(pieces[..j]) + rest
    decreases |pieces|
  {
    if j == |pieces| {
      assert pieces[..j] == pieces;
      rest := [];
    } else {
      var init := pieces[..|pieces| - 1];
      rest := JoinedPrefix(init, j);
      assert init[..j] == pieces[..j];
      assert Joined(init) + pieces[|init|] == Joined(pieces[..j]) + (rest + pieces[|init|]);
      rest := rest + pieces[|init|];
    }
  }

  predicate Mismatched(reports: Reports, expected: Bytes, events: seq<seq<Bytes>>) {
    Completes(reports, events) && !NamesOnly(reports, expected, events)
  }

  lemma {:induction false} MismatchStays(reports: Reports, expected: Bytes, s: Bytes, p: Bytes)
    ensures Mismatched(reports, expected, Closed(Ended(s))) ==> Mismatched(reports, expected, Closed(Ended(s + p)))
    decreases |p|
  {
    hide Completes, NamesOnly, Ended, Tail, Open, Closed;
    if p == [] {
      assert s + p == s;
    } else {
      MismatchStaysByOne(reports, expected, s, p[0]);
      MismatchStays(reports, expected, s + [p[0]], p[1..]);
      assert s + [p[0]] + p[1..] == s + p;
    }
  }

  lemma MismatchStaysByOne(reports: Reports, expected: Bytes, s: Bytes, c: char)
    ensures Mismatched(reports, expected, Closed(Ended(s))) ==> Mismatched(reports, expected, Closed(Ended(s + [c])))
  {
    hide Completes, NamesOnly, Ended, Tail, Open, Closed;
    StreamGrows(s, c);
    LinesGrow(Ended(s), Tail(s));
    OneMore(reports, expected, Closed(Ended(s)), Open(Ended(s)));
  }

  lemma MismatchStaysAtEnd(reports: Reports, expected: Bytes, s: Bytes)
    ensures Mismatched(reports, expected, Closed(Ended(s))) ==> Mismatched(reports, expected, Events(s))
  {
    hide Completes, NamesOnly, Ended, Tail, Open, Closed;
    LinesGrow(Ended(s), Tail(s));
    OneMore(reports, expected, Closed(Ended(s)), Open(Ended(s)));
    OneMore(reports, expected, Closed(AllLines(s)), Open(AllLines(s)));
  }

  function Joined(pieces: seq<Bytes>): Bytes {
    if pieces == [] then [] else Joined(pieces[..|pieces| - 1]) + pieces[|pieces| - 1]
  }

  /** A response read to its end through the observed body: the ticket is rejected exactly
      when a completed event names another model, and confirmed exactly when, at the end of
      some read, the events so far report a response completed by the expected model alone;
      so it is never confirmed unless some event of the response names that model. */
  method ReadResponse(expected: Bytes, reports: Reports, pieces: seq<Bytes>, last: Bytes) returns (calls: seq<Call>)
    ensures Reject in calls <==> Mismatched(reports, expected, Events(Joined(pieces) + last))
    ensures Completes(reports, Events(Joined(pieces) + last)) && !(Reject in calls) ==> calls == [Confirm]
    ensures Confirm in calls <==>
      Matched(reports, expected, Events(Joined(pieces) + last)) || MatchedWithin(reports, expected, pieces, |pieces|)
    ensures Confirm in calls ==> Named(reports, expected, Events(Joined(pieces) + last))
    ensures calls == [] || calls == [Confirm] || calls == [Reject] || calls == [Confirm, Reject]
  {
    hide Ended, Tail, Open, Closed, Events, AllLines, Completes, NamesOnly, Completion.Holds, Completion.Gathered, Joined, Named, MatchedWithin, Matched;
    NothingMatched(reports, expected, pieces);
    var body := new ObservedBody(expected, reports);
    var i := 0;
    assert pieces[..0] == [] && Joined([]) == [] by { JoinedNothing(); }
    while i < |pieces|
      invariant 0 <= i <= |pieces|
      invariant fresh(body) && fresh(body.observer) && body.Called() && body.observer.Watching(Joined(pieces[..i]))
      invariant body.confirmed <==> MatchedWithin(reports, expected, pieces, i)
    {
      OneMoreRead(reports, expected, pieces, i);
      JoinedStep(pieces, i);
      body.Read(pieces[i], false, Joined(pieces[..i]));
      i := i + 1;
    }
    assert pieces[..i] == pieces;
    body.Read(last, true, Joined(pieces));
    calls := body.calls;
    MatchedIsNamed(reports, expected, Events(Joined(pieces) + last));
    ConfirmedIsNamed(reports, expected, pieces, last);
  }

  lemma NothingMatched(reports: Reports, expected: Bytes, pieces: seq<Bytes>)
    ensures !MatchedWithin(reports, expected, pieces, 0)
  {
    NothingSeen(reports);
    assert pieces[..0] == [] && Ended([]) == [] && Closed([]) == [];
  }

  lemma JoinedNothing()
    ensures Joined([]) == []
  {
  }

  lemma JoinedStep(pieces: seq<Bytes>, i: nat)
    requires i < |pieces|
    ensures Joined(pieces[..i + 1]) == Joined(pieces[..i]) + pieces[i]
  {
    assert pieces[..i + 1][..i] == pieces[..i];
  }

  datatype Probe = Answered | Incomplete | OtherModel

  /** The reading part of `ProbeState`: the pieces read, and whether the stream broke off. */
  method ReadProbe(expected: Bytes, reports: Reports, pieces: seq<Bytes>, broken: bool) returns (r: Probe)
    ensures var events := Events(Joined(pieces));
            r == if |Joined(pieces)| > 4 * 1024 * 1024 || broken || !Completes(reports, events) then Incomplete
                 else if NamesOnly(reports, expected, events) then Answered else OtherModel
  {
    hide Ended, Tail, Open, Closed, Events, AllLines, Completes, NamesOnly, Completion.Holds, Completion.Gathered, Joined;
    var observer := new Completion(expected, reports);
    var total := 0;
    assert pieces[..0] == [] && Joined([]) == [] by { JoinedNothing(); }
    for i := 0 to |pieces|
      invariant fresh(observer) && observer.Watching(Joined(pieces[..i])) && total == |Joined(pieces[..i])| <= PROBE_LIMIT
    {
      JoinedStep(pieces, i);
      total := total + |pieces[i]|;
      if total > PROBE_LIMIT {
        JoinedGrows(pieces, i + 1);
        return Incomplete;
      }
      observer.Feed(pieces[i], Joined(pieces[..i]));
    }
    assert pieces[..|pieces|] == pieces;
    if broken {
      return Incomplete;
    }
    observer.Finish(Joined(pieces));
    return if !observer.complete then Incomplete else if !observer.matches then OtherModel else Answered;
  }

  lemma {:induction false} JoinedGrows(pieces: seq<Bytes>, i: nat)
    requires i <= |pieces|
    ensures |Joined(pieces[..i])| <= |Joined(pieces)|
    decreases |pieces|
  {
    if i == |pieces| {
      assert pieces[..i] == pieces;
    } else {
      assert pieces[..|pieces| - 1][..i] == pieces[..i];
      JoinedGrows(pieces[..|pieces| - 1], i);
    }
  }
}
