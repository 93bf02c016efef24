/** What makes a copied stream fail over or start, spelled out on the lines themselves: the
    events they carry, the last response and the last error before them. */
module SseDecisions {
  import opened MapSums
  import opened SseStream
  import opened SseCopier

  // ---- the last response and the last error ---------------------------------------------

  ghost predicate LastResponse(lines: seq<Line>, n: nat, i: int) requires n <= |lines| {
    0 <= i < n && lines[i].response.Some? && forall j :: i < j < n ==> lines[j].response.None?
  }

  ghost predicate LastError(lines: seq<Line>, n: nat, i: int) requires n <= |lines| {
    0 <= i < n && lines[i].error.Some? && forall j :: i < j < n ==> lines[j].error.None?
  }

  /** The failure in force after n lines: that of the last response, unless it has none or an error
      event came after it; then that of the last error event. */
  ghost predicate InForce(lines: seq<Line>, n: nat, e: Failure) requires n <= |lines| {
    || (exists i :: LastResponse(lines, n, i) && lines[i].response.value.error == Some(e) && forall j :: i < j < n ==> lines[j].error.None?)
    || (exists k :: LastError(lines, n, k) && lines[k].error == Some(e)
          && forall i :: LastResponse(lines, n, i) && k < i ==> lines[i].response.value.error.None?)
  }

  ghost predicate NoFailure(lines: seq<Line>, n: nat) requires n <= |lines| {
    && (forall k :: 0 <= k < n ==> lines[k].error.None?)
    && (forall i :: LastResponse(lines, n, i) ==> lines[i].response.value.error.None?)
  }

  /** The last response, if any, tells of usage or output. */
  ghost predicate Productive(lines: seq<Line>, n: nat) requires n <= |lines| {
    exists i :: LastResponse(lines, n, i) && (lines[i].response.value.hasUsage || lines[i].response.value.hasOutput)
  }

  ghost predicate FailureIs(lines: seq<Line>, n: nat, error: Option<Failure>) requires n <= |lines| {
    match error
    case None => NoFailure(lines, n)
    case Some(e) => InForce(lines, n, e)
  }

  lemma NothingSaid(lines: seq<Line>)
    ensures FailureIs(lines, 0, None) && !Productive(lines, 0)
  {
  }

  /** No line is both. */
  lemma ErrorOrResponse(lines: seq<Line>, n: nat)
    requires n < |lines| && LinesOk(lines)
    ensures lines[n].error.None? || lines[n].response.None?
  {
    assert lines[n] in lines && lines[n].Ok();
  }

  lemma ProductiveNext(lines: seq<Line>, n: nat)
    requires n < |lines|
    ensures Productive(lines, n + 1) <==>
      if lines[n].response.Some? then lines[n].response.value.hasUsage || lines[n].response.value.hasOutput else Productive(lines, n)
  {
    LastResponseNext(lines, n);
    hide LastResponse;
    if lines[n].response.Some? {
      assert LastResponse(lines, n + 1, n);
    }
  }

  lemma LastResponseNext(lines: seq<Line>, n: nat)
    requires n < |lines|
    ensures forall i: int :: LastResponse(lines, n + 1, i) <==> if lines[n].response.Some? then i == n else LastResponse(lines, n, i)
    ensures forall i: int :: LastResponse(lines, n, i) ==> 0 <= i < n && lines[i].response.Some?
  {
    forall i: int ensures LastResponse(lines, n + 1, i) <==> if lines[n].response.Some? then i == n else LastResponse(lines, n, i) {
      assert LastResponse(lines, n + 1, i) && i != n ==> lines[n].response.None?;
    }
  }
  lemma LastErrorNext(lines: seq<Line>, n: nat)
    requires n < |lines|
    ensures forall i: int :: LastError(lines, n + 1, i) <==> if lines[n].error.Some? then i == n else LastError(lines, n, i)
    ensures forall i: int :: LastError(lines, n, i) ==> 0 <= i < n && lines[i].error.Some?
  {
    forall i: int ensures LastError(lines, n + 1, i) <==> if lines[n].error.Some? then i == n else LastError(lines, n, i) {
      assert LastError(lines, n + 1, i) && i != n ==> lines[n].error.None?;
    }
  }
  ghost predicate LastErrorIs(lines: seq<Line>, n: nat, error: Option<Failure>) requires n <= |lines| {
    if error.Some? then exists k :: LastError(lines, n, k) && lines[k].error == error
    else forall k :: 0 <= k < n ==> lines[k].error.None?
  }

  lemma ErrorsNext(lines: seq<Line>, n: nat, error: Option<Failure>)
    requires n < |lines| && LastErrorIs(lines, n, error)
    ensures LastErrorIs(lines, n + 1, if lines[n].error.Some? then lines[n].error else error)
  {
    LastErrorNext(lines, n);
    if lines[n].error.Some? {
      assert LastError(lines, n + 1, n);
    } else if error.Some? {
      var k :| LastError(lines, n, k) && lines[k].error == error;
      assert LastError(lines, n + 1, k);
    }
  }

  lemma FailureNext(lines: seq<Line>, n: nat, before: Option<Failure>, told: Option<Failure>)
    requires n < |lines| && LinesOk(lines) && FailureIs(lines, n, before) && LastErrorIs(lines, n, told)
    ensures FailureIs(lines, n + 1,
      if lines[n].error.Some? then lines[n].error
      else if lines[n].response.None? then before
      else if lines[n].response.value.error.Some? then lines[n].response.value.error
      else told)
  {
    ErrorOrResponse(lines, n);
    LastResponseNext(lines, n);
    LastErrorNext(lines, n);
    var line := lines[n];
    if line.error.Some? {
      assert LastError(lines, n + 1, n);
    } else if line.response.None? {
      FailureStays(lines, n, before);
    } else if line.response.value.error.Some? {
      assert LastResponse(lines, n + 1, n);
    } else if told.Some? {
      var k :| LastError(lines, n, k) && lines[k].error == told;
      assert LastError(lines, n + 1, k);
    }
  }

  lemma FailureStays(lines: seq<Line>, n: nat, before: Option<Failure>)
    requires n < |lines| && lines[n].error.None? && lines[n].response.None? && FailureIs(lines, n, before)
    ensures FailureIs(lines, n + 1, before)
  {
    LastResponseNext(lines, n);
    LastErrorNext(lines, n);
    hide LastResponse, LastError;
    if before.Some? {
      if i :| LastResponse(lines, n, i) && lines[i].response.value.error == before && forall j :: i < j < n ==> lines[j].error.None? {
        assert LastResponse(lines, n + 1, i);
      } else {
        var k :| LastError(lines, n, k) && lines[k].error == before && forall i :: LastResponse(lines, n, i) && k < i ==> lines[i].response.value.error.None?;
        assert LastError(lines, n + 1, k);
      }
    }
  }

  lemma HeardIs(w: Words, line: Line)
    requires line.error.None? || line.response.None?
    ensures var v := Heard(w, line);
            && v.topLevelError == (if line.error.Some? then line.error else w.topLevelError)
            && v.terminal.error == (if line.error.Some? then line.error
                                    else if line.response.None? then w.terminal.error
                                    else if line.response.value.error.Some? then line.response.value.error
                                    else w.topLevelError)
            && (v.terminal.hasUsage || v.terminal.hasOutput
                <==> if line.response.Some? then line.response.value.hasUsage || line.response.value.hasOutput
                     else w.terminal.hasUsage || w.terminal.hasOutput)
  {
  }

  /** What the copier knows of the response is what the last lines say. */
  lemma {:induction false} WordsAreLast(lines: seq<Line>, n: nat)
    requires n <= |lines| && LinesOk(lines)
    ensures var w := WordsAt(lines, n);
            && FailureIs(lines, n, w.terminal.error) && LastErrorIs(lines, n, w.topLevelError)
            && (w.terminal.hasUsage || w.terminal.hasOutput <==> Productive(lines, n))
  {
    if n == 0 {
      NothingSaid(lines);
    } else {
      ErrorOrResponse(lines, n - 1);
      hide FailureIs, LastErrorIs, Productive, LinesOk, Heard;
      HeardIs(WordsAt(lines, n - 1), lines[n - 1]);
      WordsAreLast(lines, n - 1);
      var w := WordsAt(lines, n - 1);
      FailureNext(lines, n - 1, w.terminal.error, w.topLevelError);
      ErrorsNext(lines, n - 1, w.topLevelError);
      ProductiveNext(lines, n - 1);
    }
  }

  // ---- one line ---------------------------------------------------------------------------------

  predicate Succeeds(line: Line) {
    line.event == Some(Completed) || line.event == Some(Done)
  }

  /** Lines that the client waits for: all events but created, in progress, failed, rate limits,
      and errors that can be retried or that tell nothing. */
  predicate Wanted(line: Line) {
    || Succeeds(line) || line.event == Some(Incomplete) || line.event == Some(Cancelled) || line.event == Some(Canceled)
    || line.event == Some(Other)
    || (line.event == Some(Error) && line.error.Some? && !line.error.value.retryable)
  }

  /** What line n does to a copy that held everything back before it. It starts the output if it
      does not fit below the limit. A success without usage, output or failure fails over with
      502; a failed response fails over with its own status unless it must not be retried; and a
      wanted line starts the output. */
  ghost predicate Does(lines: seq<Line>, n: nat, limit: int, fate: Fate) requires n < |lines| {
    var line := lines[n];
    if |RawTo(lines, n)| + |line.text| >= limit then fate == Flowing
    else if Succeeds(line) then
      fate == if !Productive(lines, n + 1) && NoFailure(lines, n + 1) then Moved(502, false) else Flowing
    else if line.event == Some(Failed) then
      if NoFailure(lines, n + 1) then fate == Moved(502, false)
      else exists e :: InForce(lines, n + 1, e) && fate == if e.retryable then Moved(e.status, e.capacity) else Flowing
    else fate == if Wanted(line) then Flowing else Holding
  }

  lemma SomeFailure(lines: seq<Line>, n: nat, e: Failure)
    requires n <= |lines| && InForce(lines, n, e)
    ensures !NoFailure(lines, n)
  {
  }

  lemma FailureKnown(lines: seq<Line>, n: nat, error: Option<Failure>)
    requires n <= |lines| && FailureIs(lines, n, error)
    ensures NoFailure(lines, n) <==> error.None?
    ensures error.Some? ==> InForce(lines, n, error.value)
  {
    if error.Some? {
      SomeFailure(lines, n, error.value);
    }
    hide NoFailure, InForce;
  }

  lemma KindsAgree(line: Line)
    ensures line.event != Some(Failed) ==> (line.StartsOutput() <==> Wanted(line))
  {
  }

  /** The first line that does anything decides; all before it are held back. */
  lemma DecisionIsExact(lines: seq<Line>, n: nat, limit: int)
    requires n < |lines| && LinesOk(lines)
    ensures if FateAt(lines, n, limit).Holding? then Does(lines, n, limit, FateAt(lines, n + 1, limit))
            else FateAt(lines, n + 1, limit) == FateAt(lines, n, limit)
  {
    hide FateAt, WordsAt, RawTo, NoFailure, InForce, FailureIs, LastErrorIs, Productive, LinesOk, Heard, Wanted, Line.StartsOutput;
    WordsAreLast(lines, n + 1);
    FateGrows(lines, n, limit);
    FailureKnown(lines, n + 1, WordsAt(lines, n + 1).terminal.error);
    KindsAgree(lines[n]);
    SuccessIsWanted(lines[n]);
  }

  lemma SuccessIsWanted(line: Line)
    ensures Succeeds(line) ==> Wanted(line)
  {
  }

  // ---- the end ------------------------------------------------------------------------------------

  /** No line carries a terminal event. */
  predicate Untold(lines: seq<Line>) {
    forall i :: 0 <= i < |lines| ==>
      && !Succeeds(lines[i]) && lines[i].event != Some(Failed)
      && lines[i].event != Some(Incomplete) && lines[i].event != Some(Cancelled) && lines[i].event != Some(Canceled)
  }

  lemma SaidAtEnd(lines: seq<Line>)
    ensures WordsAt(lines, |lines|).terminalSeen <==> !Untold(lines)
    ensures WordsAt(lines, |lines|).topLevelError.Some? <==> exists i :: 0 <= i < |lines| && lines[i].error.Some?
  {
    WordsSay(lines, |lines|);
    hide WordsAt;
  }

  /** Of a successful response that ended without a terminal event: an error event stands for one,
      and without one the stream is incomplete. Every other response is copied if it ended
      cleanly, and broken off otherwise. */
  lemma EndIsExact(lines: seq<Line>, end: End, success: bool)
    ensures Ending(WordsAt(lines, |lines|), end, success) ==
            if success && Untold(lines) then
              if forall i :: 0 <= i < |lines| ==> lines[i].error.None? then IncompleteStream else Copied
            else if end.CleanEnd? then Copied else ReadFailed
  {
    SaidAtEnd(lines);
    hide WordsAt, Untold;
  }

  /** An error event that stands for the end fails over if it can be retried and nothing was
      passed on. */
  lemma LastResort(lines: seq<Line>, success: bool, limit: int)
    requires LinesOk(lines)
    ensures var before, fate := FateAt(lines, |lines|, limit), FateAtEnd(lines, success, limit);
            if before.Holding? && success && Untold(lines) && exists i :: 0 <= i < |lines| && lines[i].error.Some?
            then exists e :: InForce(lines, |lines|, e) && fate == if e.retryable then Moved(e.status, e.capacity) else Holding
            else fate == before
  {
    var n := |lines|;
    SaidAtEnd(lines);
    WordsAreLast(lines, n);
    FailureKnown(lines, n, WordsAt(lines, n).terminal.error);
    ErrorIsFailure(lines, n);
    hide FateAt, WordsAt, NoFailure, InForce, FailureIs, LastErrorIs, Productive, LinesOk, Untold;
  }

  /** Where an error event was seen, some failure is in force. */
  lemma ErrorIsFailure(lines: seq<Line>, n: nat)
    requires n <= |lines|
    ensures (exists i :: 0 <= i < n && lines[i].error.Some?) ==> !NoFailure(lines, n)
  {
  }
}
