/** Lines of a server-sent event stream, and the two ways in which capacity codes are
    rewritten for the client: line by line, or a buffered stretch at once. */
module SseStream {
  type Bytes = string // one character per byte

  const NEWLINE: char := '\n'

  /** What `sanitizeCapacityShedSSELineForClient` does to a line: the lines it changes, and
      to what. Parsing the JSON inside is not part of this model. */
  type Rewrites = map<Bytes, Bytes>

  function Sanitize(rewrites: Rewrites, line: Bytes): Bytes {
    if line in rewrites && line != [] then rewrites[line] else line
  }

  /** A complete line ends with its only newline; the last line of a stream may lack it. */
  predicate Complete(line: Bytes) {
    |line| > 0 && line[|line| - 1] == NEWLINE && Partial(line[..|line| - 1])
  }

  predicate Partial(line: Bytes) {
    NEWLINE !in line
  }

  predicate IsStream(lines: seq<Bytes>) {
    forall i :: 0 <= i < |lines| ==> if i < |lines| - 1 then Complete(lines[i]) else Complete(lines[i]) || (Partial(lines[i]) && lines[i] != [])
  }

  function Raw(lines: seq<Bytes>): Bytes {
    if lines == [] then [] else Raw(lines[..|lines| - 1]) + lines[|lines| - 1]
  }

  function Clean(rewrites: Rewrites, lines: seq<Bytes>): Bytes {
    if lines == [] then [] else Clean(rewrites, lines[..|lines| - 1]) + Sanitize(rewrites, lines[|lines| - 1])
  }

  /** `bytes.SplitAfter(body, "\\n")`. */
  function SplitAfter(body: Bytes): (lines: seq<Bytes>)
    ensures |lines| > 0
  {
    if NEWLINE !in body then [body] else
      var n := Next(body);
      [body[..n + 1]] + SplitAfter(body[n + 1..])
  }

  function Next(body: Bytes): (n: nat)
    requires NEWLINE in body
    ensures n < |body| && body[n] == NEWLINE && NEWLINE !in body[..n]
  {
    if body[0] == NEWLINE then 0 else
      assert body == [body[0]] + body[1..];
      var n := Next(body[1..]);
      assert body[..n + 1] == [body[0]] + body[1..][..n];
      n + 1
  }

  /** `sanitizeCapacityShedSSEForClient`. */
  method SanitizeAll(rewrites: Rewrites, body: Bytes) returns (out: Bytes)
    ensures out == Clean(rewrites, SplitAfter(body))
  {
    var lines := SplitAfter(body);
    out := [];
    for i := 0 to |lines|
      invariant out == Clean(rewrites, lines[..i])
    {
      assert lines[..i + 1][..i] == lines[..i];
      out := out + Sanitize(rewrites, lines[i]);
    }
    assert lines[..|lines|] == lines;
  }

  lemma {:induction false} CleanFirst(rewrites: Rewrites, first: Bytes, rest: seq<Bytes>)
    ensures Clean(rewrites, [first] + rest) == Sanitize(rewrites, first) + Clean(rewrites, rest)
  {
    if rest == [] {
      assert [first] + rest == [first] && [first][..0] == [];
    } else {
      var init, last := rest[..|rest| - 1], rest[|rest| - 1];
      assert ([first] + rest)[..|rest|] == [first] + init;
      CleanFirst(rewrites, first, init);
      hide Sanitize;
      assert Clean(rewrites, [first] + rest) == Clean(rewrites, [first] + init) + Sanitize(rewrites, last);
      Associates(Sanitize(rewrites, first), Clean(rewrites, init), Sanitize(rewrites, last));
    }
  }

  lemma Associates(a: Bytes, b: Bytes, c: Bytes)
    ensures (a + b) + c == a + (b + c)
  {
  }

  lemma {:induction false} RawFirst(first: Bytes, rest: seq<Bytes>)
    ensures Raw([first] + rest) == first + Raw(rest)
  {
    if rest == [] {
      assert [first] + rest == [first] && [first][..0] == [];
    } else {
      assert ([first] + rest)[..|rest|] == [first] + rest[..|rest| - 1];
      RawFirst(first, rest[..|rest| - 1]);
    }
  }

  /** Rewriting a buffered stretch at once gives what rewriting its lines one by one gives. */
  lemma {:induction false} WholeIsLineWise(rewrites: Rewrites, lines: seq<Bytes>)
    requires IsStream(lines)
    ensures Clean(rewrites, SplitAfter(Raw(lines))) == Clean(rewrites, lines)
    decreases |lines|
  {
    if lines == [] {
      assert SplitAfter([]) == [[]];
      assert Clean(rewrites, [[]]) == Clean(rewrites, [[]][..0]) + [];
    } else {
      var first, rest := lines[0], lines[1..];
      assert lines == [first] + rest;
      RawFirst(first, rest);
      CleanFirst(rewrites, first, rest);
      if Complete(first) {
        SplitOne(first, Raw(rest));
        CleanFirst(rewrites, first, SplitAfter(Raw(rest)));
        WholeIsLineWise(rewrites, rest);
      } else {
        assert rest == [] && Raw(rest) == [];
        assert Raw(lines) == first;
        assert SplitAfter(first) == [first] && lines == [first];
      }
    }
  }

  lemma SplitOne(line: Bytes, rest: Bytes)
    requires Complete(line)
    ensures SplitAfter(line + rest) == [line] + SplitAfter(rest)
  {
    var body := line + rest;
    assert body[|line| - 1] == NEWLINE;
    var n := Next(body);
    forall k | 0 <= k < |line| - 1 ensures body[k] != NEWLINE {
      assert body[k] == line[..|line| - 1][k];
    }
    forall k | 0 <= k < n ensures body[k] != NEWLINE {
      assert body[k] == body[..n][k];
    }
    assert body[..n + 1] == line && body[n + 1..] == rest;
  }
}
