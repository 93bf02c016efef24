/** Usage of one or several upstream responses, and how it is billed. */
module ResponseUsage {
  datatype ItemKind = ImageGenerationCall | WebSearchCall | OtherItem(name: string)

  /** An output item as far as it is counted: what it is, and whether it completed. */
  datatype OutputItem = OutputItem(kind: ItemKind, completed: bool)

  datatype Usage = Usage(input: int, output: int, cached: int, cacheWrite: int, imageInput: int, imageOutput: int)

  datatype Terminal = Terminal(usage: Usage, items: seq<OutputItem>)

  /** The counters of ProxyMetrics. */
  datatype Metrics = Metrics(
    input: int, output: int, cached: int, cacheWrite: int, imageInput: int, imageOutput: int, images: int, searches: int)

  const NO_USAGE: Usage := Usage(0, 0, 0, 0, 0, 0)
  const NO_TERMINAL: Terminal := Terminal(NO_USAGE, [])
  const NO_METRICS: Metrics := Metrics(0, 0, 0, 0, 0, 0, 0, 0)

  function Completed(items: seq<OutputItem>, kind: ItemKind): nat {
    if items == [] then 0
    else Completed(items[..|items| - 1], kind) + if items[|items| - 1].kind == kind && items[|items| - 1].completed then 1 else 0
  }

  method CountCompleted(items: seq<OutputItem>, kind: ItemKind) returns (count: int)
    ensures count == Completed(items, kind)
  {
    count := 0;
    for i := 0 to |items|
      invariant count == Completed(items[..i], kind)
    {
      assert items[..i + 1][..i] == items[..i];
      if items[i].kind == kind && items[i].completed {
        count := count + 1;
      }
    }
    assert items[..|items|] == items;
  }

  /** What one terminal is billed as. */
  ghost function Billed(t: Terminal): Metrics {
    Metrics(t.usage.input, t.usage.output, t.usage.cached, t.usage.cacheWrite, t.usage.imageInput, t.usage.imageOutput,
            Completed(t.items, ImageGenerationCall), Completed(t.items, WebSearchCall))
  }

  /** `responsesWebSocketBillingMetrics`, and the counters of `proxyMetrics`. */
  method BillingMetrics(t: Terminal) returns (m: Metrics)
    ensures m == Billed(t)
  {
    var images := CountCompleted(t.items, ImageGenerationCall);
    var searches := CountCompleted(t.items, WebSearchCall);
    m := Metrics(t.usage.input, t.usage.output, t.usage.cached, t.usage.cacheWrite, t.usage.imageInput, t.usage.imageOutput, images, searches);
  }

  /** `mergeResponsesWebSocketTerminal`. */
  function Merge(dst: Terminal, addition: Terminal): Terminal {
    var u, a := dst.usage, addition.usage;
    Terminal(
      Usage(u.input + a.input, u.output + a.output, u.cached + a.cached, u.cacheWrite + a.cacheWrite,
            u.imageInput + a.imageInput, u.imageOutput + a.imageOutput),
      dst.items + addition.items)
  }

  function Plus(a: Metrics, b: Metrics): Metrics {
    Metrics(a.input + b.input, a.output + b.output, a.cached + b.cached, a.cacheWrite + b.cacheWrite,
            a.imageInput + b.imageInput, a.imageOutput + b.imageOutput, a.images + b.images, a.searches + b.searches)
  }

  function TotalOf(segments: seq<Metrics>): Metrics {
    if segments == [] then NO_METRICS else Plus(TotalOf(segments[..|segments| - 1]), segments[|segments| - 1])
  }

  lemma {:induction false} CompletedConcat(a: seq<OutputItem>, b: seq<OutputItem>, kind: ItemKind)
    ensures Completed(a + b, kind) == Completed(a, kind) + Completed(b, kind)
  {
    if b == [] {
      assert a + b == a;
    } else {
      CompletedConcat(a, b[..|b| - 1], kind);
      assert (a + b)[..|a + b| - 1] == a + b[..|b| - 1];
    }
  }

  /** A merged response is billed as the sum of its parts, in every counter. */
  lemma MergeIsBilledAsSum(dst: Terminal, addition: Terminal)
    ensures Billed(Merge(dst, addition)) == Plus(Billed(dst), Billed(addition))
  {
    CompletedConcat(dst.items, addition.items, ImageGenerationCall);
    CompletedConcat(dst.items, addition.items, WebSearchCall);
  }

  lemma TotalWithOneMore(segments: seq<Metrics>, m: Metrics)
    ensures TotalOf(segments + [m]) == Plus(TotalOf(segments), m)
  {
    assert (segments + [m])[..|segments|] == segments;
  }

  lemma BlankAddsNothing(m: Metrics)
    ensures Plus(Billed(NO_TERMINAL), m) == m && Plus(m, Billed(NO_TERMINAL)) == m
  {
  }

  lemma PlusCommutes(a: Metrics, b: Metrics)
    ensures Plus(a, b) == Plus(b, a)
  {
  }
}
