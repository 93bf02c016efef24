/** The price page's example cost beside the bill for the same usage. */
module PriceExample {
  import opened Doubles
  import opened MapSums
  import opened TokenRounding
  import opened VersionedCost

  /** Division of JavaScript's BigInt: toward zero. */
  function TowardZero(a: int, b: int): int
    requires b > 0
  {
    if a >= 0 then a / b else -((-a) / b)
  }

  function ExampleRound(tokens: int, price: int, factor: int): int {
    TowardZero(tokens * price * factor + UNIT / 2, UNIT)
  }

  /** `exampleCost`. */
  function ExampleCost(p: ModelPrice, input: int, cached: int, output: int): int {
    var long := p.longTokens > 0 && input > p.longTokens;
    var factor, ofactor := if long then p.longInput else BPS, if long then p.longOutput else BPS;
    ExampleRound(input - cached, p.standard.input, factor) + ExampleRound(cached, p.standard.cacheRead, factor) + ExampleRound(output, p.standard.output, ofactor)
  }

  function TextUsage(input: int, cached: int, output: int): Segment {
    Segment(input, output, cached, 0, 0, 0, 0, 0, OneK)
  }

  /** The three components that plain text is billed for. */
  function TextItems(p: ModelPrice, input: int, cached: int, output: int): (x: seq<Item>)
    ensures |x| == 3
  {
    var s := TextUsage(input, cached, output);
    [ Item(Max(0, input - cached), p.standard.input, InputFactor(p, s)),
      Item(cached, p.standard.cacheRead, InputFactor(p, s)),
      Item(output, p.standard.output, OutputFactor(p, s)) ]
  }

  /** What the bill is short of the exact price rounded half up. */
  function Short(x: Item): int {
    HalfUp(x.Product()) - x.Amount()
  }

  /** What the example takes off for cached tokens beyond the input; the bill clips them. */
  function Clipped(p: ModelPrice, input: int, cached: int, output: int): int {
    if cached > input then ExampleRound(input - cached, p.standard.input, InputFactor(p, TextUsage(input, cached, output))) else 0
  }

  lemma RoundsAgree(tokens: int, price: int, factor: int)
    requires 0 <= price && 0 <= factor
    ensures tokens >= 0 ==> ExampleRound(tokens, price, factor) == HalfUp(tokens * price * factor)
    ensures tokens < 0 ==> ExampleRound(tokens, price, factor) <= 0
    ensures tokens < 0 ==> (ExampleRound(tokens, price, factor) == 0 <==> -(tokens * price * factor) < 15_000_000_000)
  {
    var x := tokens * price * factor;
    if tokens >= 0 {
      assert 0 <= tokens * price;
      assert 0 <= x;
    } else {
      assert tokens * price <= 0;
      assert x <= 0;
    }
  }

  // ---- what the bill makes of plain text --------------------------------------------------------

  lemma ZeroTokens(price: int, factor: int)
    ensures TokenAmount(0, price, factor) == 0
  {
    hide Mul, Div, Double, RoundHalfAway;
    ZeroStays(Double(price as real));
    ZeroStays(Double(factor as real));
    ZeroStays(1000000.0);
  }

  lemma ZeroStays(x: real)
    ensures Double(0.0) == 0.0 && Double(0 as real) == 0.0 && Mul(0.0, x) == 0.0 && RoundHalfAway(0.0) == 0
    ensures Div(0.0, 10000.0) == 0.0 && Div(0.0, 1000000000000.0) == 0.0
  {
    assert 0.0 * x == 0.0;
  }

  lemma NothingIsFree(unit: int)
    ensures Micros(0, unit) == 0
  {
    hide Mul, Double, RoundHalfAway;
    ZeroStays(Double(unit as real));
  }

  lemma StandardFactor(f: int)
    ensures f * BPS / BPS == f
  {
  }

  lemma TextAmounts(config: Config, candidates: seq<string>, p: ModelPrice, input: int, cached: int, output: int)
    requires ConfigModel(config, candidates) == Some(p) && InRange(TextUsage(input, cached, output))
    ensures var x := TextItems(p, input, cached, output);
            SegmentAmounts(config, candidates, Standard, TextUsage(input, cached, output))
            == Some(Amounts(x[0].Amount(), x[2].Amount(), x[1].Amount(), 0, 0, 0, 0))
  {
    var s := TextUsage(input, cached, output);
    var i, o := InputFactor(p, s), OutputFactor(p, s);
    hide InputFactor, OutputFactor, Micros, TokenAmount;
    NothingIsFree(config.webSearch);
    StandardFactor(i);
    StandardFactor(o);
    ZeroTokens(p.standard.input, i);
    ZeroTokens(p.standard.cacheRead, i);
    ZeroTokens(p.standard.output, o);
    ZeroTokens(p.standard.cacheWrite, i);
    ZeroTokens(OrElse(p.standard.imageInput, p.standard.input), BPS);
    ZeroTokens(OrElse(p.standard.imageOutput, p.standard.output), BPS);
    hide OrElse, ConfigModel;
  }

  lemma TextTotal(config: Config, candidates: seq<string>, p: ModelPrice, input: int, cached: int, output: int)
    requires ConfigModel(config, candidates) == Some(p)
    requires var s := TextUsage(input, cached, output);
             SegmentCost(config, candidates, Standard, s).Priced? && Sound(config, candidates, Standard, s)
    ensures InRange(TextUsage(input, cached, output))
    ensures var x := TextItems(p, input, cached, output);
            SegmentCost(config, candidates, Standard, TextUsage(input, cached, output)).cost.total == x[0].Amount() + x[1].Amount() + x[2].Amount()
  {
    var s := TextUsage(input, cached, output);
    InRangeIfPriced(config, candidates, Standard, s);
    PricedAddsUp(config, candidates, Standard, s);
    TextAmounts(config, candidates, p, input, cached, output);
    hide SegmentCost, Sound, SegmentAmounts, TextItems, Item.Amount, ConfigModel, InRange;
  }

  lemma InRangeIfPriced(config: Config, candidates: seq<string>, tier: ServiceTier, s: Segment)
    requires SegmentCost(config, candidates, tier, s).Priced?
    ensures InRange(s) && SegmentAmounts(config, candidates, tier, s).Some?
  {
    hide SegmentAmounts, InRange;
  }

  lemma ExampleIsRounded(p: ModelPrice, input: int, cached: int, output: int)
    requires ValidPrice(p) && 0 <= cached && 0 <= output
    ensures var x := TextItems(p, input, cached, output);
            ExampleCost(p, input, cached, output)
            == HalfUp(x[0].Product()) + HalfUp(x[1].Product()) + HalfUp(x[2].Product()) + Clipped(p, input, cached, output)
  {
    var s := TextUsage(input, cached, output);
    RoundsAgree(input - cached, p.standard.input, InputFactor(p, s));
    RoundsAgree(cached, p.standard.cacheRead, InputFactor(p, s));
    RoundsAgree(output, p.standard.output, OutputFactor(p, s));
    ZeroProduct(p.standard.input, InputFactor(p, s));
    hide ExampleRound, HalfUp;
  }

  lemma ZeroProduct(price: int, factor: int)
    ensures HalfUp(0 * price * factor) == 0
  {
    assert 0 * price * factor == 0;
  }

  lemma ClippedIs(p: ModelPrice, input: int, cached: int, output: int)
    requires ValidPrice(p)
    ensures Clipped(p, input, cached, output) <= 0
    ensures Clipped(p, input, cached, output) == 0
            <==> (cached - input) * p.standard.input * InputFactor(p, TextUsage(input, cached, output)) < 15_000_000_000
  {
    var i := InputFactor(p, TextUsage(input, cached, output));
    RoundsAgree(input - cached, p.standard.input, i);
    NegateProduct(input - cached, p.standard.input, i);
    hide ExampleRound;
  }

  lemma NegateProduct(x: int, y: int, z: int)
    ensures -x * y * z == -(x * y * z)
    ensures x >= 0 && y >= 0 && z >= 0 ==> -(x * y * z) <= 0
  {
    assert -x * y == -(x * y);
    if x >= 0 && y >= 0 && z >= 0 {
      assert x * y >= 0;
    }
  }

  // ---- where they agree ---------------------------------------------------------------------------

  /** A half micro that the chain of roundings ends below. */
  predicate Lost(x: Item) {
    x.Product() % UNIT == UNIT / 2 && Chain(x.tokens, x.price, x.factor) < Exact(x.Product())
  }

  lemma ShortIs(x: Item)
    requires x.Valid()
    ensures Clear(x.Product()) ==> Short(x) == 0
    ensures Moderate(x.Product()) ==> -1 <= Short(x) <= 1
    ensures x.Product() < PRECISION ==> Short(x) == if Lost(x) then 1 else 0
  {
    AmountOfTokens(x.tokens, x.price, x.factor);
    if x.Product() < PRECISION {
      SmallIsClear(x.Product());
    }
    hide Chain, Clear, HalfUp, TokenAmount, Exact;
  }

  lemma TextItemsAreValid(p: ModelPrice, input: int, cached: int, output: int)
    requires ValidPrice(p) && InRange(TextUsage(input, cached, output))
    ensures forall x <- TextItems(p, input, cached, output) :: x.Valid()
  {
  }

  /** The price page's example and the bill for the same plain text at the standard tier. They
      differ by what the bill loses on its three components and by what the example takes off
      for cached tokens beyond the input. Away from half micros they are equal exactly when
      those tokens are worth less than one and a half micros; while every component is cheaper
      than 2^50 / UNIT micros they differ by one micro for each half micro lost. */
  lemma ExampleIsBilled(config: Config, candidates: seq<string>, p: ModelPrice, input: int, cached: int, output: int)
    requires ConfigModel(config, candidates) == Some(p) && ValidPrice(p)
    requires var s := TextUsage(input, cached, output);
             SegmentCost(config, candidates, Standard, s).Priced? && Sound(config, candidates, Standard, s)
    ensures var total := SegmentCost(config, candidates, Standard, TextUsage(input, cached, output)).cost.total;
            var example, x := ExampleCost(p, input, cached, output), TextItems(p, input, cached, output);
            && example - total == Short(x[0]) + Short(x[1]) + Short(x[2]) + Clipped(p, input, cached, output)
            && ((forall i <- x :: Clear(i.Product())) ==>
                  (total == example <==> (cached - input) * p.standard.input * InputFactor(p, TextUsage(input, cached, output)) < 15_000_000_000))
            && ((forall i <- x :: Moderate(i.Product())) && cached <= input ==> -3 <= example - total <= 3)
            && ((forall i <- x :: i.Product() < PRECISION) && cached <= input ==>
                  (total == example <==> forall i <- x :: !Lost(i)))
  {
    hide *;
    var x := TextItems(p, input, cached, output);
    TextTotal(config, candidates, p, input, cached, output);
    NonNegativeIfInRange(input, cached, output);
    ExampleIsRounded(p, input, cached, output);
    ClippedIs(p, input, cached, output);
    TextItemsAreValid(p, input, cached, output);
    Differences(x, ExampleCost(p, input, cached, output),
      SegmentCost(config, candidates, Standard, TextUsage(input, cached, output)).cost.total, Clipped(p, input, cached, output));
    NotClipped(p, input, cached, output);
  }

  lemma NonNegativeIfInRange(input: int, cached: int, output: int)
    requires InRange(TextUsage(input, cached, output))
    ensures 0 <= cached && 0 <= output
  {
  }

  lemma NotClipped(p: ModelPrice, input: int, cached: int, output: int)
    ensures cached <= input ==> Clipped(p, input, cached, output) == 0
  {
  }

  lemma Differences(x: seq<Item>, example: int, total: int, clipped: int)
    requires |x| == 3 && forall i <- x :: i.Valid()
    requires example == HalfUp(x[0].Product()) + HalfUp(x[1].Product()) + HalfUp(x[2].Product()) + clipped
    requires total == x[0].Amount() + x[1].Amount() + x[2].Amount()
    ensures example - total == Short(x[0]) + Short(x[1]) + Short(x[2]) + clipped
    ensures (forall i <- x :: Clear(i.Product())) ==> example - total == clipped
    ensures (forall i <- x :: Moderate(i.Product())) ==> -3 <= example - total - clipped <= 3
    ensures (forall i <- x :: i.Product() < PRECISION) ==> (example - total == clipped <==> forall i <- x :: !Lost(i))
  {
    hide Lost, Item.Product, Item.Amount, Item.Valid, HalfUp, Clear, Moderate;
    ShortIs(x[0]);
    ShortIs(x[1]);
    ShortIs(x[2]);
  }

  // ---- half micros in practice ---------------------------------------------------------------------

  /** Six tokens at 1,250,000 a million are billed 7 micros; the example has 8. */
  lemma SixTokens(config: Config, candidates: seq<string>, p: ModelPrice)
    requires ConfigModel(config, candidates) == Some(p) && p.longTokens == 0 && p.standard.input == 1_250_000
    ensures SegmentCost(config, candidates, Standard, TextUsage(6, 0, 0)) == Priced(FREE.(input := 7, total := 7))
    ensures ExampleCost(p, 6, 0, 0) == 8
  {
    SixTokenItems(p);
    hide *;
    TextAmounts(config, candidates, p, 6, 0, 0);
    HalfMicroIsLost(6, 1_250_000);
    ZeroTokens(p.standard.cacheRead, BPS);
    ZeroTokens(p.standard.output, BPS);
    BilledFor(config, candidates, TextUsage(6, 0, 0), TextItems(p, 6, 0, 0), 7);
  }

  lemma SixTokenItems(p: ModelPrice)
    requires p.longTokens == 0 && p.standard.input == 1_250_000
    ensures TextItems(p, 6, 0, 0) == [Item(6, 1_250_000, BPS), Item(0, p.standard.cacheRead, BPS), Item(0, p.standard.output, BPS)]
    ensures InRange(TextUsage(6, 0, 0)) && ExampleCost(p, 6, 0, 0) == 8
  {
    assert 0 * p.standard.cacheRead * BPS == 0 && 0 * p.standard.output * BPS == 0;
  }

  /** The page's own numbers: 50,000 of 100,000 tokens at 70 are billed 3 and shown as 4. */
  lemma PageNumbers(config: Config, candidates: seq<string>, p: ModelPrice)
    requires ConfigModel(config, candidates) == Some(p) && p.longTokens == 0 && p.standard == Prices(70, 0, 0, 0, 0, 0)
    ensures SegmentCost(config, candidates, Standard, TextUsage(100_000, 50_000, 10_000)) == Priced(FREE.(input := 3, total := 3))
    ensures ExampleCost(p, 100_000, 50_000, 10_000) == 4
  {
    PageItems(p);
    hide *;
    TextAmounts(config, candidates, p, 100_000, 50_000, 10_000);
    HalfMicroIsLost(50_000, 70);
    ZeroPrice(50_000);
    ZeroPrice(10_000);
    BilledFor(config, candidates, TextUsage(100_000, 50_000, 10_000), TextItems(p, 100_000, 50_000, 10_000), 3);
  }

  lemma PageItems(p: ModelPrice)
    requires p.longTokens == 0 && p.standard == Prices(70, 0, 0, 0, 0, 0)
    ensures TextItems(p, 100_000, 50_000, 10_000) == [Item(50_000, 70, BPS), Item(50_000, 0, BPS), Item(10_000, 0, BPS)]
    ensures InRange(TextUsage(100_000, 50_000, 10_000)) && ExampleCost(p, 100_000, 50_000, 10_000) == 4
  {
  }

  lemma ZeroPrice(tokens: nat)
    requires tokens <= TWO_TO_53
    ensures TokenAmount(tokens, 0, BPS) == 0
  {
    AmountOfTokens(tokens, 0, BPS);
    hide TokenAmount;
  }

  lemma BilledFor(config: Config, candidates: seq<string>, s: Segment, x: seq<Item>, n: nat)
    requires InRange(s) && n <= MAX_INT64 && |x| == 3
    requires TokenAmount(x[0].tokens, x[0].price, x[0].factor) == n
    requires TokenAmount(x[1].tokens, x[1].price, x[1].factor) == 0 && TokenAmount(x[2].tokens, x[2].price, x[2].factor) == 0
    requires SegmentAmounts(config, candidates, Standard, s) == Some(Amounts(x[0].Amount(), x[2].Amount(), x[1].Amount(), 0, 0, 0, 0))
    ensures SegmentCost(config, candidates, Standard, s) == Priced(FREE.(input := n, total := n))
  {
    hide SegmentAmounts, InRange, TokenAmount;
    var a := Amounts(n, 0, 0, 0, 0, 0, 0);
    assert a.List() == [n, 0, 0, 0, 0, 0, 0];
  }
}
