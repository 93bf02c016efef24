/** The cost of a request under a published price list, in micros, priced in double precision
    as the code does. */
module VersionedCost {
  import opened Doubles
  import opened MapSums
  import opened TokenRounding

  const MAX_INT64: int := 0x7FFF_FFFF_FFFF_FFFF
  const MAX_RATE: int := 1_000_000_000
  const MAX_COUNT: int := 1_000_000_000_000
  const MAX_PRICE: int := 1_000_000_000_000
  const MAX_FACTOR: int := 1_000_000

  datatype Prices = Prices(input: int, output: int, cacheRead: int, cacheWrite: int, imageInput: int, imageOutput: int)

  datatype ModelPrice = ModelPrice(model: string, standard: Prices, longTokens: int, longInput: int, longOutput: int)

  datatype Config = Config(
    models: seq<ModelPrice>, webSearch: int, image1K: int, image2K: int, image4K: int, fast: int, flex: int)

  datatype ServiceTier = Standard | Fast | Flex

  datatype ImageSize = OneK | TwoK | FourK

  datatype Segment = Segment(
    input: int, output: int, cached: int, cacheCreation: int, imageInput: int, imageOutput: int, images: int, searches: int, size: ImageSize)

  /** The seven components of a cost. */
  datatype Cost = Cost(input: int, output: int, cacheRead: int, cacheCreation: int, imageInput: int, imageOutput: int, search: int, total: int)

  const FREE: Cost := Cost(0, 0, 0, 0, 0, 0, 0, 0)

  datatype Outcome = Priced(cost: Cost) | OutOfRange | NoPrice | Overflow

  function SumOf(c: Cost): int {
    c.input + c.output + c.cacheRead + c.cacheCreation + c.imageInput + c.imageOutput + c.search
  }

  predicate Int64(x: int) {
    -TWO_TO_63 <= x <= MAX_INT64
  }

  // ---- one component ----------------------------------------------------------------

  /** Conversion of an integral float to int64. Go leaves 2^63 to the machine; here it wraps
      to the smallest number, as it does on amd64. */
  function ToInt64(x: int): int {
    if x == TWO_TO_63 then -TWO_TO_63 else x
  }

  /** The guard compares with float64(MaxInt64), which is 2^63. */
  predicate Caught(amount: int) {
    amount < 0 || amount > TWO_TO_63
  }

  datatype Amounts = Amounts(input: int, output: int, cacheRead: int, cacheCreation: int, imageInput: int, imageOutput: int, search: int)
  {
    function List(): seq<int> {
      [input, output, cacheRead, cacheCreation, imageInput, imageOutput, search]
    }

    function Together(): int {
      input + output + cacheRead + cacheCreation + imageInput + imageOutput + search
    }
  }

  /** Components as stored: a caught one is recorded as zero. */
  function Stored(amount: int): int {
    if Caught(amount) then 0 else ToInt64(amount)
  }

  function CostOf(a: Amounts): Cost {
    var c := Cost(Stored(a.input), Stored(a.output), Stored(a.cacheRead), Stored(a.cacheCreation),
                  Stored(a.imageInput), Stored(a.imageOutput), Stored(a.search), 0);
    c.(total := SumOf(c))
  }

  // ---- one segment --------------------------------------------------------------------

  predicate InRange(s: Segment) {
    && 0 <= s.input <= MAX_COUNT && 0 <= s.output <= MAX_COUNT && 0 <= s.cached <= MAX_COUNT && 0 <= s.cacheCreation <= MAX_COUNT
    && 0 <= s.imageInput <= MAX_COUNT && 0 <= s.imageOutput <= MAX_COUNT && 0 <= s.images <= MAX_COUNT && 0 <= s.searches <= MAX_COUNT
  }

  predicate UsesTokens(s: Segment) {
    s.input != 0 || s.output != 0 || s.cached != 0 || s.cacheCreation != 0 || s.imageInput != 0 || s.imageOutput != 0
  }

  predicate HasPrice(p: ModelPrice) {
    p.standard.input != 0 || p.standard.output != 0 || p.standard.cacheRead != 0 || p.standard.cacheWrite != 0
  }

  /** `ConfigModel`: the first candidate name that has a priced entry; of several entries the
      first. */
  function FindPrice(models: seq<ModelPrice>, name: string): Option<ModelPrice> {
    if models == [] then None
    else if models[0].model == name && HasPrice(models[0]) then Some(models[0])
    else FindPrice(models[1..], name)
  }

  function ConfigModel(config: Config, candidates: seq<string>): Option<ModelPrice> {
    if candidates == [] then None
    else if FindPrice(config.models, candidates[0]).Some? then FindPrice(config.models, candidates[0])
    else ConfigModel(config, candidates[1..])
  }

  function TierFactor(config: Config, tier: ServiceTier): int {
    match tier
    case Standard => BPS
    case Fast => config.fast
    case Flex => config.flex
  }

  predicate LongContext(p: ModelPrice, s: Segment) {
    p.longTokens > 0 && s.input > p.longTokens
  }

  function InputFactor(p: ModelPrice, s: Segment): int {
    if LongContext(p, s) then p.longInput else BPS
  }

  function OutputFactor(p: ModelPrice, s: Segment): int {
    if LongContext(p, s) then p.longOutput else BPS
  }

  function OrElse(price: int, fallback: int): int {
    if price == 0 then fallback else price
  }

  function ImageUnit(config: Config, size: ImageSize): int {
    match size
    case OneK => config.image1K
    case TwoK => config.image2K
    case FourK => config.image4K
  }

  /** What one call of `calculate` prices. */
  datatype Item = Item(tokens: int, price: int, factor: int)
  {
    function Product(): int {
      tokens * price * factor
    }

    function Amount(): int {
      TokenAmount(tokens, price, factor)
    }

    predicate Valid() {
      ValidFactors(tokens, price, factor)
    }
  }

  /** The six token components, in the order of `Amounts`. */
  function Items(p: ModelPrice, tier: int, s: Segment): (x: seq<Item>)
    ensures |x| == 6
  {
    var i, o := InputFactor(p, s) * tier / BPS, OutputFactor(p, s) * tier / BPS;
    [ Item(Max(0, s.input - s.cached - s.cacheCreation - s.imageInput), p.standard.input, i),
      Item(Max(0, s.output - s.imageOutput), p.standard.output, o),
      Item(s.cached, p.standard.cacheRead, i),
      Item(s.cacheCreation, p.standard.cacheWrite, i),
      Item(s.imageInput, OrElse(p.standard.imageInput, p.standard.input), tier),
      Item(s.imageOutput, OrElse(p.standard.imageOutput, p.standard.output), tier) ]
  }

  /** `calculateMicros` before its guard: each factor and then the product become doubles,
      which are whole, so it makes no difference that the code rounds after the guard. */
  function Micros(count: int, unit: int): int {
    RoundHalfAway(Mul(Double(count as real), Double(unit as real)))
  }

  function TokenAmounts(config: Config, p: ModelPrice, tier: int, s: Segment): Amounts {
    var x := Items(p, tier, s);
    Amounts(x[0].Amount(), x[1].Amount(), x[2].Amount(), x[3].Amount(), x[4].Amount(), x[5].Amount(), Micros(s.searches, config.webSearch))
  }

  function SegmentAmounts(config: Config, candidates: seq<string>, tier: ServiceTier, s: Segment): Option<Amounts> {
    if s.images > 0 then Some(Amounts(0, 0, 0, 0, 0, Micros(s.images, ImageUnit(config, s.size)), Micros(s.searches, config.webSearch)))
    else if UsesTokens(s) then
      match ConfigModel(config, candidates)
      case None => None
      case Some(p) => Some(TokenAmounts(config, p, TierFactor(config, tier), s))
    else Some(Amounts(0, 0, 0, 0, 0, 0, Micros(s.searches, config.webSearch)))
  }

  function SegmentCost(config: Config, candidates: seq<string>, tier: ServiceTier, s: Segment): Outcome {
    if !InRange(s) then OutOfRange else
      match SegmentAmounts(config, candidates, tier, s)
      case None => NoPrice
      case Some(a) =>
        if !Int64(CostOf(a).total) || (exists i :: 0 <= i < 7 && Caught(a.List()[i])) then Overflow else Priced(CostOf(a))
  }

  // ---- the loop over segments --------------------------------------------------------------

  function AddCost(t: Cost, c: Cost): Cost {
    Cost(t.input + c.input, t.output + c.output, t.cacheRead + c.cacheRead, t.cacheCreation + c.cacheCreation,
         t.imageInput + c.imageInput, t.imageOutput + c.imageOutput, t.search + c.search, t.total + c.total)
  }

  predicate Fits(c: Cost) {
    && Int64(c.input) && Int64(c.output) && Int64(c.cacheRead) && Int64(c.cacheCreation)
    && Int64(c.imageInput) && Int64(c.imageOutput) && Int64(c.search) && Int64(c.total)
  }

  function TotalCost(config: Config, candidates: seq<string>, tier: ServiceTier, segments: seq<Segment>): Outcome
    decreases |segments|
  {
    if segments == [] then Priced(FREE) else
      match TotalCost(config, candidates, tier, segments[..|segments| - 1])
      case Priced(t) =>
        (match SegmentCost(config, candidates, tier, segments[|segments| - 1])
         case Priced(c) => if Fits(AddCost(t, c)) then Priced(AddCost(t, c)) else Overflow
         case other => other)
      case other => other
  }

  /** `VersionedCost`. */
  method PriceRequest(config: Config, candidates: seq<string>, tier: ServiceTier, segments: seq<Segment>) returns (r: Outcome)
    ensures r == TotalCost(config, candidates, tier, segments)
  {
    var total := FREE;
    for i := 0 to |segments|
      invariant TotalCost(config, candidates, tier, segments[..i]) == Priced(total)
    {
      assert segments[..i + 1][..i] == segments[..i];
      r := PriceSegment(config, candidates, tier, segments[i]);
      if r.Priced? {
        var sum := AddCost(total, r.cost);
        if !Fits(sum) {
          r := Overflow;
        } else {
          total := sum;
          r := Priced(sum);
        }
      }
      if !r.Priced? {
        FailsEarly(config, candidates, tier, segments, i + 1);
        return r;
      }
    }
    assert segments[..|segments|] == segments;
    return Priced(total);
  }

  lemma {:induction false} FailsEarly(config: Config, candidates: seq<string>, tier: ServiceTier, segments: seq<Segment>, i: nat)
    requires i <= |segments| && !TotalCost(config, candidates, tier, segments[..i]).Priced?
    ensures TotalCost(config, candidates, tier, segments) == TotalCost(config, candidates, tier, segments[..i])
    decreases |segments|
  {
    if i == |segments| {
      assert segments[..i] == segments;
    } else {
      assert segments[..|segments| - 1][..i] == segments[..i];
      FailsEarly(config, candidates, tier, segments[..|segments| - 1], i);
    }
  }

  method LookUp(config: Config, candidates: seq<string>) returns (p: Option<ModelPrice>)
    ensures p == ConfigModel(config, candidates)
  {
    for i := 0 to |candidates|
      invariant ConfigModel(config, candidates) == ConfigModel(config, candidates[i..])
    {
      assert candidates[i..][1..] == candidates[i + 1..];
      for j := 0 to |config.models|
        invariant FindPrice(config.models, candidates[i]) == FindPrice(config.models[j..], candidates[i])
      {
        assert config.models[j..][1..] == config.models[j + 1..];
        var m := config.models[j];
        if m.model == candidates[i] && HasPrice(m) {
          return Some(m);
        }
      }
    }
    return None;
  }

  /** One component of `calculate` and `calculateMicros`. */
  method Component(amount: int, failed: bool) returns (stored: int, nowFailed: bool)
    ensures stored == Stored(amount) && nowFailed == (failed || Caught(amount))
  {
    if amount < 0 || amount > TWO_TO_63 {
      return 0, true;
    }
    return ToInt64(amount), failed;
  }

  /** `versionedSegmentCost`. */
  method PriceSegment(config: Config, candidates: seq<string>, tier: ServiceTier, s: Segment) returns (r: Outcome)
    ensures r == SegmentCost(config, candidates, tier, s)
  {
    if !InRange(s) {
      return OutOfRange;
    }
    var a := Amounts(0, 0, 0, 0, 0, 0, Micros(s.searches, config.webSearch));
    if s.images > 0 {
      a := a.(imageOutput := Micros(s.images, ImageUnit(config, s.size)));
    } else if UsesTokens(s) {
      var found := LookUp(config, candidates);
      if found.None? {
        return NoPrice;
      }
      a := TokenAmounts(config, found.value, TierFactor(config, tier), s);
    }
    r := Store(a);
  }

  method Store(a: Amounts) returns (r: Outcome)
    ensures r == if !Int64(CostOf(a).total) || (exists i :: 0 <= i < 7 && Caught(a.List()[i])) then Overflow else Priced(CostOf(a))
  {
    var c, failed := FREE, false;
    var v;
    v, failed := Component(a.search, failed);
    c := c.(search := v);
    v, failed := Component(a.input, failed);
    c := c.(input := v);
    v, failed := Component(a.output, failed);
    c := c.(output := v);
    v, failed := Component(a.cacheRead, failed);
    c := c.(cacheRead := v);
    v, failed := Component(a.cacheCreation, failed);
    c := c.(cacheCreation := v);
    v, failed := Component(a.imageInput, failed);
    c := c.(imageInput := v);
    v, failed := Component(a.imageOutput, failed);
    c := c.(imageOutput := v);
    assert failed <==> Caught(a.List()[0]) || Caught(a.List()[1]) || Caught(a.List()[2]) || Caught(a.List()[3])
                       || Caught(a.List()[4]) || Caught(a.List()[5]) || Caught(a.List()[6]);
    if !Int64(SumOf(c)) || failed {
      return Overflow;
    }
    return Priced(c.(total := SumOf(c)));
  }

  // ---- totals ----------------------------------------------------------------------------------

  lemma SegmentIsSum(config: Config, candidates: seq<string>, tier: ServiceTier, s: Segment)
    requires SegmentCost(config, candidates, tier, s).Priced?
    ensures var c := SegmentCost(config, candidates, tier, s).cost; c.total == SumOf(c) && Fits(c)
  {
    hide InRange, SegmentAmounts, Caught, CostOf, SumOf, Fits, Int64, Amounts.List;
    CostFits(SegmentAmounts(config, candidates, tier, s).value);
  }

  lemma CostFits(a: Amounts)
    ensures var c := CostOf(a); c.total == SumOf(c) && (Int64(c.total) ==> Fits(c))
  {
    StoredFits(a.input);
    StoredFits(a.output);
    StoredFits(a.cacheRead);
    StoredFits(a.cacheCreation);
    StoredFits(a.imageInput);
    StoredFits(a.imageOutput);
    StoredFits(a.search);
    hide Stored, Int64;
  }

  lemma StoredFits(amount: int)
    ensures Int64(Stored(amount))
  {
  }

  /** A priced request adds up: its total is the sum of its components, and all fit. */
  lemma {:induction false} TotalIsSum(config: Config, candidates: seq<string>, tier: ServiceTier, segments: seq<Segment>)
    requires TotalCost(config, candidates, tier, segments).Priced?
    ensures var c := TotalCost(config, candidates, tier, segments).cost; c.total == SumOf(c) && Fits(c)
    decreases |segments|
  {
    hide SegmentCost;
    if segments != [] {
      TotalIsSum(config, candidates, tier, segments[..|segments| - 1]);
      SegmentIsSum(config, candidates, tier, segments[|segments| - 1]);
    }
  }

  predicate NonNegative(c: Cost) {
    0 <= c.input && 0 <= c.output && 0 <= c.cacheRead && 0 <= c.cacheCreation && 0 <= c.imageInput && 0 <= c.imageOutput && 0 <= c.search && 0 <= c.total
  }

  /** No amount of the segment slips through the guard: none is 2^63. */
  predicate Sound(config: Config, candidates: seq<string>, tier: ServiceTier, s: Segment) {
    SegmentAmounts(config, candidates, tier, s).Some? ==>
      forall i :: 0 <= i < 7 ==>
        SegmentAmounts(config, candidates, tier, s).value.List()[i] != TWO_TO_63
  }

  lemma PricedAddsUp(config: Config, candidates: seq<string>, tier: ServiceTier, s: Segment)
    requires SegmentCost(config, candidates, tier, s).Priced? && Sound(config, candidates, tier, s)
    ensures var a := SegmentAmounts(config, candidates, tier, s).value; var c := SegmentCost(config, candidates, tier, s).cost;
            NonNegative(c) && c.total == a.Together()
  {
    var a := SegmentAmounts(config, candidates, tier, s).value;
    assert !Caught(a.List()[0]) && !Caught(a.List()[1]) && !Caught(a.List()[2]) && !Caught(a.List()[3])
      && !Caught(a.List()[4]) && !Caught(a.List()[5]) && !Caught(a.List()[6]);
    assert a.List()[0] != TWO_TO_63 && a.List()[1] != TWO_TO_63 && a.List()[2] != TWO_TO_63 && a.List()[3] != TWO_TO_63
      && a.List()[4] != TWO_TO_63 && a.List()[5] != TWO_TO_63 && a.List()[6] != TWO_TO_63;
  }

  /** The overflow guard of a counted thing, for counts and units that are exact doubles: it
      fires exactly above 2^63 + 1024, and a product from 2^63 - 512 to that passes it and is
      stored as a negative number. Below, the amount stored is the product up to 512. */
  lemma GuardMissesAnInterval(count: nat, unit: nat)
    requires count <= TWO_TO_53 && unit <= TWO_TO_53
    ensures var p, amount := count * unit, Micros(count, unit);
            && (Caught(amount) <==> p > TWO_TO_63 + 1024)
            && (!Caught(amount) && Stored(amount) < 0 <==> TWO_TO_63 - 512 <= p <= TWO_TO_63 + 1024)
            && (p < TWO_TO_63 - 512 ==> Stored(amount) == amount && -512 <= amount - p <= 512)
            && (p <= TWO_TO_53 ==> Stored(amount) == p)
  {
    MicrosIsDouble(count, unit);
    RoundsToLimit(count * unit);
    if count * unit <= TWO_TO_53 {
      DoubleIsExact(count * unit);
    }
    hide Double, Micros;
  }

  /** For exact factors the amount is the exact product as a double. */
  lemma MicrosIsDouble(count: nat, unit: nat)
    requires count <= TWO_TO_53 && unit <= TWO_TO_53
    ensures 0 <= count * unit && Micros(count, unit) >= 0 && Micros(count, unit) as real == Double((count * unit) as real)
  {
    DoubleIsExact(count);
    DoubleIsExact(unit);
    ProductOfReals(count, unit);
    DoubleIsWhole(count * unit);
    WholeStays(Double((count * unit) as real));
    hide Double, RoundHalfAway;
  }

  lemma WholeStays(x: real)
    requires x.Floor as real == x && x >= 0.0
    ensures RoundHalfAway(x) as real == x && RoundHalfAway(x) >= 0
  {
    FloorIs(x + 0.5, x.Floor);
  }

  /** 2^34 searches at 2^29 micros are priced as a negative amount, without an error, and so
      are 42128471623 at 218934409, whose exact price 2^63 - 1 would fit. */
  lemma SilentOverflow(models: seq<ModelPrice>, candidates: seq<string>)
    ensures SegmentCost(Config(models, 0x2000_0000, 0, 0, 0, BPS, BPS), candidates, Standard, Searches(0x4_0000_0000))
            == Priced(FREE.(search := -TWO_TO_63, total := -TWO_TO_63))
    ensures 42_128_471_623 * 218_934_409 == MAX_INT64
    ensures SegmentCost(Config(models, 218_934_409, 0, 0, 0, BPS, BPS), candidates, Standard, Searches(42_128_471_623))
            == Priced(FREE.(search := -TWO_TO_63, total := -TWO_TO_63))
  {
    assert 0x4_0000_0000 * 0x2000_0000 == TWO_TO_63 && 42_128_471_623 * 218_934_409 == MAX_INT64;
    SearchesPricedNegative(Config(models, 0x2000_0000, 0, 0, 0, BPS, BPS), candidates, 0x4_0000_0000);
    SearchesPricedNegative(Config(models, 218_934_409, 0, 0, 0, BPS, BPS), candidates, 42_128_471_623);
  }

  function Searches(n: int): Segment {
    Segment(0, 0, 0, 0, 0, 0, 0, n, OneK)
  }

  lemma SearchesPricedNegative(config: Config, candidates: seq<string>, n: nat)
    requires n <= MAX_COUNT && 0 <= config.webSearch <= TWO_TO_53
    requires TWO_TO_63 - 512 <= n * config.webSearch <= TWO_TO_63 + 1024
    ensures SegmentCost(config, candidates, Standard, Searches(n)) == Priced(FREE.(search := -TWO_TO_63, total := -TWO_TO_63))
  {
    MicrosIsDouble(n, config.webSearch);
    RoundsToLimit(n * config.webSearch);
    hide Micros;
    var a := Amounts(0, 0, 0, 0, 0, 0, TWO_TO_63);
    assert SegmentAmounts(config, candidates, Standard, Searches(n)) == Some(a);
    assert a.List() == [0, 0, 0, 0, 0, 0, TWO_TO_63];
  }

  predicate AllSound(config: Config, candidates: seq<string>, tier: ServiceTier, segments: seq<Segment>) {
    forall s <- segments :: Sound(config, candidates, tier, s)
  }

  lemma SumStaysNonNegative(x: Cost, c: Cost)
    requires NonNegative(x) && NonNegative(c)
    ensures NonNegative(AddCost(x, c))
    ensures Fits(AddCost(x, c)) ==> Fits(x) && Fits(c)
  {
  }

  lemma AddAssociates(x: Cost, y: Cost, z: Cost)
    ensures AddCost(AddCost(x, y), z) == AddCost(x, AddCost(y, z))
  {
  }

  lemma {:induction false} PricedNonNegative(config: Config, candidates: seq<string>, tier: ServiceTier, segments: seq<Segment>)
    requires TotalCost(config, candidates, tier, segments).Priced? && AllSound(config, candidates, tier, segments)
    ensures NonNegative(TotalCost(config, candidates, tier, segments).cost)
    decreases |segments|
  {
    hide SegmentCost, AddCost, NonNegative, Fits, Sound;
    if segments == [] {
      assert NonNegative(FREE) by { FreeIsNeutral(FREE); }
    } else {
      PricedNonNegative(config, candidates, tier, segments[..|segments| - 1]);
      PricedAddsUp(config, candidates, tier, segments[|segments| - 1]);
      SumStaysNonNegative(TotalCost(config, candidates, tier, segments[..|segments| - 1]).cost,
        SegmentCost(config, candidates, tier, segments[|segments| - 1]).cost);
    }
  }

  lemma FreeIsNeutral(x: Cost)
    ensures NonNegative(FREE) && AddCost(x, FREE) == x
  {
  }

  /** Whatever is priced adds up: if a concatenation and its second part are priced, the first
      part is, and the whole costs their sum in every component. */
  lemma {:induction false} PricedIsAdditive(config: Config, candidates: seq<string>, tier: ServiceTier, a: seq<Segment>, b: seq<Segment>)
    requires TotalCost(config, candidates, tier, a + b).Priced? && TotalCost(config, candidates, tier, b).Priced?
    ensures TotalCost(config, candidates, tier, a).Priced?
    ensures TotalCost(config, candidates, tier, a + b).cost
            == AddCost(TotalCost(config, candidates, tier, a).cost, TotalCost(config, candidates, tier, b).cost)
    decreases |b|
  {
    hide SegmentCost, AddCost, Fits;
    if b == [] {
      assert a + b == a;
      FreeIsNeutral(TotalCost(config, candidates, tier, a).cost);
    } else {
      var init, s := b[..|b| - 1], b[|b| - 1];
      assert (a + b)[..|a + b| - 1] == a + init && (a + b)[|a + b| - 1] == s;
      PricedIsAdditive(config, candidates, tier, a, init);
      AddAssociates(TotalCost(config, candidates, tier, a).cost, TotalCost(config, candidates, tier, init).cost, SegmentCost(config, candidates, tier, s).cost);
    }
  }

  /** Pricing is additive: a concatenation of sound segments is priced exactly when both parts are and their
      sum fits, and then it costs their sum in every component. */
  lemma {:induction false} Additive(config: Config, candidates: seq<string>, tier: ServiceTier, a: seq<Segment>, b: seq<Segment>)
    requires AllSound(config, candidates, tier, a + b)
    ensures var whole, x, y := TotalCost(config, candidates, tier, a + b), TotalCost(config, candidates, tier, a), TotalCost(config, candidates, tier, b);
            && (whole.Priced? <==> x.Priced? && y.Priced? && Fits(AddCost(x.cost, y.cost)))
            && (whole.Priced? ==> whole.cost == AddCost(x.cost, y.cost))
    decreases |b|
  {
    hide SegmentCost, AddCost, NonNegative, Fits, Sound;
    var x := TotalCost(config, candidates, tier, a);
    if b == [] {
      assert a + b == a;
      if x.Priced? {
        TotalIsSum(config, candidates, tier, a);
        FreeIsNeutral(x.cost);
      }
    } else {
      var init, s := b[..|b| - 1], b[|b| - 1];
      assert (a + b)[..|a + b| - 1] == a + init && (a + b)[|a + b| - 1] == s;
      Additive(config, candidates, tier, a, init);
      var y, c := TotalCost(config, candidates, tier, init), SegmentCost(config, candidates, tier, s);
      if x.Priced? && y.Priced? && c.Priced? {
        PricedNonNegative(config, candidates, tier, a);
        PricedNonNegative(config, candidates, tier, init);
        PricedAddsUp(config, candidates, tier, s);
        AddAssociates(x.cost, y.cost, c.cost);
        SumStaysNonNegative(y.cost, c.cost);
        SumStaysNonNegative(x.cost, AddCost(y.cost, c.cost));
        SumStaysNonNegative(x.cost, y.cost);
        SumStaysNonNegative(AddCost(x.cost, y.cost), c.cost);
      }
    }
  }

  // ---- distance from the unrounded cost -----------------------------------------------------------

  function Plus(x: seq<Item>): int
    requires |x| == 6
  {
    x[0].Product() + x[1].Product() + x[2].Product() + x[3].Product() + x[4].Product() + x[5].Product()
  }

  /** The exact cost of the tokens of a segment, in units of 1/UNIT micros. */
  function TokenCost(config: Config, candidates: seq<string>, tier: ServiceTier, s: Segment): int {
    if s.images <= 0 && UsesTokens(s) && ConfigModel(config, candidates).Some? then
      Plus(Items(ConfigModel(config, candidates).value, TierFactor(config, tier), s))
    else 0
  }

  /** The cost of a segment before rounding, in units of 1/UNIT micros. */
  function Unrounded(config: Config, candidates: seq<string>, tier: ServiceTier, s: Segment): int {
    UNIT * (s.searches * config.webSearch + if s.images > 0 then s.images * ImageUnit(config, s.size) else 0)
    + TokenCost(config, candidates, tier, s)
  }

  predicate ValidRates(config: Config) {
    0 <= config.webSearch <= MAX_RATE && 0 <= config.image1K <= MAX_RATE && 0 <= config.image2K <= MAX_RATE && 0 <= config.image4K <= MAX_RATE
  }

  predicate ValidPrice(m: ModelPrice) {
    && 0 <= m.standard.input <= MAX_PRICE && 0 <= m.standard.output <= MAX_PRICE && 0 <= m.standard.cacheRead <= MAX_PRICE
    && 0 <= m.standard.cacheWrite <= MAX_PRICE && 0 <= m.standard.imageInput <= MAX_PRICE && 0 <= m.standard.imageOutput <= MAX_PRICE
    && BPS <= m.longInput <= MAX_FACTOR && BPS <= m.longOutput <= MAX_FACTOR
  }

  /** The numbers of a published price list: `ValidateConfig` lets none through outside. */
  predicate ValidConfig(config: Config) {
    && ValidRates(config) && BPS <= config.fast <= MAX_FACTOR && 0 <= config.flex <= MAX_FACTOR
    && forall m <- config.models :: ValidPrice(m)
  }

  lemma {:induction false} FoundIsListed(models: seq<ModelPrice>, name: string)
    requires FindPrice(models, name).Some?
    ensures FindPrice(models, name).value in models
  {
    if models[0].model != name || !HasPrice(models[0]) {
      FoundIsListed(models[1..], name);
    }
  }

  lemma {:induction false} PriceIsValid(config: Config, candidates: seq<string>)
    requires ConfigModel(config, candidates).Some? && ValidConfig(config)
    ensures ValidPrice(ConfigModel(config, candidates).value)
  {
    hide ValidPrice;
    if FindPrice(config.models, candidates[0]).Some? {
      FoundIsListed(config.models, candidates[0]);
    } else {
      PriceIsValid(config, candidates[1..]);
    }
  }

  lemma FactorFits(f: int, tier: int)
    requires 0 <= f <= MAX_FACTOR && 0 <= tier <= MAX_FACTOR
    ensures 0 <= f * tier / BPS <= TWO_TO_53
  {
    ProductFits(f, tier, MAX_FACTOR);
  }

  lemma ProductFits(x: nat, y: nat, most: nat)
    requires x <= most && y <= most
    ensures 0 <= x * y <= most * most
  {
    assert x * y <= x * most;
    assert x * most <= most * most;
  }

  lemma ItemsAreValid(p: ModelPrice, tier: int, s: Segment)
    requires ValidPrice(p) && 0 <= tier <= MAX_FACTOR && InRange(s)
    ensures forall x <- Items(p, tier, s) :: x.Valid()
  {
    FactorFits(InputFactor(p, s), tier);
    FactorFits(OutputFactor(p, s), tier);
  }

  /** The difference is within whole micros of slack and one part in 2^50 of the token cost. */
  predicate Within(off: int, slack: int, tokens: int) {
    -(PRECISION * UNIT * slack) - tokens <= PRECISION * off <= PRECISION * UNIT * slack + tokens
  }

  lemma SixRoundings(x: seq<Item>)
    requires |x| == 6 && forall i <- x :: i.Valid()
    ensures Plus(x) >= 0
    ensures Within(UNIT * (x[0].Amount() + x[1].Amount() + x[2].Amount() + x[3].Amount() + x[4].Amount() + x[5].Amount()) - Plus(x), 3, Plus(x))
  {
    ItemIsClose(x[0]);
    ItemIsClose(x[1]);
    ItemIsClose(x[2]);
    ItemIsClose(x[3]);
    ItemIsClose(x[4]);
    ItemIsClose(x[5]);
    hide Item.Product, Item.Amount, Item.Valid;
  }

  lemma ItemIsClose(x: Item)
    requires x.Valid()
    ensures x.Product() >= 0
    ensures -(PRECISION / 2 * UNIT) - x.Product() <= PRECISION * (UNIT * x.Amount() - x.Product()) <= PRECISION / 2 * UNIT + x.Product()
  {
    AmountOfTokens(x.tokens, x.price, x.factor);
    hide *;
  }

  /** Some counted thing costs more than nine thousand million dollars, beyond the whole
      numbers of double precision. */
  predicate Huge(config: Config, s: Segment) {
    s.searches * config.webSearch > TWO_TO_53 || (s.images > 0 && s.images * ImageUnit(config, s.size) > TWO_TO_53)
  }

  /** How far rounding to micros may move a segment. */
  function Slack(config: Config, s: Segment): int {
    if Huge(config, s) then 1027 else 3
  }

  lemma AmountIsClose(count: int, unit: int)
    requires 0 <= count <= MAX_COUNT && 0 <= unit <= MAX_RATE && Micros(count, unit) != TWO_TO_63 && !Caught(Micros(count, unit))
    ensures -512 <= Micros(count, unit) - count * unit <= 512 && (count * unit <= TWO_TO_53 ==> Micros(count, unit) == count * unit)
  {
    GuardMissesAnInterval(count, unit);
    hide Micros;
  }

  lemma AmountsAreClose(config: Config, candidates: seq<string>, tier: ServiceTier, s: Segment)
    requires SegmentCost(config, candidates, tier, s).Priced? && Sound(config, candidates, tier, s) && ValidConfig(config)
    ensures var a := SegmentAmounts(config, candidates, tier, s).value;
            Within(UNIT * a.Together() - Unrounded(config, candidates, tier, s), Slack(config, s), TokenCost(config, candidates, tier, s))
            && TokenCost(config, candidates, tier, s) >= 0
  {
    hide Items, Plus, Item.Amount, ConfigModel, ValidPrice, Micros, CostOf;
    var a := SegmentAmounts(config, candidates, tier, s).value;
    assert a.List()[5] == a.imageOutput && a.List()[6] == a.search;
    AmountIsClose(s.searches, config.webSearch);
    if s.images > 0 {
      AmountIsClose(s.images, ImageUnit(config, s.size));
    } else if UsesTokens(s) {
      PriceIsValid(config, candidates);
      ItemsAreValid(ConfigModel(config, candidates).value, TierFactor(config, tier), s);
      SixRoundings(Items(ConfigModel(config, candidates).value, TierFactor(config, tier), s));
    }
    hide UsesTokens, SegmentCost, Sound, InRange, Caught;
  }

  lemma SegmentIsClose(config: Config, candidates: seq<string>, tier: ServiceTier, s: Segment)
    requires SegmentCost(config, candidates, tier, s).Priced? && Sound(config, candidates, tier, s) && ValidConfig(config)
    ensures TokenCost(config, candidates, tier, s) >= 0
    ensures Within(UNIT * SegmentCost(config, candidates, tier, s).cost.total - Unrounded(config, candidates, tier, s),
                   Slack(config, s), TokenCost(config, candidates, tier, s))
  {
    hide *;
    AmountsAreClose(config, candidates, tier, s);
    PricedAddsUp(config, candidates, tier, s);
  }

  function TotalSlack(config: Config, segments: seq<Segment>): int
    decreases |segments|
  {
    if segments == [] then 0 else TotalSlack(config, segments[..|segments| - 1]) + Slack(config, segments[|segments| - 1])
  }

  lemma {:induction false} ThreePerSegment(config: Config, segments: seq<Segment>)
    ensures TotalSlack(config, segments) <= 1027 * |segments|
    ensures (forall s <- segments :: !Huge(config, s)) ==> TotalSlack(config, segments) == 3 * |segments|
    decreases |segments|
  {
    if segments != [] {
      ThreePerSegment(config, segments[..|segments| - 1]);
      assert segments[|segments| - 1] in segments;
    }
  }

  function TotalUnrounded(config: Config, candidates: seq<string>, tier: ServiceTier, segments: seq<Segment>): int
    decreases |segments|
  {
    if segments == [] then 0 else
      TotalUnrounded(config, candidates, tier, segments[..|segments| - 1]) + Unrounded(config, candidates, tier, segments[|segments| - 1])
  }

  function TotalTokenCost(config: Config, candidates: seq<string>, tier: ServiceTier, segments: seq<Segment>): int
    decreases |segments|
  {
    if segments == [] then 0 else
      TotalTokenCost(config, candidates, tier, segments[..|segments| - 1]) + TokenCost(config, candidates, tier, segments[|segments| - 1])
  }

  /** Rounding moves the total by at most three micros a segment, by 1024 more where a counted
      thing costs more than 2^53 micros, and by one part in 2^50 of what its tokens cost: less
      than one micro in all if they cost less than 2^50. */
  lemma {:induction false} TotalIsClose(config: Config, candidates: seq<string>, tier: ServiceTier, segments: seq<Segment>)
    requires TotalCost(config, candidates, tier, segments).Priced? && AllSound(config, candidates, tier, segments) && ValidConfig(config)
    ensures var off := UNIT * TotalCost(config, candidates, tier, segments).cost.total - TotalUnrounded(config, candidates, tier, segments);
            var tokens := TotalTokenCost(config, candidates, tier, segments);
            && Within(off, TotalSlack(config, segments), tokens)
            && ((forall s <- segments :: !Huge(config, s)) && tokens <= PRECISION * UNIT ==>
                  -(3 * |segments| + 1) * UNIT <= off <= (3 * |segments| + 1) * UNIT)
    decreases |segments|
  {
    hide SegmentCost, Unrounded, Sound, Slack, Huge, ValidConfig, TokenCost;
    ThreePerSegment(config, segments);
    if segments != [] {
      TotalIsClose(config, candidates, tier, segments[..|segments| - 1]);
      SegmentIsClose(config, candidates, tier, segments[|segments| - 1]);
    }
  }
}
