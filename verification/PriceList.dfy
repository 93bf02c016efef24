/** What each component of a bill is, read off the fields of the price list and of the usage:
    every tier, both sides of the long-context limit, every kind of token, and every size of
    image. */
module PriceList {
  import opened Doubles
  import opened MapSums
  import opened TokenRounding
  import opened VersionedCost

  const FINE: int := UNIT * BPS // tokens * price * context multiplier * tier multiplier per micro

  /** The amount is that many tokens at that price per million under both multipliers (in
      basis points), up to half a micro and one part in 2^50, and up to one basis point less if
      the two multipliers together are not whole basis points. */
  predicate Near(amount: int, tokens: int, price: int, context: int, tier: int) {
    var exact := tokens * price * context * tier;
    var cut := if context * tier % BPS == 0 then 0 else tokens * price * BPS;
    Off(amount, exact, cut)
  }

  predicate Off(amount: int, exact: int, cut: int) {
    -(PRECISION / 2 * FINE) - exact - PRECISION * cut <= PRECISION * (FINE * amount - exact) <= PRECISION / 2 * FINE + exact
  }

  lemma AmountIsNear(tokens: nat, price: nat, context: nat, tier: nat)
    requires tokens <= MAX_COUNT && price <= MAX_PRICE && context <= MAX_FACTOR && tier <= MAX_FACTOR
    ensures 0 <= context * tier / BPS <= TWO_TO_53
    ensures Near(TokenAmount(tokens, price, context * tier / BPS), tokens, price, context, tier)
  {
    hide Near, Off, TokenAmount, Chain, Clear, Exact, HalfUp, Moderate, HalfOf;
    FactorFits(context, tier);
    var factor, rest, plain := context * tier / BPS, context * tier % BPS, tokens * price;
    AmountOfTokens(tokens, price, factor);
    Truncated(plain, factor, rest);
    Finer(TokenAmount(tokens, price, factor), plain * factor, plain * (BPS * factor + rest), plain * rest, if rest == 0 then 0 else plain * BPS);
    NearIs(TokenAmount(tokens, price, factor), tokens, price, context, tier);
  }

  lemma NearIs(amount: int, tokens: nat, price: nat, context: nat, tier: nat)
    requires var factor, rest, plain := context * tier / BPS, context * tier % BPS, tokens * price;
             Off(amount, plain * (BPS * factor + rest), if rest == 0 then 0 else plain * BPS)
    ensures Near(amount, tokens, price, context, tier)
  {
    Regroup(tokens, price, context, tier);
    hide Off;
  }

  lemma Regroup(tokens: nat, price: nat, context: nat, tier: nat)
    ensures tokens * price * context * tier == tokens * price * (context * tier)
    ensures context * tier == BPS * (context * tier / BPS) + context * tier % BPS
  {
    var plain := tokens * price;
    assert plain * context * tier == plain * (context * tier);
  }

  lemma Truncated(plain: nat, factor: nat, rest: nat)
    requires rest < BPS
    ensures plain * (BPS * factor + rest) == BPS * (plain * factor) + plain * rest
    ensures 0 <= plain * rest <= if rest == 0 then 0 else plain * BPS
  {
    assert plain * (BPS * factor) == BPS * (plain * factor);
    assert plain * rest <= plain * BPS;
  }

  lemma Finer(amount: int, product: int, exact: int, lost: int, cut: int)
    requires -(PRECISION / 2 * UNIT) - product <= PRECISION * (UNIT * amount - product) <= PRECISION / 2 * UNIT + product
    requires exact == BPS * product + lost && 0 <= lost <= cut && 0 <= product
    ensures Off(amount, exact, cut)
  {
  }

  /** The token components of a bill under the tier's multiplier. A usage beyond the limit of
      the long context pays its own multipliers, for input kinds and for output; images pay
      the image price if there is one, and never the long-context multiplier. */
  predicate TokensBilled(p: ModelPrice, tier: int, s: Segment, c: Cost) {
    var long := p.longTokens > 0 && s.input > p.longTokens;
    var ofInput, ofOutput := if long then p.longInput else 10_000, if long then p.longOutput else 10_000;
    var plain, answer := s.input - s.cached - s.cacheCreation - s.imageInput, s.output - s.imageOutput;
    && Near(c.input, if plain > 0 then plain else 0, p.standard.input, ofInput, tier)
    && Near(c.output, if answer > 0 then answer else 0, p.standard.output, ofOutput, tier)
    && Near(c.cacheRead, s.cached, p.standard.cacheRead, ofInput, tier)
    && Near(c.cacheCreation, s.cacheCreation, p.standard.cacheWrite, ofInput, tier)
    && Near(c.imageInput, s.imageInput, if p.standard.imageInput != 0 then p.standard.imageInput else p.standard.input, 10_000, tier)
    && Near(c.imageOutput, s.imageOutput, if p.standard.imageOutput != 0 then p.standard.imageOutput else p.standard.output, 10_000, tier)
  }

  /** A counted thing costs its count times its unit price, up to 512 micros where that is
      beyond the whole doubles. */
  predicate CountedBilled(amount: int, count: int, unit: int) {
    -512 <= amount - count * unit <= 512 && (count * unit <= TWO_TO_53 ==> amount == count * unit)
  }

  predicate ImagesBilled(config: Config, s: Segment, c: Cost) {
    && c.input == 0 && c.output == 0 && c.cacheRead == 0 && c.cacheCreation == 0 && c.imageInput == 0
    && (s.size == OneK ==> CountedBilled(c.imageOutput, s.images, config.image1K))
    && (s.size == TwoK ==> CountedBilled(c.imageOutput, s.images, config.image2K))
    && (s.size == FourK ==> CountedBilled(c.imageOutput, s.images, config.image4K))
  }

  /** The model price in force: of the first candidate name that has one, the first entry with
      a price of its own. */
  ghost predicate InForce(config: Config, candidates: seq<string>, p: ModelPrice) {
    exists i, j :: 0 <= i < |candidates| && 0 <= j < |config.models| && config.models[j] == p
      && FirstOf(config.models, candidates[i], j) && forall k :: 0 <= k < i ==> Unlisted(config.models, candidates[k])
  }

  predicate Costs(m: ModelPrice) {
    m.standard.input != 0 || m.standard.output != 0 || m.standard.cacheRead != 0 || m.standard.cacheWrite != 0
  }

  predicate FirstOf(models: seq<ModelPrice>, name: string, j: nat)
    requires j < |models|
  {
    models[j].model == name && Costs(models[j]) && forall k :: 0 <= k < j ==> !(models[k].model == name && Costs(models[k]))
  }

  predicate Unlisted(models: seq<ModelPrice>, name: string) {
    forall m <- models :: !(m.model == name && Costs(m))
  }

  lemma {:induction false} FindIs(models: seq<ModelPrice>, name: string) returns (j: nat)
    ensures FindPrice(models, name).None? <==> Unlisted(models, name)
    ensures FindPrice(models, name).Some? ==> j < |models| && models[j] == FindPrice(models, name).value && FirstOf(models, name, j)
  {
    j := 0;
    if models != [] && !(models[0].model == name && Costs(models[0])) {
      j := FindIs(models[1..], name);
      assert forall m <- models :: m == models[0] || m in models[1..];
      assert forall k :: 0 < k < |models| ==> models[k] == models[1..][k - 1];
      j := j + 1;
    }
  }

  lemma {:induction false} PriceInForce(config: Config, candidates: seq<string>)
    ensures ConfigModel(config, candidates).Some? ==> InForce(config, candidates, ConfigModel(config, candidates).value)
    ensures ConfigModel(config, candidates).None? <==> forall name <- candidates :: Unlisted(config.models, name)
  {
    hide FindPrice, Unlisted, FirstOf;
    if candidates != [] {
      var j := FindIs(config.models, candidates[0]);
      PriceInForce(config, candidates[1..]);
      assert forall name <- candidates :: name == candidates[0] || name in candidates[1..];
      if FindPrice(config.models, candidates[0]).None? && ConfigModel(config, candidates[1..]).Some? {
        LaterInForce(config, candidates, ConfigModel(config, candidates[1..]).value);
      }
    }
  }

  lemma LaterInForce(config: Config, candidates: seq<string>, p: ModelPrice)
    requires candidates != [] && Unlisted(config.models, candidates[0]) && InForce(config, candidates[1..], p)
    ensures InForce(config, candidates, p)
  {
    hide Unlisted, FirstOf;
    var i, j :| 0 <= i < |candidates[1..]| && 0 <= j < |config.models| && config.models[j] == p
      && FirstOf(config.models, candidates[1..][i], j) && forall k :: 0 <= k < i ==> Unlisted(config.models, candidates[1..][k]);
    assert candidates[i + 1] == candidates[1..][i];
    forall k | 0 <= k < i + 1 ensures Unlisted(config.models, candidates[k]) {
      if k > 0 {
        assert candidates[k] == candidates[1..][k - 1];
      }
    }
  }

  // ---- one segment ------------------------------------------------------------------------------

  lemma ItemIsNear(x: Item, price: nat, context: nat, tier: nat)
    requires 0 <= x.tokens <= MAX_COUNT && x.price == price <= MAX_PRICE && context <= MAX_FACTOR && tier <= MAX_FACTOR
    requires x.factor == context * tier / BPS
    ensures Near(x.Amount(), x.tokens, price, context, tier)
  {
    AmountIsNear(x.tokens, price, context, tier);
    hide Near, TokenAmount;
  }

  lemma TokenAmountsNear(p: ModelPrice, tier: int, s: Segment, x: seq<Item>)
    requires ValidPrice(p) && 0 <= tier <= MAX_FACTOR && InRange(s) && x == Items(p, tier, s)
    ensures TokensBilled(p, tier, s, Cost(x[0].Amount(), x[1].Amount(), x[2].Amount(), x[3].Amount(), x[4].Amount(), x[5].Amount(), 0, 0))
  {
    hide Near, Item.Amount;
    ItemIsNear(x[0], p.standard.input, InputFactor(p, s), tier);
    ItemIsNear(x[1], p.standard.output, OutputFactor(p, s), tier);
    ItemIsNear(x[2], p.standard.cacheRead, InputFactor(p, s), tier);
    ItemIsNear(x[3], p.standard.cacheWrite, InputFactor(p, s), tier);
    assert 10_000 * tier / BPS == tier;
    ItemIsNear(x[4], OrElse(p.standard.imageInput, p.standard.input), 10_000, tier);
    ItemIsNear(x[5], OrElse(p.standard.imageOutput, p.standard.output), 10_000, tier);
  }

  /** What a priced segment without images costs, tier by tier. */
  lemma SegmentOfTokens(config: Config, candidates: seq<string>, tier: ServiceTier, s: Segment)
    requires SegmentCost(config, candidates, tier, s).Priced? && Sound(config, candidates, tier, s) && ValidConfig(config)
    requires s.images == 0 && !(s.input == s.output == s.cached == s.cacheCreation == s.imageInput == s.imageOutput == 0)
    ensures var c := SegmentCost(config, candidates, tier, s).cost;
            exists p :: InForce(config, candidates, p)
              && (tier.Standard? ==> TokensBilled(p, 10_000, s, c))
              && (tier.Fast? ==> TokensBilled(p, config.fast, s, c))
              && (tier.Flex? ==> TokensBilled(p, config.flex, s, c))
              && CountedBilled(c.search, s.searches, config.webSearch)
  {
    var p := ConfigModel(config, candidates).value;
    PriceInForce(config, candidates);
    PriceIsValid(config, candidates);
    StoredAmounts(config, candidates, tier, s);
    TokenAmountsNear(p, TierFactor(config, tier), s, Items(p, TierFactor(config, tier), s));
    hide Items, TokensBilled, InForce, Item.Amount, SegmentCost, Sound, ConfigModel, ValidPrice, Micros;
  }

  lemma StoredAmounts(config: Config, candidates: seq<string>, tier: ServiceTier, s: Segment)
    requires SegmentCost(config, candidates, tier, s).Priced? && Sound(config, candidates, tier, s) && ValidConfig(config)
    ensures InRange(s) && SegmentAmounts(config, candidates, tier, s).Some?
    ensures var a, c := SegmentAmounts(config, candidates, tier, s).value, SegmentCost(config, candidates, tier, s).cost;
            && c.input == a.input && c.output == a.output && c.cacheRead == a.cacheRead && c.cacheCreation == a.cacheCreation
            && c.imageInput == a.imageInput && c.imageOutput == a.imageOutput && c.search == a.search
            && CountedBilled(c.search, s.searches, config.webSearch)
            && (s.images > 0 ==> CountedBilled(c.imageOutput, s.images, ImageUnit(config, s.size)))
  {
    var a := SegmentAmounts(config, candidates, tier, s).value;
    SoundAmounts(config, candidates, tier, s);
    StoredIs(a);
    CountedAmounts(config, candidates, tier, s);
    hide SegmentAmounts, ConfigModel, Micros, ValidPrice, CostOf, Sound, Amounts.List, Caught, CountedBilled;
    if s.images > 0 {
      CountIsBilled(s.images, ImageUnit(config, s.size));
    }
    CountIsBilled(s.searches, config.webSearch);
  }

  predicate Plain(amount: int) {
    !Caught(amount) && amount != TWO_TO_63
  }

  lemma SoundAmounts(config: Config, candidates: seq<string>, tier: ServiceTier, s: Segment)
    requires SegmentCost(config, candidates, tier, s).Priced? && Sound(config, candidates, tier, s)
    ensures InRange(s) && SegmentAmounts(config, candidates, tier, s).Some?
    ensures var a := SegmentAmounts(config, candidates, tier, s).value;
            && SegmentCost(config, candidates, tier, s).cost == CostOf(a)
            && Plain(a.input) && Plain(a.output) && Plain(a.cacheRead) && Plain(a.cacheCreation) && Plain(a.imageInput) && Plain(a.imageOutput) && Plain(a.search)
  {
    hide SegmentAmounts, InRange, CostOf, Caught, Int64;
    var a := SegmentAmounts(config, candidates, tier, s).value;
    assert Plain(a.List()[0]) && Plain(a.List()[1]) && Plain(a.List()[2]) && Plain(a.List()[3])
      && Plain(a.List()[4]) && Plain(a.List()[5]) && Plain(a.List()[6]);
  }

  lemma StoredIs(a: Amounts)
    requires Plain(a.input) && Plain(a.output) && Plain(a.cacheRead) && Plain(a.cacheCreation) && Plain(a.imageInput) && Plain(a.imageOutput) && Plain(a.search)
    ensures var c := CostOf(a);
            && c.input == a.input && c.output == a.output && c.cacheRead == a.cacheRead && c.cacheCreation == a.cacheCreation
            && c.imageInput == a.imageInput && c.imageOutput == a.imageOutput && c.search == a.search
  {
  }

  lemma CountedAmounts(config: Config, candidates: seq<string>, tier: ServiceTier, s: Segment)
    requires SegmentAmounts(config, candidates, tier, s).Some?
    ensures var a := SegmentAmounts(config, candidates, tier, s).value;
            && a.search == Micros(s.searches, config.webSearch)
            && (s.images > 0 ==>
                  a == Amounts(0, 0, 0, 0, 0, Micros(s.images, ImageUnit(config, s.size)), Micros(s.searches, config.webSearch)))
  {
    hide Micros, Items, ConfigModel;
  }

  lemma CountIsBilled(count: int, unit: int)
    requires 0 <= count <= MAX_COUNT && 0 <= unit <= MAX_RATE && Plain(Micros(count, unit))
    ensures CountedBilled(Micros(count, unit), count, unit)
  {
    AmountIsClose(count, unit);
    hide Micros;
  }

  /** What a priced segment of images costs, size by size; its tokens cost nothing. */
  lemma SegmentOfImages(config: Config, candidates: seq<string>, tier: ServiceTier, s: Segment)
    requires SegmentCost(config, candidates, tier, s).Priced? && Sound(config, candidates, tier, s) && ValidConfig(config) && s.images > 0
    ensures var c := SegmentCost(config, candidates, tier, s).cost;
            ImagesBilled(config, s, c) && CountedBilled(c.search, s.searches, config.webSearch)
  {
    StoredAmounts(config, candidates, tier, s);
    CountedAmounts(config, candidates, tier, s);
    hide SegmentAmounts, SegmentCost, Sound, CountedBilled, Micros, InRange, ValidPrice;
  }

  /** A segment without tokens and images costs its searches and needs no model. */
  lemma SegmentOfSearches(config: Config, candidates: seq<string>, tier: ServiceTier, s: Segment)
    requires SegmentCost(config, candidates, tier, s).Priced? && Sound(config, candidates, tier, s) && ValidConfig(config)
    requires s.images == 0 && s.input == s.output == s.cached == s.cacheCreation == s.imageInput == s.imageOutput == 0
    ensures var c := SegmentCost(config, candidates, tier, s).cost;
            && c == FREE.(search := c.search, total := c.search) && CountedBilled(c.search, s.searches, config.webSearch)
  {
    StoredAmounts(config, candidates, tier, s);
    SegmentIsSum(config, candidates, tier, s);
    hide SegmentCost, Sound, CountedBilled, Micros, InRange, ValidPrice, ConfigModel;
  }

  // ---- when a segment is priced ----------------------------------------------------------------------

  /** Out of range and without a price exactly as the counts and the price list say. */
  lemma ErrorsAreExact(config: Config, candidates: seq<string>, tier: ServiceTier, s: Segment)
    ensures SegmentCost(config, candidates, tier, s).OutOfRange? <==>
      !(forall n <- [s.input, s.output, s.cached, s.cacheCreation, s.imageInput, s.imageOutput, s.images, s.searches] :: 0 <= n <= 1_000_000_000_000)
    ensures SegmentCost(config, candidates, tier, s).NoPrice? <==>
      && !SegmentCost(config, candidates, tier, s).OutOfRange? && s.images == 0
      && !(s.input == s.output == s.cached == s.cacheCreation == s.imageInput == s.imageOutput == 0)
      && forall name <- candidates :: Unlisted(config.models, name)
  {
    InRangeIs(s);
    PriceInForce(config, candidates);
    hide InRange, Items, Micros, ConfigModel, Unlisted, CostOf, Caught, InForce;
  }

  lemma InRangeIs(s: Segment)
    ensures var counts := [s.input, s.output, s.cached, s.cacheCreation, s.imageInput, s.imageOutput, s.images, s.searches];
            InRange(s) <==> forall n <- counts :: 0 <= n <= 1_000_000_000_000
    ensures InRange(s) ==> s.images >= 0
  {
    var counts := [s.input, s.output, s.cached, s.cacheCreation, s.imageInput, s.imageOutput, s.images, s.searches];
    if forall n <- counts :: 0 <= n <= 1_000_000_000_000 {
      assert counts[0] in counts && counts[1] in counts && counts[2] in counts && counts[3] in counts
        && counts[4] in counts && counts[5] in counts && counts[6] in counts && counts[7] in counts;
    }
  }

  /** An overflow needs an amount of 2^60 micros or more: anything cheaper is priced. */
  lemma CheapIsPriced(config: Config, candidates: seq<string>, tier: ServiceTier, s: Segment)
    requires InRange(s) && SegmentAmounts(config, candidates, tier, s).Some?
    requires forall amount <- SegmentAmounts(config, candidates, tier, s).value.List() :: 0 <= amount < TWO_TO_62 / 4
    ensures SegmentCost(config, candidates, tier, s).Priced? && Sound(config, candidates, tier, s)
  {
    hide SegmentAmounts, InRange, CostOf, Caught, Int64, Amounts.List;
    CheapAmounts(SegmentAmounts(config, candidates, tier, s).value);
  }

  lemma CheapAmounts(a: Amounts)
    requires forall amount <- a.List() :: 0 <= amount < TWO_TO_62 / 4
    ensures |a.List()| == 7 && Int64(CostOf(a).total) && forall i :: 0 <= i < 7 ==> !Caught(a.List()[i]) && a.List()[i] != TWO_TO_63
  {
    assert forall i :: 0 <= i < 7 ==> a.List()[i] in a.List();
    assert a.List()[0] == a.input && a.List()[1] == a.output && a.List()[2] == a.cacheRead && a.List()[3] == a.cacheCreation
      && a.List()[4] == a.imageInput && a.List()[5] == a.imageOutput && a.List()[6] == a.search;
  }

  /** A request of one segment costs what the segment does. */
  lemma OneSegment(config: Config, candidates: seq<string>, tier: ServiceTier, s: Segment)
    ensures TotalCost(config, candidates, tier, [s]) == SegmentCost(config, candidates, tier, s)
  {
    hide SegmentCost, Fits;
    assert [s][..0] == [] && TotalCost(config, candidates, tier, []) == Priced(FREE);
    if SegmentCost(config, candidates, tier, s).Priced? {
      SegmentIsSum(config, candidates, tier, s);
      assert AddCost(FREE, SegmentCost(config, candidates, tier, s).cost) == SegmentCost(config, candidates, tier, s).cost;
    }
  }
}
