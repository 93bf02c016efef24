/** The price of a number of tokens: five operations in double precision and a rounding to
    whole micros, against the exact product rounded half up. */
module TokenRounding {
  import opened Doubles

  const UNIT: int := 10_000_000_000 // tokens * price * factor per micro
  const BPS: int := 10_000
  const PRECISION: int := 0x4_0000_0000_0000 // 2^50

  const PART: real := 1125899906842624.0 // 2^50

  function HalfUp(x: int): int {
    (x + UNIT / 2) / UNIT
  }

  /** `math.Round`: half away from zero. */
  function RoundHalfAway(x: real): int {
    if x >= 0.0 then (x + 0.5).Floor else -(-x + 0.5).Floor
  }

  /** The operations of `calculate` after tokens * price, which is `product` here. */
  function FromProduct(product: real, factor: real): real {
    Mul(Div(Mul(Div(product, 1000000000000.0), factor), 10000.0), 1000000.0)
  }

  function Chain(tokens: int, price: int, factor: int): real {
    FromProduct(Mul(Double(tokens as real), Double(price as real)), Double(factor as real))
  }

  /** `calculate` before its guard. */
  function TokenAmount(tokens: int, price: int, factor: int): int {
    RoundHalfAway(Chain(tokens, price, factor))
  }

  // ---- how far the chain is from the product --------------------------------------------

  /** n times x: n roundings move x by at most that over 6 * 2^50. */
  function Multiple(x: real, n: nat): real {
    if n == 0 then 0.0 else x + Multiple(x, n - 1)
  }

  /** y is x up to n roundings. */
  predicate Near(x: real, y: real, n: nat) {
    x >= 0.0 && y >= 0.0 && -Multiple(x, n) <= (y - x) * PART * 6.0 <= Multiple(x, n)
  }

  lemma {:induction false} MultipleTimes(x: real, n: nat, c: real)
    ensures Multiple(x * c, n) == Multiple(x, n) * c
  {
    if n > 0 {
      MultipleTimes(x, n - 1, c);
      SumTimes(Multiple(x, n), x, Multiple(x, n - 1), c);
    } else {
      SumTimes(Multiple(x, n), 0.0, 0.0, c);
    }
  }

  lemma MultipleOfFive(x: real)
    ensures Multiple(x, 5) == 5.0 * x
  {
    assert Multiple(x, 1) == x;
    assert Multiple(x, 2) == 2.0 * x;
    assert Multiple(x, 3) == 3.0 * x;
    assert Multiple(x, 4) == 4.0 * x;
  }

  lemma {:induction false} MultipleRises(x: real, n: nat)
    requires x >= 0.0 && n <= 5
    ensures Multiple(x, n) <= Multiple(x, 5)
    decreases 5 - n
  {
    if n < 5 {
      MultipleRises(x, n + 1);
    }
  }

  lemma Rounded(x: real, y: real, n: nat)
    requires Near(x, y, n) && n < 5
    ensures Near(x, Double(y), n + 1)
  {
    DoubleIsClose(y);
    MultipleOfFive(x);
    MultipleRises(x, n);
    assert Multiple(x, n + 1) == x + Multiple(x, n);
    hide Double, Multiple;
  }

  lemma Multiplied(x: real, y: real, n: nat, c: real)
    requires Near(x, y, n) && c >= 0.0 && n < 5
    ensures Near(x * c, Mul(y, c), n + 1)
  {
    Widened(x, y, n, c);
    Rounded(x * c, y * c, n);
    hide Near, Double;
  }

  lemma Widened(x: real, y: real, n: nat, c: real)
    requires Near(x, y, n) && c >= 0.0
    ensures Near(x * c, y * c, n)
  {
    Times(-Multiple(x, n), (y - x) * PART * 6.0, c);
    Times((y - x) * PART * 6.0, Multiple(x, n), c);
    Times(0.0, x, c);
    Times(0.0, y, c);
    MultipleTimes(x, n, c);
    Spread(y, x, c);
    Negated(Multiple(x, n), c);
    hide Multiple;
  }

  lemma SameNear(x: real, y: real, n: nat, a: real, b: real)
    requires Near(x, y, n) && a == x && b == y
    ensures Near(a, b, n)
  {
  }

  lemma Times(a: real, b: real, c: real)
    requires a <= b && c >= 0.0
    ensures a * c <= b * c
  {
  }

  lemma SumTimes(a: real, b: real, d: real, c: real)
    requires a == b + d
    ensures a * c == b * c + d * c
  {
  }

  lemma Negated(a: real, c: real)
    ensures -a * c == -(a * c)
  {
  }

  lemma Spread(y: real, x: real, c: real)
    ensures (y - x) * PART * 6.0 * c == (y * c - x * c) * PART * 6.0
  {
    var d := y - x;
    assert d * c == y * c - x * c;
    assert d * (PART * 6.0) * c == d * c * (PART * 6.0);
  }

  /** The exact price in micros. */
  function Exact(product: int): real {
    product as real / 10000000000.0
  }

  /** Counts, prices and multipliers as a published price list allows them are exact doubles. */
  predicate ValidFactors(tokens: int, price: int, factor: int) {
    0 <= tokens <= TWO_TO_53 && 0 <= price <= TWO_TO_53 && 0 <= factor <= TWO_TO_53
  }

  /** y is off by at most one part in 2^50. */
  predicate Close(x: real, y: real) {
    x >= 0.0 && y >= 0.0 && -x <= (y - x) * PART <= x
  }

  lemma ChainIsClose(tokens: int, price: int, factor: int)
    requires ValidFactors(tokens, price, factor)
    ensures Close(Exact(tokens * price * factor), Chain(tokens, price, factor))
  {
    hide Near, Close, Exact, Straight, Chain, FromProduct, Double;
    ChainFromProduct(tokens, price, factor);
    Times(0.0, tokens as real, price as real);
    FromProductIsClose(tokens as real * price as real, factor as real);
    ChainWithoutRounding(tokens, price, factor);
    FiveOfSix(Exact(tokens * price * factor), Chain(tokens, price, factor));
  }

  lemma ChainFromProduct(tokens: int, price: int, factor: int)
    requires ValidFactors(tokens, price, factor)
    ensures Chain(tokens, price, factor) == FromProduct(Double(tokens as real * price as real), factor as real)
  {
    DoubleIsExact(tokens);
    DoubleIsExact(price);
    DoubleIsExact(factor);
    hide Double, FromProduct;
  }

  lemma ChainWithoutRounding(tokens: int, price: int, factor: int)
    ensures Straight(tokens as real * price as real, factor as real) == Exact(tokens * price * factor)
  {
    var product := tokens as real * price as real;
    assert (tokens * price) as real == product;
    assert (tokens * price * factor) as real == product * factor as real by { ProductOfReals(tokens * price, factor); }
    Rescaled(product, factor as real);
    hide Straight;
  }

  lemma ProductOfReals(a: int, b: int)
    ensures (a * b) as real == a as real * b as real
  {
  }

  /** The operations of `FromProduct` without their roundings. */
  function Straight(product: real, factor: real): real {
    Factored(product / 1000000000000.0, factor)
  }

  function Factored(base: real, factor: real): real {
    base * factor / 10000.0 * 1000000.0
  }

  lemma FromProductIsClose(product: real, factor: real)
    requires product >= 0.0 && factor >= 0.0
    ensures Near(Straight(product, factor), FromProduct(Double(product), factor), 5)
  {
    NothingOff(product);
    Rounded(product, product, 0);
    ByTrillion(product, Double(product), 1);
    AfterBase(product / 1000000000000.0, Div(Double(product), 1000000000000.0), factor);
    hide Div, Mul, Double, Near, Factored;
  }

  lemma AfterBase(x: real, y: real, factor: real)
    requires Near(x, y, 2) && factor >= 0.0
    ensures Near(Factored(x, factor), Mul(Div(Mul(y, factor), 10000.0), 1000000.0), 5)
  {
    Multiplied(x, y, 2, factor);
    AfterFactor(x * factor, Mul(y, factor));
    hide Div, Mul, Near;
  }

  lemma AfterFactor(x: real, y: real)
    requires Near(x, y, 3)
    ensures Near(x / 10000.0 * 1000000.0, Mul(Div(y, 10000.0), 1000000.0), 5)
  {
    ByTenThousand(x, y, 3);
    Multiplied(x / 10000.0, Div(y, 10000.0), 4, 1000000.0);
    hide Div, Mul, Near;
  }

  lemma NothingOff(x: real)
    requires x >= 0.0
    ensures Near(x, x, 0)
  {
  }

  lemma FiveOfSix(x: real, y: real)
    requires Near(x, y, 5)
    ensures Close(x, y)
  {
    MultipleOfFive(x);
    hide Multiple;
  }

  lemma ByTrillion(x: real, y: real, n: nat)
    requires Near(x, y, n) && n < 5
    ensures Near(x / 1000000000000.0, Div(y, 1000000000000.0), n + 1)
  {
    hide Near, Double;
    Widened(x, y, n, 0.000000000001);
    SameNear(x * 0.000000000001, y * 0.000000000001, n, x / 1000000000000.0, y / 1000000000000.0);
    Rounded(x / 1000000000000.0, y / 1000000000000.0, n);
  }

  lemma ByTenThousand(x: real, y: real, n: nat)
    requires Near(x, y, n) && n < 5
    ensures Near(x / 10000.0, Div(y, 10000.0), n + 1)
  {
    hide Near, Double;
    Widened(x, y, n, 0.0001);
    SameNear(x * 0.0001, y * 0.0001, n, x / 10000.0, y / 10000.0);
    Rounded(x / 10000.0, y / 10000.0, n);
  }

  lemma Rescaled(product: real, factor: real)
    ensures Straight(product, factor) == product * factor / 10000000000.0
  {
    var p := product * factor;
    assert product / 1000000000000.0 * factor == p / 1000000000000.0;
  }

  // ---- whole micros -------------------------------------------------------------------------

  /** The exact price is further from a half micro than the chain may be off. */
  predicate Clear(product: int) {
    var off := product % UNIT - UNIT / 2;
    (if off >= 0 then off else -off) * PRECISION > product
  }

  /** The exact price is at most 2^49 micros, about 560 million dollars. */
  predicate Moderate(product: int) {
    product <= UNIT * (PRECISION / 2)
  }

  lemma ExactParts(product: int)
    requires product >= 0
    ensures Exact(product) == (product / UNIT) as real + (product % UNIT) as real / 10000000000.0
    ensures HalfUp(product) == if product % UNIT >= UNIT / 2 then product / UNIT + 1 else product / UNIT
  {
    assert product == product / UNIT * UNIT + product % UNIT;
    assert (product / UNIT * UNIT) as real == (product / UNIT) as real * 10000000000.0;
  }

  lemma ClearRounds(product: int, y: real)
    requires product >= 0 && Clear(product) && Close(Exact(product), y)
    ensures RoundHalfAway(y) == HalfUp(product)
  {
    ExactParts(product);
    FloorIs(y + 0.5, HalfUp(product));
    hide HalfUp;
  }

  lemma FloorIs(x: real, n: int)
    ensures n as real <= x < n as real + 1.0 <==> x.Floor == n
  {
  }

  /** At a half micro the chain decides: rounded up if it did not fall below the exact price. */
  lemma HalfRounds(product: int, y: real)
    requires product >= 0 && product % UNIT == UNIT / 2 && Moderate(product) && Close(Exact(product), y)
    ensures RoundHalfAway(y) == if y >= Exact(product) then HalfUp(product) else HalfUp(product) - 1
  {
    ExactParts(product);
    FloorIs(y + 0.5, HalfUp(product));
    FloorIs(y + 0.5, HalfUp(product) - 1);
    hide HalfUp;
  }

  /** The half micro next to the exact price. */
  function HalfOf(product: int): real {
    (product / UNIT) as real + 0.5
  }

  /** Up to 2^49 micros the price is rounded half up exactly when the chain ends on the exact
      price's side of the half micro. */
  lemma SameSide(product: int, y: real)
    requires product >= 0 && Moderate(product) && Close(Exact(product), y)
    ensures RoundHalfAway(y) == HalfUp(product) <==> (Exact(product) >= HalfOf(product) <==> y >= HalfOf(product))
  {
    ExactParts(product);
    FloorIs(y + 0.5, HalfUp(product));
    hide HalfUp;
  }

  /** Rounding moves by half a micro and the chain by one part in 2^50. */
  lemma RoundsNear(product: int, y: real)
    requires product >= 0 && Close(Exact(product), y)
    ensures -(PRECISION / 2 * UNIT) - product <= PRECISION * (UNIT * RoundHalfAway(y) - product) <= PRECISION / 2 * UNIT + product
  {
    var a, x := RoundHalfAway(y), Exact(product);
    assert -0.5 <= a as real - y <= 0.5;
    assert -(x + PART / 2.0) <= (a as real - x) * PART <= x + PART / 2.0;
    var d := UNIT * a - product;
    assert d as real == (a as real - x) * 10000000000.0;
    assert (PRECISION * d) as real == d as real * PART;
  }

  lemma ProductIsNat(tokens: int, price: int, factor: int)
    requires ValidFactors(tokens, price, factor)
    ensures tokens * price * factor >= 0
  {
    assert tokens * price >= 0;
  }

  /** What `calculate` makes of the exact price: away from half micros that price rounded half
      up; up to 2^49 micros, that exactly when the chain ends on the same side of the half micro,
      never more than one micro off, and at a half micro one less if the chain ends below it;
      and always within half a micro and one part in 2^50. */
  lemma AmountOfTokens(tokens: int, price: int, factor: int)
    requires ValidFactors(tokens, price, factor)
    ensures var product, amount := tokens * price * factor, TokenAmount(tokens, price, factor);
            && product >= 0 && amount >= 0
            && (Clear(product) ==> amount == HalfUp(product))
            && (product % UNIT == UNIT / 2 && Moderate(product) ==>
                  amount == if Chain(tokens, price, factor) >= Exact(product) then HalfUp(product) else HalfUp(product) - 1)
            && (Moderate(product) ==>
                  && HalfUp(product) - 1 <= amount <= HalfUp(product) + 1
                  && (amount == HalfUp(product)
                      <==> (Exact(product) >= HalfOf(product) <==> Chain(tokens, price, factor) >= HalfOf(product))))
            && -(PRECISION / 2 * UNIT) - product <= PRECISION * (UNIT * amount - product) <= PRECISION / 2 * UNIT + product
  {
    var product, y := tokens * price * factor, Chain(tokens, price, factor);
    ProductIsNat(tokens, price, factor);
    ChainIsClose(tokens, price, factor);
    if Clear(product) {
      ClearRounds(product, y);
    }
    if product % UNIT == UNIT / 2 && Moderate(product) {
      HalfRounds(product, y);
    }
    if Moderate(product) {
      SameSide(product, y);
    }
    RoundsNear(product, y);
    NearInMicros(product, RoundHalfAway(y));
    assert y >= 0.0;
    hide Chain, Clear, Exact, Close, HalfUp, HalfOf;
  }

  lemma NearInMicros(product: int, amount: int)
    requires product >= 0
    requires -(PRECISION / 2 * UNIT) - product <= PRECISION * (UNIT * amount - product) <= PRECISION / 2 * UNIT + product
    ensures Moderate(product) ==> HalfUp(product) - 1 <= amount <= HalfUp(product) + 1
  {
  }

  /** Small prices, up to 112589 micros: only half micros themselves are not clear. */
  lemma SmallIsClear(product: int)
    requires 0 <= product < PRECISION
    ensures Clear(product) <==> product % UNIT != UNIT / 2
  {
  }

  // ---- half micros that are billed down -----------------------------------------------------------

  /** x rounds to m / power, a power of two, if it is nearest to that. */
  lemma RoundsToParts(x: real, k: nat, power: real, m: int)
    requires Scaled(1.0, k) == power && power > 0.0 && x > 0.0
    requires LOW <= power * x < HIGH && m as real - 0.5 < power * x < m as real + 0.5
    ensures power * Double(x) == m as real
  {
    hide Scaled, Double, NearestEven;
    ScaledIs(x, k, power);
    ScaledIs(Double(x), k, power);
    NearestIs(Scaled(x, k), m);
    RoundsTo(x, k, m);
  }

  lemma ScaledIs(x: real, k: nat, power: real)
    requires Scaled(1.0, k) == power
    ensures Scaled(x, k) == power * x
  {
    ScaledIsProduct(x, k);
    hide Scaled;
  }

  lemma NearestIs(x: real, m: int)
    requires m as real - 0.5 < x < m as real + 0.5
    ensures NearestEven(x) == m
  {
  }

  lemma SevenAndAHalf()
    ensures FromProduct(7500000.0, 10000.0) * 1125899906842624.0 == 8444249301319679.0
  {
    Powers();
    hide Double, Scaled;
    var base := Div(7500000.0, 1000000000000.0);
    RoundsToParts(7500000.0 / 1000000000000.0, 70, 1180591620717411303424.0, 8854437155380585);
    var times := Mul(base, 10000.0);
    RoundsToParts(base * 10000.0, 56, 72057594037927936.0, 5404319552844595);
    var over := Div(times, 10000.0);
    RoundsToParts(times / 10000.0, 70, 1180591620717411303424.0, 8854437155380584);
    RoundsToParts(over * 1000000.0, 50, 1125899906842624.0, 8444249301319679);
  }

  lemma ThreeAndAHalf()
    ensures FromProduct(3500000.0, 10000.0) * 2251799813685248.0 == 7881299347898367.0
  {
    Powers();
    hide Double, Scaled;
    var base := Div(3500000.0, 1000000000000.0);
    RoundsToParts(3500000.0 / 1000000000000.0, 71, 2361183241434822606848.0, 8264141345021879);
    var times := Mul(base, 10000.0);
    RoundsToParts(base * 10000.0, 57, 144115188075855872.0, 5044031582654955);
    var over := Div(times, 10000.0);
    RoundsToParts(times / 10000.0, 71, 2361183241434822606848.0, 8264141345021878);
    RoundsToParts(over * 1000000.0, 51, 2251799813685248.0, 7881299347898367);
  }

  lemma ChainOf(tokens: nat, price: nat, product: nat)
    requires tokens <= TWO_TO_53 && price <= TWO_TO_53 && product <= TWO_TO_53 && tokens * price == product
    ensures Chain(tokens, price, BPS) == FromProduct(product as real, 10000.0)
  {
    hide Double, FromProduct, Chain;
    ChainFromProduct(tokens, price, BPS);
    ProductOfReals(tokens, price);
    DoubleIsExact(product);
  }

  lemma RoundsToWhole(y: real, n: nat)
    requires y >= 0.0 && n as real - 0.5 <= y < n as real + 0.5
    ensures RoundHalfAway(y) == n
  {
  }

  /** 7.5 micros become 7 and 3.5 become 3, whatever the count and the price: 6 tokens at
      1,250,000 a million, or 50,000 at 70. */
  lemma HalfMicroIsLost(tokens: nat, price: nat)
    requires tokens <= TWO_TO_53 && price <= TWO_TO_53
    ensures tokens * price == 7_500_000 ==> TokenAmount(tokens, price, BPS) == 7 && HalfUp(7_500_000 * BPS) == 8
    ensures tokens * price == 3_500_000 ==> TokenAmount(tokens, price, BPS) == 3 && HalfUp(3_500_000 * BPS) == 4
  {
    hide Double, FromProduct, Chain, RoundHalfAway;
    if tokens * price == 7_500_000 {
      ChainOf(tokens, price, 7_500_000);
      SevenAndAHalf();
      RoundsToWhole(FromProduct(7500000.0, 10000.0), 7);
    } else if tokens * price == 3_500_000 {
      ChainOf(tokens, price, 3_500_000);
      ThreeAndAHalf();
      RoundsToWhole(FromProduct(3500000.0, 10000.0), 3);
    }
  }
}
