/** Double precision: a real number rounded to 53 significant bits, ties to even. The
    exponent is not bounded; the numbers rounded here are far from its ends. */
module Doubles {
  const TWO_TO_52: int := 0x10_0000_0000_0000
  const TWO_TO_53: int := 0x20_0000_0000_0000
  const TWO_TO_62: int := 0x4000_0000_0000_0000
  const TWO_TO_63: int := 0x8000_0000_0000_0000
  const TWO_TO_64: int := 0x1_0000_0000_0000_0000

  const LOW: real := 4503599627370496.0 // 2^52
  const HIGH: real := 9007199254740992.0 // 2^53

  function NearestEven(x: real): int {
    var n := x.Floor;
    if x - n as real < 0.5 || (x - n as real == 0.5 && n % 2 == 0) then n else n + 1
  }

  /** How far x is from the numbers with 53 bits before the point. */
  function Steps(x: real): nat
    requires x > 0.0
  {
    if x >= HIGH then x.Floor else if x < LOW then (LOW / x).Floor else 0
  }

  lemma StepsFall(x: real)
    requires x > 0.0
    ensures x >= HIGH ==> Steps(x / 2.0) < Steps(x)
    ensures x < LOW ==> Steps(x * 2.0) < Steps(x)
  {
    if x < LOW {
      var q := LOW / x;
      assert q * x == LOW;
      assert q > 1.0;
      assert LOW / (x * 2.0) == q / 2.0;
    }
  }

  function Round(x: real): real
    requires x > 0.0
    decreases Steps(x)
  {
    StepsFall(x);
    if x >= HIGH then 2.0 * Round(x / 2.0)
    else if x < LOW then Round(x * 2.0) / 2.0
    else NearestEven(x) as real
  }

  function Double(x: real): real {
    if x > 0.0 then Round(x) else if x < 0.0 then -Round(-x) else 0.0
  }

  function Mul(x: real, y: real): real {
    Double(x * y)
  }

  function Div(x: real, y: real): real
    requires y != 0.0
  {
    Double(x / y)
  }

  /** The rounding error is at most one part in 2^53. */
  lemma {:induction false} RoundIsClose(x: real)
    requires x > 0.0
    ensures -x <= (Round(x) - x) * HIGH <= x
    decreases Steps(x)
  {
    StepsFall(x);
    if x >= HIGH {
      RoundIsClose(x / 2.0);
    } else if x < LOW {
      RoundIsClose(x * 2.0);
    }
  }

  /** x * 2^k. */
  function Scaled(x: real, k: nat): real {
    if k == 0 then x else 2.0 * Scaled(x, k - 1)
  }

  lemma RoundTwice(x: real)
    requires x > 0.0
    ensures Round(2.0 * x) == 2.0 * Round(x)
  {
    assert 2.0 * x / 2.0 == x;
  }

  /** Scaling by a power of two commutes with rounding. */
  lemma {:induction false} RoundScales(x: real, k: nat)
    requires x > 0.0
    ensures Scaled(x, k) > 0.0 && Round(Scaled(x, k)) == Scaled(Round(x), k)
  {
    hide Round;
    if k > 0 {
      RoundScales(x, k - 1);
      RoundTwice(Scaled(x, k - 1));
    }
  }

  lemma {:induction false} ScaledIsProduct(x: real, k: nat)
    ensures Scaled(x, k) == Scaled(1.0, k) * x
  {
    if k > 0 {
      ScaledIsProduct(x, k - 1);
    }
  }

  lemma ScaledByTen(x: real)
    ensures Scaled(x, 10) == 1024.0 * x
  {
    ScaledIsProduct(x, 10);
    assert Scaled(1.0, 10) == 1024.0;
  }

  /** x rounds to m / 2^k if, scaled to 53 bits before the point, it is nearest to m. */
  lemma RoundsTo(x: real, k: nat, m: int)
    requires x > 0.0 && LOW <= Scaled(x, k) < HIGH && NearestEven(Scaled(x, k)) == m
    ensures Scaled(Double(x), k) == m as real
  {
    RoundScales(x, k);
    hide Scaled, NearestEven;
  }

  lemma Powers()
    ensures Scaled(1.0, 50) == 1125899906842624.0 && Scaled(1.0, 51) == 2251799813685248.0
    ensures Scaled(1.0, 56) == 72057594037927936.0 && Scaled(1.0, 57) == 144115188075855872.0
    ensures Scaled(1.0, 70) == 1180591620717411303424.0 && Scaled(1.0, 71) == 2361183241434822606848.0
  {
    assert Scaled(1.0, 10) == 1024.0;
    assert Scaled(1.0, 20) == 1048576.0;
    assert Scaled(1.0, 30) == 1073741824.0;
    assert Scaled(1.0, 40) == 1099511627776.0;
    assert Scaled(1.0, 50) == 1125899906842624.0;
    assert Scaled(1.0, 60) == 1152921504606846976.0;
  }

  /** Integers of up to 53 bits are doubles. */
  lemma {:induction false} RoundIsExact(n: nat)
    requires 0 < n <= TWO_TO_53
    ensures Round(n as real) == n as real
    decreases TWO_TO_53 - n
  {
    if n == TWO_TO_53 {
      assert Round(LOW) == LOW;
    } else if n < TWO_TO_52 {
      RoundIsExact(2 * n);
      assert n as real * 2.0 == (2 * n) as real;
    }
  }

  lemma DoubleIsExact(n: int)
    requires -TWO_TO_53 <= n <= TWO_TO_53
    ensures Double(n as real) == n as real
  {
    if n > 0 {
      RoundIsExact(n);
    } else if n < 0 {
      RoundIsExact(-n);
    }
  }

  lemma DoubleIsClose(x: real)
    requires x >= 0.0
    ensures -x <= (Double(x) - x) * HIGH <= x && Double(x) >= 0.0
  {
    if x > 0.0 {
      RoundIsClose(x);
    }
  }

  /** From 2^52 on doubles are whole. */
  lemma {:induction false} RoundIsWhole(x: real)
    requires x >= LOW
    ensures Round(x).Floor as real == Round(x)
    decreases Steps(x)
  {
    StepsFall(x);
    if x >= HIGH {
      RoundIsWhole(x / 2.0);
      var half := Round(x / 2.0).Floor;
      assert Round(x) == (2 * half) as real;
    }
  }

  lemma DoubleIsWhole(n: nat)
    ensures Double(n as real).Floor as real == Double(n as real) && Double(n as real) >= 0.0
  {
    DoubleIsClose(n as real);
    if n <= TWO_TO_53 {
      DoubleIsExact(n);
    } else {
      RoundIsWhole(n as real);
    }
    hide Round;
  }

  // ---- around the largest int64 --------------------------------------------------------------

  lemma LowerHalf(n: nat)
    requires TWO_TO_62 <= n < TWO_TO_63
    ensures Double(n as real) == 1024.0 * NearestEven(n as real / 1024.0) as real
  {
    var x := n as real / 1024.0;
    ScaledByTen(x);
    ScaledByTen(Round(x));
    RoundScales(x, 10);
    hide NearestEven, Scaled;
  }

  lemma UpperHalf(n: nat)
    requires TWO_TO_63 <= n < TWO_TO_64
    ensures Double(n as real) == 2048.0 * NearestEven(n as real / 2048.0) as real
  {
    var x := n as real / 2048.0;
    ScaledByTen(2.0 * x);
    ScaledByTen(Round(2.0 * x));
    RoundTwice(x);
    RoundScales(2.0 * x, 10);
    hide NearestEven, Scaled;
  }

  /** Exactly the whole numbers from 2^63 - 512 to 2^63 + 1024 round to 2^63; smaller ones
      stay below it and are off by at most 512, larger ones stay above. */
  lemma RoundsToLimit(n: nat)
    ensures Double(n as real) == TWO_TO_63 as real <==> TWO_TO_63 - 512 <= n <= TWO_TO_63 + 1024
    ensures Double(n as real) > TWO_TO_63 as real <==> n > TWO_TO_63 + 1024
    ensures n < TWO_TO_63 ==> -512.0 <= Double(n as real) - n as real <= 512.0
  {
    DoubleIsClose(n as real);
    if TWO_TO_62 <= n < TWO_TO_63 {
      LowerHalf(n);
    } else if TWO_TO_63 <= n < TWO_TO_64 {
      UpperHalf(n);
    }
    hide Double;
  }
}
