/** Rounding to the nearest double is possible: every real number has a nearest one. */
module Doubles {
  import opened Wrappers
  import opened Xlm

  const TWO_52: int := 4_503_599_627_370_496

  // ------------------------------------------------------------- scales

  lemma Quotients(a: real, b: real)
    requires b > 0.0
    ensures (2.0 * a) / b == 2.0 * (a / b) && a / (2.0 * b) == (a / b) / 2.0
  {
    var q := a / b;
    assert q * b == a;
    assert (2.0 * q) * b == 2.0 * a;
    assert (q / 2.0) * (2.0 * b) == a;
  }

  lemma ScaleSteps(m: int, up: nat, down: nat)
    ensures Scaled(m, up + 1, down) == 2.0 * Scaled(m, up, down)
    ensures Scaled(m, up, down + 1) == Scaled(m, up, down) / 2.0
  {
    assert Pow2(up + 1) == 2.0 * Pow2(up) && Pow2(down + 1) == 2.0 * Pow2(down);
    hide Pow2;
    var n := m as real * Pow2(up);
    assert m as real * Pow2(up + 1) == 2.0 * n;
    assert Scaled(m, up + 1, down) == (2.0 * n) / Pow2(down);
    assert Scaled(m, up, down + 1) == n / (2.0 * Pow2(down));
    Quotients(n, Pow2(down));
  }

  lemma DoublesScale(d: real)
    ensures IsDouble(d) <==> IsDouble(2.0 * d)
  {
    if IsDouble(d) {
      var m: int, up: nat, down: nat :| -TWO_53 <= m <= TWO_53 && d == Scaled(m, up, down);
      ScaleSteps(m, up, down);
      assert 2.0 * d == Scaled(m, up + 1, down);
    }
    if IsDouble(2.0 * d) {
      var m: int, up: nat, down: nat :| -TWO_53 <= m <= TWO_53 && 2.0 * d == Scaled(m, up, down);
      ScaleSteps(m, up, down);
      assert d == Scaled(m, up, down + 1);
    }
  }

  /** Being nearest does not depend on the binary scale. */
  lemma NearestScales(x: real, d: real)
    ensures Nearest(x, d) <==> Nearest(2.0 * x, 2.0 * d)
  {
    DoublesScale(d);
    if Nearest(x, d) {
      forall e | IsDouble(e) ensures Distance(2.0 * x, 2.0 * d) <= Distance(2.0 * x, e) {
        DoublesScale(e / 2.0);
        assert Distance(x, d) <= Distance(x, e / 2.0);
      }
    }
    if Nearest(2.0 * x, 2.0 * d) {
      forall e | IsDouble(e) ensures Distance(x, d) <= Distance(x, e) {
        DoublesScale(e);
        assert Distance(2.0 * x, 2.0 * d) <= Distance(2.0 * x, 2.0 * e);
      }
    }
  }

  // ------------------------------------------------------------- where doubles are whole

  lemma {:induction false} Pow2IsWhole(n: nat) returns (w: int)
    ensures Pow2(n) == w as real
  {
    if n == 0 {
      w := 1;
    } else {
      var h := Pow2IsWhole(n - 1);
      w := 2 * h;
    }
  }

  predicate IsWhole(x: real) {
    x == x.Floor as real
  }

  /** A double is a whole number, or at most 2^52. */
  lemma {:induction false} WholeOrSmall(m: int, up: nat, down: nat)
    requires -TWO_53 <= m <= TWO_53
    ensures IsWhole(Scaled(m, up, down)) || Scaled(m, up, down) <= TWO_52 as real
  {
    if up > 0 && down > 0 {
      ScaleSteps(m, up - 1, down - 1);
      ScaleSteps(m, up, down - 1);
      WholeOrSmall(m, up - 1, down - 1);
    } else if down == 0 {
      var w := Pow2IsWhole(up);
      assert Pow2(0) == 1.0;
      hide Pow2;
      assert m as real * w as real == (m * w) as real;
      assert Scaled(m, up, down) == (m * w) as real;
    } else {
      assert Pow2(0) == 1.0 && Pow2(down) == 2.0 * Pow2(down - 1);
      hide Pow2;
      Halved(m as real, Pow2(down));
    }
  }

  lemma Halved(m: real, p: real)
    requires m <= TWO_53 as real && p >= 2.0
    ensures m * 1.0 / p <= TWO_52 as real
  {
    var q := m * 1.0 / p;
    assert q * p == m;
    if q > 0.0 {
      assert q * (p - 2.0) >= 0.0;
    }
  }

  lemma NoneBetween(k: int, e: real)
    requires TWO_52 <= k && IsDouble(e)
    ensures e <= k as real || e >= (k + 1) as real
  {
    var m: int, up: nat, down: nat :| -TWO_53 <= m <= TWO_53 && e == Scaled(m, up, down);
    WholeOrSmall(m, up, down);
    GapAbove(k, e);
  }

  lemma GapAbove(k: int, e: real)
    requires TWO_52 <= k && (IsWhole(e) || e <= TWO_52 as real)
    ensures e <= k as real || e >= (k + 1) as real
  {
    var n := e.Floor;
    if n <= k {
      assert n as real <= k as real && TWO_52 as real <= k as real;
    } else {
      assert n as real >= (k + 1) as real;
    }
  }

  /** From 2^52 to 2^53 the doubles are the whole numbers. */
  lemma WholeHasNearest(x: real) returns (d: real)
    requires TWO_52 as real <= x < TWO_53 as real
    ensures Nearest(x, d)
  {
    var k := x.Floor;
    IntegersAreDoubles(k);
    IntegersAreDoubles(k + 1);
    forall e | IsDouble(e) ensures e <= k as real || e >= (k + 1) as real {
      NoneBetween(k, e);
    }
    hide IsDouble;
    d := if x - k as real <= (k + 1) as real - x then k as real else (k + 1) as real;
  }

  // ------------------------------------------------------------- everywhere else

  lemma {:induction false} LargeHasNearest(x: real) returns (d: real)
    requires x >= TWO_52 as real
    ensures Nearest(x, d)
    decreases x.Floor
  {
    if x < TWO_53 as real {
      d := WholeHasNearest(x);
    } else {
      var half := LargeHasNearest(x / 2.0);
      NearestScales(x / 2.0, half);
      d := 2.0 * half;
    }
  }

  lemma {:induction false} SmallHasNearest(x: real) returns (d: real)
    requires 0.0 < x < TWO_53 as real
    ensures Nearest(x, d)
    decreases (TWO_53 as real / x).Floor
  {
    if x >= TWO_52 as real {
      d := WholeHasNearest(x);
    } else {
      Doublings(x);
      var twice := SmallHasNearest(2.0 * x);
      NearestScales(x, twice / 2.0);
      d := twice / 2.0;
    }
  }

  lemma Doublings(x: real)
    requires 0.0 < x < TWO_52 as real
    ensures (TWO_53 as real / (2.0 * x)).Floor < (TWO_53 as real / x).Floor
  {
    var r := TWO_53 as real / x;
    assert r * x == TWO_53 as real;
    Quotients(TWO_53 as real, x);
    assert r > 0.0;
    assert r * (TWO_52 as real - x) > 0.0;
    assert r * TWO_52 as real > 2.0 * TWO_52 as real;
    assert r > 2.0;
    assert TWO_53 as real / (2.0 * x) == r / 2.0;
  }

  lemma Negated(a: real, b: real)
    requires b > 0.0
    ensures (-a) / b == -(a / b)
  {
    var q := a / b;
    assert q * b == a;
    assert (-q) * b == -a;
  }

  lemma MirrorScaled(m: int, up: nat, down: nat)
    ensures Scaled(-m, up, down) == -Scaled(m, up, down)
  {
    hide Pow2;
    var n := m as real * Pow2(up);
    assert (-m) as real == -(m as real);
    assert (-m) as real * Pow2(up) == -n;
    Negated(n, Pow2(down));
  }

  lemma MirrorDouble(d: real)
    requires IsDouble(d)
    ensures IsDouble(-d)
  {
    var m: int, up: nat, down: nat :| -TWO_53 <= m <= TWO_53 && d == Scaled(m, up, down);
    MirrorScaled(m, up, down);
    hide Scaled;
    assert -d == Scaled(-m, up, down);
  }

  lemma MirrorNearest(x: real, d: real)
    requires Nearest(x, d)
    ensures Nearest(-x, -d)
  {
    MirrorDouble(d);
    forall e | IsDouble(e) ensures Distance(-x, -d) <= Distance(-x, e) {
      MirrorDouble(e);
      assert Distance(x, d) <= Distance(x, -e);
    }
  }

  lemma NearestExists(x: real)
    ensures exists d :: Nearest(x, d)
  {
    var d;
    if x == 0.0 {
      IntegersAreDoubles(0);
      d := 0.0;
    } else if x >= TWO_52 as real {
      d := LargeHasNearest(x);
    } else if x > 0.0 {
      d := SmallHasNearest(x);
    } else if x > -(TWO_53 as real) {
      var e := SmallHasNearest(-x);
      MirrorNearest(-x, e);
      d := -e;
    } else {
      var e := LargeHasNearest(-x);
      MirrorNearest(-x, e);
      d := -e;
    }
    assert Nearest(x, d);
  }

  ghost function Rounded(x: real): (d: real)
    ensures Nearest(x, d)
  {
    NearestExists(x);
    var d :| Nearest(x, d);
    d
  }

  lemma SomethingRounds()
    ensures RoundsToNearest(x => Rounded(x))
  {
    hide Nearest;
  }

  /** So with this rounding, and nothing assumed, what is printed for a safe amount is read as that amount. */
  lemma AmountsRoundTrip(n: int)
    requires -9_007_199_254_740_991 <= n <= 9_007_199_254_740_991
    ensures XlmToStroops(x => Rounded(x), WithoutCommas(FormatXlm(x => Rounded(x), n)))
         == if n > 0 then Ok(n) else if n == 0 then Err(NotPositive) else Err(NotAnAmount)
  {
    SomethingRounds();
    FormatThenParse(x => Rounded(x), n);
    hide XlmToStroops, FormatXlm;
  }


  // ------------------------------------------------------------- how many bits there are

  lemma {:induction false} NotScaled(n: int, m: int, up: nat, down: nat)
    requires n % 2 == 1 && n > TWO_53 && -TWO_53 <= m <= TWO_53
    ensures Scaled(m, up, down) != n as real
  {
    if up > 0 && down > 0 {
      ScaleSteps(m, up - 1, down - 1);
      ScaleSteps(m, up, down - 1);
      NotScaled(n, m, up - 1, down - 1);
    } else if up == 0 {
      assert Pow2(0) == 1.0;
      NoLarger(m, Pow2(down));
    } else {
      var h := Pow2IsWhole(up - 1);
      assert Pow2(0) == 1.0 && Pow2(up) == (2 * h) as real;
      hide Pow2;
      assert Scaled(m, up, down) == (2 * (m * h)) as real;
    }
  }

  lemma NoLarger(m: int, p: real)
    requires m <= TWO_53 && p >= 1.0
    ensures m as real * 1.0 / p <= TWO_53 as real
  {
    var q := m as real / p;
    assert q * p == m as real;
    if q > 0.0 {
      assert q * (p - 1.0) >= 0.0;
    }
  }

  /** An odd integer is a double exactly up to 2^53: the next is the first that is lost. */
  lemma OddIntegers(n: int)
    requires n > 0 && n % 2 == 1
    ensures IsDouble(n as real) <==> n < 9_007_199_254_740_992
  {
    if n < TWO_53 {
      IntegersAreDoubles(n);
    } else if IsDouble(n as real) {
      var m: int, up: nat, down: nat :| -TWO_53 <= m <= TWO_53 && n as real == Scaled(m, up, down);
      NotScaled(n, m, up, down);
    }
  }
}
