/** The float64 a JSON number decodes to: the nearest double, ties to even, and none when it would be infinite
    (strconv.ParseFloat, which encoding/json uses). */
module Floats {
  import opened Wrappers

  const TWO_53: real := 9007199254740992.0

  /** The largest and the smallest power of two a double's 53-bit integer is scaled by. */
  const DOUBLINGS := 971
  const HALVINGS := 1074

  function Pow2(n: nat): (p: real)
    ensures p >= 1.0
  {
    if n == 0 then 1.0 else 2.0 * Pow2(n - 1)
  }

  /** The nearest integer, the even one of two equally near. */
  function Nearest(x: real): int {
    var rest := x - x.Floor as real;
    if rest < 0.5 || (rest == 0.5 && x.Floor % 2 == 0) then x.Floor else x.Floor + 1
  }

  /** A number of at least 2^53: it is halved until 53 bits hold it. */
  function RoundLarge(x: real, left: nat): Option<real>
    decreases left
  {
    if x < TWO_53 then
      if left == 0 && Nearest(x) as real == TWO_53 then None else Some(Nearest(x) as real)
    else if left == 0 then None
    else
      match RoundLarge(x / 2.0, left - 1)
      case Some(r) => Some(2.0 * r)
      case None => None
  }

  /** A smaller number: it is doubled until it uses 53 bits, or is subnormal. */
  function RoundSmall(x: real, left: nat): real
    decreases left
  {
    if x >= TWO_53 / 2.0 || left == 0 then Nearest(x) as real else RoundSmall(2.0 * x, left - 1) / 2.0
  }

  function Round(x: real): Option<real> {
    if x >= TWO_53 then RoundLarge(x, DOUBLINGS) else Some(RoundSmall(x, HALVINGS))
  }

  function Float64(x: real): Option<real> {
    if x >= 0.0 then Round(x)
    else
      match Round(-x)
      case Some(r) => Some(-r)
      case None => None
  }

  function Abs(x: real): real {
    if x >= 0.0 then x else -x
  }

  // ---- What is in range ----------------------------------------------------------------------

  /** Halfway between the largest double and 2^1024. */
  function Edge(n: nat): real {
    9007199254740991.5 * Pow2(n)
  }

  predicate InRange(x: real) {
    Abs(x) < Edge(DOUBLINGS)
  }

  lemma EdgeDoubles(n: nat)
    requires n > 0
    ensures Edge(n) == 2.0 * Edge(n - 1) && Edge(n) >= TWO_53
  {
  }

  lemma {:induction false} RoundLargeIff(x: real, left: nat)
    requires x >= TWO_53 / 2.0
    ensures RoundLarge(x, left).Some? <==> x < Edge(left)
    decreases left
  {
    if x >= TWO_53 && left > 0 {
      EdgeDoubles(left);
      RoundLargeIff(x / 2.0, left - 1);
    } else if left > 0 {
      EdgeDoubles(left);
    }
  }

  /** A number has a float64 exactly when it lies below 2^1024 by more than half a unit of the last place. */
  lemma Float64Iff(x: real)
    ensures Float64(x).Some? <==> InRange(x)
  {
    hide RoundLarge, RoundSmall, Edge;
    if Abs(x) >= TWO_53 {
      RoundLargeIff(Abs(x), DOUBLINGS);
    } else {
      EdgeDoubles(DOUBLINGS);
    }
  }

  // ---- How near it is ------------------------------------------------------------------------

  /** Half a unit of the last place of a subnormal number that is still to be doubled so often. */
  function HalfUnit(left: nat): real {
    if left == 0 then 0.5 else HalfUnit(left - 1) / 2.0
  }

  predicate Near(x: real, r: real) {
    Abs(r - x) * TWO_53 <= Abs(x)
  }

  lemma {:induction false} RoundLargeNear(x: real, left: nat)
    requires x >= TWO_53 / 2.0 && RoundLarge(x, left).Some?
    ensures Near(x, RoundLarge(x, left).value)
    decreases left
  {
    if x >= TWO_53 {
      RoundLargeNear(x / 2.0, left - 1);
    }
  }

  lemma {:induction false} RoundSmallNear(x: real, left: nat)
    requires x >= 0.0
    ensures var r := RoundSmall(x, left); Near(x, r) || Abs(r - x) <= HalfUnit(left)
    decreases left
  {
    if x < TWO_53 / 2.0 && left > 0 {
      RoundSmallNear(2.0 * x, left - 1);
    }
  }

  /** The float64 is off by at most one part in 2^53, or by half of the smallest double. */
  lemma Float64Near(x: real)
    requires Float64(x).Some?
    ensures Near(x, Float64(x).value) || Abs(Float64(x).value - x) <= HalfUnit(HALVINGS)
  {
    hide RoundLarge, RoundSmall, HalfUnit;
    if Abs(x) >= TWO_53 {
      RoundLargeNear(Abs(x), DOUBLINGS);
    } else {
      RoundSmallNear(Abs(x), HALVINGS);
    }
  }

  // ---- What it leaves exact ------------------------------------------------------------------

  /** n halved k times. */
  function Halved(n: nat, k: nat): (x: real)
    ensures 0.0 <= x <= n as real
  {
    if k == 0 then n as real else Halved(n, k - 1) / 2.0
  }

  lemma {:induction false} RoundSmallExact(n: nat, k: nat, left: nat)
    requires n as real <= TWO_53 && k <= left
    ensures RoundSmall(Halved(n, k), left) == Halved(n, k)
    decreases left
  {
    var x := Halved(n, k);
    if x < TWO_53 / 2.0 && left > 0 {
      if k > 0 {
        RoundSmallExact(n, k - 1, left - 1);
      } else {
        assert 2.0 * x == Halved(2 * n, 0);
        RoundSmallExact(2 * n, 0, left - 1);
      }
    } else if k > 0 {
      HalvedBelow(n, k);
    }
  }

  lemma HalvedBelow(n: nat, k: nat)
    requires k > 0 && n as real <= TWO_53
    ensures Halved(n, k) <= TWO_53 / 2.0
    ensures Halved(n, k) == TWO_53 / 2.0 ==> Halved(n, k) == Halved(n / 2, 0)
  {
  }

  /** Dyadic fractions of up to 53 bits, among them all integers within 2^53, are their own float64. */
  lemma ExactFraction(n: nat, k: nat)
    requires n as real <= TWO_53 && k <= HALVINGS
    ensures Float64(Halved(n, k)) == Some(Halved(n, k)) && Float64(-Halved(n, k)) == Some(-Halved(n, k))
  {
    hide RoundSmall;
    RoundSmallExact(n, k, HALVINGS);
    if Halved(n, k) == TWO_53 {
      assert Nearest(TWO_53 / 2.0) as real == TWO_53 / 2.0;
    }
  }

  lemma ExactInteger(n: int)
    requires -0x20_0000_0000_0000 <= n <= 0x20_0000_0000_0000
    ensures Float64(n as real) == Some(n as real)
  {
    hide Float64;
    ExactFraction(if n >= 0 then n else -n, 0);
  }

  // ---- Two numbers at the limits -------------------------------------------------------------

  function Pow10(n: nat): (p: real)
    ensures p >= 1.0
  {
    if n == 0 then 1.0 else 10.0 * Pow10(n - 1)
  }

  lemma {:induction false} Pow10Large(n: nat)
    ensures Pow10(n) >= Pow2(3 * n)
  {
    if n > 0 {
      Pow10Large(n - 1);
      assert Pow2(3 * n) == 2.0 * Pow2(3 * n - 1) == 4.0 * Pow2(3 * n - 2) == 8.0 * Pow2(3 * n - 3);
    }
  }

  lemma {:induction false} Pow2Grows(n: nat, more: nat)
    ensures Pow2(n + more) >= Pow2(n)
  {
    if more > 0 {
      Pow2Grows(n, more - 1);
    }
  }

  lemma Pow2Ten(n: nat)
    ensures Pow2(n + 10) == 1024.0 * Pow2(n)
  {
    assert Pow2(n + 10) == 2.0 * Pow2(n + 9) == 4.0 * Pow2(n + 8) == 8.0 * Pow2(n + 7);
    assert Pow2(n + 7) == 2.0 * Pow2(n + 6) == 4.0 * Pow2(n + 5) == 8.0 * Pow2(n + 4);
    assert Pow2(n + 4) == 2.0 * Pow2(n + 3) == 4.0 * Pow2(n + 2) == 8.0 * Pow2(n + 1);
  }

  /** 1e400 is a JSON number, and no float64. */
  lemma HugeOutOfRange()
    ensures !InRange(Pow10(400)) && Float64(Pow10(400)).None?
  {
    hide Pow10, Float64;
    Pow10Large(400);
    Pow2Grows(DOUBLINGS + 53, 1200 - DOUBLINGS - 53);
    EdgeBelow(DOUBLINGS);
    Float64Iff(Pow10(400));
  }

  lemma EdgeBelow(n: nat)
    ensures Edge(n) <= Pow2(n + 53)
  {
    Pow2Ten(n);
    Pow2Ten(n + 10);
    Pow2Ten(n + 20);
    Pow2Ten(n + 30);
    Pow2Ten(n + 40);
    assert Pow2(n + 53) == 2.0 * Pow2(n + 52) == 4.0 * Pow2(n + 51) == 8.0 * Pow2(n + 50);
  }

  /** 2^53 + 1 rounds to 2^53. */
  lemma OddRoundsDown()
    ensures Float64(TWO_53 + 1.0) == Some(TWO_53)
  {
    var half := (TWO_53 + 1.0) / 2.0;
    assert half.Floor == 4503599627370496;
    assert RoundLarge(half, DOUBLINGS - 1) == Some(TWO_53 / 2.0);
  }
}
