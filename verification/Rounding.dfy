/** round(x, 4) over exact reals: to the nearest ten-thousandth, ties to the even one. */
module Rounding {

  function Nearest(y: real): int {
    var down := y.Floor;
    var rest := y - down as real;
    if rest < 0.5 || (rest == 0.5 && down % 2 == 0) then down else down + 1
  }

  function Round4(x: real): real {
    Nearest(x * 10000.0) as real / 10000.0
  }

  lemma RoundMonotone(x: real, y: real)
    requires x <= y
    ensures Round4(x) <= Round4(y)
  {
    assert (x * 10000.0).Floor <= (y * 10000.0).Floor;
    assert Nearest(x * 10000.0) <= Nearest(y * 10000.0);
  }

  lemma RoundNear(x: real)
    ensures x - 0.00005 <= Round4(x) <= x + 0.00005
  {
    var n := Nearest(x * 10000.0) as real;
    assert x * 10000.0 - 0.5 <= n <= x * 10000.0 + 0.5;
  }

  lemma RoundGrid(n: int)
    ensures Round4(n as real / 10000.0) == n as real / 10000.0
  {
    assert n as real / 10000.0 * 10000.0 == n as real;
  }

  /** A number rounds to an even ten-thousandth or above from half a unit below it on. */
  lemma RoundsUpTo(x: real, n: int)
    requires n % 2 == 0
    ensures Round4(x) >= n as real / 10000.0 <==> x >= (n as real - 0.5) / 10000.0
  {
    var y := x * 10000.0;
    assert Nearest(y) >= n <==> y >= n as real - 0.5;
  }

  lemma RoundUnit(x: real)
    ensures 0.0 <= x ==> 0.0 <= Round4(x)
    ensures x <= 1.0 ==> Round4(x) <= 1.0
  {
    RoundGrid(0);
    RoundGrid(10000);
    if 0.0 <= x {
      RoundMonotone(0.0, x);
    }
    if x <= 1.0 {
      RoundMonotone(x, 1.0);
    }
  }
}
