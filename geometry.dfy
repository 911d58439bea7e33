/** Integer rectangles and the number conversions the game relies on:
    pygame's Rect, Python's round() and the truncating int()/C cast. */
module Geometry {

  /** A pygame Rect: integer top-left corner and non-negative size.
      pygame's derived attributes use C integer division on the size,
      which for a non-negative size is floor division. */
  datatype Rect = Rect(x: int, y: int, w: nat, h: nat) {
    function Top(): int { y }
    function Bottom(): int { y + h }
    function Right(): int { x + w }
    function CenterX(): int { x + w / 2 }
  }

  /** Python's round() on a float: the nearest integer, ties to the even one. */
  function Round(v: real): (r: int)
    ensures -0.5 <= r as real - v <= 0.5
    ensures (r as real - v == 0.5 || v - r as real == 0.5) ==> r % 2 == 0
  {
    var f := v.Floor;
    var d := v - f as real;
    if d < 0.5 then f
    else if d > 0.5 then f + 1
    else if f % 2 == 0 then f
    else f + 1
  }

  /** The two properties of Round determine it: any integer within one half
      of v, and even when exactly one half away, is Round(v). */
  lemma RoundUnique(v: real, n: int)
    requires -0.5 <= n as real - v <= 0.5
    requires (n as real - v == 0.5 || v - n as real == 0.5) ==> n % 2 == 0
    ensures n == Round(v)
  {
  }

  /** Rounding a whole number gives it back. */
  lemma RoundOfInt(n: int)
    ensures Round(n as real) == n
  {
    RoundUnique(n as real, n);
  }

  /** Truncation toward zero: Python's int() on a float, and the C (int)
      cast pygame applies to a float coordinate given to a Rect. */
  function Trunc(v: real): (r: int)
    ensures 0.0 <= v ==> 0 <= r && r as real <= v < r as real + 1.0
    ensures v < 0.0 ==> r <= 0 && r as real - 1.0 < v <= r as real
  {
    if v >= 0.0 then v.Floor else -((-v).Floor)
  }
}
