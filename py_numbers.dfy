/** Python's rounding of numbers, on exact reals. */
module PyNumbers {
  import opened PyStrings

  /** `round(x)`: the nearest integer, ties to the even one. */
  function RoundHalfEven(x: real): (r: int)
    ensures x - 0.5 <= r as real <= x + 0.5
    ensures x == x.Floor as real ==> r == x.Floor
    ensures (x - x.Floor as real == 0.5) ==> r % 2 == 0
  {
    var f := x.Floor;
    var d := x - f as real;
    if d < 0.5 then f
    else if d > 0.5 then f + 1
    else if f % 2 == 0 then f
    else f + 1
  }

  /** `round(x, 2)` */
  function RoundTo2(x: real): (r: real)
    ensures x - 0.005 <= r <= x + 0.005
  {
    RoundHalfEven(x * 100.0) as real / 100.0
  }

  /** `f"{x:.0%}"`: a hundredfold, rounded, with a percent sign. */
  function PercentStr(x: real): string {
    IntStr(RoundHalfEven(x * 100.0)) + "%"
  }
}
