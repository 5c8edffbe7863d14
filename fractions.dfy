/** Facts about the ratios the agents compute: percentages of a count and
    means of a sum. Each is proved over plain reals, apart from the records
    they are used on. */
module Fractions {
  /** A part of a positive whole is a fraction between 0 and 1, and 1 only for the whole. */
  lemma RatioBounds(part: real, whole: real)
    requires 0.0 <= part <= whole && 0.0 < whole
    ensures 0.0 <= part / whole <= 1.0
    ensures part / whole == 1.0 <==> part == whole
  {
    var q := part / whole;
    assert q * whole == part;
  }

  /** `part / whole * 100` undoes to `part * 100`, and for a part of the
      whole lies in [0, 100], reaching 100 only for the whole. */
  lemma PercentBounds(part: nat, whole: nat)
    requires 0 < whole
    ensures var p := (part as real) / (whole as real) * 100.0;
            p * (whole as real) == (part as real) * 100.0
            && (part <= whole ==> 0.0 <= p <= 100.0 && (p == 100.0 <==> part == whole))
  {
    var b, t := part as real, whole as real;
    var q := b / t;
    assert q * t == b;
    assert q * 100.0 * t == b * 100.0;
    if part <= whole {
      RatioBounds(b, t);
    }
  }

  /** The mean of `n` values each between `lo` and `hi` lies between them. */
  lemma MeanBounds(sum: real, n: real, lo: real, hi: real)
    requires 0.0 < n && lo * n <= sum <= hi * n
    ensures (sum / n) * n == sum
    ensures lo <= sum / n <= hi
  {
    var q := sum / n;
    assert q * n == sum;
  }
}
