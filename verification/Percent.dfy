/** The quorum arithmetic of recomputeCaseStatus. */
module Percent {
  import opened Basics

  /** roundedPercent: big.Int Quo on nonnegative operands, then the low 64 bits. */
  function RoundedPercent(power: nat, total: nat): uint64
  {
    if total == 0 then 0 else ((power * 100 + (total - 1)) / total) % U64
  }

  lemma QuotientBounds(n: nat, d: nat)
    requires d > 0
    ensures n / d * d <= n < n / d * d + d
  {
    assert n == d * (n / d) + n % d;
  }

  lemma ProductMonotone(a: int, b: int, t: nat)
    requires a <= b
    ensures a * t <= b * t
  {
    assert b * t - a * t == (b - a) * t;
  }

  lemma ProductReflects(a: int, b: int, t: nat)
    requires a * t < b * t
    ensures a < b
  {
    if b <= a { ProductMonotone(b, a, t); }
  }

  /** For a part of a positive whole, the result is the ceiling of 100 * power / total. */
  lemma CeilingExact(power: nat, total: nat)
    requires power <= total && total > 0
    ensures var r := RoundedPercent(power, total);
            r <= 100 && (r - 1) * total < 100 * power <= r * total
  {
    var n := power * 100 + (total - 1);
    var r := n / total;
    QuotientBounds(n, total);
    assert r * total <= n < 101 * total;
    ProductReflects(r, 101, total);
    assert (r - 1) * total == r * total - total;
  }

  /** Meeting a threshold q, without division. */
  lemma ThresholdExact(power: nat, total: nat, q: nat)
    requires power <= total && total > 0
    ensures RoundedPercent(power, total) >= q <==> 100 * power > (q - 1) * total
  {
    var r := RoundedPercent(power, total);
    CeilingExact(power, total);
    if r >= q {
      ProductMonotone(q - 1, r - 1, total);
    } else {
      ProductMonotone(r, q - 1, total);
    }
  }

  /** Full approval always reaches any admissible quorum. */
  lemma FullApproval(total: nat, q: nat)
    requires total > 0 && q <= 100
    ensures RoundedPercent(total, total) == 100 >= q
  {
    CeilingExact(total, total);
    var r := RoundedPercent(total, total);
    ProductReflects(99, r, total) by { assert 99 * total < 100 * total <= r * total; }
  }

  /** More power never lowers the percentage. */
  lemma PercentMonotone(p: nat, p': nat, total: nat, q: nat)
    requires p <= p' <= total && RoundedPercent(p, total) >= q
    ensures RoundedPercent(p', total) >= q
  {
    if total > 0 {
      ThresholdExact(p, total, q);
      ThresholdExact(p', total, q);
    }
  }

  ghost predicate BothReach(approve: nat, reject: nat, total: nat, q: nat)
  {
    total > 0 && approve + reject <= total
    && RoundedPercent(approve, total) >= q && RoundedPercent(reject, total) >= q
  }

  /** Approval and rejection exclude each other for every electorate exactly from 51 on. */
  lemma QuorumExclusive(q: nat)
    requires 0 < q <= 100
    ensures (forall approve: nat, reject: nat, total: nat :: !BothReach(approve, reject, total, q)) <==> q >= 51
  {
    if q >= 51 {
      forall approve: nat, reject: nat, total: nat ensures !BothReach(approve, reject, total, q) {
        if total > 0 && approve + reject <= total {
          ThresholdExact(approve, total, q);
          ThresholdExact(reject, total, q);
          ProductMonotone(50, q - 1, total);
        }
      }
    } else {
      assert RoundedPercent(1, 2) == 50;
      assert BothReach(1, 1, 2, q);
    }
  }
}
