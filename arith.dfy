/** Integer facts the segment-grouping arithmetic needs. */
module Arith {
  lemma MulMonotone(w: nat, x: nat, y: nat)
    requires x <= y
    ensures x * w <= y * w
  {
  }

  lemma DivUnique(x: nat, w: nat, q: nat, r: nat)
    requires w >= 1 && r < w && x == w * q + r
    ensures x / w == q && x % w == r
  {
    var q' := x / w;
    var r' := x % w;
    assert w * q' + r' == w * q + r;
    if q' < q {
      MulMonotone(w, q' + 1, q);
    } else if q' > q {
      MulMonotone(w, q + 1, q');
    }
  }

  lemma DivMonotone(a: nat, b: nat, w: nat)
    requires a <= b && w >= 1
    ensures a / w <= b / w
  {
    var qa, qb := a / w, b / w;
    assert a == w * qa + a % w;
    assert b == w * qb + b % w;
    if qa > qb {
      MulMonotone(w, qb + 1, qa);
    }
  }

  lemma MulDivCancel(w: nat, n: nat)
    requires w >= 1
    ensures (w * n) / w == n
  {
    DivUnique(w * n, w, n, 0);
  }

  lemma DivAddDivisor(a: nat, w: nat)
    requires w >= 1
    ensures (a + w) / w == a / w + 1
  {
    DivUnique(a + w, w, a / w + 1, a % w);
  }
}
