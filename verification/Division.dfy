/** Division by a positive number. */
module Division {
  lemma DivisionBound(x: nat, d: nat, k: int)
    requires d > 0
    ensures k > x / d <==> d * k > x
  {
    var q := x / d;
    assert x == d * q + x % d;
    if k > q {
      assert d * k >= d * (q + 1) == d * q + d;
    } else {
      assert d * k <= d * q;
    }
  }
}
