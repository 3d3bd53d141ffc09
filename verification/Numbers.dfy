/** The range of int, and division. */
module Numbers {
  const INT_MAX := 0x7fff_ffff

  lemma MultipleIsFar(d: nat, x: int)
    ensures x >= 1 ==> d * x >= d
    ensures x <= -1 ==> d * x + d <= 0
  {
    if x >= 1 {
      assert d * x == d + d * (x - 1);
    } else if x <= -1 {
      assert d * x + d == d * (x + 1);
    }
  }

  lemma DivIs(n: nat, d: nat, q: nat, r: nat)
    requires d > 0 && n == d * q + r && r < d
    ensures n / d == q && n % d == r
  {
    var q', r' := n / d, n % d;
    assert n == d * q' + r';
    assert d * (q - q') == r' - r;
    MultipleIsFar(d, q - q');
  }

  lemma DivStep(n: nat, d: nat)
    requires d > 0
    ensures (n + 1) / d == n / d + (if n % d == d - 1 then 1 else 0)
    ensures (n + 1) % d == (if n % d == d - 1 then 0 else n % d + 1)
  {
    var q, r := n / d, n % d;
    assert n == d * q + r;
    if r == d - 1 {
      assert n + 1 == d * (q + 1);
      DivIs(n + 1, d, q + 1, 0);
    } else {
      DivIs(n + 1, d, q, r + 1);
    }
  }
}
