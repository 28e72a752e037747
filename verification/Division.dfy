/** Division rounded up, as the number of pieces of size d that n things make. */
module Division {

  function CeilDiv(n: nat, d: nat): nat
    requires d > 0
  {
    if n == 0 then 0 else if n <= d then 1 else 1 + CeilDiv(n - d, d)
  }

  /** It is n / d rounded up: the only m with (m - 1) * d < n <= m * d. */
  lemma {:induction false} CeilDivRoundsUp(n: nat, d: nat)
    requires d > 0
    ensures n <= CeilDiv(n, d) * d && (n > 0 ==> (CeilDiv(n, d) - 1) * d < n)
  {
    if n > d {
      CeilDivRoundsUp(n - d, d);
    }
  }

  lemma {:induction false} CeilDivUnique(n: nat, d: nat, m: nat)
    requires d > 0 && m > 0 && (m - 1) * d < n <= m * d
    ensures CeilDiv(n, d) == m
    decreases m
  {
    if m == 1 {
      assert n <= d;
    } else {
      assert (m - 1) * d == (m - 2) * d + d;
      assert (m - 2) * d >= 0;
      CeilDivUnique(n - d, d, m - 1);
    }
  }

  lemma {:induction false} CeilDivAbove(n: nat, d: nat, m: nat)
    requires d > 0 && m * d < n
    ensures m < CeilDiv(n, d)
    decreases m
  {
    if m > 0 {
      assert m * d == (m - 1) * d + d;
      assert (m - 1) * d >= 0;
      CeilDivAbove(n - d, d, m - 1);
    }
  }
}
