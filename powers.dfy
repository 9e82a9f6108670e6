/** Powers of two, shared by the constant `Big`, the doubling loop and the `1 << i` fill loop. */
module Powers {

  /** 2^n, the value of Go's `1 << n` on unbounded integers. */
  function Pow2(n: nat): (r: nat)
    ensures r >= 1
  {
    if n == 0 then 1 else 2 * Pow2(n - 1)
  }

  /** Shifting by a + b is shifting by a, then by b. */
  lemma {:induction false} Pow2Add(a: nat, b: nat)
    ensures Pow2(a + b) == Pow2(a) * Pow2(b)
  {
    if a > 0 {
      Pow2Add(a - 1, b);
      calc {
        Pow2(a + b);
        2 * Pow2(a - 1 + b);
        2 * (Pow2(a - 1) * Pow2(b));
        (2 * Pow2(a - 1)) * Pow2(b);
        Pow2(a) * Pow2(b);
      }
    }
  }

  /** Larger shifts give strictly larger powers. */
  lemma {:induction false} Pow2StrictlyIncreasing(i: nat, j: nat)
    requires i < j
    ensures Pow2(i) < Pow2(j)
  {
    if i + 1 < j {
      Pow2StrictlyIncreasing(i, j - 1);
    }
  }

  /** `x >> n` for a non-negative `x`: `n` halvings, each dropping the lowest bit. */
  function Shr(x: nat, n: nat): (r: nat)
    ensures r <= x
    ensures n > 0 && x > 0 ==> r < x
  {
    if n == 0 then x else Shr(x / 2, n - 1)
  }

  /** Shifting `1 << (m + n)` right by `n` places leaves `1 << m`. */
  lemma {:induction false} ShrPow2(m: nat, n: nat)
    ensures Shr(Pow2(m + n), n) == Pow2(m)
  {
    if n > 0 {
      assert Pow2(m + n) / 2 == Pow2(m + (n - 1));
      ShrPow2(m, n - 1);
    }
  }
}
