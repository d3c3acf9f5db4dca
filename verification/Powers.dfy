/** Powers of two and rounding up. */
module Powers {
  import opened Tickets

  predicate IsPow2(n: nat) {
    n == 1 || (n > 1 && n % 2 == 0 && IsPow2(n / 2))
  }

  /** `absl::bit_ceil`. */
  function BitCeil(n: nat): (r: nat)
    ensures IsPow2(r) && n <= r && (n >= 1 ==> r < 2 * n)
  {
    if n <= 1 then 1 else 2 * BitCeil((n + 1) / 2)
  }

  lemma {:induction false} BitCeilLeast(n: nat, p: nat)
    requires IsPow2(p) && n <= p
    ensures BitCeil(n) <= p
  {
    if n > 1 {
      BitCeilLeast((n + 1) / 2, p / 2);
    }
  }

  lemma {:induction false} Pow2Product(a: nat, b: nat)
    requires IsPow2(a) && IsPow2(b)
    ensures IsPow2(a * b)
  {
    if a > 1 {
      Pow2Product(a / 2, b);
      assert a * b == 2 * ((a / 2) * b);
    }
  }

  /** A smaller power of two divides a larger one. */
  lemma {:induction false} Pow2Divides(a: nat, b: nat)
    requires IsPow2(a) && IsPow2(b) && a <= b
    ensures b % a == 0
  {
    if a == 1 {
    } else {
      var h, g := a / 2, b / 2;
      assert a == 2 * h && b == 2 * g;
      Pow2Divides(h, g);
      DivMod(h, g);
      Doubled(h, g, g / h);
    }
  }

  lemma Doubled(h: nat, g: nat, q: nat)
    requires h > 0 && g == q * h
    ensures (2 * g) % (2 * h) == 0
  {
    assert 2 * g == q * (2 * h);
    DivModUnique(2 * h, 2 * g, q, 0);
  }

  /** `(x + a - 1) & -a` for a power of two `a`. */
  function AlignUp(x: nat, a: nat): (r: nat)
    requires a > 0
    ensures x <= r < x + a && r % a == 0
  {
    assert AlignedUp(x, a) by { NextMultiple(x, a); }
    if x % a == 0 then x else x + (a - x % a)
  }

  ghost predicate AlignedUp(x: nat, a: nat)
    requires a > 0
  {
    (x + (a - x % a)) % a == 0
  }

  lemma NextMultiple(x: nat, a: nat)
    requires a > 0
    ensures AlignedUp(x, a)
  {
    DivMod(a, x);
    assert (x / a + 1) * a == (x / a) * a + a;
    DivModUnique(a, x + (a - x % a), x / a + 1, 0);
  }

  /** Alignment reaches no further than any aligned bound. */
  lemma AlignUpLeast(x: nat, a: nat, bound: nat)
    requires a > 0 && bound % a == 0 && x <= bound
    ensures AlignUp(x, a) <= bound
  {
    if x % a != 0 {
      DivMod(a, x);
      DivMod(a, bound);
      MulStep(x / a, bound / a, a);
    }
  }

  lemma AlignUpZero(a: nat)
    requires a > 0
    ensures AlignUp(0, a) == 0
  {
  }

  /** Sums of multiples are multiples. */
  lemma AddMultiple(x: nat, y: nat, a: nat)
    requires a > 0 && x % a == 0 && y % a == 0
    ensures (x + y) % a == 0
  {
    DivMod(a, x);
    DivMod(a, y);
    assert (x / a + y / a) * a == (x / a) * a + (y / a) * a;
    DivModUnique(a, x + y, x / a + y / a, 0);
  }

  /** A multiple of a multiple is a multiple. */
  lemma MultipleTrans(x: nat, b: nat, a: nat)
    requires a > 0 && b > 0 && b % a == 0 && x % b == 0
    ensures x % a == 0
  {
    DivMod(b, x);
    DivMod(a, b);
    var q := (x / b) * (b / a);
    assert q * a == (x / b) * ((b / a) * a);
    DivModUnique(a, x, q, 0);
  }
}
