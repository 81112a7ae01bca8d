/** Offsets into a ring of `n` bytes. */
module Modular {
  /** `p % n`, spelled out so that proofs unfold it only where they mean to; see WrapIsMod. */
  function Wrap(p: int, n: nat): (r: nat)
    requires n > 0
    ensures r < n
    decreases if p < 0 then n - p else p
  {
    if p < 0 then Wrap(p + n, n) else if p < n then p else Wrap(p - n, n)
  }

  lemma {:induction false} WrapIsMod(p: int, n: nat)
    requires n > 0
    ensures Wrap(p, n) == p % n
    decreases if p < 0 then n - p else p
  {
    if p < 0 {
      WrapIsMod(p + n, n);
      ModShift(p, n);
    } else if p >= n {
      WrapIsMod(p - n, n);
      ModShift(p - n, n);
    } else {
      ModUnique(p, n, 0, p);
    }
  }

  lemma MulAtLeast(k: int, m: nat)
    requires k >= 1
    ensures k * m >= m
  {
    if k > 1 {
      MulAtLeast(k - 1, m);
      assert k * m == (k - 1) * m + m;
    }
  }

  /** Two multiples of `m` closer than `m` are equal. */
  lemma MultiplesApart(q: int, q': int, m: nat)
    requires -(m as int) < (q - q') * m < m
    ensures q == q'
  {
    if q > q' {
      MulAtLeast(q - q', m);
    } else if q < q' {
      assert (q' - q) * m == -((q - q') * m);
      MulAtLeast(q' - q, m);
    }
  }

  lemma ModUnique(x: int, m: nat, q: int, r: int)
    requires 0 <= r < m && x == q * m + r
    ensures x / m == q && x % m == r
  {
    var q', r' := x / m, x % m;
    assert x == q' * m + r';
    assert (q - q') * m == q * m - q' * m;
    MultiplesApart(q, q', m);
  }

  lemma ModShift(x: int, m: nat)
    requires m > 0
    ensures (x + m) % m == x % m && (x + m) / m == x / m + 1
  {
    assert x + m == (x / m + 1) * m + x % m;
    ModUnique(x + m, m, x / m + 1, x % m);
  }

  lemma {:induction false} WrapShift(p: int, n: nat)
    requires n > 0
    ensures Wrap(p + n, n) == Wrap(p, n)
  {
  }

  /** Wrapping a summand first makes no difference. */
  lemma {:induction false} WrapAdd(p: int, k: int, n: nat)
    requires n > 0
    ensures Wrap(Wrap(p, n) + k, n) == Wrap(p + k, n)
    decreases if p < 0 then n - p else p
  {
    if p < 0 {
      WrapAdd(p + n, k, n);
      WrapShift(p + k, n);
    } else if p >= n {
      WrapAdd(p - n, k, n);
      WrapShift(p - n + k, n);
    }
  }

  lemma {:induction false} WrapSub(j: int, p: int, n: nat)
    requires n > 0
    ensures Wrap(j - Wrap(p, n), n) == Wrap(j - p, n)
    decreases if p < 0 then n - p else p
  {
    if p < 0 {
      WrapSub(j, p + n, n);
      WrapShift(j - p - n, n);
    } else if p >= n {
      WrapSub(j, p - n, n);
      WrapShift(j - p, n);
    }
  }

  /** Going on by less than one ring wraps around at most once. */
  lemma {:induction false} WrapDifference(p: nat, d: nat, n: nat)
    requires n > 0 && d < n
    ensures Wrap(p + d, n) == if Wrap(p, n) + d < n then Wrap(p, n) + d else Wrap(p, n) + d - n
    decreases p
  {
    if p >= n {
      WrapDifference(p - n, d, n);
      WrapShift(p - n + d, n);
    }
  }

  /** Positions less than one ring apart are told apart by their offsets. */
  lemma {:induction false} WrapInjective(p: int, q: int, n: nat)
    requires n > 0 && q <= p < q + n && Wrap(p, n) == Wrap(q, n)
    ensures p == q
  {
    WrapAdd(q, -q, n);
    WrapAdd(p, -q, n);
    assert Wrap(p - q, n) == p - q && Wrap(0, n) == 0;
  }

  /** Wrapping around a ring of whole alignment units keeps the alignment. */
  lemma {:induction false} WrapAligned(p: int, n: nat, a: nat)
    requires n > 0 && a > 0 && n % a == 0
    ensures Wrap(p, n) % a == p % a
    decreases if p < 0 then n - p else p
  {
    if p < 0 {
      WrapAligned(p + n, n, a);
      AddMultiple(p, n, a);
    } else if p >= n {
      WrapAligned(p - n, n, a);
      AddMultiple(p - n, n, a);
    }
  }

  lemma AddMultiple(x: int, y: int, a: nat)
    requires a > 0 && y % a == 0
    ensures (x + y) % a == x % a
  {
    assert y == (y / a) * a;
    assert x + y == (x / a + y / a) * a + x % a;
    ModUnique(x + y, a, x / a + y / a, x % a);
  }

  lemma ModAdd(x: int, y: int, k: int, m: nat)
    requires m > 0 && x % m == y % m
    ensures (x + k) % m == (y + k) % m
  {
    assert x + k == (x / m - y / m) * m + (y + k);
    assert y + k == (y + k) / m * m + (y + k) % m;
    assert x + k == (x / m - y / m + (y + k) / m) * m + (y + k) % m;
    ModUnique(x + k, m, x / m - y / m + (y + k) / m, (y + k) % m);
  }

  /** The next multiple above `y` is a whole unit away. */
  lemma MultipleBelow(x: int, y: int, m: nat)
    requires m > 0 && x % m == 0 && y % m == 0 && x < y + m
    ensures x <= y
  {
    if x > y {
      assert x == x / m * m && y == y / m * m;
      assert (x / m - y / m) * m == x / m * m - y / m * m;
      MultiplesApart(x / m, y / m, m);
    }
  }
}
