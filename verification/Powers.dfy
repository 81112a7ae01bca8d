/** Powers of two and four, and base-four digits. */
module Powers {
  import opened Modular

  function Pow2(k: nat): (p: nat)
    ensures p >= 1
  {
    if k == 0 then 1 else 2 * Pow2(k - 1)
  }

  /** `q` followed by `k` base-four digits of zero. */
  function Shift(q: nat, k: nat): (p: nat)
    ensures p >= q
  {
    if k == 0 then q else 4 * Shift(q, k - 1)
  }

  function Pow4(k: nat): (p: nat)
    ensures p >= 1
  {
    Shift(1, k)
  }

  lemma {:induction false} ShiftIsProduct(q: nat, k: nat)
    ensures Shift(q, k) == q * Pow4(k)
  {
    if k > 0 {
      ShiftIsProduct(q, k - 1);
      assert q * (4 * Pow4(k - 1)) == 4 * (q * Pow4(k - 1));
    }
  }

  lemma {:induction false} ShiftSum(p: nat, q: nat, k: nat)
    ensures Shift(p + q, k) == Shift(p, k) + Shift(q, k)
  {
    if k > 0 { ShiftSum(p, q, k - 1); }
  }

  lemma {:induction false} ShiftFour(q: nat, k: nat)
    ensures Shift(4 * q, k) == Shift(q, k + 1)
  {
    if k > 0 { ShiftFour(q, k - 1); }
  }

  lemma SmallShifts(k: nat)
    ensures Shift(0, k) == 0 && Shift(2, k) == 2 * Pow4(k) && Shift(3, k) == 3 * Pow4(k) && Shift(4, k) == 4 * Pow4(k) == Pow4(k + 1)
    ensures Shift(1, k) == Pow4(k) && Pow4(0) == 1 && Pow2(k + 1) == 2 * Pow2(k) && Pow2(0) == 1
  {
    ShiftSum(0, 0, k);
    ShiftSum(1, 1, k);
    ShiftSum(2, 1, k);
    ShiftSum(3, 1, k);
  }

  lemma {:induction false} Pow4IsSquare(k: nat)
    ensures Pow2(k) * Pow2(k) == Pow4(k)
  {
    if k > 0 {
      Pow4IsSquare(k - 1);
      assert (2 * Pow2(k - 1)) * (2 * Pow2(k - 1)) == 4 * (Pow2(k - 1) * Pow2(k - 1));
    }
  }

  lemma {:induction false} Pow2Sum(j: nat, k: nat)
    ensures Pow2(j + k) == Pow2(j) * Pow2(k)
  {
    if j > 0 {
      Pow2Sum(j - 1, k);
      assert (2 * Pow2(j - 1)) * Pow2(k) == 2 * (Pow2(j - 1) * Pow2(k));
    }
  }

  lemma {:induction false} Pow2Grows(j: nat, k: nat)
    requires j <= k
    ensures Pow2(j) <= Pow2(k)
  {
    if j < k { Pow2Grows(j, k - 1); }
  }

  /** `d` without its `i` lowest base-four digits. */
  function Drop(d: nat, i: nat): nat {
    if i == 0 then d else Drop(d, i - 1) / 4
  }

  lemma {:induction false} DropDrop(d: nat, i: nat, j: nat)
    ensures Drop(Drop(d, i), j) == Drop(d, i + j)
  {
    if j > 0 { DropDrop(d, i, j - 1); }
  }

  /** Cutting `d` into what is above its `k` lowest digits and the rest. */
  lemma {:induction false} Cut(d: nat, k: nat) returns (r: nat)
    ensures r < Pow4(k) && d == Shift(Drop(d, k), k) + r
  {
    if k == 0 {
      r := 0;
    } else {
      var r' := Cut(d, k - 1);
      var top := Drop(d, k - 1);
      r := Shift(top % 4, k - 1) + r';
      ShiftSum(4 * (top / 4), top % 4, k - 1);
      ShiftFour(top / 4, k - 1);
      SmallShifts(k - 1);
    }
  }

  /** The digits below the `j`-th are those of the remainder. */
  lemma {:induction false} DropLow(q: nat, j: nat, r: nat, i: nat)
    requires i <= j
    ensures Drop(Shift(q, j) + r, i) == Shift(q, j - i) + Drop(r, i)
  {
    if i > 0 { DropLow(q, j, r, i - 1); }
  }

  lemma {:induction false} DropBelow(r: nat, j: nat)
    ensures r < Pow4(j) <==> Drop(r, j) == 0
  {
    var r' := Cut(r, j);
    if Drop(r, j) > 0 { ShiftSum(1, Drop(r, j) - 1, j); } else { SmallShifts(j); }
  }

  lemma DropIsDiv(d: nat, j: nat)
    ensures Drop(d, j) == d / Pow4(j)
  {
    hide Drop, Shift, Pow4;
    var r := Cut(d, j);
    ShiftIsProduct(Drop(d, j), j);
    ModUnique(d, Pow4(j), Drop(d, j), r);
  }
}
