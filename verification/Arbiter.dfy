/**
 The select tree of an issue window: 4-input arbiters are stacked until one remains.
 Each pass of the loop rounds the number of requests up to a quarter and adds that many
 arbiters.
 */
module Arbiter {

  /** The quotient rounded up. */
  function CeilDiv(a: int, b: int): int
    requires b > 0
  {
    (a + b - 1) / b
  }

  lemma CeilDivBounds(a: int, b: int)
    requires b > 0
    ensures (CeilDiv(a, b) - 1) * b < a <= CeilDiv(a, b) * b
  {
  }

  lemma CeilDivUnique(a: int, b: int, q: int)
    requires b > 0 && (q - 1) * b < a <= q * b
    ensures q == CeilDiv(a, b)
  {
    var c := CeilDiv(a, b);
    CeilDivBounds(a, b);
    ProductsGrow(q, c - 1, b);
    ProductsGrow(c, q - 1, b);
  }

  lemma ProductsGrow(x: int, y: int, b: int)
    requires b >= 0
    ensures x <= y ==> x * b <= y * b
  {
  }

  /** Rounding up twice is rounding up once. */
  lemma NestedCeiling(w: int, a: int, b: int)
    requires a > 0 && b > 0
    ensures a * b > 0 && CeilDiv(CeilDiv(w, a), b) == CeilDiv(w, a * b)
  {
    var c := CeilDiv(w, a);
    var q := CeilDiv(c, b);
    CeilDivBounds(w, a);
    CeilDivBounds(c, b);
    assert c * a <= (q * b) * a;
    assert ((q - 1) * b) * a <= (c - 1) * a;
    assert (q * b) * a == q * (a * b) && ((q - 1) * b) * a == (q - 1) * (a * b);
    assert a * b > 0;
    CeilDivUnique(w, a * b, q);
  }

  function Pow4(k: nat): (r: int)
    ensures r > 0
  {
    if k == 0 then 1 else 4 * Pow4(k - 1)
  }

  /** The sum of w/4^k rounded up, for k from 1 to d. */
  function CeilSum(w: int, d: nat): int {
    if d == 0 then 0 else CeilSum(w, d - 1) + CeilDiv(w, Pow4(d))
  }

  /** One d-level step of the tree is the loop's quarter of the level below. */
  lemma LevelStep(w: int, d: nat)
    ensures CeilDiv(CeilDiv(w, Pow4(d)), 4) == CeilDiv(w, Pow4(d + 1))
  {
    NestedCeiling(w, Pow4(d), 4);
  }

  /** A tree of height d serves w requests. */
  ghost predicate Fits(w: int, d: nat) {
    w <= Pow4(d + 1)
  }

  /** The height of a tree over w requests is the least d with w <= 4^(d+1). */
  ghost predicate IsDepth(w: int, d: nat) {
    Fits(w, d) && (d > 0 ==> !Fits(w, d - 1))
  }

  lemma {:induction false} Pow4Grows(a: nat, b: nat)
    requires a <= b
    ensures Pow4(a) <= Pow4(b)
    decreases b
  {
    if a < b {
      Pow4Grows(a, b - 1);
    }
  }

  lemma DepthIsLeast(w: int, d: nat)
    requires IsDepth(w, d)
    ensures forall e: nat :: Fits(w, e) <==> d <= e
  {
    forall e: nat ensures Fits(w, e) <==> d <= e {
      if d <= e {
        Pow4Grows(d + 1, e + 1);
      } else {
        Pow4Grows(e + 1, d);
      }
    }
  }

  /** What is left after d passes exceeds 4 exactly when w exceeds 4^(d+1). */
  lemma LoopGuard(w: int, d: nat)
    ensures CeilDiv(w, Pow4(d)) > 4 <==> w > Pow4(d + 1)
  {
    var q := CeilDiv(w, Pow4(d));
    CeilDivBounds(w, Pow4(d));
    if q > 4 {
      assert 4 * Pow4(d) <= (q - 1) * Pow4(d);
    } else {
      assert q * Pow4(d) <= 4 * Pow4(d);
    }
  }

  class SelectionLogic {
    var winEntries: int

    constructor (entries: int)
      ensures winEntries == entries
    {
      winEntries := entries;
    }

    /** Counts the arbiters, consuming the window size. */
    method CountArbiters() returns (numArbiter: int, ghost d: nat)
      modifies this
      ensures IsDepth(old(winEntries), d)
      ensures numArbiter == 1 + CeilSum(old(winEntries), d)
      ensures winEntries == CeilDiv(old(winEntries), Pow4(d)) <= 4
    {
      ghost var w := winEntries;
      numArbiter := 1;
      d := 0;
      LoopGuard(w, 0);
      while winEntries > 4
        invariant winEntries == CeilDiv(w, Pow4(d))
        invariant numArbiter == 1 + CeilSum(w, d)
        invariant d > 0 ==> Pow4(d) < w
        invariant winEntries > 4 <==> w > Pow4(d + 1)
        decreases winEntries
      {
        LevelStep(w, d);
        LoopGuard(w, d + 1);
        winEntries := CeilDiv(winEntries, 4);
        numArbiter := numArbiter + winEntries;
        d := d + 1;
      }
    }
  }

  // ---------- what the count is ----------

  /** The count for a window whose tree has height d. */
  ghost predicate IsCount(w: int, a: int) {
    exists d: nat :: IsDepth(w, d) && a == 1 + CeilSum(w, d)
  }

  lemma {:induction false} CeilSumBounds(w: int, d: nat)
    ensures w - CeilDiv(w, Pow4(d)) <= 3 * CeilSum(w, d) <= w - CeilDiv(w, Pow4(d)) + 3 * d
  {
    if d > 0 {
      CeilSumBounds(w, d - 1);
      LevelStep(w, d - 1);
      CeilDivBounds(CeilDiv(w, Pow4(d - 1)), 4);
    }
  }

  /** Each arbiter merges at most four requests into one, and at most one arbiter on each
      level of the tree is not full. */
  lemma CountBounds(w: int, d: nat)
    requires w >= 1 && IsDepth(w, d)
    ensures w <= 3 * (1 + CeilSum(w, d)) + 1
    ensures 3 * (1 + CeilSum(w, d)) <= w + 3 * d + 2
  {
    CeilSumBounds(w, d);
    LoopGuard(w, d);
    CeilDivBounds(w, Pow4(d));
    assert CeilDiv(w, Pow4(d)) >= 1;
  }

  lemma {:induction false} CeilSumMonotone(v: int, w: int, d: nat)
    requires v <= w
    ensures CeilSum(v, d) <= CeilSum(w, d)
  {
    if d > 0 {
      CeilSumMonotone(v, w, d - 1);
      CeilDivMonotone(v, w, Pow4(d));
    }
  }

  lemma CeilDivMonotone(v: int, w: int, b: int)
    requires b > 0 && v <= w
    ensures CeilDiv(v, b) <= CeilDiv(w, b)
  {
    var p, q := CeilDiv(v, b), CeilDiv(w, b);
    CeilDivBounds(v, b);
    CeilDivBounds(w, b);
    ProductsGrow(q, p - 1, b);
  }

  lemma {:induction false} CeilSumLonger(w: int, d: nat, e: nat)
    requires d <= e && w >= 0
    ensures CeilSum(w, d) <= CeilSum(w, e)
    decreases e
  {
    if d < e {
      CeilSumLonger(w, d, e - 1);
      CeilDivMonotone(0, w, Pow4(e));
      CeilDivUnique(0, Pow4(e), 0);
    }
  }

  /** A larger window never needs fewer arbiters. */
  lemma CountMonotone(v: int, a: int, w: int, b: int)
    requires v <= w && IsCount(v, a) && IsCount(w, b)
    ensures a <= b
  {
    var d: nat :| IsDepth(v, d) && a == 1 + CeilSum(v, d);
    var e: nat :| IsDepth(w, e) && b == 1 + CeilSum(w, e);
    DepthIsLeast(v, d);
    assert Fits(v, e);
    CeilSumMonotone(v, w, d);
    if d > 0 || w >= 0 {
      CeilSumLonger(w, d, e);
    } else {
      DepthIsLeast(w, e);
      assert Fits(w, 0);
    }
  }

  /** Every window has exactly one count. */
  lemma {:induction false} DepthExists(w: int, e: nat) returns (d: nat)
    requires w <= Pow4(e + 1)
    ensures IsDepth(w, d)
  {
    if e == 0 || Pow4(e) < w {
      d := e;
    } else {
      d := DepthExists(w, e - 1);
    }
  }

  lemma {:induction false} PowerAbove(w: nat)
    ensures w <= Pow4(w + 1)
  {
    if w > 0 {
      PowerAbove(w - 1);
    }
  }

  lemma CountExists(w: int)
    ensures exists a :: IsCount(w, a)
    ensures forall a, b :: IsCount(w, a) && IsCount(w, b) ==> a == b
  {
    var e: nat := if w < 0 then 0 else w;
    PowerAbove(e);
    var d := DepthExists(w, e);
    assert IsCount(w, 1 + CeilSum(w, d));
    forall a, b | IsCount(w, a) && IsCount(w, b) ensures a == b {
      CountMonotone(w, a, w, b);
      CountMonotone(w, b, w, a);
    }
  }

  lemma {:induction false} CeilSumOfPower(k: nat, d: nat)
    requires d < k
    ensures CeilDiv(Pow4(k), Pow4(d)) == Pow4(k - d)
    ensures 3 * CeilSum(Pow4(k), d) == Pow4(k) - Pow4(k - d)
  {
    if d == 0 {
      CeilDivUnique(Pow4(k), 1, Pow4(k));
    } else {
      CeilSumOfPower(k, d - 1);
      LevelStep(Pow4(k), d - 1);
      assert Pow4(k - (d - 1)) == 4 * Pow4(k - d);
      CeilDivUnique(Pow4(k - (d - 1)), 4, Pow4(k - d));
    }
  }

  /** A window of 4^k requests has a full tree of (4^k - 1) / 3 arbiters. */
  lemma FullTree(k: nat, a: int)
    requires k >= 1 && IsCount(Pow4(k), a)
    ensures 3 * a == Pow4(k) - 1
  {
    assert Pow4(k - 1) < Pow4(k);
    assert IsDepth(Pow4(k), k - 1);
    CeilSumOfPower(k, k - 1);
    CountExists(Pow4(k));
    assert IsCount(Pow4(k), 1 + CeilSum(Pow4(k), k - 1));
  }
}
