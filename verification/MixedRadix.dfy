/**
 Splitting a natural number into bit fields of given widths, lowest field first,
 and joining the fields again.  This is the reference meaning of DRAMSim2's
 shift / shift-back / xor address decoding: every mapping scheme is one instance.
 */
module MixedRadix {

  function Pow2(n: nat): (p: nat)
    ensures p >= 1
  {
    if n == 0 then 1 else 2 * Pow2(n - 1)
  }

  /** n with its w lowest bits shifted out. */
  function Shr(n: nat, w: nat): nat {
    if w == 0 then n else Shr(n / 2, w - 1)
  }

  /** The w lowest bits of n. */
  function Low(n: nat, w: nat): (r: nat)
    ensures r < Pow2(w)
  {
    if w == 0 then 0 else n % 2 + 2 * Low(n / 2, w - 1)
  }

  /** n shifted left by w bits. */
  function Shl(n: nat, w: nat): nat {
    if w == 0 then n else 2 * Shl(n, w - 1)
  }

  // ---------- laws of the three shifts ----------

  lemma {:induction false} ShlIsMul(n: nat, w: nat)
    ensures Shl(n, w) == n * Pow2(w)
  {
    if w == 0 {
    } else {
      ShlIsMul(n, w - 1);
      assert n * (2 * Pow2(w - 1)) == 2 * (n * Pow2(w - 1));
    }
  }

  /** The shifts are quotient and remainder by a power of two. */
  lemma ShrLowAreDivMod(n: nat, w: nat)
    ensures Shr(n, w) == n / Pow2(w) && Low(n, w) == n % Pow2(w)
  {
    Recombine(n, w);
    ShlIsMul(Shr(n, w), w);
    DivModUnique(n, Pow2(w), Shr(n, w), Low(n, w));
  }

  lemma DivModUnique(n: nat, p: nat, q: nat, r: nat)
    requires r < p && n == q * p + r
    ensures q == n / p && r == n % p
  {
    var q', r' := n / p, n % p;
    assert q' * p + r' == n;
    if q < q' {
      MulMonotone(q + 1, q', p);
    } else if q' < q {
      MulMonotone(q' + 1, q, p);
    }
  }

  lemma MulMonotone(a: int, b: int, p: nat)
    requires a <= b
    ensures a * p <= b * p
  {
  }

  lemma {:induction false} Recombine(n: nat, w: nat)
    ensures n == Low(n, w) + Shl(Shr(n, w), w)
  {
    if w == 0 {
    } else {
      Recombine(n / 2, w - 1);
    }
  }

  lemma {:induction false} ShrShr(n: nat, a: nat, b: nat)
    ensures Shr(Shr(n, a), b) == Shr(n, a + b)
  {
    if a == 0 {
    } else {
      ShrShr(n / 2, a - 1, b);
    }
  }

  lemma {:induction false} LowAdd(n: nat, a: nat, b: nat)
    ensures Low(n, a + b) == Low(n, a) + Shl(Low(Shr(n, a), b), a)
  {
    if a == 0 {
    } else {
      LowAdd(n / 2, a - 1, b);
    }
  }

  lemma {:induction false} Pow2Add(a: nat, b: nat)
    ensures Pow2(a + b) == Shl(Pow2(b), a)
  {
    if a == 0 {
    } else {
      Pow2Add(a - 1, b);
    }
  }

  lemma {:induction false} ShlMonotone(m: nat, n: nat, w: nat)
    requires m <= n
    ensures Shl(m, w) <= Shl(n, w)
    ensures Shl(n, w) - Shl(m, w) >= (n - m)
    ensures m + 1 <= n ==> Shl(m, w) + Pow2(w) <= Shl(n, w)
  {
    if w == 0 {
    } else {
      ShlMonotone(m, n, w - 1);
    }
  }

  /** A field placed below a shifted number is recovered by Low, the number by Shr. */
  lemma {:induction false} Unplace(d: nat, j: nat, w: nat)
    requires d < Pow2(w)
    ensures Low(d + Shl(j, w), w) == d
    ensures Shr(d + Shl(j, w), w) == j
  {
    if w == 0 {
    } else {
      Unplace(d / 2, j, w - 1);
      assert (d + Shl(j, w)) / 2 == d / 2 + Shl(j, w - 1);
    }
  }

  /** A number below 2^w is its own remainder. */
  lemma {:induction false} LowSmall(n: nat, w: nat)
    requires n < Pow2(w)
    ensures Low(n, w) == n && Shr(n, w) == 0
  {
    if w == 0 {
    } else {
      LowSmall(n / 2, w - 1);
    }
  }

  // ---------- splitting and joining ----------

  function Total(ws: seq<nat>): nat {
    if ws == [] then 0 else ws[0] + Total(ws[1..])
  }

  /** The fields of n, lowest first. */
  function Split(n: nat, ws: seq<nat>): (ds: seq<nat>)
    ensures |ds| == |ws|
    decreases |ws|
  {
    if ws == [] then []
    else [Low(n, ws[0])] + Split(Shr(n, ws[0]), ws[1..])
  }

  /** The number whose fields, lowest first, are ds. */
  function Join(ds: seq<nat>, ws: seq<nat>): nat
    requires |ds| == |ws|
    decreases |ws|
  {
    if ws == [] then 0
    else ds[0] + Shl(Join(ds[1..], ws[1..]), ws[0])
  }

  ghost predicate InRange(ds: seq<nat>, ws: seq<nat>) {
    |ds| == |ws| && forall i :: 0 <= i < |ds| ==> ds[i] < Pow2(ws[i])
  }

  /** Closed form: field i is the quotient by everything below it, reduced to its own width. */
  lemma {:induction false} SplitAt(n: nat, ws: seq<nat>, i: nat)
    requires i < |ws|
    ensures Split(n, ws)[i] == Low(Shr(n, Total(ws[..i])), ws[i])
    decreases |ws|
  {
    if i == 0 {
    } else {
      SplitAt(Shr(n, ws[0]), ws[1..], i - 1);
      assert ws[..i][0] == ws[0] && ws[..i][1..] == ws[1..][..i - 1];
      ShrShr(n, ws[0], Total(ws[1..][..i - 1]));
    }
  }

  lemma SplitInRange(n: nat, ws: seq<nat>)
    ensures InRange(Split(n, ws), ws)
  {
    forall i | 0 <= i < |ws| ensures Split(n, ws)[i] < Pow2(ws[i]) {
      SplitAt(n, ws, i);
    }
  }

  /** The first fields depend only on the low bits, the others only on the quotient above them. */
  lemma {:induction false} SplitConcat(n: nat, us: seq<nat>, vs: seq<nat>)
    ensures Split(n, us + vs) == Split(n, us) + Split(Shr(n, Total(us)), vs)
    decreases |us|
  {
    if us == [] {
      assert us + vs == vs;
    } else {
      assert (us + vs)[0] == us[0] && (us + vs)[1..] == us[1..] + vs;
      SplitConcat(Shr(n, us[0]), us[1..], vs);
      ShrShr(n, us[0], Total(us[1..]));
    }
  }

  /** Joining the fields of n gives back n, up to the capacity of the fields. */
  lemma {:induction false} JoinSplit(n: nat, ws: seq<nat>)
    ensures Join(Split(n, ws), ws) == Low(n, Total(ws))
    decreases |ws|
  {
    if ws == [] {
    } else {
      assert Split(n, ws)[1..] == Split(Shr(n, ws[0]), ws[1..]);
      JoinSplit(Shr(n, ws[0]), ws[1..]);
      LowAdd(n, ws[0], Total(ws[1..]));
    }
  }

  /** Splitting a joined number gives back its fields, and the joined number fits. */
  lemma {:induction false} SplitJoin(ds: seq<nat>, ws: seq<nat>)
    requires InRange(ds, ws)
    ensures Join(ds, ws) < Pow2(Total(ws))
    ensures Split(Join(ds, ws), ws) == ds
    decreases |ws|
  {
    if ws == [] {
    } else {
      var j := Join(ds[1..], ws[1..]);
      assert InRange(ds[1..], ws[1..]) by {
        forall i | 0 <= i < |ds[1..]| ensures ds[1..][i] < Pow2(ws[1..][i]) {
          assert ds[1..][i] == ds[i + 1] && ws[1..][i] == ws[i + 1];
        }
      }
      SplitJoin(ds[1..], ws[1..]);
      Unplace(ds[0], j, ws[0]);
      Pow2Add(ws[0], Total(ws[1..]));
      ShlMonotone(j, Pow2(Total(ws[1..])), ws[0]);
    }
  }

  /** Two numbers have the same fields exactly when they agree modulo the capacity. */
  lemma SplitCongruent(m: nat, n: nat, ws: seq<nat>)
    ensures Split(m, ws) == Split(n, ws) <==> Low(m, Total(ws)) == Low(n, Total(ws))
  {
    JoinSplit(m, ws);
    JoinSplit(n, ws);
    SplitInRange(m, ws);
    SplitInRange(n, ws);
    SplitJoin(Split(m, ws), ws);
    SplitJoin(Split(n, ws), ws);
  }

  // ---------- windows of consecutive numbers ----------

  /** The number in [s, s + 2^w) whose w low bits are v. */
  function InWindow(s: nat, w: nat, v: nat): (n: nat)
    requires v < Pow2(w)
    ensures s <= n < s + Pow2(w) && Low(n, w) == v
  {
    Recombine(s, w);
    var q := Shr(s, w);
    Unplace(v, q, w);
    Unplace(v, q + 1, w);
    ShlSucc(q, w);
    if Low(s, w) <= v then v + Shl(q, w) else v + Shl(q + 1, w)
  }

  lemma {:induction false} ShlSucc(q: nat, w: nat)
    ensures Shl(q + 1, w) == Shl(q, w) + Pow2(w)
  {
    if w == 0 {
    } else {
      ShlSucc(q, w - 1);
    }
  }

  /** No two numbers of a window of 2^w have the same w low bits. */
  lemma WindowUnique(s: nat, w: nat, m: nat, n: nat)
    requires s <= m < s + Pow2(w) && s <= n < s + Pow2(w) && Low(m, w) == Low(n, w)
    ensures m == n
  {
    Recombine(m, w);
    Recombine(n, w);
    var a, b := Shr(m, w), Shr(n, w);
    if a <= b {
      ShlMonotone(a, b, w);
    } else {
      ShlMonotone(b, a, w);
    }
  }

  /** In an aligned window the quotient above the w low bits is constant. */
  lemma WindowAligned(s: nat, w: nat, n: nat)
    requires Low(s, w) == 0 && s <= n < s + Pow2(w)
    ensures Shr(n, w) == Shr(s, w)
  {
  }
}
