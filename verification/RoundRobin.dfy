/** Cyclic visits of all ranks and banks (CommandQueue::nextRankAndBank and its loops). */
module RoundRobin {

  datatype Policy = RankThenBank | BankThenRank

  /** The numbers 0 to n-1 in a circle; from p, the number of steps until start is next. */
  function Distance(n: nat, start: nat, p: nat): nat
    requires start < n && p < n
  {
    if p < start then start - p else n - p + start
  }

  /** Already visited on the way from start to p; on coming back to start, everything. */
  predicate Visited(start: nat, p: nat, wrapped: bool, q: nat) {
    if wrapped then q >= start || q < p else start <= q < p
  }

  function Next(n: nat, p: nat): nat {
    if p + 1 == n then 0 else p + 1
  }

  /** A step round the circle: p is visited too, and the end is nearer. */
  lemma Step(n: nat, start: nat, p: nat, wrapped: bool)
    requires start < n && p < n && (wrapped <==> p < start)
    ensures Next(n, p) < n
    ensures Next(n, p) != start ==>
              && Distance(n, start, Next(n, p)) < Distance(n, start, p)
              && forall q: nat :: Visited(start, Next(n, p), Next(n, p) < start, q) && q < n ==> Visited(start, p, wrapped, q) || q == p
    ensures Next(n, p) == start ==> forall q: nat :: q < n ==> Visited(start, p, wrapped, q) || q == p
  {
  }

  /** The number of a rank and bank in visiting order. */
  function Place(policy: Policy, ranks: nat, banks: nat, r: nat, b: nat): nat {
    if policy.RankThenBank? then b * ranks + r else r * banks + b
  }

  function NextRank(policy: Policy, ranks: nat, banks: nat, r: nat, b: nat): nat {
    if policy.RankThenBank? then (if r + 1 == ranks then 0 else r + 1)
    else if b + 1 == banks then (if r + 1 == ranks then 0 else r + 1) else r
  }

  function NextBank(policy: Policy, ranks: nat, banks: nat, r: nat, b: nat): nat {
    if policy.RankThenBank? then (if r + 1 == ranks then (if b + 1 == banks then 0 else b + 1) else b)
    else if b + 1 == banks then 0 else b + 1
  }

  lemma Digits(major: nat, minor: nat, size: nat, count: nat)
    requires minor < size && major < count
    ensures 0 <= major * size + minor < count * size
    ensures major + 1 == count && minor + 1 == size <==> major * size + minor + 1 == count * size
  {
    assert (major + 1) * size <= count * size;
    if major + 1 < count {
      assert (major + 2) * size <= count * size;
    }
  }

  lemma DigitsUnique(a: nat, b: nat, c: nat, d: nat, size: nat)
    requires b < size && d < size && a * size + b == c * size + d
    ensures a == c && b == d
  {
    DigitsOrder(a, c, size);
    DigitsOrder(c, a, size);
  }

  lemma DigitsOrder(a: nat, c: nat, size: nat)
    ensures a < c ==> a * size + size <= c * size
  {
    if a < c {
      assert (a + 1) * size <= c * size;
    }
  }

  /** The next place is one further round the circle, and different places have different
      numbers. */
  lemma NextPlace(policy: Policy, ranks: nat, banks: nat, r: nat, b: nat)
    requires r < ranks && b < banks
    ensures NextRank(policy, ranks, banks, r, b) < ranks && NextBank(policy, ranks, banks, r, b) < banks
    ensures Place(policy, ranks, banks, r, b) < ranks * banks
    ensures var p := Place(policy, ranks, banks, r, b);
            Place(policy, ranks, banks, NextRank(policy, ranks, banks, r, b), NextBank(policy, ranks, banks, r, b))
            == Next(ranks * banks, p)
  {
    Digits(b, r, ranks, banks);
    Digits(r, b, banks, ranks);
    assert (b + 1) * ranks == b * ranks + ranks && (r + 1) * banks == r * banks + banks;
    assert banks * ranks == ranks * banks;
  }

  lemma PlaceUnique(policy: Policy, ranks: nat, banks: nat, r: nat, b: nat, r': nat, b': nat)
    requires r < ranks && b < banks && r' < ranks && b' < banks
    requires Place(policy, ranks, banks, r, b) == Place(policy, ranks, banks, r', b')
    ensures r == r' && b == b'
  {
    if policy.RankThenBank? {
      DigitsUnique(b, r, b', r', ranks);
    } else {
      DigitsUnique(r, b, r', b', banks);
    }
  }
}
