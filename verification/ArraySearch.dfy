/**
 The search for an array organisation that meets its timing limits.  Solutions come from an
 arbitrary evaluator and are named by the number of the evaluation that produced them:
 evaluation 0 is the initial one, evaluations 1 to 8 are those of the search loop, with
 deviations 100, 90, ..., 30.  A solution owns memory that is released at most once; the
 numbers of the released solutions are kept in order of release.
 */
module ArraySearch {

  const TOLERANCE: real := 0.0000000001
  const BIGNUM: real := 1000000000000000000000000000000.0
  const AREA_EFFICIENCY_THRESHOLD: real := 20.0
  const OPTIMIZATION_END: int := 20

  /** Evaluations the loop can make. */
  const STEPS: nat := 8

  datatype Solution = Solution(cycleTime: real, accessTime: real, areaEfficiency: real, readEnergy: real)

  datatype Problem = Problem(evaluate: nat -> Solution, throughput: real, latency: real,
                             assoc: nat, cacheSize: int, optForClk: bool, optLocal: bool)
  {
    predicate MeetsThroughput(n: nat) {
      evaluate(n).cycleTime - throughput <= TOLERANCE
    }

    predicate MeetsLatency(n: nat) {
      evaluate(n).accessTime - latency <= TOLERANCE
    }

    predicate Meets(n: nat) {
      MeetsThroughput(n) && MeetsLatency(n)
    }

    /** Fully associative arrays also keep solutions of poor area efficiency. */
    predicate Keeps(n: nat) {
      Meets(n) || (evaluate(n).areaEfficiency < AREA_EFFICIENCY_THRESHOLD && assoc == 0)
    }

    function Energy(n: nat): real {
      evaluate(n).readEnergy
    }

    /** Small arrays are not optimised further. */
    predicate Optimises() {
      optForClk && optLocal && ((cacheSize > 2048 && assoc != 0) || (cacheSize > 256 && assoc == 0))
    }

    /** The search loop is entered. */
    predicate Searches() {
      Optimises() && !Meets(0)
    }
  }

  // ---------- what a search leaves behind ----------

  /** Evaluation n clears the throughput overflow flag. */
  predicate ClearsThroughput(p: Problem, n: nat) {
    p.MeetsThroughput(n) && (p.Meets(n) || !p.Keeps(n))
  }

  predicate ClearsLatency(p: Problem, n: nat) {
    p.MeetsLatency(n) && (p.Meets(n) || !p.Keeps(n))
  }

  ghost predicate ThroughputCleared(p: Problem, n: nat) {
    exists i: nat :: 1 <= i <= n && ClearsThroughput(p, i)
  }

  ghost predicate LatencyCleared(p: Problem, n: nat) {
    exists i: nat :: 1 <= i <= n && ClearsLatency(p, i)
  }

  /** Both flags are clear after n evaluations. */
  ghost predicate Settled(p: Problem, n: nat) {
    ThroughputCleared(p, n) && LatencyCleared(p, n)
  }

  /** At no point before evaluation n were both flags clear. */
  ghost predicate Unsettled(p: Problem, n: nat) {
    forall k: nat :: 1 <= k < n ==> !Settled(p, k)
  }

  /** The loop makes exactly n evaluations. */
  ghost predicate Ends(p: Problem, n: nat) {
    && 1 <= n <= STEPS
    && (n == STEPS || Settled(p, n))
    && Unsettled(p, n)
  }

  /** The kept solutions among the first n, in order of evaluation. */
  ghost predicate AreCandidates(p: Problem, n: nat, cs: seq<nat>) {
    && (forall i: nat :: i in cs <==> 1 <= i <= n && p.Keeps(i))
    && (forall j, k :: 0 <= j < k < |cs| ==> cs[j] < cs[k])
  }

  /** Candidate k is better than every earlier one. */
  ghost predicate Improves(p: Problem, cs: seq<nat>, k: nat)
    requires k < |cs|
  {
    && p.Energy(cs[k]) < BIGNUM
    && forall j :: 0 <= j < k ==> p.Energy(cs[k]) < p.Energy(cs[j])
  }

  /** The first candidate of least energy, if any energy is below the initial bound. */
  ghost predicate IsBest(p: Problem, cs: seq<nat>, k: nat) {
    k < |cs| && Improves(p, cs, k) && forall j :: 0 <= j < |cs| ==> p.Energy(cs[k]) <= p.Energy(cs[j])
  }

  ghost predicate Hopeless(p: Problem, cs: seq<nat>) {
    forall k :: 0 <= k < |cs| ==> p.Energy(cs[k]) >= BIGNUM
  }

  ghost predicate IsHeld(p: Problem, n: nat, cs: seq<nat>, held: nat) {
    if Hopeless(p, cs) then held == n else exists k: nat :: IsBest(p, cs, k) && held == cs[k]
  }

  /** Released in the loop: whatever was not kept, except the last solution there can be. */
  predicate Dropped(p: Problem, n: nat, i: nat) {
    i == 0 || (1 <= i <= n && i < STEPS && !p.Keeps(i))
  }

  /** Released in the selection: candidates that were no improvement when they were scanned. */
  ghost predicate Rejected(p: Problem, cs: seq<nat>, m: nat, i: nat) {
    exists k: nat :: k < m && k < |cs| && cs[k] == i && !Improves(p, cs, k)
  }

  ghost predicate Distinct(s: seq<nat>) {
    forall j, k :: 0 <= j < k < |s| ==> s[j] != s[k]
  }

  ghost predicate IsLedger(p: Problem, n: nat, cs: seq<nat>, m: nat, cleaned: seq<nat>) {
    && Distinct(cleaned)
    && forall i: nat :: i in cleaned <==> Dropped(p, n, i) || Rejected(p, cs, m, i)
  }

  /** The whole outcome of a search. */
  ghost predicate Outcome(p: Problem, n: nat, cs: seq<nat>, held: nat, cleaned: seq<nat>) {
    && Ends(p, n)
    && AreCandidates(p, n, cs)
    && IsHeld(p, n, cs, held)
    && IsLedger(p, n, cs, |cs|, cleaned)
  }

  // ---------- the search ----------

  lemma StillDistinct(s: seq<nat>, i: nat)
    requires Distinct(s) && i !in s
    ensures Distinct(s + [i])
  {
  }

  lemma OneMoreCleared(p: Problem, n: nat)
    ensures ThroughputCleared(p, n + 1) <==> ThroughputCleared(p, n) || ClearsThroughput(p, n + 1)
    ensures LatencyCleared(p, n + 1) <==> LatencyCleared(p, n) || ClearsLatency(p, n + 1)
  {
  }

  lemma OneMoreCandidate(p: Problem, n: nat, cs: seq<nat>)
    requires AreCandidates(p, n, cs)
    ensures AreCandidates(p, n + 1, if p.Keeps(n + 1) then cs + [n + 1] else cs)
  {
    forall k | 0 <= k < |cs| ensures cs[k] <= n {
      assert cs[k] in cs;
    }
  }

  /** A solution that was not kept is released, unless it is the last there can be. */
  lemma OneMoreDropped(p: Problem, n: nat, before: seq<nat>, after: seq<nat>)
    requires IsLedger(p, n, [], 0, before) && Distinct(after)
    requires forall i: nat :: i in after <==> i in before || (i == n + 1 < STEPS && !p.Keeps(i))
    ensures IsLedger(p, n + 1, [], 0, after)
  {
  }

  class ArrayST {
    const problem: Problem
    var cycleTimeDev: int
    var calls: nat
    var held: nat
    var cleaned: seq<nat>

    constructor (p: Problem, dev: int)
      ensures problem == p && calls == 0 && cleaned == []
    {
      problem := p;
      cycleTimeDev := dev;
      calls, held, cleaned := 0, 0, [];
    }

    /** One evaluation; its solution becomes the held one. */
    method ComputeBasePower()
      modifies this`calls, this`held
      ensures held == old(calls) && calls == old(calls) + 1
    {
      held := calls;
      calls := calls + 1;
    }

    /** Releases a solution's memory. */
    method Cleanup(n: nat)
      requires Distinct(cleaned) && n !in cleaned
      modifies this`cleaned
      ensures Distinct(cleaned)
      ensures forall i: nat :: i in cleaned <==> i in old(cleaned) || i == n
    {
      StillDistinct(cleaned, n);
      cleaned := cleaned + [n];
    }

    /** One pass of the loop. */
    method Step(list: seq<nat>, overflow1: bool, overflow2: bool)
      returns (candidates: seq<nat>, throughputOverflow: bool, latencyOverflow: bool)
      requires 1 <= calls <= STEPS && cycleTimeDev == 100 - 10 * (calls - 1)
      requires AreCandidates(problem, calls - 1, list)
      requires IsLedger(problem, calls - 1, [], 0, cleaned)
      modifies this
      ensures calls == old(calls) + 1 && held == old(calls) && cycleTimeDev == old(cycleTimeDev) - 10
      ensures throughputOverflow <==> overflow1 && !ClearsThroughput(problem, held)
      ensures latencyOverflow <==> overflow2 && !ClearsLatency(problem, held)
      ensures AreCandidates(problem, calls - 1, candidates)
      ensures IsLedger(problem, calls - 1, [], 0, cleaned)
    {
      candidates, throughputOverflow, latencyOverflow := list, overflow1, overflow2;
      ghost var before := cleaned;
      OneMoreCandidate(problem, calls - 1, list);
      ComputeBasePower();
      cycleTimeDev := cycleTimeDev - 10;
      if problem.Keeps(held) {
        candidates := candidates + [held];
        if problem.Meets(held) {
          throughputOverflow, latencyOverflow := false, false;
        }
      } else {
        if problem.MeetsThroughput(held) {
          throughputOverflow := false;
        }
        if problem.MeetsLatency(held) {
          latencyOverflow := false;
        }
        if cycleTimeDev > OPTIMIZATION_END {
          Cleanup(held);
        }
      }
      OneMoreDropped(problem, calls - 2, before, cleaned);
    }

    /** The loop over the deviations. */
    method Search() returns (candidates: seq<nat>, throughputOverflow: bool, latencyOverflow: bool)
      requires calls == 1 && IsLedger(problem, 0, [], 0, cleaned)
      modifies this
      ensures calls >= 1 && Ends(problem, calls - 1) && held == calls - 1
      ensures AreCandidates(problem, calls - 1, candidates)
      ensures IsLedger(problem, calls - 1, [], 0, cleaned)
      ensures throughputOverflow <==> !ThroughputCleared(problem, calls - 1)
      ensures latencyOverflow <==> !LatencyCleared(problem, calls - 1)
    {
      candidates, throughputOverflow, latencyOverflow := [], true, true;
      cycleTimeDev := 100;
      while (throughputOverflow || latencyOverflow) && cycleTimeDev > OPTIMIZATION_END
        invariant 1 <= calls <= STEPS + 1 && cycleTimeDev == 100 - 10 * (calls - 1)
        invariant calls > 1 ==> held == calls - 1
        invariant throughputOverflow <==> !ThroughputCleared(problem, calls - 1)
        invariant latencyOverflow <==> !LatencyCleared(problem, calls - 1)
        invariant Unsettled(problem, calls - 1)
        invariant AreCandidates(problem, calls - 1, candidates)
        invariant IsLedger(problem, calls - 1, [], 0, cleaned)
        decreases cycleTimeDev
      {
        OneMoreCleared(problem, calls - 1);
        candidates, throughputOverflow, latencyOverflow := Step(candidates, throughputOverflow, latencyOverflow);
      }
    }

    /** The first candidate of least read energy becomes the held solution. */
    method Select(candidates: seq<nat>)
      requires calls >= 1 && held == calls - 1 && AreCandidates(problem, calls - 1, candidates)
      requires IsLedger(problem, calls - 1, [], 0, cleaned)
      modifies this`held, this`cleaned
      ensures IsHeld(problem, calls - 1, candidates, held)
      ensures IsLedger(problem, calls - 1, candidates, |candidates|, cleaned)
    {
      var minDynamicEnergy := BIGNUM;
      ghost var best: nat := 0;
      for m := 0 to |candidates|
        invariant calls == old(calls)
        invariant minDynamicEnergy <= BIGNUM
        invariant forall j :: 0 <= j < m ==> minDynamicEnergy <= problem.Energy(candidates[j])
        invariant minDynamicEnergy == BIGNUM ==> held == old(held)
        invariant minDynamicEnergy < BIGNUM ==>
          best < m && held == candidates[best] && Improves(problem, candidates, best)
          && minDynamicEnergy == problem.Energy(held)
        invariant IsLedger(problem, calls - 1, candidates, m, cleaned)
      {
        var c := candidates[m];
        assert c in candidates;
        if minDynamicEnergy > problem.Energy(c) {
          minDynamicEnergy, held, best := problem.Energy(c), c, m;
          assert Improves(problem, candidates, m);
        } else {
          assert !Improves(problem, candidates, m);
          Cleanup(c);
          assert Rejected(problem, candidates, m + 1, c);
        }
      }
      assert minDynamicEnergy < BIGNUM ==> IsBest(problem, candidates, best);
    }

    method OptimizeArray() returns (ghost candidates: seq<nat>, warnThroughput: bool, warnLatency: bool)
      requires calls == 0 && cleaned == []
      modifies this
      ensures !problem.Searches() ==>
                calls == 1 && held == 0 && cleaned == [] && !warnThroughput && !warnLatency
      ensures problem.Searches() ==> calls >= 1 && Outcome(problem, calls - 1, candidates, held, cleaned)
      ensures problem.Searches() ==>
                && (warnThroughput <==> problem.assoc > 0 && !ThroughputCleared(problem, calls - 1))
                && (warnLatency <==> problem.assoc > 0 && !LatencyCleared(problem, calls - 1))
    {
      warnThroughput, warnLatency := false, false;
      candidates := [];
      ComputeBasePower();
      var throughputOverflow := !problem.MeetsThroughput(held);
      var latencyOverflow := !problem.MeetsLatency(held);
      if problem.Optimises() {
        var list := [];
        if throughputOverflow || latencyOverflow {
          Cleanup(held);
          list, throughputOverflow, latencyOverflow := Search();
        }
        if problem.assoc > 0 {
          warnThroughput, warnLatency := throughputOverflow, latencyOverflow;
        }
        if list != [] {
          Select(list);
        }
        candidates := list;
      }
    }
  }

  // ---------- what follows from the outcome ----------

  /** A search has only one outcome; only the order of release is not fixed by it. */
  lemma OutcomeUnique(p: Problem, n: nat, cs: seq<nat>, held: nat, cleaned: seq<nat>,
                      n': nat, cs': seq<nat>, held': nat, cleaned': seq<nat>)
    requires Outcome(p, n, cs, held, cleaned) && Outcome(p, n', cs', held', cleaned')
    ensures n == n' && cs == cs' && held == held'
    ensures forall i: nat :: i in cleaned <==> i in cleaned'
  {
    assert n == n' by {
      assert n < n' ==> !Settled(p, n);
      assert n' < n ==> !Settled(p, n');
    }
    AscendingUnique(cs, cs');
    if !Hopeless(p, cs) {
      var k: nat :| IsBest(p, cs, k) && held == cs[k];
      var j: nat :| IsBest(p, cs, j) && held' == cs[j];
      assert j == k;
    }
  }

  lemma {:induction false} AscendingUnique(a: seq<nat>, b: seq<nat>)
    requires forall i: nat :: i in a <==> i in b
    requires forall j, k :: 0 <= j < k < |a| ==> a[j] < a[k]
    requires forall j, k :: 0 <= j < k < |b| ==> b[j] < b[k]
    ensures a == b
  {
    if a == [] {
      assert forall k :: 0 <= k < |b| ==> b[k] in b;
    } else {
      assert a[0] in a && b != [];
      SameHead(a, b);
      SameHead(b, a);
      forall i: nat ensures i in a[1..] <==> i in b[1..] {
        SameTail(a, i);
        SameTail(b, i);
      }
      AscendingUnique(a[1..], b[1..]);
      assert a == [a[0]] + a[1..] && b == [b[0]] + b[1..];
    }
  }

  lemma SameHead(a: seq<nat>, b: seq<nat>)
    requires a != [] && b != [] && b[0] in a
    requires forall j, k :: 0 <= j < k < |a| ==> a[j] < a[k]
    ensures a[0] <= b[0]
  {
  }

  lemma SameTail(a: seq<nat>, i: nat)
    requires a != [] && forall j, k :: 0 <= j < k < |a| ==> a[j] < a[k]
    ensures i in a[1..] <==> i in a && i != a[0]
  {
  }

  lemma CandidateAt(p: Problem, n: nat, cs: seq<nat>, j: nat, k: nat)
    requires AreCandidates(p, n, cs) && j < |cs| && k < |cs| && cs[j] == cs[k]
    ensures j == k
  {
  }

  /** Exactly when the solution left in hand has already been released: no candidate has an
      energy below the bound, and the loop stopped early or kept its last solution. */
  lemma HeldReleasedIff(p: Problem, n: nat, cs: seq<nat>, held: nat, cleaned: seq<nat>)
    requires Outcome(p, n, cs, held, cleaned)
    ensures held in cleaned <==> Hopeless(p, cs) && (n < STEPS || p.Keeps(n))
  {
    if Hopeless(p, cs) {
      if p.Keeps(n) {
        assert n in cs;
        var k: nat :| k < |cs| && cs[k] == n;
        assert Rejected(p, cs, |cs|, n);
      } else {
        assert n !in cs;
      }
    } else {
      var b: nat :| IsBest(p, cs, b) && held == cs[b];
      assert held in cs;
      forall k: nat | k < |cs| && cs[k] == held ensures Improves(p, cs, k) {
        CandidateAt(p, n, cs, b, k);
      }
    }
  }

  /** With a candidate of bounded energy, the held solution is the first of least energy and is
      still alive; with no candidate after all eight steps, it is the last and still alive. */
  lemma GoodExits(p: Problem, n: nat, cs: seq<nat>, held: nat, cleaned: seq<nat>)
    requires Outcome(p, n, cs, held, cleaned)
    requires (cs == [] && n == STEPS) || (cs != [] && forall k :: 0 <= k < |cs| ==> p.Energy(cs[k]) < BIGNUM)
    ensures held !in cleaned
    ensures cs == [] ==> held == STEPS
    ensures cs != [] ==> held in cs && forall i :: i in cs ==>
                           p.Energy(held) <= p.Energy(i) && (p.Energy(i) == p.Energy(held) ==> held <= i)
  {
    HeldReleasedIff(p, n, cs, held, cleaned);
    if cs == [] {
      assert n !in cs;
    } else {
      assert p.Energy(cs[0]) < BIGNUM;
      assert !Hopeless(p, cs);
    }
  }

  /** Evaluations that are neither held nor released are exactly the overtaken improvements and
      an unkept last solution that a candidate replaced. */
  lemma LeakedIff(p: Problem, n: nat, cs: seq<nat>, held: nat, cleaned: seq<nat>, i: nat)
    requires Outcome(p, n, cs, held, cleaned) && i <= n
    ensures i != held && i !in cleaned <==>
              i != held && ((exists k: nat :: k < |cs| && cs[k] == i && Improves(p, cs, k))
                            || (i == STEPS && !p.Keeps(i)))
  {
    if i in cs {
      var k: nat :| k < |cs| && cs[k] == i;
      forall j: nat | j < |cs| && cs[j] == i ensures j == k {
        CandidateAt(p, n, cs, j, k);
      }
      assert p.Keeps(i) && i >= 1;
    }
  }

  // ---------- set-associative arrays ----------

  lemma PlainFlags(p: Problem, n: nat)
    requires p.assoc != 0
    ensures ThroughputCleared(p, n) <==> exists i: nat :: 1 <= i <= n && p.MeetsThroughput(i)
    ensures LatencyCleared(p, n) <==> exists i: nat :: 1 <= i <= n && p.MeetsLatency(i)
  {
    if i: nat :| 1 <= i <= n && p.MeetsThroughput(i) {
      assert ClearsThroughput(p, i);
    }
    if i: nat :| 1 <= i <= n && p.MeetsLatency(i) {
      assert ClearsLatency(p, i);
    }
  }

  /** The candidate list holds at most one solution, the first one to meet both limits. */
  lemma AtMostOneCandidate(p: Problem, n: nat, cs: seq<nat>, held: nat, cleaned: seq<nat>)
    requires p.assoc != 0 && Outcome(p, n, cs, held, cleaned)
    ensures cs == if p.Meets(n) then [n] else []
    ensures forall i: nat :: 1 <= i < n ==> !p.Meets(i)
    ensures p.Meets(n) || (forall i: nat :: 1 <= i <= STEPS && p.Meets(i) ==> n < i)
  {
    forall i: nat | 1 <= i < n ensures !p.Meets(i) {
      if p.Meets(i) {
        assert ClearsThroughput(p, i) && ClearsLatency(p, i);
        assert Settled(p, i);
      }
    }
    if p.Meets(n) {
      AscendingUnique(cs, [n]);
    } else {
      AscendingUnique(cs, []);
    }
  }

  /** Nothing leaks: every solution but the held one was released.  The held one was released
      too exactly when the limits were met by different configurations, or when the energy of
      the only candidate is not below the bound. */
  lemma SetAssociativeLedger(p: Problem, n: nat, cs: seq<nat>, held: nat, cleaned: seq<nat>)
    requires p.assoc != 0 && Outcome(p, n, cs, held, cleaned)
    ensures held == n
    ensures forall i: nat :: i < n ==> i in cleaned
    ensures n in cleaned <==> if p.Meets(n) then p.Energy(n) >= BIGNUM else n < STEPS
  {
    AtMostOneCandidate(p, n, cs, held, cleaned);
    HeldReleasedIff(p, n, cs, held, cleaned);
    if p.Meets(n) {
      assert cs[0] == n;
    }
  }

  /** Some k below eight by which both limits were met, but by no configuration together. */
  ghost predicate SplitEarly(p: Problem) {
    exists k: nat :: 1 <= k < STEPS && SplitBy(p, k)
  }

  ghost predicate SplitBy(p: Problem, k: nat) {
    && (exists i: nat :: 1 <= i <= k && p.MeetsThroughput(i))
    && (exists i: nat :: 1 <= i <= k && p.MeetsLatency(i))
    && (forall i: nat :: 1 <= i <= k ==> !p.Meets(i))
  }

  /** In terms of the configurations alone: a set-associative search hands out a released
      solution if and only if both limits were met early by different configurations, or the
      first configuration to meet both has an energy that is not below the bound. */
  lemma ReleasedIff(p: Problem, n: nat, cs: seq<nat>, held: nat, cleaned: seq<nat>)
    requires p.assoc != 0 && Outcome(p, n, cs, held, cleaned)
    ensures held in cleaned <==> SplitEarly(p) || (p.Meets(held) && p.Energy(held) >= BIGNUM)
    ensures !SplitEarly(p) && p.Meets(held) ==> forall i: nat :: 1 <= i < held ==> !p.Meets(i)
  {
    SetAssociativeLedger(p, n, cs, held, cleaned);
    AtMostOneCandidate(p, n, cs, held, cleaned);
    PlainFlags(p, n);
    if n < STEPS && !p.Meets(n) {
      assert SplitBy(p, n);
    }
    if k: nat :| 1 <= k < STEPS && SplitBy(p, k) {
      PlainFlags(p, k);
      assert Settled(p, k);
    }
  }

  /** The search can hand out a released solution: the first configuration meets only the
      throughput limit, the second only the latency limit. */
  lemma SplitLimits() returns (p: Problem)
    ensures p.Searches() && p.assoc != 0
    ensures forall cs, held, cleaned, n: nat :: Outcome(p, n, cs, held, cleaned) ==> n == 2 && held == 2 && held in cleaned
  {
    var slow, fast := 2.0, 1.0;
    var eval := (n: nat) => Solution(if n == 1 then fast else slow, if n == 2 then fast else slow, 50.0, 1.0);
    p := Problem(eval, 1.0, 1.0, 1, 4096, true, true);
    forall cs, held, cleaned, n: nat | Outcome(p, n, cs, held, cleaned)
      ensures n == 2 && held == 2 && held in cleaned
    {
      assert ClearsThroughput(p, 1) && ClearsLatency(p, 2);
      assert Settled(p, 2);
      assert !LatencyCleared(p, 1);
      SetAssociativeLedger(p, n, cs, held, cleaned);
    }
  }
}
