/**
 The refresh register of the command queue holds one rank: a request that arrives while another
 rank still waits takes its place, and that refresh is never sent (CommandQueue::needRefresh).
 */
module Refreshes {
  import opened BankTiming
  import opened Protocol
  import opened Controller
  import opened ScheduledRuns
  import Schedules
  import Scheduler

  predicate IsRefresh(d: Decision) {
    d.pop.Send? && d.pop.command.kind.REFRESH?
  }

  // ---------- the register ----------

  /** The rank that waits for a refresh in a cycle. */
  function NextDue(waits: int, request: int): int {
    if request >= 0 then request else waits
  }

  /** The rank that waits after these cycles, or -1; a request is a rank, or negative for none. */
  function Waiting(requests: seq<int>, ds: seq<Decision>): int
    requires |requests| == |ds|
    decreases |ds|, 1
  {
    if ds == [] then -1 else AfterPop(DueLast(requests, ds), ds[|ds| - 1].pop)
  }

  /** The rank that the scheduler finds waiting in the last cycle. */
  function DueLast(requests: seq<int>, ds: seq<Decision>): int
    requires |requests| == |ds| && ds != []
    decreases |ds|, 0
  {
    var n := |ds| - 1;
    NextDue(Waiting(requests[..n], ds[..n]), requests[n])
  }

  /** ... and in every cycle. */
  function Due(requests: seq<int>, ds: seq<Decision>): (due: seq<int>)
    requires |requests| == |ds|
    ensures |due| == |ds|
  {
    if ds == [] then [] else Due(requests[..|ds| - 1], ds[..|ds| - 1]) + [DueLast(requests, ds)]
  }

  lemma DueMore(requests: seq<int>, ds: seq<Decision>, request: int, d: Decision)
    requires |requests| == |ds|
    ensures var due := NextDue(Waiting(requests, ds), request);
            && Due(requests + [request], ds + [d]) == Due(requests, ds) + [due]
            && Waiting(requests + [request], ds + [d]) == AfterPop(due, d.pop)
  {
    assert (requests + [request])[..|ds|] == requests && (ds + [d])[..|ds|] == ds;
  }

  lemma {:induction false} WaitingIs(requests: seq<int>, ds: seq<Decision>)
    requires |requests| == |ds|
    ensures Waiting(requests, ds) >= -1
  {
    if ds != [] {
      WaitingIs(requests[..|ds| - 1], ds[..|ds| - 1]);
    }
  }

  // ---------- what becomes of the requests ----------

  function Requested(requests: seq<int>): seq<int> {
    if requests == [] then []
    else
      var n := |requests| - 1;
      Requested(requests[..n]) + Still(requests[n])
  }

  function Sent(ds: seq<Decision>): seq<int> {
    if ds == [] then []
    else
      var n := |ds| - 1;
      Sent(ds[..n]) + (if IsRefresh(ds[n]) then [ds[n].pop.command.rank] else [])
  }

  /** A rank that is still waiting. */
  function Still(rank: int): seq<int> {
    if rank >= 0 then [rank] else []
  }

  /** The ranks whose place was taken. */
  function Lost(requests: seq<int>, ds: seq<Decision>): seq<int>
    requires |requests| == |ds|
  {
    if ds == [] then []
    else
      var n := |ds| - 1;
      Lost(requests[..n], ds[..n]) + (if requests[n] >= 0 then Still(Waiting(requests[..n], ds[..n])) else [])
  }

  /** A refresh goes to the rank that waits. */
  ghost predicate Obeys(requests: seq<int>, ds: seq<Decision>)
    requires |requests| == |ds|
  {
    ds != [] ==>
      var n := |ds| - 1;
      && Obeys(requests[..n], ds[..n])
      && (IsRefresh(ds[n]) ==> ds[n].pop.command.rank == DueLast(requests, ds))
  }

  /** Every refresh requested is sent, waits, or has lost its place. */
  lemma {:induction false} EveryRequestCounted(requests: seq<int>, ds: seq<Decision>)
    requires |requests| == |ds| && Obeys(requests, ds)
    ensures multiset(Requested(requests)) == multiset(Sent(ds)) + multiset(Lost(requests, ds)) + multiset(Still(Waiting(requests, ds)))
  {
    if ds != [] {
      var n := |ds| - 1;
      var before, due := Waiting(requests[..n], ds[..n]), DueLast(requests, ds);
      EveryRequestCounted(requests[..n], ds[..n]);
      RegisterStep(before, requests[n], IsRefresh(ds[n]));
      OneMore(Requested(requests[..n]), Sent(ds[..n]), Lost(requests[..n], ds[..n]), Still(before), Still(requests[n]),
              if IsRefresh(ds[n]) then [due] else [], if requests[n] >= 0 then Still(before) else [],
              Still(Waiting(requests, ds)));
    }
  }

  /** One cycle of the register. */
  lemma RegisterStep(before: int, request: int, sends: bool)
    requires var due := if request >= 0 then request else before; sends ==> due >= 0
    ensures var due := if request >= 0 then request else before;
            multiset(Still(before)) + multiset(Still(request))
            == multiset(if sends then [due] else []) + multiset(if request >= 0 then Still(before) else [])
               + multiset(Still(if sends then -1 else due))
  {
  }

  lemma OneMore(asked: seq<int>, sent: seq<int>, lost: seq<int>, waits: seq<int>,
                a: seq<int>, s: seq<int>, l: seq<int>, w: seq<int>)
    requires multiset(asked) == multiset(sent) + multiset(lost) + multiset(waits)
    requires multiset(waits) + multiset(a) == multiset(s) + multiset(l) + multiset(w)
    ensures multiset(asked + a) == multiset(sent + s) + multiset(lost + l) + multiset(w)
  {
    calc {
      multiset(asked + a);
      multiset(sent) + multiset(lost) + (multiset(waits) + multiset(a));
      multiset(sent) + multiset(lost) + (multiset(s) + multiset(l) + multiset(w));
      (multiset(sent) + multiset(s)) + (multiset(lost) + multiset(l)) + multiset(w);
      multiset(sent + s) + multiset(lost + l) + multiset(w);
    }
  }

  lemma KeepsOrder(before: int, request: int, sends: bool)
    requires var due := if request >= 0 then request else before; sends ==> due >= 0
    requires before < 0 || request < 0
    ensures var due := if request >= 0 then request else before;
            Still(before) + Still(request) == (if sends then [due] else []) + Still(if sends then -1 else due)
  {
  }

  lemma Regroup(a: seq<int>, b: seq<int>, c: seq<int>, s: seq<int>, w: seq<int>)
    requires b + c == s + w
    ensures a + b + c == a + s + w
  {
    assert a + b + c == a + (b + c);
  }

  lemma {:induction false} InOrderIfNoneLost(requests: seq<int>, ds: seq<Decision>)
    requires |requests| == |ds| && Obeys(requests, ds) && Lost(requests, ds) == []
    ensures Requested(requests) == Sent(ds) + Still(Waiting(requests, ds))
  {
    if ds != [] {
      var n := |ds| - 1;
      var before, due := Waiting(requests[..n], ds[..n]), DueLast(requests, ds);
      InOrderIfNoneLost(requests[..n], ds[..n]);
      KeepsOrder(before, requests[n], IsRefresh(ds[n]));
      Regroup(Sent(ds[..n]), Still(before), Still(requests[n]),
              if IsRefresh(ds[n]) then [due] else [], Still(Waiting(requests, ds)));
    }
  }

  lemma Sizes(requests: seq<int>, ds: seq<Decision>)
    requires |requests| == |ds| && Obeys(requests, ds)
    ensures |Requested(requests)| == |Sent(ds)| + |Lost(requests, ds)| + |Still(Waiting(requests, ds))|
  {
    EveryRequestCounted(requests, ds);
    assert |multiset(Requested(requests))| == |Requested(requests)|;
  }

  /** A request finds another rank waiting. */
  ghost predicate Overwrites(requests: seq<int>, ds: seq<Decision>, n: nat)
    requires |requests| == |ds| && n < |ds|
  {
    requests[n] >= 0 && Waiting(requests[..n], ds[..n]) >= 0
  }

  ghost predicate NoneOverwritten(requests: seq<int>, ds: seq<Decision>)
    requires |requests| == |ds|
  {
    forall n :: 0 <= n < |ds| ==> !Overwrites(requests, ds, n)
  }

  lemma OverwritesBefore(requests: seq<int>, ds: seq<Decision>, k: nat)
    requires |requests| == |ds| && k < |ds| - 1
    ensures var n := |ds| - 1; Overwrites(requests[..n], ds[..n], k) <==> Overwrites(requests, ds, k)
  {
    var n := |ds| - 1;
    assert requests[..n][..k] == requests[..k] && ds[..n][..k] == ds[..k];
  }

  lemma NoneMore(requests: seq<int>, ds: seq<Decision>)
    requires |requests| == |ds| && ds != []
    ensures var n := |ds| - 1;
            NoneOverwritten(requests, ds) <==> NoneOverwritten(requests[..n], ds[..n]) && !Overwrites(requests, ds, n)
  {
    var n := |ds| - 1;
    forall k: nat | k < n ensures Overwrites(requests[..n], ds[..n], k) <==> Overwrites(requests, ds, k) {
      OverwritesBefore(requests, ds, k);
    }
  }

  lemma {:induction false} LostIff(requests: seq<int>, ds: seq<Decision>)
    requires |requests| == |ds|
    ensures Lost(requests, ds) == [] <==> NoneOverwritten(requests, ds)
  {
    if ds != [] {
      LostIff(requests[..|ds| - 1], ds[..|ds| - 1]);
      NoneMore(requests, ds);
    }
  }

  /** Exactly when every refresh requested is sent, or still waits, in the order of the requests. */
  lemma AllSentIff(requests: seq<int>, ds: seq<Decision>)
    requires |requests| == |ds| && Obeys(requests, ds)
    ensures Requested(requests) == Sent(ds) + Still(Waiting(requests, ds)) <==> NoneOverwritten(requests, ds)
  {
    LostIff(requests, ds);
    Sizes(requests, ds);
    if Lost(requests, ds) == [] {
      InOrderIfNoneLost(requests, ds);
    }
  }

  // ---------- in a run ----------

  /** The register of the run so far, given the refreshes requested in it. */
  ghost function Waits(p: Timing, g: Shape, ins: seq<Input>, requests: seq<int>): int
    requires p.Sane() && |requests| == |ins|
  {
    Waiting(requests, Decisions(p, g, ins))
  }

  ghost function DueIn(p: Timing, g: Shape, ins: seq<Input>, requests: seq<int>): (due: seq<int>)
    requires p.Sane() && |requests| == |ins|
    ensures |due| == |ins|
  {
    Due(requests, Decisions(p, g, ins))
  }

  /** A run of the simulator with these requests. */
  ghost predicate Simulated(p: Timing, g: Shape, total: nat, ins: seq<Input>, requests: seq<int>)
    requires p.Sane()
  {
    |requests| == |ins| && IsScheduled(p, g, total, ins, DueIn(p, g, ins, requests))
  }

  lemma OneLess(p: Timing, g: Shape, total: nat, ins: seq<Input>, input: Input, requests: seq<int>, request: int)
    requires p.Sane() && |requests| == |ins| && Simulated(p, g, total, ins + [input], requests + [request])
    ensures var next := NextDue(Waits(p, g, ins, requests), request);
            && Simulated(p, g, total, ins, requests)
            && MayChoose(p, g, total, ins, next, input.choice) && MayPower(p, g, ins, next, input)
    ensures Waits(p, g, ins + [input], requests + [request])
            == AfterPop(NextDue(Waits(p, g, ins, requests), request), Schedules.DecisionOf(p, g, ins, input).pop)
    ensures Waits(p, g, ins, requests) >= -1
  {
    Schedules.DecisionsMore(p, g, ins, input);
    DueMore(requests, Decisions(p, g, ins), request, Schedules.DecisionOf(p, g, ins, input));
    WaitingIs(requests, Decisions(p, g, ins));
    var due := DueIn(p, g, ins, requests);
    assert (ins + [input])[..|ins|] == ins && (due + [NextDue(Waits(p, g, ins, requests), request)])[..|ins|] == due;
    ScheduledBefore(p, g, total, ins + [input], due + [NextDue(Waits(p, g, ins, requests), request)]);
  }

  lemma SimulatedMore(p: Timing, g: Shape, total: nat, ins: seq<Input>, input: Input, requests: seq<int>, request: int)
    requires p.Sane() && Simulated(p, g, total, ins, requests)
    requires var next := NextDue(Waits(p, g, ins, requests), request);
             MayChoose(p, g, total, ins, next, input.choice) && MayPower(p, g, ins, next, input)
    ensures Simulated(p, g, total, ins + [input], requests + [request])
    ensures Waits(p, g, ins + [input], requests + [request])
            == AfterPop(NextDue(Waits(p, g, ins, requests), request), Schedules.DecisionOf(p, g, ins, input).pop)
  {
    Schedules.DecisionsMore(p, g, ins, input);
    DueMore(requests, Decisions(p, g, ins), request, Schedules.DecisionOf(p, g, ins, input));
    ScheduledMore(p, g, total, ins, DueIn(p, g, ins, requests), input, NextDue(Waits(p, g, ins, requests), request));
  }

  /** In a run of the simulator, refreshes go to the ranks that wait. */
  lemma {:induction false} RunObeys(p: Timing, g: Shape, total: nat, ins: seq<Input>, requests: seq<int>)
    requires p.Sane() && FullRun(p, g, ins).Running? && Simulated(p, g, total, ins, requests)
    ensures Obeys(requests, Decisions(p, g, ins))
  {
    if ins != [] {
      var n := |ins| - 1;
      var ds := Decisions(p, g, ins);
      assert ds[..n] == Decisions(p, g, ins[..n]);
      assert Due(requests, ds)[..n] == Due(requests[..n], ds[..n]);
      ScheduledBefore(p, g, total, ins, Due(requests, ds));
      RunObeys(p, g, total, ins[..n], requests[..n]);
      LastObeys(p, g, total, ins, DueLast(requests, ds));
    }
  }

  lemma LastObeys(p: Timing, g: Shape, total: nat, ins: seq<Input>, due: int)
    requires p.Sane() && ins != [] && FullRun(p, g, ins).Running?
    requires MayChoose(p, g, total, ins[..|ins| - 1], due, ins[|ins| - 1].choice)
    ensures var d := Decisions(p, g, ins)[|ins| - 1]; IsRefresh(d) ==> d.pop.command.rank == due
  {
    var before, input := ins[..|ins| - 1], ins[|ins| - 1];
    var f := FullRun(p, g, before).state;
    var v := Viewed(f.sys.ch.clock, Deliver(p, TickAll(p, f.sys.ch)).state, Counters(p, g, before), RowHits(p, g, before), total);
    Scheduler.GoodIsLegal(g, v, f.queues, input.choice);
  }

  /** In a run of the simulator, every refresh requested is sent or still waits, in the order of
      the requests, exactly when no request arrives while another rank waits. */
  lemma RefreshesSentIff(p: Timing, g: Shape, total: nat, ins: seq<Input>, requests: seq<int>)
    requires p.Sane() && FullRun(p, g, ins).Running? && Simulated(p, g, total, ins, requests)
    ensures var ds := Decisions(p, g, ins);
            && (Requested(requests) == Sent(ds) + Still(Waiting(requests, ds)) <==> NoneOverwritten(requests, ds))
            && multiset(Requested(requests))
               == multiset(Sent(ds)) + multiset(Lost(requests, ds)) + multiset(Still(Waiting(requests, ds)))
  {
    RunObeys(p, g, total, ins, requests);
    AllSentIff(requests, Decisions(p, g, ins));
    EveryRequestCounted(requests, Decisions(p, g, ins));
  }
}
