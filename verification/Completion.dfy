/**
 Once transactions stop, every read is answered, while refreshes go on: after a number of cycles
 that is known in advance, what each row has returned is all that the flat memory answers.
 */
module Completion {
  import opened BankTiming
  import opened Protocol
  import opened DataPath
  import opened Coherence
  import opened ReadReturns
  import opened AddressMapping
  import opened CommandQueues
  import opened Controller
  import opened ScheduledRuns
  import opened Refreshes
  import opened Progress
  import Storage
  import Schedules
  import ArrivalOrder
  import FlatMemory
  import QueueOrder
  import Scheduler

  // ---------- after the queues are empty ----------

  /** An empty controller sends no access. */
  lemma NothingRead(p: Timing, g: Shape, ins: seq<Input>, input: Input, i: nat)
    requires p.Sane() && FullRun(p, g, ins).Running? && Drained(FullRun(p, g, ins).state) && FullRun(p, g, ins + [input]).Running?
    ensures ReadsOf(Decisions(p, g, ins + [input]), i) == ReadsOf(Decisions(p, g, ins), i)
  {
    Schedules.RunSnoc(p, g, ins, input);
    Schedules.DecisionsMore(p, g, ins, input);
    var f := FullRun(p, g, ins).state;
    assert Chosen(f.queues, input.choice) == [];
    var ds := Decisions(p, g, ins + [input]);
    assert ds[..|ds| - 1] == Decisions(p, g, ins);
  }

  lemma RunningBefore(p: Timing, g: Shape, ins: seq<Input>, more: seq<Input>)
    requires p.Sane() && FullRun(p, g, ins + more).Running? && more != []
    ensures var n := |more| - 1; FullRun(p, g, ins + more[..n]).Running? && ins + more == ins + more[..n] + [more[n]]
  {
    SplitLast(ins, more);
  }

  lemma {:induction false} RunningAll(p: Timing, g: Shape, ins: seq<Input>, more: seq<Input>)
    requires p.Sane() && FullRun(p, g, ins + more).Running?
    ensures FullRun(p, g, ins).Running?
    decreases |more|
  {
    if more == [] {
      assert ins + more == ins;
    } else {
      RunningBefore(p, g, ins, more);
      RunningAll(p, g, ins, more[..|more| - 1]);
    }
  }

  lemma {:induction false} NoMoreReads(p: Timing, g: Shape, ins: seq<Input>, more: seq<Input>, i: nat)
    requires p.Sane() && FullRun(p, g, ins).Running? && Drained(FullRun(p, g, ins).state)
    requires NoArrivals(more) && FullRun(p, g, ins + more).Running?
    ensures ReadsOf(Decisions(p, g, ins + more), i) == ReadsOf(Decisions(p, g, ins), i)
    ensures Drained(FullRun(p, g, ins + more).state)
  {
    if more == [] {
      assert ins + more == ins;
    } else {
      var n := |more| - 1;
      RunningBefore(p, g, ins, more);
      NoMoreReads(p, g, ins, more[..n], i);
      NothingRead(p, g, ins + more[..n], more[n], i);
      Schedules.RunSnoc(p, g, ins + more[..n], more[n]);
      DrainedStays(p, g, FullRun(p, g, ins + more[..n]).state, more[n]);
    }
  }

  /** A read is issued in a cycle of the run. */
  lemma {:induction false} IssuedBefore(ds: seq<Decision>, i: nat)
    ensures forall k :: 0 <= k < |ReadsOf(ds, i)| ==> ReadsOf(ds, i)[k].issuedAt < |ds|
  {
    if ds != [] {
      IssuedBefore(ds[..|ds| - 1], i);
    }
  }

  /** The cycles from the last read to its return. */
  function Latency(p: Timing): int {
    1 + p.RL() + p.Burst()
  }

  /** A read that has not been returned was issued lately. */
  lemma NotYetDue(p: Timing, now: int, last: int, returned: seq<(Ticket, int)>, issued: seq<Ticket>)
    requires Served(p, now, returned, issued) && forall k :: 0 <= k < |issued| ==> issued[k].issuedAt < last
    ensures |returned| < |issued| ==> now < last + Latency(p)
  {
    if |returned| < |issued| {
      assert issued[|returned|].issuedAt < last;
    }
  }

  /** When no read was issued lately, all have been returned. */
  lemma AllReturned(p: Timing, now: int, last: int, returned: seq<(Ticket, int)>, issued: seq<Ticket>)
    requires Served(p, now, returned, issued) && last + Latency(p) <= now
    requires forall k :: 0 <= k < |issued| ==> issued[k].issuedAt < last
    ensures Done(returned) == issued
  {
    NotYetDue(p, now, last, returned, issued);
  }

  // ---------- what the system has answered then ----------

  /** In a drained state every access that arrived has been issued. */
  lemma AllIssued(p: Timing, g: Shape, f: Full, k: Key)
    requires p.Sane() && ArrivalOrder.FullInv(p, g, f) && Drained(f)
    ensures Select(f.issued, k) == Select(f.arrived, k)
  {
    assert ArrivalOrder.BalancedFull(g, f, k);
    assert QueueOf(g, f.queues, k.rank, k.bank) == [];
  }

  lemma {:induction false} SameArrivals(ins: seq<Input>, more: seq<Input>)
    requires NoArrivals(more)
    ensures ArrivalOrder.Arrivals(ins + more) == ArrivalOrder.Arrivals(ins)
  {
    if more == [] {
      assert ins + more == ins;
    } else {
      SplitLast(ins, more);
      SameArrivals(ins, more[..|more| - 1]);
    }
  }

  /** The drained run, after enough cycles for its last reads. */
  lemma AnsweredInFull(p: Timing, g: Shape, ins: seq<Input>, more: seq<Input>, k: Key)
    requires p.Sane() && p.tCMD == 1 && k.rank < g.numRanks && FullRun(p, g, ins).Running? && Drained(FullRun(p, g, ins).state)
    requires NoArrivals(more) && FullRun(p, g, ins + more).Running? && |more| >= Latency(p)
    ensures var s := FullRun(p, g, ins + more).state.sys;
            && |s.io.ranks| == g.numRanks
            && ArrivalOrder.RowReads(Done(s.io.ranks[k.rank].returned), k) == ArrivalOrder.Answers(Select(ArrivalOrder.Arrivals(ins), k))
  {
    var all := ins + more;
    var f := FullRun(p, g, all).state;
    NoMoreReads(p, g, ins, more, k.rank);
    ArrivalOrder.ReadsReturnLatestWrite(p, g, all, k.rank);
    IssuedBefore(Decisions(p, g, ins), k.rank);
    AllReturned(p, |all|, |ins|, f.sys.io.ranks[k.rank].returned, ReadsOf(Decisions(p, g, all), k.rank));
    ArrivalOrder.RunAgrees(p, g, all, k);
    ArrivalOrder.RunKeepsFull(p, g, all);
    AllIssued(p, g, f, k);
    ArrivalOrder.ArrivedIs(p, g, all);
    SameArrivals(ins, more);
  }

  /** The run has drained after these inputs and answers in full after those. */
  lemma AnsweredFlat(p: Timing, g: Shape, geo: Geometry, scheme: Scheme, chan: nat, ins: seq<Input>, a: seq<Input>, b: seq<Input>,
                     ops: seq<Storage.Op>, k: Key)
    requires p.Sane() && p.tCMD == 1 && k.rank < g.numRanks && NoArrivals(a) && NoArrivals(b) && |b| >= Latency(p)
    requires FullRun(p, g, ins + a).Running? && Drained(FullRun(p, g, ins + a).state) && FullRun(p, g, ins + a + b).Running?
    requires FlatMemory.OnChannel(geo, scheme, chan, ops)
    requires ArrivalOrder.Arrivals(ins) == FlatMemory.TranslateAll(geo, scheme, g.policy, ops)
    ensures AnswersAll(p, g, geo, scheme, ins + a + b, ops, k)
  {
    SameArrivals(ins, a);
    AnsweredInFull(p, g, ins + a, b, k);
    FlatMemory.AnswersAreFlat(geo, scheme, g.policy, chan, ops, k);
  }

  /** After this run, all reads of the row have been answered as the flat memory answers them. */
  ghost predicate AnswersAll(p: Timing, g: Shape, geo: Geometry, scheme: Scheme, ins: seq<Input>, ops: seq<Storage.Op>, k: Key)
    requires p.Sane()
  {
    var o := FullRun(p, g, ins);
    && o.Running? && k.rank < |o.state.sys.io.ranks|
    && ArrivalOrder.RowReads(Done(o.state.sys.io.ranks[k.rank].returned), k) == FlatMemory.FlatAnswers(geo, scheme, g.policy, ops, k)
  }

  /** The beginning of a run of the simulator. */
  lemma {:induction false} Beginning(p: Timing, g: Shape, total: nat, ins: seq<Input>, requests: seq<int>, more: seq<Input>, asked: seq<int>)
    requires p.Sane() && |requests| == |ins| && |asked| == |more| && Simulated(p, g, total, ins + more, requests + asked)
    ensures Simulated(p, g, total, ins, requests)
    decreases |more|
  {
    if more == [] {
      assert ins + more == ins && requests + asked == requests;
    } else {
      var n := |more| - 1;
      var before, register, last, request := ins + more[..n], requests + asked[..n], more[n], asked[n];
      SplitLast(ins, more);
      SplitLast(requests, asked);
      OneLess(p, g, total, before, last, register, request);
      Beginning(p, g, total, ins, requests, more[..n], asked[..n]);
    }
  }

  /** Once transactions stop, every row's reads are answered, all of them, as the flat memory
      answers them, whatever refreshes are requested meanwhile: the queues drain during the inputs
      a, and the last reads return during the inputs b. */
  lemma EverythingIsAnswered(p: Timing, g: Shape, geo: Geometry, scheme: Scheme, chan: nat, total: nat,
                             ins: seq<Input>, requests: seq<int>, a: seq<Input>, askedA: seq<int>, b: seq<Input>, askedB: seq<int>,
                             ops: seq<Storage.Op>, k: Key)
    requires p.Sane() && p.tCMD == 1 && p.tRP >= 1 && total > 0 && g.queueDepth >= 2 && FullRun(p, g, ins + a + b).Running?
    requires |requests| == |ins| && |askedA| == |a| && |askedB| == |b|
    requires Simulated(p, g, total, ins + a + b, requests + askedA + askedB) && NoArrivals(a) && NoArrivals(b)
    requires FullRun(p, g, ins).Running? && k.rank < g.numRanks && FlatMemory.OnChannel(geo, scheme, chan, ops)
    requires ArrivalOrder.Arrivals(ins) == FlatMemory.TranslateAll(geo, scheme, g.policy, ops)
    requires |a| >= Enough(p, g, ins, requests, askedA) && |b| >= Latency(p)
    ensures AnswersAll(p, g, geo, scheme, ins + a + b, ops, k)
  {
    Beginning(p, g, total, ins + a, requests + askedA, b, askedB);
    RunningAll(p, g, ins + a, b);
    EveryRunDrains(p, g, total, ins, requests, a, askedA);
    AnsweredFlat(p, g, geo, scheme, chan, ins, a, b, ops, k);
  }

  // ---------- when no run ends ----------

  /** Only ACTIVATEs have been sent from the queues, and only accesses have arrived. */
  ghost predicate NoneServed(f: Full) {
    && (forall i :: 0 <= i < |f.issued| ==> IsAct(f.issued[i]))
    && (forall i :: 0 <= i < |f.arrived| ==> IsColumn(f.arrived[i]))
  }

  /** No transaction can be split. */
  ghost predicate NoneSplit(g: Shape, f: Full) {
    g.queueDepth < 2 ==> QueueOrder.Shaped(g, f.queues) && forall r: nat, x: nat :: InQueues(f.queues, r, x) ==> f.queues[r][x] == []
  }

  ghost predicate Untouched(p: Timing, g: Shape, ins: seq<Input>)
    requires p.Sane()
  {
    var o := FullRun(p, g, ins); o.Running? ==> NoneServed(o.state) && NoneSplit(g, o.state)
  }

  /** In a queue without room for two packets, or if no row may be accessed, nothing is served. */
  lemma StepServesNone(p: Timing, g: Shape, total: nat, f: Full, ch1: Channel, hits: seq<seq<nat>>, counters: seq<seq<nat>>,
                       next: int, input: Input)
    requires p.Sane() && (total == 0 || g.queueDepth < 2) && QueueOrder.QueuesOk(g, f.queues, f.sys.ch)
    requires QueueOrder.AllValid(g, f.waiting) && FullCycle(p, g, f, input).Running? && NoneServed(f) && NoneSplit(g, f)
    requires Scheduler.Chooses(g, Viewed(f.sys.ch.clock, ch1, counters, hits, total), f.queues, next, input.choice)
    ensures NoneServed(FullCycle(p, g, f, input).state) && NoneSplit(g, FullCycle(p, g, f, input).state)
  {
    if input.choice.Take? {
      var q := f.queues[input.choice.rank][input.choice.lane];
      assert QueueOrder.LaneOk(g, f.queues, f.sys.ch, input.choice.rank, input.choice.lane);
      assert QueueOrder.PacketOk(g, q[input.choice.i], input.choice.rank, input.choice.lane);
    }
    if g.queueDepth < 2 {
      NoneSplitNow(g, f, input);
    }
  }

  lemma OneMoreUntouched(p: Timing, g: Shape, total: nat, ins: seq<Input>, next: int)
    requires p.Sane() && p.tCMD == 1 && (total == 0 || g.queueDepth < 2) && ins != [] && Untouched(p, g, ins[..|ins| - 1])
    requires MayChoose(p, g, total, ins[..|ins| - 1], next, ins[|ins| - 1].choice)
    ensures Untouched(p, g, ins)
  {
    if FullRun(p, g, ins).Running? {
      var before := ins[..|ins| - 1];
      var f := FullRun(p, g, before).state;
      ArrivalOrder.RunKeepsFull(p, g, before);
      DeliverSettles(p, g.policy, f.sys.ch);
      StepServesNone(p, g, total, f, Deliver(p, TickAll(p, f.sys.ch)).state, RowHits(p, g, before), Counters(p, g, before),
                     next, ins[|ins| - 1]);
    }
  }

  lemma NoneSplitNow(g: Shape, f: Full, input: Input)
    requires g.queueDepth < 2 && NoneSplit(g, f) && Admissible(g, f, input) && QueueOrder.AllValid(g, f.waiting)
    ensures Schedule(g, After(g.policy, f.queues, input.choice), f.waiting + input.arrivals)
            == Running((f.queues, f.waiting + input.arrivals))
  {
    assert Chosen(f.queues, input.choice) == [];
    var waiting := f.waiting + input.arrivals;
    var i := FirstWithRoom(g, f.queues, waiting);
    if i < |waiting| {
      QueueOrder.InRange(g, f.queues, waiting[i]);
    }
  }

  lemma {:induction false} ServesNone(p: Timing, g: Shape, total: nat, ins: seq<Input>, due: seq<int>)
    requires p.Sane() && p.tCMD == 1 && (total == 0 || g.queueDepth < 2) && |due| == |ins| && IsScheduled(p, g, total, ins, due)
    ensures Untouched(p, g, ins)
  {
    if ins != [] {
      var n := |ins| - 1;
      ScheduledBefore(p, g, total, ins, due);
      ServesNone(p, g, total, ins[..n], due[..n]);
      OneMoreUntouched(p, g, total, ins, due[n]);
    }
  }

  /** What is not served is not drained. */
  lemma NotDrained(p: Timing, g: Shape, f: Full)
    requires p.Sane() && ArrivalOrder.FullInv(p, g, f) && NoneServed(f) && f.arrived != []
    ensures !Drained(f)
  {
    var k := ArrivalOrder.KeyOf(f.arrived[0].command);
    SelectNone(f.issued, k);
    if Drained(f) {
      AllIssued(p, g, f, k);
    }
  }

  /** Exactly when a run that ends without arrivals drains: queues have room for a pair, and rows
      may be accessed. */
  lemma DrainsIff(p: Timing, g: Shape, total: nat, ins: seq<Input>, requests: seq<int>, more: seq<Input>, asked: seq<int>)
    requires p.Sane() && p.tCMD == 1 && p.tRP >= 1
    requires |requests| == |ins| && |asked| == |more| && Simulated(p, g, total, ins + more, requests + asked)
    requires NoArrivals(more) && FullRun(p, g, ins).Running? && FullRun(p, g, ins + more).Running?
    requires |more| >= Enough(p, g, ins, requests, asked) && ArrivalOrder.Arrivals(ins) != []
    ensures Drained(FullRun(p, g, ins + more).state) <==> total > 0 && g.queueDepth >= 2
  {
    if total > 0 && g.queueDepth >= 2 {
      EveryRunDrains(p, g, total, ins, requests, more, asked);
    } else {
      ServesNone(p, g, total, ins + more, DueIn(p, g, ins + more, requests + asked));
      ArrivalOrder.ArrivedIs(p, g, ins + more);
      SameArrivals(ins, more);
      ArrivalOrder.RunKeepsFull(p, g, ins + more);
      NotDrained(p, g, FullRun(p, g, ins + more).state);
    }
  }
}
