/**
 The scheduler inside the memory system: in every state a run can reach, its demands on the
 queues and bank states are met, and the channel accepts the command it chooses.
 */
module SchedulerInRun {
  import opened BankTiming
  import opened Protocol
  import opened DataPath
  import opened OpenRows
  import opened Controller
  import QueueOrder
  import ArrivalOrder
  import Scheduler

  // ---------- the number of banks never changes ----------

  ghost predicate Sized(ch: Channel, numRanks: nat, numBanks: nat) {
    |ch.ranks| == numRanks && forall r :: 0 <= r < numRanks ==> |ch.ranks[r].mc| == numBanks
  }

  lemma DeliverSized(p: Timing, ch: Channel, ch1: Channel, numRanks: nat, numBanks: nat)
    requires p.Sane() && Sized(ch, numRanks, numBanks) && Deliver(p, TickAll(p, ch)) == Running(ch1)
    ensures Sized(ch1, numRanks, numBanks)
  {
  }

  lemma {:induction false} PowerSized(p: Timing, s: Channel, power: nat -> PowerMove, i: nat, numRanks: nat, numBanks: nat)
    requires Sized(s, numRanks, numBanks) && PowerFrom(p, s, power, i).Running?
    ensures Sized(PowerFrom(p, s, power, i).state, numRanks, numBanks)
    decreases |s.ranks| - i
  {
    if i < |s.ranks| {
      var o := PowerRank(p, s.clock, s.ranks[i], power(i));
      PowerSized(p, s.(ranks := s.ranks[i := o.state]), power, i + 1, numRanks, numBanks);
    }
  }

  lemma CycleSized(p: Timing, policy: Policy, s: System, d: Decision, numRanks: nat, numBanks: nat)
    requires p.Sane() && Sized(s.ch, numRanks, numBanks) && SystemCycle(p, policy, s, d).Running?
    ensures Sized(SystemCycle(p, policy, s, d).state.ch, numRanks, numBanks)
  {
    var ch1, ch2, s' := GoesThrough(p, policy, s, d);
    DeliverSized(p, s.ch, ch1, numRanks, numBanks);
    assert Sized(ch2, numRanks, numBanks);
    PowerSized(p, ch2, d.power, 0, numRanks, numBanks);
  }

  lemma {:induction false} RunSized(p: Timing, policy: Policy, numRanks: nat, numBanks: nat, ds: seq<Decision>)
    requires p.Sane()
    ensures var o := SystemRun(p, policy, numRanks, numBanks, ds);
            o.Running? ==> Sized(o.state.ch, numRanks, numBanks)
  {
    if ds != [] {
      var before := ds[..|ds| - 1];
      RunSized(p, policy, numRanks, numBanks, before);
      var o := SystemRun(p, policy, numRanks, numBanks, before);
      if o.Running? && SystemCycle(p, policy, o.state, ds[|ds| - 1]).Running? {
        CycleSized(p, policy, o.state, ds[|ds| - 1], numRanks, numBanks);
      }
    }
  }

  // ---------- what the scheduler sees ----------

  /** The bank states at the time of the choice. */
  function Banks(ch: Channel): (b: seq<seq<BankState>>)
    ensures |b| == |ch.ranks|
    ensures forall r :: 0 <= r < |b| ==> b[r] == ch.ranks[r].mc
  {
    seq(|ch.ranks|, r requires 0 <= r < |ch.ranks| => ch.ranks[r].mc)
  }

  /** The state reached by a run, and the channel when the scheduler is asked. */
  ghost predicate Asked(p: Timing, g: Shape, ins: seq<Input>, f: Full, ch1: Channel)
    requires p.Sane()
  {
    FullRun(p, g, ins) == Running(f) && Deliver(p, TickAll(p, f.sys.ch)) == Running(ch1)
  }

  /** The scheduler's demands are met. */
  lemma SchedulerCanRun(p: Timing, g: Shape, ins: seq<Input>, f: Full, ch1: Channel, accesses: seq<seq<nat>>)
    requires p.Sane() && p.tCMD == 1 && Asked(p, g, ins, f, ch1)
    requires |accesses| == g.numRanks && forall r :: 0 <= r < g.numRanks ==> |accesses[r]| == g.numBanks
    ensures Scheduler.Fits(g, Banks(ch1), accesses, f.queues)
  {
    ArrivalOrder.RunKeepsFull(p, g, ins);
    RunIsSystemRun(p, g, ins);
    RunSized(p, g.policy, g.numRanks, g.numBanks, Decisions(p, g, ins));
    DeliverSized(p, f.sys.ch, ch1, g.numRanks, g.numBanks);
    forall r: nat, x: nat | InQueues(f.queues, r, x) ensures QueueOrder.QueueOk(g, f.queues[r][x], Banks(ch1)[r], r, x) {
      LaneAfterTick(p, g, f, ch1, r, x);
    }
  }

  lemma LaneAfterTick(p: Timing, g: Shape, f: Full, ch1: Channel, r: nat, x: nat)
    requires p.Sane() && QueueOrder.QueuesOk(g, f.queues, f.sys.ch) && InQueues(f.queues, r, x)
    requires Deliver(p, TickAll(p, f.sys.ch)) == Running(ch1) && |ch1.ranks| == |f.sys.ch.ranks|
    ensures QueueOrder.QueueOk(g, f.queues[r][x], ch1.ranks[r].mc, r, x)
  {
    var mc, mc' := f.sys.ch.ranks[r].mc, ch1.ranks[r].mc;
    assert QueueOrder.LaneOk(g, f.queues, f.sys.ch, r, x);
    forall b: nat | Open(mc, b) ensures Open(mc', b) {
      TickOpen(p, f.sys.ch, ch1, r, b);
    }
    QueueOrder.LaneKept(g, f.queues[r][x], mc, mc', r, x);
  }

  /** The transaction queue never grows beyond its depth. */
  lemma {:induction false} WaitingBounded(p: Timing, g: Shape, ins: seq<Input>)
    requires p.Sane()
    ensures var o := FullRun(p, g, ins); o.Running? ==> |o.state.waiting| <= g.transactionDepth
  {
    if ins != [] {
      WaitingBounded(p, g, ins[..|ins| - 1]);
    }
  }

  /** Whatever the scheduler chooses is accepted, with any arrivals that fit and any power moves
      that may be made: the cycle goes through, or fails for a reason other than the choice. */
  lemma ChoiceIsAccepted(p: Timing, g: Shape, ins: seq<Input>, f: Full, ch1: Channel, input: Input)
    requires p.Sane() && p.tCMD == 1 && Asked(p, g, ins, f, ch1) && Admissible(g, f, input)
    requires var pop := PopOf(f.queues, input.choice); pop.Send? ==> MayIssue(g.policy, ch1, pop.command)
    requires var o := PopPhase(p, g.policy, ch1, PopOf(f.queues, input.choice));
             o.Running? ==> !PowerFrom(p, o.state, input.power, 0).NotAllowed?
    ensures !FullCycle(p, g, f, input).NotAllowed?
  {
    ArrivalOrder.RunKeepsFull(p, g, ins);
    var o := SystemCycle(p, g.policy, f.sys, Decision(PopOf(f.queues, input.choice), input.power));
    if o.Running? {
      ArrivalOrder.CycleKeepsFull(p, g, f, input, o.state);
    }
  }
}
