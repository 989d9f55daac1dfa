/**
 Runs of the controller whose choices are the scheduler's: every choice is one that
 CommandQueue::pop may make on the bank states, activate windows and row counters that the run
 has produced (Scheduler.Chooses), so that it idles only when nothing can be sent.
 */
module ScheduledRuns {
  import opened BankTiming
  import opened Protocol
  import opened DataPath
  import opened CommandQueues
  import opened Controller
  import QueueOrder
  import ActivationWindow
  import SchedulerInRun
  import ArrivalOrder
  import OpenPages
  import Scheduler
  import opened OpenRows

  // ---------- the activate window ----------

  /** When activates went to rank r. */
  function ActsTo(ds: seq<Decision>, r: nat): (acts: seq<bool>)
    ensures |acts| == |ds|
  {
    seq(|ds|, t requires 0 <= t < |ds| => IsActTo(ds[t].pop, r))
  }

  predicate IsActTo(pop: Pop, r: nat) {
    pop.Send? && pop.command.kind.ACTIVATE? && pop.command.rank == r
  }

  function ActTimes(ds: seq<Decision>, r: nat): seq<nat> {
    if ds == [] then []
    else ActTimes(ds[..|ds| - 1], r) + (if IsActTo(ds[|ds| - 1].pop, r) then [|ds| - 1] else [])
  }

  /** The counters of a rank are those of the window model, which has granted every activate. */
  ghost predicate WindowOk(tFAW: nat, counters: seq<nat>, ds: seq<Decision>, r: nat) {
    var w := ActivationWindow.Run(tFAW, ActsTo(ds, r));
    counters == w.counters && ActTimes(ds, r) == w.times
  }

  lemma WindowStep(tFAW: nat, counters: seq<nat>, counters': seq<nat>, ds: seq<Decision>, d: Decision, r: nat)
    requires WindowOk(tFAW, counters, ds, r)
    requires if IsActTo(d.pop, r)
             then ActivationWindow.Open(ActivationWindow.Advance(counters)) && counters' == ActivationWindow.Advance(counters) + [tFAW]
             else counters' == ActivationWindow.Advance(counters)
    ensures WindowOk(tFAW, counters', ds + [d], r)
  {
    var all := ds + [d];
    assert all[..|ds|] == ds;
    var wants := ActsTo(all, r);
    assert wants[..|ds|] == ActsTo(ds, r) && wants[|ds|] == IsActTo(d.pop, r);
  }

  /** Any five consecutive activates of a rank span at least tFAW cycles. */
  ghost predicate Spread(tFAW: nat, times: seq<nat>) {
    forall k, l :: 0 <= k && l == k + 4 < |times| ==> times[l] - times[k] >= tFAW
  }

  lemma WindowSpread(tFAW: nat, counters: seq<nat>, ds: seq<Decision>, r: nat)
    requires tFAW >= 1 && WindowOk(tFAW, counters, ds, r)
    ensures Spread(tFAW, ActTimes(ds, r))
  {
    var wants := ActsTo(ds, r);
    forall k, l | 0 <= k && l == k + 4 < |ActTimes(ds, r)| ensures ActTimes(ds, r)[l] - ActTimes(ds, r)[k] >= tFAW {
      ActivationWindow.FourActivateWindow(tFAW, wants, k);
    }
  }

  // ---------- what the scheduler has counted ----------

  /** The accesses to open rows. */
  ghost function RowHits(p: Timing, g: Shape, ins: seq<Input>): (acc: seq<seq<nat>>)
    requires p.Sane()
  {
    if ins == [] then Scheduler.NoAccesses(g)
    else
      var before := ins[..|ins| - 1];
      var o := FullRun(p, g, before);
      if o.Running? then Scheduler.Count(g.policy, o.state.queues, RowHits(p, g, before), ins[|ins| - 1].choice)
      else RowHits(p, g, before)
  }

  /** The activate counters. */
  ghost function Counters(p: Timing, g: Shape, ins: seq<Input>): (cs: seq<seq<nat>>)
    requires p.Sane()
    ensures |cs| == g.numRanks
  {
    var ds := Decisions(p, g, ins);
    seq(g.numRanks, r requires 0 <= r < g.numRanks => ActivationWindow.Run(p.tFAW, ActsTo(ds, r)).counters)
  }

  /** The scheduler's view of the channel. */
  function Viewed(clock: int, ch1: Channel, counters: seq<seq<nat>>, accesses: seq<seq<nat>>, total: nat): Scheduler.View {
    Scheduler.View.View(clock, SchedulerInRun.Banks(ch1), Scheduler.Sizes(Scheduler.Aged(counters)), accesses, total)
  }

  // ---------- power moves ----------

  predicate IsEmpty(queues: Queues, i: nat) {
    i < |queues| ==> forall x :: 0 <= x < |queues[i]| ==> queues[i][x] == []
  }

  /** A rank that may sleep goes to sleep when all its banks are idle; another is woken up as soon
      as it may be. */
  function Move(ch: Channel, i: nat, sleepy: bool): PowerMove {
    if i >= |ch.ranks| then Stay
    else
      var r := ch.ranks[i];
      if sleepy then (if AllIdle(r.mc) then GoDown else Stay)
      else if r.mcDown && r.mc != [] && ch.clock >= r.mc[0].nextPowerUp then WakeUp else Stay
  }

  /** A rank with commands in its queues, or that waits for a refresh, may not sleep; whether
      another may depends on the low-power option and on how near its refresh is, which is left
      open. */
  predicate MayMove(ch: Channel, queues: Queues, waits: int, i: nat, move: PowerMove) {
    move == Move(ch, i, false) || (IsEmpty(queues, i) && i != waits && move == Move(ch, i, true))
  }

  ghost predicate MovesOk(ch: Channel, queues: Queues, waits: int, power: nat -> PowerMove) {
    forall i: nat :: MayMove(ch, queues, waits, i, power(i))
  }

  /** The rank that still waits for a refresh after a pop. */
  function AfterPop(due: int, pop: Pop): int {
    if pop.Send? && pop.command.kind.REFRESH? then -1 else due
  }

  /** These moves meet the rules of the channel. */
  lemma {:induction false} MovesAllowed(p: Timing, ch: Channel, queues: Queues, waits: int, s: Channel, power: nat -> PowerMove, i: nat)
    requires MovesOk(ch, queues, waits, power)
    requires |s.ranks| == |ch.ranks| && s.clock == ch.clock && forall k :: i <= k < |ch.ranks| ==> s.ranks[k] == ch.ranks[k]
    ensures !PowerFrom(p, s, power, i).NotAllowed?
    decreases |s.ranks| - i
  {
    if i < |s.ranks| {
      assert MayMove(ch, queues, waits, i, power(i));
      var o := PowerRank(p, s.clock, s.ranks[i], power(i));
      if o.Running? {
        MovesAllowed(p, ch, queues, waits, s.(ranks := s.ranks[i := o.state]), power, i + 1);
      }
    }
  }

  // ---------- scheduled runs ----------

  /** After the inputs before, the scheduler may make this choice while rank due waits for a
      refresh (or none, if negative). */
  ghost predicate MayChoose(p: Timing, g: Shape, total: nat, before: seq<Input>, due: int, choice: Choice)
    requires p.Sane()
  {
    var o := FullRun(p, g, before);
    o.Running? ==>
      var c := Deliver(p, TickAll(p, o.state.sys.ch));
      c.Running? ==>
        Scheduler.Chooses(g, Viewed(o.state.sys.ch.clock, c.state, Counters(p, g, before), RowHits(p, g, before), total),
                          o.state.queues, due, choice)
  }

  /** ... and these are power moves that the controller may make at the end of the cycle. */
  ghost predicate MayPower(p: Timing, g: Shape, before: seq<Input>, due: int, input: Input)
    requires p.Sane()
  {
    var o := FullRun(p, g, before);
    o.Running? ==>
      var c := Deliver(p, TickAll(p, o.state.sys.ch));
      c.Running? ==>
        var pop := PopOf(o.state.queues, input.choice);
        var c2 := PopPhase(p, g.policy, c.state, pop);
        var s := Schedule(g, After(g.policy, o.state.queues, input.choice), o.state.waiting + input.arrivals);
        c2.Running? && s.Running? ==> MovesOk(c2.state, s.state.0, AfterPop(due, pop), input.power)
  }

  /** A run that the simulator can make when these ranks are due for a refresh. */
  ghost predicate IsScheduled(p: Timing, g: Shape, total: nat, ins: seq<Input>, due: seq<int>)
    requires p.Sane() && |due| == |ins|
  {
    forall n :: 0 <= n < |ins| ==> ChosenAt(p, g, total, ins, due, n)
  }

  ghost predicate ChosenAt(p: Timing, g: Shape, total: nat, ins: seq<Input>, due: seq<int>, n: nat)
    requires p.Sane() && |due| == |ins| && n < |ins|
  {
    MayChoose(p, g, total, ins[..n], due[n], ins[n].choice) && MayPower(p, g, ins[..n], due[n], ins[n])
  }

  lemma ScheduledMore(p: Timing, g: Shape, total: nat, ins: seq<Input>, due: seq<int>, input: Input, next: int)
    requires p.Sane() && |due| == |ins| && IsScheduled(p, g, total, ins, due)
    requires MayChoose(p, g, total, ins, next, input.choice) && MayPower(p, g, ins, next, input)
    ensures IsScheduled(p, g, total, ins + [input], due + [next])
  {
    forall n | 0 <= n < |ins| + 1 ensures ChosenAt(p, g, total, ins + [input], due + [next], n) {
      if n < |ins| {
        assert ChosenAt(p, g, total, ins, due, n) && (ins + [input])[..n] == ins[..n];
      } else {
        assert (ins + [input])[..n] == ins;
      }
    }
  }

  lemma ScheduledBefore(p: Timing, g: Shape, total: nat, ins: seq<Input>, due: seq<int>)
    requires p.Sane() && |due| == |ins| && IsScheduled(p, g, total, ins, due) && ins != []
    ensures var n := |ins| - 1;
            && IsScheduled(p, g, total, ins[..n], due[..n])
            && MayChoose(p, g, total, ins[..n], due[n], ins[n].choice) && MayPower(p, g, ins[..n], due[n], ins[n])
  {
    var n := |ins| - 1;
    forall k | 0 <= k < n ensures ChosenAt(p, g, total, ins[..n], due[..n], k) {
      assert ChosenAt(p, g, total, ins, due, k) && ins[..n][..k] == ins[..k];
    }
    assert ChosenAt(p, g, total, ins, due, n);
  }

  // ---------- what the scheduler keeps ----------

  /** With open pages and a positive bound, every row that an access waits for is open. */
  ghost predicate RowsKept(g: Shape, queues: Queues, ch: Channel, accesses: seq<seq<nat>>, total: nat) {
    g.policy.OpenPage? && total > 0 ==> OpenPages.AllKept(g, queues, ch, accesses)
  }

  ghost predicate Shaped(g: Shape, accesses: seq<seq<nat>>) {
    |accesses| == g.numRanks && forall r :: 0 <= r < g.numRanks ==> |accesses[r]| == g.numBanks
  }

  lemma RowsStep(p: Timing, g: Shape, f: Full, choice: Choice, power: nat -> PowerMove, arrivals: seq<Packet>,
                 ch1: Channel, sys': System, v: Scheduler.View)
    requires p.Sane() && p.tCMD == 1 && ArrivalOrder.FullInv(p, g, f) && Admissible(g, f, Input(arrivals, choice, power))
    requires SystemCycle(p, g.policy, f.sys, Decision(PopOf(f.queues, choice), power)) == Running(sys')
    requires Deliver(p, TickAll(p, f.sys.ch)) == Running(ch1) && v.banks == SchedulerInRun.Banks(ch1) && |ch1.ranks| == g.numRanks
    requires Scheduler.Covers(g, v) && Scheduler.AllFine(g, v, f.queues) && Scheduler.Cautious(g, v, f.queues, choice)
    requires RowsKept(g, f.queues, f.sys.ch, v.accesses, v.total)
    ensures var s := Schedule(g, After(g.policy, f.queues, choice), f.waiting + arrivals);
            s.Running? ==> RowsKept(g, s.state.0, sys'.ch, Scheduler.Count(g.policy, f.queues, v.accesses, choice), v.total)
  {
    if g.policy.OpenPage? && v.total > 0 {
      var input := Input(arrivals, choice, power);
      var c1, c2, s2 := GoesThrough(p, g.policy, f.sys, Decision(PopOf(f.queues, choice), power));
      QueueOrder.PopKeepsQueues(p, g, f, input, sys');
      OpenPages.CycleKeepsRows(p, g, f, choice, power, c1, c2, sys', v);
      OpenPages.SplitKeepsRows(g, After(g.policy, f.queues, choice), sys'.ch,
                               Scheduler.Count(g.policy, f.queues, v.accesses, choice), f.waiting + arrivals);
    }
  }

  /** No open row was hit more often than it may be; with closed pages nothing is counted. */
  ghost predicate HitsOk(g: Shape, accesses: seq<seq<nat>>, total: nat) {
    Shaped(g, accesses) && forall r: nat, b: nat :: r < g.numRanks && b < g.numBanks ==> HitOk(g, accesses[r][b], total)
  }

  predicate HitOk(g: Shape, n: nat, total: nat) {
    n <= total && (g.policy.ClosePage? ==> n == 0)
  }

  lemma HitsStep(g: Shape, v: Scheduler.View, queues: Queues, choice: Choice)
    requires Scheduler.Covers(g, v) && Scheduler.AllFine(g, v, queues) && Scheduler.Good(g, v, queues, choice)
    requires HitsOk(g, v.accesses, v.total)
    ensures HitsOk(g, Scheduler.Count(g.policy, queues, v.accesses, choice), v.total)
  {
    if choice.Take? && HasAct(queues[choice.rank][choice.lane], choice.i) {
      var q := queues[choice.rank][choice.lane];
      assert QueueOrder.PacketOk(g, q[choice.i], choice.rank, choice.lane);
      assert PairedAt(q, choice.i - 1);
      assert HitOk(g, v.accesses[choice.rank][q[choice.i].command.bank], v.total);
    }
    forall r: nat, b: nat | r < g.numRanks && b < g.numBanks
      ensures HitOk(g, Scheduler.Count(g.policy, queues, v.accesses, choice)[r][b], v.total)
    {
      assert HitOk(g, v.accesses[r][b], v.total);
    }
  }

  ghost predicate RunKept(p: Timing, g: Shape, total: nat, ins: seq<Input>)
    requires p.Sane()
  {
    var o := FullRun(p, g, ins);
    o.Running? ==> RowsKept(g, o.state.queues, o.state.sys.ch, RowHits(p, g, ins), total) && HitsOk(g, RowHits(p, g, ins), total)
  }

  /** In every run of the simulator with open pages, no access is stranded. */
  lemma {:induction false} ScheduledKeepsRows(p: Timing, g: Shape, total: nat, ins: seq<Input>, due: seq<int>)
    requires p.Sane() && p.tCMD == 1 && |due| == |ins| && IsScheduled(p, g, total, ins, due)
    ensures RunKept(p, g, total, ins)
  {
    if ins == [] {
      StartKeepsRows(p, g, total);
    } else {
      var n := |ins| - 1;
      ScheduledBefore(p, g, total, ins, due);
      ScheduledKeepsRows(p, g, total, ins[..n], due[..n]);
      KeepsRowsStep(p, g, total, ins, due[n]);
    }
  }

  lemma StartKeepsRows(p: Timing, g: Shape, total: nat)
    requires p.Sane()
    ensures RunKept(p, g, total, [])
  {
    OpenPages.StartKept(g);
  }

  lemma KeepsRowsStep(p: Timing, g: Shape, total: nat, ins: seq<Input>, next: int)
    requires p.Sane() && p.tCMD == 1 && ins != [] && RunKept(p, g, total, ins[..|ins| - 1])
    requires MayChoose(p, g, total, ins[..|ins| - 1], next, ins[|ins| - 1].choice)
    ensures RunKept(p, g, total, ins)
  {
    if FullRun(p, g, ins).Running? {
      var before, input := ins[..|ins| - 1], ins[|ins| - 1];
      var f, hits := FullRun(p, g, before).state, RowHits(p, g, before);
      var ch1, ch2, s' := GoesThrough(p, g.policy, f.sys, Decision(PopOf(f.queues, input.choice), input.power));
      var v := Viewed(f.sys.ch.clock, ch1, Counters(p, g, before), hits, total);
      ArrivalOrder.RunKeepsFull(p, g, before);
      HitsStep(g, v, f.queues, input.choice);
      RowsStep(p, g, f, input.choice, input.power, input.arrivals, ch1, s', v);
    }
  }

  // ---------- banks that no command is addressed to ----------

  /** Only these banks are addressed, by activates and accesses, and no rank changes its power. */
  ghost predicate OnlyTo(ds: seq<Decision>, banks: set<(nat, nat)>) {
    forall t :: 0 <= t < |ds| ==> Narrow(ds[t], banks)
  }

  ghost predicate Narrow(d: Decision, banks: set<(nat, nat)>) {
    d.power == STAY
    && (d.pop.Send? ==> (d.pop.command.rank, d.pop.command.bank) in banks
                        && (d.pop.command.kind.ACTIVATE? || IsRead(d.pop.command) || IsWrite(d.pop.command)))
  }

  predicate Resting(m: BankState) {
    m.status.Idle? && m.countdown == 0
  }

  /** No rank sleeps, and the other banks rest. */
  ghost predicate RestElsewhere(ch: Channel, banks: set<(nat, nat)>) {
    && (forall i :: 0 <= i < |ch.ranks| ==> !ch.ranks[i].mcDown)
    && forall i: nat, j: nat :: i < |ch.ranks| && j < |ch.ranks[i].mc| && (i, j) !in banks ==> Resting(ch.ranks[i].mc[j])
  }

  lemma RestStep(p: Timing, policy: Policy, s: System, d: Decision, banks: set<(nat, nat)>)
    requires p.Sane() && RestElsewhere(s.ch, banks) && Narrow(d, banks) && SystemCycle(p, policy, s, d).Running?
    ensures RestElsewhere(SystemCycle(p, policy, s, d).state.ch, banks)
  {
    var ch1 := Deliver(p, TickAll(p, s.ch)).state;
    RestDelivered(p, s.ch, ch1, banks);
    var ch2 := PopPhase(p, policy, ch1, d.pop).state;
    RestPopped(p, policy, ch1, d.pop, ch2, banks);
    StayKeeps(p, ch2, 0);
  }

  lemma RestDelivered(p: Timing, ch: Channel, ch1: Channel, banks: set<(nat, nat)>)
    requires p.Sane() && RestElsewhere(ch, banks) && Deliver(p, TickAll(p, ch)) == Running(ch1)
    ensures RestElsewhere(ch1, banks)
  {
    forall i: nat, j: nat | i < |ch1.ranks| && j < |ch1.ranks[i].mc| && (i, j) !in banks ensures Resting(ch1.ranks[i].mc[j]) {
      assert ch1.ranks[i].mc == TickRank(p, ch.ranks[i]).mc;
      assert Resting(ch.ranks[i].mc[j]);
    }
  }

  lemma RestPopped(p: Timing, policy: Policy, ch1: Channel, pop: Pop, ch2: Channel, banks: set<(nat, nat)>)
    requires p.Sane() && RestElsewhere(ch1, banks) && Narrow(Decision(pop, STAY), banks) && PopPhase(p, policy, ch1, pop) == Running(ch2)
    ensures RestElsewhere(ch2, banks)
  {
    forall i: nat, j: nat | i < |ch2.ranks| && j < |ch2.ranks[i].mc| && (i, j) !in banks ensures Resting(ch2.ranks[i].mc[j]) {
      if pop.Send? {
        assert ch2.ranks[i].mc[j] == Issue(p, ch1.clock, pop.command, i, j, ch1.ranks[i].mc[j]);
      }
      assert Resting(ch1.ranks[i].mc[j]);
    }
  }

  lemma {:induction false} RunRests(p: Timing, policy: Policy, numRanks: nat, numBanks: nat, ds: seq<Decision>, banks: set<(nat, nat)>)
    requires p.Sane() && OnlyTo(ds, banks)
    ensures var o := SystemRun(p, policy, numRanks, numBanks, ds); o.Running? ==> RestElsewhere(o.state.ch, banks)
  {
    if ds != [] {
      var before := ds[..|ds| - 1];
      RunRests(p, policy, numRanks, numBanks, before, banks);
      var o := SystemRun(p, policy, numRanks, numBanks, before);
      assert Narrow(ds[|ds| - 1], banks);
      if o.Running? && SystemCycle(p, policy, o.state, ds[|ds| - 1]).Running? {
        RestStep(p, policy, o.state, ds[|ds| - 1], banks);
      }
    }
  }
}
