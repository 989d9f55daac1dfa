/**
 Progress: once transactions stop arriving, the simulator empties its queues within a number of
 cycles that is known in advance and that only the refreshes requested meanwhile extend.
 */
module Progress {
  import opened BankTiming
  import opened Protocol
  import opened DataPath
  import opened OpenRows
  import opened CommandQueues
  import opened Controller
  import opened Deadlines
  import opened ScheduledRuns
  import opened Serving
  import Schedules
  import opened Refreshes
  import opened Coherence
  import opened DataBusSafety
  import ClosedPages
  import QueueOrder
  import ArrivalOrder
  import OpenPages
  import ActivationWindow
  import SchedulerInRun
  import Scheduler

  // ---------- when a rank is free ----------

  /** The activates of the window expire by h. */
  ghost predicate WindowBy(h: int, t: int, counters: seq<nat>) {
    forall k :: 0 <= k < |counters| ==> t + counters[k] <= h
  }

  lemma WindowAges(h: int, t: int, counters: seq<nat>)
    requires WindowBy(h, t, counters) && forall k :: 0 <= k < |counters| ==> counters[k] >= 1
    ensures WindowBy(h, t + 1, ActivationWindow.Advance(counters))
  {
  }

  lemma StillRunning(h: int, t: int, counters: seq<nat>)
    requires WindowBy(h, t, counters) && forall k :: 0 <= k < |counters| ==> counters[k] >= 1
    ensures counters != [] ==> t < h
  {
    if counters != [] {
      assert t + counters[0] <= h;
    }
  }

  /** Running counters are positive, and at most tFAW. */
  lemma WindowRunning(p: Timing, g: Shape, ins: seq<Input>, r: nat)
    requires p.Sane() && r < g.numRanks
    ensures forall k :: 0 <= k < |Counters(p, g, ins)[r]| ==> 1 <= Counters(p, g, ins)[r][k] <= p.tFAW
  {
    ActivationWindow.CountersAreRemaining(p.tFAW, ActsTo(Decisions(p, g, ins), r));
  }

  /** A bank whose times are past and whose countdown is over. */
  lemma BankIsFree(p: Timing, policy: Policy, h: int, t: int, r: RankPair, mc: seq<BankState>, j: nat)
    requires p.Sane() && RankOk(policy, t, r) && !r.mcDown && j < |mc| == |r.mc| && Times(p, h, t, mc[j]) && Ends(mc[j]) && h <= t
    requires r.mc[j] == Tick(p, mc[j])
    ensures Usable(r.mc[j], t)
  {
    assert BankOk(policy, t, r, j);
  }

  lemma BanksAreFree(p: Timing, policy: Policy, ch: Channel, ch1: Channel, h: int, r: nat)
    requires p.Sane() && Deliver(p, TickAll(p, ch)) == Running(ch1) && AllEnd(ch) && h <= ch.clock
    requires r < |ch.ranks| && r < |ch1.ranks| && RankOk(policy, ch.clock, ch1.ranks[r]) && RankBy(p, h, ch.clock, ch.ranks[r])
    ensures forall b :: 0 <= b < |ch1.ranks[r].mc| ==> Usable(ch1.ranks[r].mc[b], ch.clock)
  {
    var mc := ch.ranks[r].mc;
    assert ch1.ranks[r].mc == TickRank(p, ch.ranks[r]).mc;
    forall b | 0 <= b < |ch1.ranks[r].mc| ensures Usable(ch1.ranks[r].mc[b], ch.clock) {
      assert Ends(mc[b]);
      BankIsFree(p, policy, h, ch.clock, ch1.ranks[r], mc, b);
    }
  }

  lemma WindowIsOpen(p: Timing, g: Shape, ins: seq<Input>, h: int, t: int, r: nat)
    requires p.Sane() && r < g.numRanks && WindowBy(h, t, Counters(p, g, ins)[r]) && h <= t
    ensures |Scheduler.Sizes(Scheduler.Aged(Counters(p, g, ins)))| == g.numRanks
    ensures Scheduler.Sizes(Scheduler.Aged(Counters(p, g, ins)))[r] == 0
  {
    WindowRunning(p, g, ins, r);
    StillRunning(h, t, Counters(p, g, ins)[r]);
  }

  /** A rank whose times are past is awake and free. */
  lemma RankIsFree(p: Timing, g: Shape, total: nat, ins: seq<Input>, f: Full, ch1: Channel, h: int, r: nat)
    requires p.Sane() && p.tCMD == 1 && p.tRP >= 1 && SchedulerInRun.Asked(p, g, ins, f, ch1) && r < g.numRanks
    requires r < |f.sys.ch.ranks| && RankBy(p, h, f.sys.ch.clock, f.sys.ch.ranks[r]) && h <= f.sys.ch.clock
    requires WindowBy(h, f.sys.ch.clock, Counters(p, g, ins)[r])
    requires Scheduler.Covers(g, Viewed(f.sys.ch.clock, ch1, Counters(p, g, ins), RowHits(p, g, ins), total))
    ensures RankFree(g, Viewed(f.sys.ch.clock, ch1, Counters(p, g, ins), RowHits(p, g, ins), total), r)
  {
    WindowIsOpen(p, g, ins, h, f.sys.ch.clock, r);
    ArrivalOrder.RunKeepsFull(p, g, ins);
    RunIsSystemRun(p, g, ins);
    PrechargesEnd(p, g.policy, g.numRanks, g.numBanks, Decisions(p, g, ins));
    DeliverSettles(p, g.policy, f.sys.ch);
    assert RankOk(g.policy, f.sys.ch.clock, ch1.ranks[r]);
    BanksAreFree(p, g.policy, f.sys.ch, ch1, h, r);
  }

  /** Then the scheduler does not wait. */
  lemma DoesNotWait(p: Timing, g: Shape, total: nat, ins: seq<Input>, due: seq<int>, f: Full, ch1: Channel, h: int, r: nat, x: nat)
    requires p.Sane() && p.tCMD == 1 && p.tRP >= 1 && total > 0 && |due| == |ins| && IsScheduled(p, g, total, ins, due)
    requires SchedulerInRun.Asked(p, g, ins, f, ch1) && InQueues(f.queues, r, x) && f.queues[r][x] != [] && r < g.numRanks
    requires r < |f.sys.ch.ranks| && RankBy(p, h, f.sys.ch.clock, f.sys.ch.ranks[r]) && h <= f.sys.ch.clock
    requires WindowBy(h, f.sys.ch.clock, Counters(p, g, ins)[r])
    ensures !MayChoose(p, g, total, ins, -1, Wait)
  {
    if MayChoose(p, g, total, ins, -1, Wait) {
      var v := Viewed(f.sys.ch.clock, ch1, Counters(p, g, ins), RowHits(p, g, ins), total);
      RankIsFree(p, g, total, ins, f, ch1, h, r);
      ScheduledKeepsRows(p, g, total, ins, due);
      assert Scheduler.Clear(g, v, f.queues, -1, r, x);
      if g.policy.OpenPage? {
        KeptNow(p, g, total, ins, f, ch1, r, x);
        HitsNow(g, v, r);
        OpenServes(g, v, f.queues, r, x);
      } else {
        MatchedNow(p, g, ins, f, ch1, r, x);
        HitsNow(g, v, r);
        ClosedServes(g, v, f.queues, r, x);
      }
    }
  }

  /** A rank that is free does not keep its refresh waiting. */
  lemma RefreshesNow(p: Timing, g: Shape, total: nat, ins: seq<Input>, due: seq<int>, f: Full, ch1: Channel, h: int, r: nat)
    requires p.Sane() && p.tCMD == 1 && p.tRP >= 1 && total > 0 && |due| == |ins| && IsScheduled(p, g, total, ins, due)
    requires SchedulerInRun.Asked(p, g, ins, f, ch1) && r < g.numRanks
    requires r < |f.sys.ch.ranks| && RankBy(p, h, f.sys.ch.clock, f.sys.ch.ranks[r]) && h <= f.sys.ch.clock
    requires WindowBy(h, f.sys.ch.clock, Counters(p, g, ins)[r])
    ensures !MayChoose(p, g, total, ins, r, Wait)
  {
    if MayChoose(p, g, total, ins, r, Wait) {
      var v := Viewed(f.sys.ch.clock, ch1, Counters(p, g, ins), RowHits(p, g, ins), total);
      RankIsFree(p, g, total, ins, f, ch1, h, r);
      ScheduledKeepsRows(p, g, total, ins, due);
      HitsNow(g, v, r);
      forall b: nat | b < g.numBanks && v.banks[r][b].status.RowActive? ensures !Scheduler.RowHeld(g, v, f.queues, r, b) {
        assert InQueues(f.queues, r, g.Lane(b));
        if g.policy.OpenPage? {
          KeptNow(p, g, total, ins, f, ch1, r, g.Lane(b));
          OpenRowGoes(g, v, f.queues, r, b);
        } else {
          MatchedNow(p, g, ins, f, ch1, r, g.Lane(b));
          ClosedRowGoes(g, v, f.queues, r, b);
        }
      }
      RefreshGoes(g, v, f.queues, r);
    }
  }

  lemma KeptNow(p: Timing, g: Shape, total: nat, ins: seq<Input>, f: Full, ch1: Channel, r: nat, x: nat)
    requires p.Sane() && p.tCMD == 1 && g.policy.OpenPage? && total > 0 && RunKept(p, g, total, ins)
    requires SchedulerInRun.Asked(p, g, ins, f, ch1) && InQueues(f.queues, r, x) && r < g.numRanks && r < |f.sys.ch.ranks|
    requires r < |RowHits(p, g, ins)|
    ensures r < |ch1.ranks| && OpenPages.Kept(f.queues[r][x], ch1.ranks[r].mc, RowHits(p, g, ins)[r])
  {
    ArrivalOrder.RunKeepsFull(p, g, ins);
    OpenPages.TickRows(p, f.sys.ch, ch1, r);
    assert OpenPages.LaneKept(f.queues, f.sys.ch, RowHits(p, g, ins), r, x);
    OpenPages.KeptSame(f.queues[r][x], f.sys.ch.ranks[r].mc, ch1.ranks[r].mc, RowHits(p, g, ins)[r]);
  }

  lemma MatchedNow(p: Timing, g: Shape, ins: seq<Input>, f: Full, ch1: Channel, r: nat, x: nat)
    requires p.Sane() && p.tCMD == 1 && g.policy.ClosePage?
    requires SchedulerInRun.Asked(p, g, ins, f, ch1) && InQueues(f.queues, r, x) && r < |ch1.ranks|
    ensures forall b: nat :: b < |ch1.ranks[r].mc| && g.Lane(b) == x ==> ClosedPages.Matched(f.queues[r][x], ch1.ranks[r].mc[b], b)
  {
    ClosedPages.RunMatched(p, g, ins);
    forall b: nat | b < |ch1.ranks[r].mc| && g.Lane(b) == x ensures ClosedPages.Matched(f.queues[r][x], ch1.ranks[r].mc[b], b) {
      ClosedPages.TickMatched(p, g, f.queues, f.sys.ch, ch1, r, b);
    }
  }

  lemma HitsNow(g: Shape, v: Scheduler.View, r: nat)
    requires Scheduler.Covers(g, v) && HitsOk(g, v.accesses, v.total) && r < g.numRanks && v.total > 0
    ensures forall b :: 0 <= b < g.numBanks ==> v.accesses[r][b] <= v.total
    ensures g.policy.ClosePage? ==> forall b :: 0 <= b < g.numBanks ==> v.accesses[r][b] < v.total
  {
    forall b | 0 <= b < g.numBanks
      ensures v.accesses[r][b] <= v.total && (g.policy.ClosePage? ==> v.accesses[r][b] < v.total)
    {
      assert HitOk(g, v.accesses[r][b], v.total);
    }
  }

  // ---------- the work that is left ----------

  function LaneSize(lanes: seq<seq<Packet>>): nat {
    if lanes == [] then 0 else |lanes[0]| + LaneSize(lanes[1..])
  }

  function Size(queues: Queues): nat {
    if queues == [] then 0 else LaneSize(queues[0]) + Size(queues[1..])
  }

  lemma {:induction false} LaneSizeSet(lanes: seq<seq<Packet>>, x: nat, q: seq<Packet>)
    requires x < |lanes|
    ensures LaneSize(lanes[x := q]) == LaneSize(lanes) - |lanes[x]| + |q|
  {
    var lanes' := lanes[x := q];
    if x == 0 {
      assert lanes'[1..] == lanes[1..];
    } else {
      assert lanes'[1..] == lanes[1..][x - 1 := q];
      LaneSizeSet(lanes[1..], x - 1, q);
    }
  }

  lemma {:induction false} SizeWith(queues: Queues, r: nat, x: nat, q: seq<Packet>)
    requires InQueues(queues, r, x)
    ensures Size(With(queues, r, x, q)) == Size(queues) - |queues[r][x]| + |q|
  {
    var queues' := With(queues, r, x, q);
    LaneSizeSet(queues[r], x, q);
    if r == 0 {
      assert queues'[1..] == queues[1..];
    } else {
      assert queues'[1..] == With(queues[1..], r - 1, x, q);
      SizeWith(queues[1..], r - 1, x, q);
    }
  }

  function OpenBanks(ch: Channel): set<(nat, nat)> {
    set r: nat, b: nat | r < |ch.ranks| && b < |ch.ranks[r].mc| && ch.ranks[r].mc[b].status.RowActive? :: (r, b)
  }

  /** A waiting transaction becomes two packets, which take one command or two, and leave at most
      one bank open. */
  function Work(f: Full): nat {
    5 * |f.waiting| + 2 * Size(f.queues) + |OpenBanks(f.sys.ch)|
  }

  /** Nothing waits and nothing is queued. */
  ghost predicate Drained(f: Full) {
    f.waiting == [] && forall r: nat, x: nat :: InQueues(f.queues, r, x) ==> f.queues[r][x] == []
  }

  // ---------- the work of a cycle ----------

  function Opens(pop: Pop): nat {
    if pop.Send? && pop.command.kind.ACTIVATE? then 1 else 0
  }

  function Closes(pop: Pop): nat {
    if pop.Send? && pop.command.kind.PRECHARGE? then 1 else 0
  }

  function Refreshing(pop: Pop): nat {
    if pop.Send? && pop.command.kind.REFRESH? then 1 else 0
  }

  lemma TakenSize(g: Shape, queues: Queues, ch: Channel, choice: Choice)
    requires Legal(g, queues, choice) && QueueOrder.QueuesOk(g, queues, ch)
    ensures var pop := PopOf(queues, choice);
            Size(After(g.policy, queues, choice)) + (if choice.Take? then 1 else 0) <= Size(queues)
            && (choice.Take? ==> Closes(pop) == 0 && Refreshing(pop) == 0)
            && (choice.MakeUp? ==> Opens(pop) == 0 && Closes(pop) + Refreshing(pop) == 1)
            && (choice.Wait? ==> Opens(pop) == 0 && Closes(pop) == 0 && Refreshing(pop) == 0)
  {
    if choice.Take? {
      var q := queues[choice.rank][choice.lane];
      assert QueueOrder.LaneOk(g, queues, ch, choice.rank, choice.lane);
      QueueOrder.TakenPackets(g, q, choice.i, choice.rank, choice.lane);
      assert QueueOrder.PacketOk(g, q[choice.i], choice.rank, choice.lane);
      SizeWith(queues, choice.rank, choice.lane, Taken(g.policy, q, choice.i));
    }
  }

  lemma SplitSize(g: Shape, queues: Queues, ch: Channel, waiting: seq<Packet>)
    requires QueueOrder.QueuesOk(g, queues, ch) && QueueOrder.AllValid(g, waiting)
    ensures Schedule(g, queues, waiting).Running?
    ensures var (queues', waiting') := Schedule(g, queues, waiting).state;
            5 * |waiting'| + 2 * Size(queues') + (if FirstWithRoom(g, queues, waiting) < |waiting| then 1 else 0)
            <= 5 * |waiting| + 2 * Size(queues)
  {
    QueueOrder.ScheduleKeeps(g, queues, ch, waiting);
    var i := FirstWithRoom(g, queues, waiting);
    if i < |waiting| {
      var e := waiting[i];
      QueueOrder.EnqueuesPair(g, queues, ch, e);
      var r, x := e.command.rank, g.Lane(e.command.bank);
      SizeWith(queues, r, x, queues[r][x] + [ActFor(e)] + [e]);
    }
  }

  predicate IsOpen(ch: Channel, r: nat, b: nat) {
    r < |ch.ranks| && b < |ch.ranks[r].mc| && ch.ranks[r].mc[b].status.RowActive?
  }

  lemma OpenTicked(p: Timing, ch: Channel, ch1: Channel, r: nat, b: nat)
    requires p.Sane() && Deliver(p, TickAll(p, ch)) == Running(ch1) && IsOpen(ch1, r, b)
    ensures IsOpen(ch, r, b)
  {
    assert ch1.ranks[r].mc == TickRank(p, ch.ranks[r]).mc;
  }

  lemma OpenPopped(p: Timing, policy: Policy, ch1: Channel, pop: Pop, ch2: Channel, r: nat, b: nat)
    requires p.Sane() && PopPhase(p, policy, ch1, pop) == Running(ch2)
    ensures IsOpen(ch2, r, b) ==>
              (IsOpen(ch1, r, b) && !(Closes(pop) == 1 && (r, b) == (pop.command.rank, pop.command.bank)))
              || (Opens(pop) == 1 && (r, b) == (pop.command.rank, pop.command.bank))
    ensures Closes(pop) == 1 ==> IsOpen(ch1, pop.command.rank, pop.command.bank)
  {
    if pop.Send? && IsOpen(ch2, r, b) {
      assert ch2.ranks[r].mc[b] == Issue(p, ch1.clock, pop.command, r, b, ch1.ranks[r].mc[b]);
    }
  }

  lemma OpenPowered(p: Timing, ch2: Channel, power: nat -> PowerMove, r: nat, b: nat)
    requires PowerFrom(p, ch2, power, 0).Running? && IsOpen(PowerFrom(p, ch2, power, 0).state, r, b)
    ensures IsOpen(ch2, r, b)
  {
    PowerSame(p, ch2, power);
    PowerAt(p, ch2, power, 0, r);
  }

  /** A bank is opened by an ACTIVATE only, and a PRECHARGE closes one. */
  lemma OpenStep(p: Timing, policy: Policy, s: System, d: Decision, ch1: Channel, ch2: Channel, s': System, r: nat, b: nat)
    requires p.Sane() && Through(p, policy, s, d, ch1, ch2, s')
    ensures IsOpen(s'.ch, r, b) ==>
              (IsOpen(s.ch, r, b) && !(Closes(d.pop) == 1 && (r, b) == (d.pop.command.rank, d.pop.command.bank)))
              || (Opens(d.pop) == 1 && (r, b) == (d.pop.command.rank, d.pop.command.bank))
    ensures Closes(d.pop) == 1 ==> IsOpen(s.ch, d.pop.command.rank, d.pop.command.bank)
  {
    OpenPopped(p, policy, ch1, d.pop, ch2, r, b);
    if Closes(d.pop) == 1 {
      OpenTicked(p, s.ch, ch1, d.pop.command.rank, d.pop.command.bank);
    }
    if IsOpen(s'.ch, r, b) {
      OpenPowered(p, ch2, d.power, r, b);
      if IsOpen(ch1, r, b) {
        OpenTicked(p, s.ch, ch1, r, b);
      }
    }
  }

  lemma {:induction false} Fewer<T>(a: set<T>, b: set<T>)
    requires a <= b
    ensures |a| <= |b|
  {
    if a != {} {
      var x :| x in a;
      Fewer(a - {x}, b - {x});
    }
  }

  lemma OpenCount(p: Timing, policy: Policy, s: System, d: Decision, s': System)
    requires p.Sane() && SystemCycle(p, policy, s, d) == Running(s')
    ensures |OpenBanks(s'.ch)| + Closes(d.pop) <= |OpenBanks(s.ch)| + Opens(d.pop)
  {
    var ch1, ch2, x := GoesThrough(p, policy, s, d);
    var target := if d.pop.Send? then {(d.pop.command.rank, d.pop.command.bank)} else {};
    var before := OpenBanks(s.ch);
    var most := if Opens(d.pop) == 1 then before + target else if Closes(d.pop) == 1 then before - target else before;
    forall r: nat, b: nat | (r, b) in OpenBanks(s'.ch) ensures (r, b) in most {
      OpenStep(p, policy, s, d, ch1, ch2, s', r, b);
    }
    OpenStep(p, policy, s, d, ch1, ch2, s', 0, 0);
    Fewer(OpenBanks(s'.ch), most);
  }

  /** The work, and the refresh that waits. */
  function Load(f: Full, waits: int): nat {
    Work(f) + (if waits >= 0 then 1 else 0)
  }

  /** A cycle without arrivals leaves no more work, and less if a command is sent or a transaction
      split. */
  lemma WorkCycle(p: Timing, g: Shape, f: Full, next: int, input: Input)
    requires p.Sane() && p.tCMD == 1 && ArrivalOrder.FullInv(p, g, f) && FullCycle(p, g, f, input).Running?
    requires input.arrivals == [] && Legal(g, f.queues, input.choice) && (Refreshing(PopOf(f.queues, input.choice)) == 1 ==> next >= 0)
    ensures var f', queues := FullCycle(p, g, f, input).state, After(g.policy, f.queues, input.choice);
            Load(f', AfterPop(next, PopOf(f.queues, input.choice)))
            + (if !input.choice.Wait? || FirstWithRoom(g, queues, f.waiting) < |f.waiting| then 1 else 0)
            <= Load(f, next)
  {
    var f' := FullCycle(p, g, f, input).state;
    assert f.waiting + [] == f.waiting;
    QueueOrder.ChoiceHeeds(p, g, f.queues, f.sys.ch, input.choice);
    QueueOrder.PopKeepsQueues(p, g, f, input, f'.sys);
    QueueWork(g, f.queues, f.waiting, f.sys.ch, f'.sys.ch, input.choice);
    OpenCount(p, g.policy, f.sys, Decision(PopOf(f.queues, input.choice), input.power), f'.sys);
  }

  /** The queues' part of the work. */
  lemma QueueWork(g: Shape, queues: Queues, waiting: seq<Packet>, ch: Channel, ch': Channel, choice: Choice)
    requires Legal(g, queues, choice) && QueueOrder.QueuesOk(g, queues, ch) && QueueOrder.AllValid(g, waiting)
    requires QueueOrder.QueuesOk(g, After(g.policy, queues, choice), ch')
    ensures Schedule(g, After(g.policy, queues, choice), waiting).Running?
    ensures var queues1 := After(g.policy, queues, choice);
            var (queues', waiting') := Schedule(g, queues1, waiting).state;
            var pop := PopOf(queues, choice);
            5 * |waiting'| + 2 * Size(queues') + Opens(pop)
            + (if !choice.Wait? || FirstWithRoom(g, queues1, waiting) < |waiting| then 1 else 0)
            <= 5 * |waiting| + 2 * Size(queues) + Closes(pop) + Refreshing(pop)
  {
    TakenSize(g, queues, ch, choice);
    SplitSize(g, After(g.policy, queues, choice), ch', waiting);
  }

  // ---------- a cycle in which nothing happens ----------

  /** The rank has something to do: commands in its queues, or a refresh. */
  predicate Urgent(queues: Queues, waits: int, r: nat) {
    !IsEmpty(queues, r) || r == waits
  }

  /** By h, every rank that has something to do is free. */
  ghost predicate ReadyBy(p: Timing, g: Shape, h: int, ins: seq<Input>, waits: int)
    requires p.Sane()
  {
    var o := FullRun(p, g, ins);
    o.Running? && forall r: nat :: r < g.numRanks && Urgent(o.state.queues, waits, r) ==> RankReady(p, g, h, ins, r)
  }

  ghost predicate RankReady(p: Timing, g: Shape, h: int, ins: seq<Input>, r: nat)
    requires p.Sane() && FullRun(p, g, ins).Running? && r < g.numRanks
  {
    var f := FullRun(p, g, ins).state;
    r < |f.sys.ch.ranks| && RankBy(p, h, f.sys.ch.clock, f.sys.ch.ranks[r]) && WindowBy(h, f.sys.ch.clock, Counters(p, g, ins)[r])
  }

  /** A rank that has something to do is woken up as soon as it may be. */
  lemma AwakeInTime(p: Timing, g: Shape, s: System, d: Decision, ch1: Channel, ch2: Channel, s': System, queues: Queues, waits: int, h: int, r: nat)
    requires p.Sane() && Through(p, g.policy, s, d, ch1, ch2, s') && d.pop.Nothing? && MovesOk(ch2, queues, waits, d.power)
    requires r < |s.ch.ranks| && Urgent(queues, waits, r) && AllTimes(p, h, s.ch.clock, s.ch.ranks[r].mc)
    ensures InTime(p, h, h, s.ch.clock, s.ch.ranks[r], d.power(r))
  {
    RankTicked(p, s.ch, ch1, h, r);
    assert MayMove(ch2, queues, waits, r, d.power(r));
  }

  lemma CountersIdle(p: Timing, g: Shape, ins: seq<Input>, input: Input, r: nat)
    requires p.Sane() && input.choice.Wait? && r < g.numRanks
    ensures Counters(p, g, ins + [input])[r] == ActivationWindow.Advance(Counters(p, g, ins)[r])
  {
    Schedules.DecisionsMore(p, g, ins, input);
    var ds, d := Decisions(p, g, ins), Schedules.DecisionOf(p, g, ins, input);
    var wants := ActsTo(ds + [d], r);
    assert wants[..|ds|] == ActsTo(ds, r);
  }

  lemma IdleRankBy(p: Timing, g: Shape, s: System, d: Decision, ch1: Channel, ch2: Channel, s': System, queues: Queues, waits: int, h: int, r: nat)
    requires p.Sane() && Through(p, g.policy, s, d, ch1, ch2, s') && d.pop.Nothing? && MovesOk(ch2, queues, waits, d.power)
    requires r < |s.ch.ranks| && Urgent(queues, waits, r) && RankBy(p, h, s.ch.clock, s.ch.ranks[r])
    ensures r < |s'.ch.ranks| && s'.ch.clock == s.ch.clock + 1 && RankBy(p, h, s'.ch.clock, s'.ch.ranks[r])
  {
    AwakeInTime(p, g, s, d, ch1, ch2, s', queues, waits, h, r);
    RankCycle(p, g.policy, s, d, ch1, ch2, s', h, h, r);
  }

  lemma IdleWindow(p: Timing, g: Shape, ins: seq<Input>, input: Input, h: int, t: int, r: nat)
    requires p.Sane() && input.choice.Wait? && r < g.numRanks && WindowBy(h, t, Counters(p, g, ins)[r])
    ensures WindowBy(h, t + 1, Counters(p, g, ins + [input])[r])
  {
    WindowRunning(p, g, ins, r);
    WindowAges(h, t, Counters(p, g, ins)[r]);
    CountersIdle(p, g, ins, input, r);
  }

  lemma IdleRank(p: Timing, g: Shape, ins: seq<Input>, waits: int, input: Input, h: int, r: nat)
    requires p.Sane() && FullRun(p, g, ins).Running? && FullRun(p, g, ins + [input]).Running? && r < g.numRanks
    requires input.choice.Wait? && input.arrivals == [] && MayPower(p, g, ins, waits, input) && RankReady(p, g, h, ins, r)
    requires FullRun(p, g, ins + [input]).state.queues == FullRun(p, g, ins).state.queues
    requires Urgent(FullRun(p, g, ins).state.queues, waits, r)
    ensures RankReady(p, g, h, ins + [input], r)
  {
    Schedules.RunSnoc(p, g, ins, input);
    var f, f' := FullRun(p, g, ins).state, FullRun(p, g, ins + [input]).state;
    var d := Decision(PopOf(f.queues, input.choice), input.power);
    var ch1, ch2, s' := GoesThrough(p, g.policy, f.sys, d);
    IdleRankBy(p, g, f.sys, d, ch1, ch2, s', f'.queues, waits, h, r);
    IdleWindow(p, g, ins, input, h, f.sys.ch.clock, r);
  }

  lemma IdleKeepsReady(p: Timing, g: Shape, ins: seq<Input>, waits: int, input: Input, h: int)
    requires p.Sane() && ReadyBy(p, g, h, ins, waits) && FullRun(p, g, ins + [input]).Running?
    requires input.choice.Wait? && input.arrivals == [] && MayPower(p, g, ins, waits, input)
    requires FullRun(p, g, ins + [input]).state.queues == FullRun(p, g, ins).state.queues
    ensures ReadyBy(p, g, h, ins + [input], waits)
  {
    var f := FullRun(p, g, ins).state;
    forall r: nat | r < g.numRanks && Urgent(f.queues, waits, r) ensures RankReady(p, g, h, ins + [input], r) {
      IdleRank(p, g, ins, waits, input, h, r);
    }
  }

  /** In every run: no rank needs longer than Settle. */
  lemma AlwaysReady(p: Timing, g: Shape, ins: seq<Input>, waits: int, f: Full, h: int)
    requires p.Sane() && FullRun(p, g, ins) == Running(f) && h == f.sys.ch.clock + Settle(p)
    ensures ReadyBy(p, g, h, ins, waits)
  {
    RunIsSystemRun(p, g, ins);
    NeverLonger(p, g.policy, g.numRanks, g.numBanks, Decisions(p, g, ins));
    SchedulerInRun.RunSized(p, g.policy, g.numRanks, g.numBanks, Decisions(p, g, ins));
    forall r: nat | r < g.numRanks && Urgent(f.queues, waits, r) ensures RankReady(p, g, h, ins, r) {
      assert RankBy(p, h, f.sys.ch.clock, f.sys.ch.ranks[r]);
      WindowReady(p, g, ins, h, f.sys.ch.clock, r);
    }
  }

  lemma WindowReady(p: Timing, g: Shape, ins: seq<Input>, h: int, t: int, r: nat)
    requires p.Sane() && r < g.numRanks && h == t + Settle(p)
    ensures WindowBy(h, t, Counters(p, g, ins)[r])
  {
    WindowRunning(p, g, ins, r);
  }

  // ---------- the queues drain ----------

  /** The cycles that this much work takes at most. */
  function Cycles(p: Timing, work: nat): nat {
    if work == 0 then 0 else Cycles(p, work - 1) + Settle(p) + 1
  }

  lemma {:induction false} CyclesIs(p: Timing, work: nat)
    ensures Cycles(p, work) == work * (Settle(p) + 1)
  {
    if work > 0 {
      CyclesIs(p, work - 1);
      assert work * (Settle(p) + 1) == (work - 1) * (Settle(p) + 1) + Settle(p) + 1;
    }
  }

  lemma {:induction false} LessWork(p: Timing, work: nat, work': nat)
    requires work' < work
    ensures Cycles(p, work') + Settle(p) + 1 <= Cycles(p, work)
  {
    if work' + 1 < work {
      LessWork(p, work - 1, work');
    }
  }

  /** If no transaction can be split, some queue is not empty. */
  lemma HasCommand(g: Shape, f: Full) returns (r: nat, x: nat)
    requires g.queueDepth >= 2 && QueueOrder.Shaped(g, f.queues) && QueueOrder.AllValid(g, f.waiting)
    requires FirstWithRoom(g, f.queues, f.waiting) == |f.waiting| && !Drained(f)
    ensures InQueues(f.queues, r, x) && f.queues[r][x] != []
  {
    if f.waiting == [] {
      r, x :| InQueues(f.queues, r, x) && f.queues[r][x] != [];
    } else {
      var e := f.waiting[0];
      QueueOrder.InRange(g, f.queues, e);
      assert !HasRoom(g, f.queues, e);
      r, x := e.command.rank, g.Lane(e.command.bank);
    }
  }

  /** While the scheduler waits and no transaction can be split, some rank is not yet free. */
  lemma WaitsForTime(p: Timing, g: Shape, total: nat, ins: seq<Input>, due: seq<int>, waits: int, h: int)
    requires p.Sane() && p.tCMD == 1 && p.tRP >= 1 && total > 0 && g.queueDepth >= 2 && waits >= -1
    requires |due| == |ins| && IsScheduled(p, g, total, ins, due) && ReadyBy(p, g, h, ins, waits)
    requires MayChoose(p, g, total, ins, waits, Wait)
    requires var f := FullRun(p, g, ins).state; FirstWithRoom(g, f.queues, f.waiting) == |f.waiting| && !Drained(f)
    ensures FullRun(p, g, ins).state.sys.ch.clock < h
  {
    var f := FullRun(p, g, ins).state;
    if waits >= 0 {
      RefreshGoesOut(p, g, total, ins, due, waits, f, h);
    } else {
      CommandGoesOut(p, g, total, ins, due, f, h);
    }
  }

  lemma CommandGoesOut(p: Timing, g: Shape, total: nat, ins: seq<Input>, due: seq<int>, f: Full, h: int)
    requires p.Sane() && p.tCMD == 1 && p.tRP >= 1 && total > 0 && g.queueDepth >= 2 && FullRun(p, g, ins) == Running(f)
    requires |due| == |ins| && IsScheduled(p, g, total, ins, due) && ReadyBy(p, g, h, ins, -1) && MayChoose(p, g, total, ins, -1, Wait)
    requires FirstWithRoom(g, f.queues, f.waiting) == |f.waiting| && !Drained(f)
    ensures f.sys.ch.clock < h
  {
    ArrivalOrder.RunKeepsFull(p, g, ins);
    var r, x := HasCommand(g, f);
    CommandGoes(p, g, total, ins, due, f, h, r, x);
  }

  lemma CommandGoes(p: Timing, g: Shape, total: nat, ins: seq<Input>, due: seq<int>, f: Full, h: int, r: nat, x: nat)
    requires p.Sane() && p.tCMD == 1 && p.tRP >= 1 && total > 0 && FullRun(p, g, ins) == Running(f)
    requires |due| == |ins| && IsScheduled(p, g, total, ins, due) && ReadyBy(p, g, h, ins, -1) && MayChoose(p, g, total, ins, -1, Wait)
    requires InQueues(f.queues, r, x) && f.queues[r][x] != []
    ensures f.sys.ch.clock < h
  {
    ArrivalOrder.RunKeepsFull(p, g, ins);
    DeliverSettles(p, g.policy, f.sys.ch);
    assert Urgent(f.queues, -1, r) && RankReady(p, g, h, ins, r);
    if h <= f.sys.ch.clock {
      DoesNotWait(p, g, total, ins, due, f, Deliver(p, TickAll(p, f.sys.ch)).state, h, r, x);
    }
  }

  lemma RefreshGoesOut(p: Timing, g: Shape, total: nat, ins: seq<Input>, due: seq<int>, r: nat, f: Full, h: int)
    requires p.Sane() && p.tCMD == 1 && p.tRP >= 1 && total > 0 && FullRun(p, g, ins) == Running(f)
    requires |due| == |ins| && IsScheduled(p, g, total, ins, due) && ReadyBy(p, g, h, ins, r) && MayChoose(p, g, total, ins, r, Wait)
    ensures f.sys.ch.clock < h
  {
    ArrivalOrder.RunKeepsFull(p, g, ins);
    DeliverSettles(p, g.policy, f.sys.ch);
    assert Urgent(f.queues, r, r) && RankReady(p, g, h, ins, r);
    if h <= f.sys.ch.clock {
      RefreshesNow(p, g, total, ins, due, f, Deliver(p, TickAll(p, f.sys.ch)).state, h, r);
    }
  }

  /** The next input of a run without arrivals, while rank next waits for a refresh. */
  ghost predicate Quiet(p: Timing, g: Shape, total: nat, ins: seq<Input>, next: int, input: Input)
    requires p.Sane()
  {
    input.arrivals == [] && MayChoose(p, g, total, ins, next, input.choice) && MayPower(p, g, ins, next, input)
    && FullRun(p, g, ins + [input]).Running?
  }

  lemma QuietWorks(p: Timing, g: Shape, total: nat, ins: seq<Input>, next: int, input: Input)
    requires p.Sane() && p.tCMD == 1 && Quiet(p, g, total, ins, next, input)
    ensures FullRun(p, g, ins).Running?
    ensures FullRun(p, g, ins + [input]) == FullCycle(p, g, FullRun(p, g, ins).state, input)
    ensures var f := FullRun(p, g, ins).state;
            && ArrivalOrder.FullInv(p, g, f) && Legal(g, f.queues, input.choice)
            && (Refreshing(PopOf(f.queues, input.choice)) == 1 ==> next >= 0)
  {
    Schedules.RunSnoc(p, g, ins, input);
    ArrivalOrder.RunKeepsFull(p, g, ins);
    var f := FullRun(p, g, ins).state;
    DeliverSettles(p, g.policy, f.sys.ch);
    var v := Viewed(f.sys.ch.clock, Deliver(p, TickAll(p, f.sys.ch)).state, Counters(p, g, ins), RowHits(p, g, ins), total);
    Scheduler.GoodIsLegal(g, v, f.queues, input.choice);
  }

  /** Nothing was sent and no transaction split: the queues are as before. */
  lemma SameQueues(p: Timing, g: Shape, f: Full, input: Input)
    requires p.Sane() && FullCycle(p, g, f, input).Running? && input.choice.Wait? && input.arrivals == []
    requires FirstWithRoom(g, f.queues, f.waiting) == |f.waiting|
    ensures var f' := FullCycle(p, g, f, input).state;
            f'.queues == f.queues && f'.waiting == f.waiting && f'.sys.ch.clock == f.sys.ch.clock + 1
  {
    assert f.waiting + [] == f.waiting;
  }

  /** The cycles left until the queues are empty, if the ranks are free by h. */
  function Left(p: Timing, f: Full, waits: int, h: int): nat {
    Cycles(p, Load(f, waits)) + Max(0, h - f.sys.ch.clock)
  }

  lemma LeftDrops(p: Timing, f: Full, waits: int, f': Full, waits': int, h: int, h': int)
    requires Load(f', waits') < Load(f, waits) && f'.sys.ch.clock == f.sys.ch.clock + 1 && h' == f'.sys.ch.clock + Settle(p)
    ensures Left(p, f', waits', h') < Left(p, f, waits, h)
  {
    LessWork(p, Load(f, waits), Load(f', waits'));
  }

  lemma LeftAges(p: Timing, f: Full, waits: int, f': Full, waits': int, h: int)
    requires Load(f', waits') == Load(f, waits) && f'.sys.ch.clock == f.sys.ch.clock + 1 && f.sys.ch.clock < h
    ensures Left(p, f', waits', h) < Left(p, f, waits, h)
  {
  }

  /** A request may add as much as two units of work. */
  function Extra(p: Timing, request: int): nat {
    if request >= 0 then 2 * (Settle(p) + 1) else 0
  }

  lemma LeftGrows(p: Timing, f: Full, waits: int, f': Full, waits': int, request: int, h: int, h': int)
    requires Load(f', waits') <= Load(f, waits) + 1 && h' == f'.sys.ch.clock + Settle(p) && request >= 0
    ensures Left(p, f', waits', h') < Left(p, f, waits, h) + Extra(p, request)
  {
    LessWork(p, Load(f, waits) + 2, Load(f', waits'));
  }

  /** After the inputs ins the end is nearer than it was, but for a new request. */
  ghost predicate Nearer(p: Timing, g: Shape, ins: seq<Input>, f: Full, waits: int, f': Full, waits': int, request: int, h: int, h': int)
    requires p.Sane()
  {
    ReadyBy(p, g, h', ins, waits') && Left(p, f', waits', h') < Left(p, f, waits, h) + Extra(p, request)
  }

  /** The work stays: the scheduler waits for a rank, whose time is nearer. */
  lemma IdleStep(p: Timing, g: Shape, total: nat, ins: seq<Input>, due: seq<int>, waits: int, input: Input, f: Full, f': Full, h: int)
    requires p.Sane() && p.tCMD == 1 && p.tRP >= 1 && total > 0 && g.queueDepth >= 2 && waits >= -1
    requires |due| == |ins| && IsScheduled(p, g, total, ins, due) && ReadyBy(p, g, h, ins, waits) && Quiet(p, g, total, ins, waits, input)
    requires FullRun(p, g, ins) == Running(f) && FullRun(p, g, ins + [input]) == Running(f') && !Drained(f)
    requires input.choice.Wait? && FirstWithRoom(g, f.queues, f.waiting) == |f.waiting| && Load(f', waits) == Load(f, waits)
    ensures Nearer(p, g, ins + [input], f, waits, f', waits, -1, h, h)
  {
    QuietWorks(p, g, total, ins, waits, input);
    SameQueues(p, g, f, input);
    WaitsForTime(p, g, total, ins, due, waits, h);
    IdleKeepsReady(p, g, ins, waits, input, h);
    LeftAges(p, f, waits, f', waits, h);
  }

  /** If the work stays, nothing was sent and no transaction split. */
  ghost predicate Shrinks(g: Shape, f: Full, next: int, f': Full, waits': int, input: Input) {
    && Load(f', waits') <= Load(f, next) && f'.sys.ch.clock == f.sys.ch.clock + 1
    && (Load(f', waits') == Load(f, next) ==> input.choice.Wait? && FirstWithRoom(g, f.queues, f.waiting) == |f.waiting|)
  }

  lemma QuietWork(p: Timing, g: Shape, f: Full, next: int, input: Input, f': Full)
    requires p.Sane() && p.tCMD == 1 && ArrivalOrder.FullInv(p, g, f) && FullCycle(p, g, f, input) == Running(f')
    requires input.arrivals == [] && Legal(g, f.queues, input.choice) && (Refreshing(PopOf(f.queues, input.choice)) == 1 ==> next >= 0)
    ensures Shrinks(g, f, next, f', AfterPop(next, PopOf(f.queues, input.choice)), input)
  {
    WorkCycle(p, g, f, next, input);
    NextClock(p, g, f, input);
    AfterWait(g, f.queues);
  }

  lemma NextClock(p: Timing, g: Shape, f: Full, input: Input)
    requires p.Sane() && FullCycle(p, g, f, input).Running?
    ensures FullCycle(p, g, f, input).state.sys.ch.clock == f.sys.ch.clock + 1
  {
    RanksStay(p, g.policy, f.sys, Decision(PopOf(f.queues, input.choice), input.power));
  }

  lemma AfterWait(g: Shape, queues: Queues)
    ensures After(g.policy, queues, Wait) == queues
  {
  }

  lemma BusyStep(p: Timing, g: Shape, ins: seq<Input>, f: Full, waits: int, f': Full, waits': int, h: int) returns (h': int)
    requires p.Sane() && FullRun(p, g, ins) == Running(f')
    requires Load(f', waits') < Load(f, waits) && f'.sys.ch.clock == f.sys.ch.clock + 1
    ensures Nearer(p, g, ins, f, waits, f', waits', -1, h, h')
  {
    h' := f'.sys.ch.clock + Settle(p);
    AlwaysReady(p, g, ins, waits', f', h');
    LeftDrops(p, f, waits, f', waits', h, h');
  }

  lemma RequestStep(p: Timing, g: Shape, ins: seq<Input>, f: Full, waits: int, f': Full, waits': int, request: int, h: int)
    returns (h': int)
    requires p.Sane() && FullRun(p, g, ins) == Running(f') && Load(f', waits') <= Load(f, waits) + 1 && request >= 0
    ensures Nearer(p, g, ins, f, waits, f', waits', request, h, h')
  {
    h' := f'.sys.ch.clock + Settle(p);
    AlwaysReady(p, g, ins, waits', f', h');
    LeftGrows(p, f, waits, f', waits', request, h, h');
  }

  /** A cycle without arrivals brings the end nearer. */
  lemma DrainStep(p: Timing, g: Shape, total: nat, ins: seq<Input>, due: seq<int>, waits: int, request: int, input: Input,
                  f: Full, f': Full, h: int) returns (h': int)
    requires p.Sane() && p.tCMD == 1 && p.tRP >= 1 && total > 0 && g.queueDepth >= 2 && waits >= -1
    requires |due| == |ins| && IsScheduled(p, g, total, ins, due) && ReadyBy(p, g, h, ins, waits)
    requires Quiet(p, g, total, ins, NextDue(waits, request), input)
    requires FullRun(p, g, ins) == Running(f) && FullRun(p, g, ins + [input]) == Running(f') && !Drained(f)
    ensures Nearer(p, g, ins + [input], f, waits, f', AfterPop(NextDue(waits, request), PopOf(f.queues, input.choice)), request, h, h')
  {
    var next := NextDue(waits, request);
    var waits' := AfterPop(next, PopOf(f.queues, input.choice));
    QuietWorks(p, g, total, ins, next, input);
    QuietWork(p, g, f, next, input, f');
    if request >= 0 {
      h' := RequestStep(p, g, ins + [input], f, waits, f', waits', request, h);
    } else if Load(f', waits') < Load(f, waits) {
      h' := BusyStep(p, g, ins + [input], f, waits, f', waits', h);
    } else {
      IdleStep(p, g, total, ins, due, waits, input, f, f', h);
      h' := h;
    }
  }

  // ---------- runs that end without arrivals ----------

  /** No transaction arrives. */
  ghost predicate NoArrivals(more: seq<Input>) {
    forall i :: 0 <= i < |more| ==> more[i].arrivals == []
  }

  lemma DrainedStays(p: Timing, g: Shape, f: Full, input: Input)
    requires p.Sane() && Drained(f) && FullCycle(p, g, f, input).Running? && input.arrivals == []
    ensures Drained(FullCycle(p, g, f, input).state)
  {
    assert Chosen(f.queues, input.choice) == [];
    assert f.waiting + input.arrivals == [];
  }

  /** Every choice and power move of the scheduler is accepted: such a run can stop by a collision
      on the data bus only. */
  lemma GoesOn(p: Timing, g: Shape, total: nat, ins: seq<Input>, next: int, input: Input)
    requires p.Sane() && p.tCMD == 1 && FullRun(p, g, ins).Running?
    requires input.arrivals == [] && MayChoose(p, g, total, ins, next, input.choice) && MayPower(p, g, ins, next, input)
    ensures Continues(p, g, ins + [input])
  {
    var f := FullRun(p, g, ins).state;
    ArrivalOrder.RunKeepsFull(p, g, ins);
    DeliverSettles(p, g.policy, f.sys.ch);
    var ch1 := Deliver(p, TickAll(p, f.sys.ch)).state;
    ChoiceFits(p, g, total, ins, f, ch1, next, input);
    PowerFits(p, g, ins, f, ch1, next, input);
    SchedulerInRun.ChoiceIsAccepted(p, g, ins, f, ch1, input);
    Schedules.RunSnoc(p, g, ins, input);
    ArrivalOrder.RunKeepsFull(p, g, ins + [input]);
  }

  ghost predicate Continues(p: Timing, g: Shape, ins: seq<Input>)
    requires p.Sane()
  {
    FullRun(p, g, ins).Running? || FullRun(p, g, ins) == Crashed(DataBusCollision)
  }

  lemma {:induction false} RunContinues(p: Timing, g: Shape, total: nat, ins: seq<Input>, requests: seq<int>, more: seq<Input>, asked: seq<int>)
    requires p.Sane() && p.tCMD == 1 && FullRun(p, g, ins).Running? && NoArrivals(more)
    requires |requests| == |ins| && |asked| == |more| && Simulated(p, g, total, ins + more, requests + asked)
    ensures Continues(p, g, ins + more)
    decreases |more|
  {
    if more == [] {
      assert ins + more == ins;
    } else {
      var n := |more| - 1;
      var before, register, last, request := ins + more[..n], requests + asked[..n], more[n], asked[n];
      SplitLast(ins, more);
      SplitLast(requests, asked);
      OneLess(p, g, total, before, last, register, request);
      RunContinues(p, g, total, ins, requests, more[..n], asked[..n]);
      Schedules.RunSnoc(p, g, before, last);
      if FullRun(p, g, before).Running? {
        GoesOn(p, g, total, before, NextDue(Waits(p, g, before, register), request), last);
      }
    }
  }

  lemma ChoiceFits(p: Timing, g: Shape, total: nat, ins: seq<Input>, f: Full, ch1: Channel, next: int, input: Input)
    requires p.Sane() && SchedulerInRun.Asked(p, g, ins, f, ch1) && ch1.clock == f.sys.ch.clock
    requires input.arrivals == [] && MayChoose(p, g, total, ins, next, input.choice)
    ensures Admissible(g, f, input)
    ensures var pop := PopOf(f.queues, input.choice); pop.Send? ==> MayIssue(g.policy, ch1, pop.command)
  {
    SchedulerInRun.WaitingBounded(p, g, ins);
    var v := Viewed(f.sys.ch.clock, ch1, Counters(p, g, ins), RowHits(p, g, ins), total);
    Scheduler.GoodIsLegal(g, v, f.queues, input.choice);
  }

  lemma PowerFits(p: Timing, g: Shape, ins: seq<Input>, f: Full, ch1: Channel, next: int, input: Input)
    requires p.Sane() && p.tCMD == 1 && SchedulerInRun.Asked(p, g, ins, f, ch1) && Admissible(g, f, input)
    requires MayPower(p, g, ins, next, input)
    ensures var o := PopPhase(p, g.policy, ch1, PopOf(f.queues, input.choice));
            o.Running? ==> !PowerFrom(p, o.state, input.power, 0).NotAllowed?
  {
    var queues, pop := After(g.policy, f.queues, input.choice), PopOf(f.queues, input.choice);
    ArrivalOrder.RunKeepsFull(p, g, ins);
    QueueOrder.AfterWithinDepth(g, f.queues, f.sys.ch, input.choice);
    QueueOrder.SplitRuns(g, queues, f.waiting + input.arrivals);
    var o := PopPhase(p, g.policy, ch1, pop);
    if o.Running? {
      MovesAllowed(p, o.state, Schedule(g, queues, f.waiting + input.arrivals).state.0, AfterPop(next, pop), o.state, input.power, 0);
    }
  }

  lemma SplitLast<T>(a: seq<T>, b: seq<T>)
    requires b != []
    ensures var n := |b| - 1; (a + b)[..|a + b| - 1] == a + b[..n] && (a + b)[|a + b| - 1] == b[n] && a + b == a + b[..n] + [b[n]]
  {
  }

  /** Of these requests, how many there are. */
  function Count(requests: seq<int>): nat {
    |Requested(requests)|
  }

  lemma CountMore(requests: seq<int>)
    requires requests != []
    ensures var n := |requests| - 1; Count(requests) == Count(requests[..n]) + (if requests[n] >= 0 then 1 else 0)
  {
  }

  /** The end is near: nothing is left, or no more than this load takes, but for n cycles. */
  ghost predicate Approaches(p: Timing, g: Shape, ins: seq<Input>, requests: seq<int>, load: nat, n: nat, h: int)
    requires p.Sane() && |requests| == |ins|
  {
    var o, waits := FullRun(p, g, ins), Waits(p, g, ins, requests);
    o.Running? && (Drained(o.state)
                   || (ReadyBy(p, g, h, ins, waits) && Left(p, o.state, waits, h) + n <= Cycles(p, load) + Settle(p)))
  }

  /** A request counts as two units of work. */
  function WithRequest(load: nat, request: int): nat {
    if request >= 0 then load + 2 else load
  }

  function WithRequests(load: nat, asked: seq<int>): nat {
    if asked == [] then load else WithRequest(WithRequests(load, asked[..|asked| - 1]), asked[|asked| - 1])
  }

  lemma {:induction false} WithRequestsIs(load: nat, asked: seq<int>)
    ensures WithRequests(load, asked) == load + 2 * Count(asked)
  {
    if asked != [] {
      WithRequestsIs(load, asked[..|asked| - 1]);
      CountMore(asked);
    }
  }

  lemma CyclesWith(p: Timing, load: nat, request: int)
    ensures Cycles(p, WithRequest(load, request)) == Cycles(p, load) + Extra(p, request)
  {
    if request >= 0 {
      assert Cycles(p, load + 2) == Cycles(p, load + 1) + Settle(p) + 1;
    }
  }

  lemma ApproachStep(p: Timing, g: Shape, total: nat, ins: seq<Input>, requests: seq<int>, input: Input, request: int,
                     load: nat, n: nat, h: int) returns (h': int)
    requires p.Sane() && p.tCMD == 1 && p.tRP >= 1 && total > 0 && g.queueDepth >= 2
    requires |requests| == |ins| && Simulated(p, g, total, ins + [input], requests + [request]) && input.arrivals == []
    requires Approaches(p, g, ins, requests, load, n, h) && FullRun(p, g, ins + [input]).Running?
    ensures Approaches(p, g, ins + [input], requests + [request], WithRequest(load, request), n + 1, h')
  {
    OneLess(p, g, total, ins, input, requests, request);
    var f, f', waits := FullRun(p, g, ins).state, FullRun(p, g, ins + [input]).state, Waits(p, g, ins, requests);
    if Drained(f) {
      Schedules.RunSnoc(p, g, ins, input);
      DrainedStays(p, g, f, input);
      h' := h;
    } else {
      h' := DrainStep(p, g, total, ins, DueIn(p, g, ins, requests), waits, request, input, f, f', h);
      CyclesWith(p, load, request);
    }
  }

  /** The work that is left after these inputs. */
  ghost function LoadAt(p: Timing, g: Shape, ins: seq<Input>, requests: seq<int>): nat
    requires p.Sane() && |requests| == |ins| && FullRun(p, g, ins).Running?
  {
    Load(FullRun(p, g, ins).state, Waits(p, g, ins, requests))
  }

  lemma ApproachStart(p: Timing, g: Shape, ins: seq<Input>, requests: seq<int>) returns (h: int)
    requires p.Sane() && |requests| == |ins| && FullRun(p, g, ins).Running?
    ensures Approaches(p, g, ins, requests, LoadAt(p, g, ins, requests), 0, h)
  {
    h := FullRun(p, g, ins).state.sys.ch.clock + Settle(p);
    AlwaysReady(p, g, ins, Waits(p, g, ins, requests), FullRun(p, g, ins).state, h);
  }

  lemma {:induction false} Approach(p: Timing, g: Shape, total: nat, ins: seq<Input>, requests: seq<int>, more: seq<Input>, asked: seq<int>,
                                    load: nat, h: int) returns (h': int)
    requires p.Sane() && p.tCMD == 1 && p.tRP >= 1 && total > 0 && g.queueDepth >= 2 && FullRun(p, g, ins + more).Running?
    requires |requests| == |ins| && |asked| == |more| && Simulated(p, g, total, ins + more, requests + asked)
    requires NoArrivals(more) && Approaches(p, g, ins, requests, load, 0, h)
    ensures Approaches(p, g, ins + more, requests + asked, WithRequests(load, asked), |more|, h')
    decreases |more|
  {
    if more == [] {
      SameApproach(p, g, ins, requests, load, 0, ins + more, requests + asked, WithRequests(load, asked), |more|, h);
      h' := h;
    } else {
      var n := |more| - 1;
      var before, register, last, request := ins + more[..n], requests + asked[..n], more[n], asked[n];
      SplitLast(ins, more);
      SplitLast(requests, asked);
      OneLess(p, g, total, before, last, register, request);
      Schedules.RunSnoc(p, g, before, last);
      var h1 := Approach(p, g, total, ins, requests, more[..n], asked[..n], load, h);
      h' := ApproachStep(p, g, total, before, register, last, request, WithRequests(load, asked[..n]), |more[..n]|, h1);
      SameApproach(p, g, before + [last], register + [request], WithRequest(WithRequests(load, asked[..n]), request), |more[..n]| + 1,
                   ins + more, requests + asked, WithRequests(load, asked), |more|, h');
    }
  }

  lemma SameApproach(p: Timing, g: Shape, ins: seq<Input>, requests: seq<int>, load: nat, n: nat,
                     ins': seq<Input>, requests': seq<int>, load': nat, n': nat, h: int)
    requires p.Sane() && |requests| == |ins| && Approaches(p, g, ins, requests, load, n, h)
    requires ins' == ins && requests' == requests && load' == load && n' == n
    ensures |requests'| == |ins'| && Approaches(p, g, ins', requests', load', n', h)
  {
  }

  /** The cycles that suffice to empty the queues, if these refreshes are requested meanwhile. */
  ghost function Enough(p: Timing, g: Shape, ins: seq<Input>, requests: seq<int>, asked: seq<int>): nat
    requires p.Sane() && |requests| == |ins| && FullRun(p, g, ins).Running?
  {
    Cycles(p, WithRequests(LoadAt(p, g, ins, requests), asked) + 1)
  }

  /** Enough is one more than the load and twice the requests, times one more than Settle. */
  lemma EnoughIs(p: Timing, load: nat, asked: seq<int>)
    ensures Cycles(p, WithRequests(load, asked) + 1) == (load + 2 * Count(asked) + 1) * (Settle(p) + 1)
  {
    WithRequestsIs(load, asked);
    CyclesIs(p, load + 2 * Count(asked) + 1);
  }

  /** Once transactions stop, the run goes on, unless the data bus is unsafe and two writes collide,
      and empties all queues, whatever refreshes are requested meanwhile. */
  lemma EveryRunDrains(p: Timing, g: Shape, total: nat, ins: seq<Input>, requests: seq<int>, more: seq<Input>, asked: seq<int>)
    requires p.Sane() && p.tCMD == 1 && p.tRP >= 1 && total > 0 && g.queueDepth >= 2
    requires |requests| == |ins| && |asked| == |more| && Simulated(p, g, total, ins + more, requests + asked)
    requires NoArrivals(more) && FullRun(p, g, ins).Running?
    ensures Continues(p, g, ins + more) && (BusSafe(p, g.numRanks) ==> FullRun(p, g, ins + more).Running?)
    ensures |more| >= Enough(p, g, ins, requests, asked) && FullRun(p, g, ins + more).Running? ==>
              Drained(FullRun(p, g, ins + more).state)
  {
    RunContinues(p, g, total, ins, requests, more, asked);
    if BusSafe(p, g.numRanks) {
      ArrivalOrder.NoControllerRunFails(p, g, ins + more);
    }
    if FullRun(p, g, ins + more).Running? {
      var h0 := ApproachStart(p, g, ins, requests);
      var load := LoadAt(p, g, ins, requests);
      var h := Approach(p, g, total, ins, requests, more, asked, load, h0);
      ApproachEnds(p, g, ins + more, requests + asked, WithRequests(load, asked), |more|, h);
    }
  }

  lemma ApproachEnds(p: Timing, g: Shape, ins: seq<Input>, requests: seq<int>, load: nat, n: nat, h: int)
    requires p.Sane() && |requests| == |ins| && Approaches(p, g, ins, requests, load, n, h)
    ensures n >= Cycles(p, load + 1) ==> Drained(FullRun(p, g, ins).state)
  {
  }
}
