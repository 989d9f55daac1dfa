/**
 The command bus carries a packet for tCMD cycles, and nothing keeps the scheduler from
 issuing in the next one: where a second bank may be opened right after the first access,
 tCMD must be one.  Two write transactions show it: the second arrives as the first is issued,
 and the scheduler sends its ACTIVATE in the next cycle.
 */
module CommandBus {
  import opened Packets
  import opened BankTiming
  import opened Protocol
  import opened DataPath
  import opened CommandQueues
  import opened Controller
  import opened ScheduledRuns
  import opened Schedules
  import ArrivalOrder

  // ---------- the channel ----------

  /** No write is under way, the first ACTIVATE may still be on the bus, and m and n are the
      controller's views of banks (0, 0) and (r, b). */
  ghost predicate Sees(s: System, r: nat, b: nat, clock: nat, m: BankState, n: BankState) {
    && s.ch.clock == clock && 0 < |s.ch.ranks| && r < |s.ch.ranks|
    && 0 < |s.ch.ranks[0].mc| && s.ch.ranks[0].mc[0] == m && m.countdown == 0
    && b < |s.ch.ranks[r].mc| && s.ch.ranks[r].mc[b] == n && n.countdown == 0
    && s.io.writes == [] && s.io.bus.Quiet?
    && (s.ch.bus.Busy? ==> s.ch.bus.command == Act(0, 0) && FreshRank(s.ch))
  }

  predicate FreshRank(ch: Channel) {
    0 < |ch.ranks| && 0 < |ch.ranks[0].rk| && ch.ranks[0].rk[0] == FRESH_BANK
  }

  lemma Delivered(p: Timing, s: System, r: nat, b: nat, clock: nat, m: BankState, n: BankState)
    requires p.Sane() && Sees(s, r, b, clock, m, n)
    ensures var o := Deliver(p, TickAll(p, s.ch));
            && o.Running? && o.state.clock == clock && |o.state.ranks| == |s.ch.ranks|
            && 0 < |o.state.ranks[0].mc| && o.state.ranks[0].mc[0] == m
            && b < |o.state.ranks[r].mc| && o.state.ranks[r].mc[b] == n
            && (o.state.bus.Busy? ==> o.state.bus.command == Act(0, 0) && FreshRank(o.state))
            && (s.ch.bus.Free? ==> o.state.bus.Free? && (FreshRank(s.ch) ==> FreshRank(o.state)))
  {
  }

  /** A cycle in which nothing is issued. */
  lemma QuietStep(p: Timing, policy: Policy, s: System, r: nat, b: nat, clock: nat, m: BankState, n: BankState)
    requires p.Sane() && Sees(s, r, b, clock, m, n)
    ensures var o := SystemCycle(p, policy, s, Decision(Nothing, STAY));
            && o.Running? && Sees(o.state, r, b, clock + 1, m, n)
            && (s.ch.bus.Free? ==> o.state.ch.bus.Free? && (FreshRank(s.ch) ==> FreshRank(o.state.ch)))
  {
    Delivered(p, s, r, b, clock, m, n);
    StayKeeps(p, Deliver(p, TickAll(p, s.ch)).state, 0);
  }

  /** The first ACTIVATE. */
  lemma ActStep(p: Timing, policy: Policy, s: System, r: nat, b: nat, clock: nat)
    requires p.Sane() && Sees(s, r, b, clock, FRESH_BANK, FRESH_BANK) && s.ch.bus.Free? && FreshRank(s.ch) && (r, b) != (0, 0)
    ensures var o := SystemCycle(p, policy, s, Decision(Send(Act(0, 0)), STAY));
            o.Running? && Sees(o.state, r, b, clock + 1, Issue(p, clock, Act(0, 0), 0, 0, FRESH_BANK),
                               Issue(p, clock, Act(0, 0), r, b, FRESH_BANK))
  {
    Delivered(p, s, r, b, clock, FRESH_BANK, FRESH_BANK);
    var ch1 := Deliver(p, TickAll(p, s.ch)).state;
    var ch2 := PopPhase(p, policy, ch1, Send(Act(0, 0))).state;
    StayKeeps(p, ch2, 0);
  }

  /** The first access: it meets the ACTIVATE, or takes the bus itself. */
  lemma AccessStep(p: Timing, policy: Policy, s: System, r: nat, b: nat, clock: nat, m: BankState, n: BankState)
    requires p.Sane() && Sees(s, r, b, clock, m, n) && (r, b) != (0, 0)
    requires m.status.RowActive? && m.openRow == 0 && m.nextWrite <= clock && n.status.Idle?
    ensures var c := Write(policy, 0, 0).command;
            var o := SystemCycle(p, policy, s, Decision(Send(c), STAY));
            o == Crashed(CommandBusCollision)
            || (o.Running? && o.state.ch.clock == clock + 1 && o.state.ch.bus == Busy(c, p.tCMD) && o.state.io.bus.Quiet?
                && r < |o.state.ch.ranks| && b < |o.state.ch.ranks[r].mc|
                && o.state.ch.ranks[r].mc[b] == Issue(p, clock, c, r, b, n))
  {
    Delivered(p, s, r, b, clock, m, n);
    var c, ch1 := Write(policy, 0, 0).command, Deliver(p, TickAll(p, s.ch)).state;
    var o2 := PopPhase(p, policy, ch1, Send(c));
    if o2.Running? {
      StayKeeps(p, o2.state, 0);
    }
  }

  /** The second ACTIVATE meets the first access. */
  lemma MeetStep(p: Timing, policy: Policy, s: System, r: nat, b: nat, c: Command, n: BankState)
    requires p.Sane() && p.tCMD != 1 && s.ch.bus == Busy(c, p.tCMD) && s.io.bus.Quiet?
    requires r < |s.ch.ranks| && b < |s.ch.ranks[r].mc| && s.ch.ranks[r].mc[b] == n
    requires n.status.Idle? && n.countdown == 0 && n.nextActivate <= s.ch.clock
    ensures SystemCycle(p, policy, s, Decision(Send(Act(r, b)), STAY)) == Crashed(CommandBusCollision)
  {
  }

  // ---------- the run ----------

  /** A second bank, which may be opened in the cycle after the first access. */
  ghost predicate TwoBanks(p: Timing, g: Shape, r: nat, b: nat) {
    Reaches(g, 0, 0) && Reaches(g, r, b) && (r, b) != (0, 0) && (r == 0 ==> p.tRRD <= Gap(p) + 1)
  }

  /** Cycles between opening a row and the first write to it. */
  function Gap(p: Timing): int {
    Max(1, p.tRCD - p.AL)
  }

  /** The cycle of the first access. */
  function Time(p: Timing): int {
    1 + Gap(p)
  }

  /** The first bank, and the second, once the first was opened in cycle 1. */
  function First(p: Timing): BankState
    requires p.Sane()
  {
    Issue(p, 1, Act(0, 0), 0, 0, FRESH_BANK)
  }

  function Second(p: Timing, r: nat, b: nat): BankState
    requires p.Sane()
  {
    Issue(p, 1, Act(0, 0), r, b, FRESH_BANK)
  }

  const ORIGIN: set<(nat, nat)> := {(0, 0)}

  /** A run of the scheduler that has addressed bank (0, 0) only. */
  ghost predicate Stands(p: Timing, g: Shape, total: nat, ins: seq<Input>, k: nat, queues: Queues,
                         r: nat, b: nat, clock: nat, m: BankState, n: BankState)
    requires p.Sane()
  {
    var o := FullRun(p, g, ins);
    Calm(p, g, total, ins, ORIGIN, k) && At(o, queues) && Sees(o.state.sys, r, b, clock, m, n)
  }

  /** The scheduler is asked. */
  lemma Question(p: Timing, g: Shape, total: nat, ins: seq<Input>, k: nat, queues: Queues,
                 r: nat, b: nat, clock: nat, m: BankState, n: BankState) returns (f: Full, ch1: Channel)
    requires p.Sane() && Stands(p, g, total, ins, k, queues, r, b, clock, m, n)
    ensures Asks(p, g, total, ins, ORIGIN, k, queues, f, ch1) && f.sys.ch.clock == clock
    ensures FullRun(p, g, ins) == Running(f) && BankIs(ch1, 0, 0, m)
  {
    f := FullRun(p, g, ins).state;
    Delivered(p, f.sys, r, b, clock, m, n);
    ch1 := Deliver(p, TickAll(p, f.sys.ch)).state;
  }

  /** The first transaction has arrived. */
  lemma Begun(p: Timing, g: Shape, total: nat, r: nat, b: nat) returns (ins: seq<Input>)
    requires p.Sane() && TwoBanks(p, g, r, b)
    ensures var e, o := Write(g.policy, 0, 0), FullRun(p, g, ins);
            && Stands(p, g, total, ins, 0, Only(g, 0, 0, [ActFor(e), e]), r, b, 1, FRESH_BANK, FRESH_BANK)
            && o.state.sys.ch.bus.Free? && FreshRank(o.state.sys.ch)
  {
    var input := Do([Write(g.policy, 0, 0)], Wait);
    CalmStart(p, g, total, ORIGIN);
    OnlyNothing(g, 0, 0);
    var f, ch1 := Question(p, g, total, [], 0, Only(g, 0, 0, []), r, b, 0, FRESH_BANK, FRESH_BANK);
    MayRest(p, g, total, [], ORIGIN, 0, f, ch1, 0, 0);
    CalmWait(p, g, total, [], input.arrivals, ORIGIN, 0);
    FirstArrival(p, g, r, b);
    ins := [] + [input];
  }

  lemma FirstArrival(p: Timing, g: Shape, r: nat, b: nat)
    requires p.Sane() && TwoBanks(p, g, r, b)
    ensures var e := Write(g.policy, 0, 0); var o := FullRun(p, g, [] + [Do([e], Wait)]);
            && At(o, Only(g, 0, 0, [ActFor(e), e])) && Sees(o.state.sys, r, b, 1, FRESH_BANK, FRESH_BANK)
            && o.state.sys.ch.bus.Free? && FreshRank(o.state.sys.ch)
  {
    var f := FullStart(g);
    QuietStep(p, g.policy, f.sys, r, b, 0, FRESH_BANK, FRESH_BANK);
    ArrivalCycle(p, g, f, 0, 0);
    RunSnoc(p, g, [], Do([Write(g.policy, 0, 0)], Wait));
  }

  /** The first bank is opened. */
  lemma BankOpened(p: Timing, g: Shape, total: nat, r: nat, b: nat) returns (ins: seq<Input>)
    requires p.Sane() && TwoBanks(p, g, r, b)
    ensures Stands(p, g, total, ins, 1, Only(g, 0, 0, [Write(g.policy, 0, 0)]), r, b, 2, First(p), Second(p, r, b))
  {
    var e, input := Write(g.policy, 0, 0), Do([], Take(0, g.Lane(0), 0));
    var before := Begun(p, g, total, r, b);
    var f, ch1 := Question(p, g, total, before, 0, Only(g, 0, 0, [ActFor(e), e]), r, b, 1, FRESH_BANK, FRESH_BANK);
    MayOpen(p, g, total, before, ORIGIN, 0, f, ch1, 0, 0, FRESH_BANK);
    CalmOpen(p, g, total, before, [], ORIGIN, 0, 0, 0);
    ActStep(p, g.policy, f.sys, r, b, 1);
    TakeCycle(p, g, f, 0, 0, [ActFor(e), e]);
    assert [ActFor(e), e][1..] == [e];
    RunSnoc(p, g, before, input);
    ins := before + [input];
  }

  /** The scheduler waits while the first access may not be sent. */
  lemma {:induction false} Waited(p: Timing, g: Shape, total: nat, r: nat, b: nat, n: nat) returns (ins: seq<Input>)
    requires p.Sane() && TwoBanks(p, g, r, b) && total > 0 && 2 <= n <= Time(p)
    ensures Stands(p, g, total, ins, 1, Only(g, 0, 0, [Write(g.policy, 0, 0)]), r, b, n, First(p), Second(p, r, b))
  {
    if n == 2 {
      ins := BankOpened(p, g, total, r, b);
    } else {
      var before := Waited(p, g, total, r, b, n - 1);
      FirstIsOpen(p, n - 1);
      ins := StillWaits(p, g, total, r, b, n - 1, before, First(p), Second(p, r, b));
    }
  }

  lemma FirstIsOpen(p: Timing, n: nat)
    requires p.Sane()
    ensures var m := First(p);
            && m.status.RowActive? && m.lastCommand.ACTIVATE? && m.openRow == 0 && m.nextWrite <= Time(p)
            && (2 <= n < Time(p) ==> n < m.nextWrite)
  {
  }

  lemma StillWaits(p: Timing, g: Shape, total: nat, r: nat, b: nat, n: nat, before: seq<Input>, m: BankState, m2: BankState)
    returns (ins: seq<Input>)
    requires p.Sane() && Reaches(g, 0, 0) && total > 0
    requires m.status.RowActive? && m.lastCommand.ACTIVATE? && m.openRow == 0 && n < m.nextWrite
    requires Stands(p, g, total, before, 1, Only(g, 0, 0, [Write(g.policy, 0, 0)]), r, b, n, m, m2)
    ensures Stands(p, g, total, ins, 1, Only(g, 0, 0, [Write(g.policy, 0, 0)]), r, b, n + 1, m, m2)
  {
    var queues := Only(g, 0, 0, [Write(g.policy, 0, 0)]);
    var f, ch1 := Question(p, g, total, before, 1, queues, r, b, n, m, m2);
    assert ORIGIN - {(0, 0)} == {};
    MayIdle(p, g, total, before, ORIGIN, 1, f, ch1, 0, 0, m);
    CalmWait(p, g, total, before, [], ORIGIN, 1);
    QuietStep(p, g.policy, f.sys, r, b, n, m, m2);
    IdleCycle(p, g, f, queues);
    RunSnoc(p, g, before, Do([], Wait));
    ins := before + [Do([], Wait)];
  }

  /** The first access is on the bus, and bank (r, b) may be opened. */
  ghost predicate Sent(p: Timing, s: System, r: nat, b: nat, c: Command) {
    && s.ch.bus == Busy(c, p.tCMD) && s.io.bus.Quiet? && r < |s.ch.ranks| && b < |s.ch.ranks[r].mc|
    && var n := s.ch.ranks[r].mc[b]; n.status.Idle? && n.countdown == 0 && n.nextActivate <= s.ch.clock
  }

  lemma SentStep(p: Timing, g: Shape, s: System, r: nat, b: nat)
    requires p.Sane() && TwoBanks(p, g, r, b) && Sees(s, r, b, Time(p), First(p), Second(p, r, b))
    ensures var c := Write(g.policy, 0, 0).command;
            var o := SystemCycle(p, g.policy, s, Decision(Send(c), STAY));
            o == Crashed(CommandBusCollision) || (o.Running? && Sent(p, o.state, r, b, c))
  {
    AccessStep(p, g.policy, s, r, b, Time(p), First(p), Second(p, r, b));
  }

  /** The scheduler sends the first access. */
  lemma Writes(p: Timing, g: Shape, total: nat, r: nat, b: nat, before: seq<Input>, m: BankState, m2: BankState, arrivals: seq<Packet>)
    requires p.Sane() && Reaches(g, 0, 0) && total > 0
    requires m.status.RowActive? && m.lastCommand.ACTIVATE? && m.openRow == 0 && m.nextWrite <= Time(p)
    requires Stands(p, g, total, before, 1, Only(g, 0, 0, [Write(g.policy, 0, 0)]), r, b, Time(p), m, m2)
    ensures Calm(p, g, total, before + [Do(arrivals, Take(0, g.Lane(0), 0))], ORIGIN, 1)
  {
    var e := Write(g.policy, 0, 0);
    var f, ch1 := Question(p, g, total, before, 1, Only(g, 0, 0, [e]), r, b, Time(p), m, m2);
    MayWrite(p, g, total, before, ORIGIN, 1, f, ch1, 0, 0, m);
    CalmWrite(p, g, total, before, arrivals, ORIGIN, 1, 0, 0);
  }

  /** ... and the second transaction arrives. */
  lemma Accessed(p: Timing, g: Shape, total: nat, r: nat, b: nat) returns (ins: seq<Input>)
    requires p.Sane() && TwoBanks(p, g, r, b) && total > 0
    ensures var e, o := Write(g.policy, r, b), FullRun(p, g, ins);
            && Calm(p, g, total, ins, ORIGIN, 1)
            && (o == Crashed(CommandBusCollision)
                || (At(o, Only(g, r, b, [ActFor(e), e])) && Sent(p, o.state.sys, r, b, Write(g.policy, 0, 0).command)))
  {
    var e, input := Write(g.policy, 0, 0), Do([Write(g.policy, r, b)], Take(0, g.Lane(0), 0));
    var before := Waited(p, g, total, r, b, Time(p));
    FirstIsOpen(p, Time(p));
    Writes(p, g, total, r, b, before, First(p), Second(p, r, b), input.arrivals);
    SentAndArrived(p, g, before, r, b);
    ins := before + [input];
  }

  lemma SentAndArrived(p: Timing, g: Shape, before: seq<Input>, r: nat, b: nat)
    requires p.Sane() && TwoBanks(p, g, r, b)
    requires var o := FullRun(p, g, before);
             At(o, Only(g, 0, 0, [Write(g.policy, 0, 0)])) && Sees(o.state.sys, r, b, Time(p), First(p), Second(p, r, b))
    ensures var e := Write(g.policy, r, b);
            var o := FullRun(p, g, before + [Do([e], Take(0, g.Lane(0), 0))]);
            o == Crashed(CommandBusCollision)
            || (At(o, Only(g, r, b, [ActFor(e), e])) && Sent(p, o.state.sys, r, b, Write(g.policy, 0, 0).command))
  {
    var f := FullRun(p, g, before).state;
    SentStep(p, g, f.sys, r, b);
    TakeAndArrive(p, g, f, 0, 0, Write(g.policy, 0, 0), r, b);
    RunSnoc(p, g, before, Do([Write(g.policy, r, b)], Take(0, g.Lane(0), 0)));
  }

  /** With another tCMD, two transactions make two commands meet. */
  lemma SomeCommandsMeet(p: Timing, g: Shape, total: nat, r: nat, b: nat) returns (ins: seq<Input>)
    requires p.Sane() && p.tCMD != 1 && total > 0 && TwoBanks(p, g, r, b)
    ensures IsScheduled(p, g, total, ins, Never(|ins|)) && NoMoves(ins)
    ensures FullRun(p, g, ins) == Crashed(CommandBusCollision)
  {
    ins := Accessed(p, g, total, r, b);
    var o, e, input := FullRun(p, g, ins), Write(g.policy, r, b), Do([], Take(r, g.Lane(b), 0));
    if o.Running? {
      var ch1, n := Opens(p, g, total, ins, o.state, r, b);
      MeetStep(p, g.policy, o.state.sys, r, b, Write(g.policy, 0, 0).command, n);
      TakeCycle(p, g, o.state, r, b, [ActFor(e), e]);
      RunSnoc(p, g, ins, input);
      TakeFirst(g, r, b, [ActFor(e), e]);
      CalmWiden(p, g, total, ins, ORIGIN, ORIGIN + {(r, b)}, 1);
      LastInput(p, g, total, ins, input.choice, ORIGIN + {(r, b)}, 1);
      ins := ins + [input];
    }
  }

  /** The scheduler opens the second bank. */
  lemma Opens(p: Timing, g: Shape, total: nat, ins: seq<Input>, f: Full, r: nat, b: nat) returns (ch1: Channel, n: BankState)
    requires p.Sane() && TwoBanks(p, g, r, b) && Calm(p, g, total, ins, ORIGIN, 1) && FullRun(p, g, ins) == Running(f)
    requires Sent(p, f.sys, r, b, Write(g.policy, 0, 0).command)
    requires var e := Write(g.policy, r, b); f.queues == Only(g, r, b, [ActFor(e), e])
    ensures BankIs(f.sys.ch, r, b, n) && n.status.Idle? && n.countdown == 0 && n.nextActivate <= f.sys.ch.clock
    ensures MayChoose(p, g, total, ins, -1, Take(r, g.Lane(b), 0))
  {
    n := f.sys.ch.ranks[r].mc[b];
    var o := Deliver(p, TickAll(p, f.sys.ch));
    if o.Running? {
      ch1 := o.state;
      assert ch1.ranks[r].mc == TickRank(p, f.sys.ch.ranks[r]).mc;
      MayOpen(p, g, total, ins, ORIGIN, 1, f, ch1, r, b, n);
    } else {
      ch1 := f.sys.ch;
    }
  }

  /** Exactly when no two commands ever meet: the scheduler has no run in which they do, and with
      a tCMD of one no choices whatever lead to it. */
  lemma CommandBusIff(p: Timing, g: Shape, total: nat)
    requires p.Sane() && Reaches(g, 0, 0) && total > 0
    requires g.numRanks >= 2 || (g.numBanks >= 2 && p.tRRD <= Gap(p) + 1)
    ensures NeverMeets(p, g, total) <==> p.tCMD == 1
  {
    if p.tCMD == 1 {
      forall ins, due: seq<int> | |due| == |ins| ensures DoesNotMeet(p, g, total, ins, due) {
        ArrivalOrder.NoCommandIsRefused(p, g, ins);
      }
    } else {
      var r := if g.numRanks >= 2 then 1 else 0;
      var ins := SomeCommandsMeet(p, g, total, r, if r == 1 then 0 else 1);
      assert !DoesNotMeet(p, g, total, ins, Never(|ins|));
    }
  }

  ghost predicate NeverMeets(p: Timing, g: Shape, total: nat)
    requires p.Sane()
  {
    forall ins, due: seq<int> :: |due| == |ins| ==> DoesNotMeet(p, g, total, ins, due)
  }

  ghost predicate DoesNotMeet(p: Timing, g: Shape, total: nat, ins: seq<Input>, due: seq<int>)
    requires p.Sane() && |due| == |ins|
  {
    IsScheduled(p, g, total, ins, due) ==> FullRun(p, g, ins) != Crashed(CommandBusCollision)
  }
}
