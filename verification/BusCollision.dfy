/**
 The converse of ArrivalOrder.NoControllerRunFails: with two ranks and an unsafe bus, two
 transactions make their writes meet on the data bus.  The second arrives in the cycle of the
 first write, and its row is opened right after it, when the controller no longer delays it.
 The scheduler makes these choices: it waits only when no command may go and no row be closed.
 */
module BusCollision {
  import opened Packets
  import opened BankTiming
  import opened Protocol
  import opened DataPath
  import opened WritePath
  import opened Coherence
  import opened DataBusSafety
  import opened CommandQueues
  import opened Controller
  import opened ScheduledRuns
  import opened Schedules
  import ArrivalOrder

  /** What matters of a system: its clock, the controller's view of bank 0 of ranks 0 and 1,
      and the outstanding writes. */
  ghost predicate Tracks(s: System, clock: nat, m0: BankState, m1: BankState, ss: seq<Sent>) {
    && s.ch.clock == clock && |s.ch.ranks| >= 2
    && s.ch.ranks[0].mc != [] && s.ch.ranks[0].mc[0] == m0
    && s.ch.ranks[1].mc != [] && s.ch.ranks[1].mc[0] == m1
    && Outstanding(s.io) == ss
  }

  /** The run has already collided, or is still in the described state. */
  ghost predicate Follows(p: Timing, g: Shape, ins: seq<Input>, queues: Queues,
                          clock: nat, m0: BankState, m1: BankState, ss: seq<Sent>)
    requires p.Sane()
  {
    var o := FullRun(p, g, ins);
    o == Crashed(DataBusCollision) || (At(o, queues) && Tracks(o.state.sys, clock, m0, m1, ss))
  }

  function BankAfter(p: Timing, t: int, pop: Pop, i: nat, m: BankState): BankState
    requires p.Sane()
  {
    if pop.Send? then Issue(p, t, pop.command, i, 0, Tick(p, m)) else Tick(p, m)
  }

  /** The pop is allowed by the controller's view of the two banks. */
  ghost predicate Permitted(p: Timing, policy: Policy, t: int, pop: Pop, m0: BankState, m1: BankState)
    requires p.Sane()
  {
    pop.Send? ==>
      && pop.command.rank <= 1 && pop.command.bank == 0 && Uses(policy, pop.command.kind)
      && !pop.command.kind.REFRESH?
      && Issuable(t, pop.command, Tick(p, if pop.command.rank == 0 then m0 else m1))
  }

  lemma ChannelStep(p: Timing, policy: Policy, ch: Channel, ch1: Channel, pop: Pop, m0: BankState, m1: BankState)
    requires p.Sane() && |ch.ranks| >= 2 && ch.ranks[0].mc != [] && ch.ranks[1].mc != []
    requires ch.ranks[0].mc[0] == m0 && ch.ranks[1].mc[0] == m1
    requires Deliver(p, TickAll(p, ch)) == Running(ch1) && ch1.bus.Free?
    requires Permitted(p, policy, ch.clock, pop, m0, m1)
    ensures var o := PopPhase(p, policy, ch1, pop);
            && o.Running? && |o.state.ranks| >= 2 && o.state.ranks[0].mc != [] && o.state.ranks[1].mc != []
            && o.state.ranks[0].mc[0] == BankAfter(p, ch.clock, pop, 0, m0)
            && o.state.ranks[1].mc[0] == BankAfter(p, ch.clock, pop, 1, m1)
  {
    assert ch1.ranks[0].mc == TickRank(p, ch.ranks[0]).mc && ch1.ranks[1].mc == TickRank(p, ch.ranks[1]).mc;
  }

  lemma WriteStep(p: Timing, s: System, pop: Pop, io3: Data)
    requires p.Sane() && WriteInv(p, s.ch.clock - 1, s.ch.ranks, s.io, s.h.golden)
    requires WriteSend(p, DataDeliver(Arrival(p, s.ch.clock, UpdateRanks(p, s.ch.clock, s.io), s.ch.bus))) == Running(io3)
    requires Outstanding(s.io) == [] || s.ch.clock < Outstanding(s.io)[0].at + p.WL() + p.Burst()
    ensures Outstanding(Accept(p, s.ch.clock, io3, pop)) == AfterIssue(s.ch.clock, Outstanding(s.io), pop)
  {
    var t: int := s.ch.clock;
    var io2 := Arrival(p, t, UpdateRanks(p, t, s.io), s.ch.bus);
    assert Outstanding(io2) == Outstanding(s.io);
    WriteCycle(p, t - 1, io2);
    IssuedSent(p, t, io3, pop);
  }

  lemma SystemStep(p: Timing, policy: Policy, s: System, pop: Pop, clock: nat, m0: BankState, m1: BankState, ss: seq<Sent>)
    requires p.Sane() && p.tCMD == 1 && SystemInv(p, policy, s) && Tracks(s, clock, m0, m1, ss)
    requires Permitted(p, policy, clock, pop, m0, m1)
    requires ss == [] || clock < ss[0].at + p.WL() + p.Burst()
    ensures var o := SystemCycle(p, policy, s, Decision(pop, STAY));
            o == Crashed(DataBusCollision)
            || (o.Running? && Tracks(o.state, clock + 1, BankAfter(p, clock, pop, 0, m0), BankAfter(p, clock, pop, 1, m1),
                                     AfterIssue(clock, ss, pop)))
  {
    DeliverSettles(p, policy, s.ch);
    var ch1 := Deliver(p, TickAll(p, s.ch)).state;
    ChannelStep(p, policy, s.ch, ch1, pop, m0, m1);
    StepFrom(p, policy, s, pop, ch1, PopPhase(p, policy, ch1, pop).state,
             BankAfter(p, clock, pop, 0, m0), BankAfter(p, clock, pop, 1, m1), ss);
  }

  lemma StepFrom(p: Timing, policy: Policy, s: System, pop: Pop, ch1: Channel, ch2: Channel,
                 m0: BankState, m1: BankState, ss: seq<Sent>)
    requires p.Sane() && WriteInv(p, s.ch.clock - 1, s.ch.ranks, s.io, s.h.golden) && Outstanding(s.io) == ss
    requires Deliver(p, TickAll(p, s.ch)) == Running(ch1) && PopPhase(p, policy, ch1, pop) == Running(ch2)
    requires |ch2.ranks| >= 2 && ch2.ranks[0].mc != [] && ch2.ranks[1].mc != []
    requires ch2.ranks[0].mc[0] == m0 && ch2.ranks[1].mc[0] == m1
    requires ss == [] || s.ch.clock < ss[0].at + p.WL() + p.Burst()
    ensures var o := SystemCycle(p, policy, s, Decision(pop, STAY));
            o == Crashed(DataBusCollision)
            || (o.Running? && Tracks(o.state, s.ch.clock + 1, m0, m1, AfterIssue(s.ch.clock, ss, pop)))
  {
    CycleIs(p, policy, s, pop, ch1, ch2);
    var o3 := WriteSend(p, DataDeliver(Arrival(p, s.ch.clock, UpdateRanks(p, s.ch.clock, s.io), s.ch.bus)));
    if o3.Running? {
      WriteStep(p, s, pop, o3.state);
      NextTracks(p, s, pop, o3.state, ch2, m0, m1, AfterIssue(s.ch.clock, ss, pop));
    }
  }

  /** The state after a step, read off its phases. */
  lemma NextTracks(p: Timing, s: System, pop: Pop, io3: Data, ch2: Channel, m0: BankState, m1: BankState, ss: seq<Sent>)
    requires p.Sane() && |ch2.ranks| >= 2 && ch2.ranks[0].mc != [] && ch2.ranks[1].mc != []
    requires ch2.ranks[0].mc[0] == m0 && ch2.ranks[1].mc[0] == m1
    requires Outstanding(Accept(p, s.ch.clock, io3, pop)) == ss
    ensures Tracks(Next(p, s, Decision(pop, STAY), io3, ch2), s.ch.clock + 1, m0, m1, ss)
  {
  }

  /** A cycle without power moves, in terms of its phases. */
  lemma CycleIs(p: Timing, policy: Policy, s: System, pop: Pop, ch1: Channel, ch2: Channel)
    requires p.Sane() && Deliver(p, TickAll(p, s.ch)) == Running(ch1) && PopPhase(p, policy, ch1, pop) == Running(ch2)
    ensures var o3 := WriteSend(p, DataDeliver(Arrival(p, s.ch.clock, UpdateRanks(p, s.ch.clock, s.io), s.ch.bus)));
            SystemCycle(p, policy, s, Decision(pop, STAY))
            == if o3.Running? then Running(Next(p, s, Decision(pop, STAY), o3.state, ch2)) else Crashed(DataBusCollision)
  {
    StayKeeps(p, ch2, 0);
  }

  /** One more cycle. */
  lemma Extend(p: Timing, g: Shape, ins: seq<Input>, input: Input, pop: Pop, queues: Queues, queues': Queues,
               clock: nat, m0: BankState, m1: BankState, ss: seq<Sent>)
    requires p.Sane() && p.tCMD == 1 && Follows(p, g, ins, queues, clock, m0, m1, ss)
    requires FullRun(p, g, ins).Running? ==> Moves(p, g, FullRun(p, g, ins).state, input, pop, queues')
    requires Permitted(p, g.policy, clock, pop, m0, m1)
    requires ss == [] || clock < ss[0].at + p.WL() + p.Burst()
    ensures Follows(p, g, ins + [input], queues', clock + 1,
                    BankAfter(p, clock, pop, 0, m0), BankAfter(p, clock, pop, 1, m1), AfterIssue(clock, ss, pop))
  {
    RunSnoc(p, g, ins, input);
    ArrivalOrder.RunKeepsFull(p, g, ins);
    var o := FullRun(p, g, ins);
    if o.Running? {
      SystemStep(p, g.policy, o.state.sys, pop, clock, m0, m1, ss);
    }
  }

  // ---------- the schedule ----------

  /** Two ranks, and queues that take a transaction. */
  ghost predicate TwoRanks(g: Shape) {
    Reaches(g, 0, 0) && Reaches(g, 1, 0)
  }

  function Wr(policy: Policy, rank: nat): Command {
    Write(policy, rank, 0).command
  }

  /** Cycles between opening a row and the first write to it. */
  function Gap(p: Timing): int {
    Max(1, p.tRCD - p.AL)
  }

  /** Bank 0 of a rank, opened at cycle t. */
  function Opened(p: Timing, t: int, rank: nat): BankState
    requires p.Sane()
  {
    Issue(p, t, Act(rank, 0), rank, 0, FRESH_BANK)
  }

  /** The cycles of the two writes. */
  function First(p: Timing): int { 1 + Gap(p) }

  function Second(p: Timing): int { First(p) + 1 + Gap(p) }

  /** The queues with the whole transaction of a rank, and with its access alone. */
  function Both(g: Shape, rank: nat): Queues {
    Only(g, rank, 0, [ActFor(Write(g.policy, rank, 0)), Write(g.policy, rank, 0)])
  }

  function Rest(g: Shape, rank: nat): Queues {
    Only(g, rank, 0, [Write(g.policy, rank, 0)])
  }

  const PAIR: set<(nat, nat)> := {(0, 0), (1, 0)}

  lemma InPair(rank: nat)
    requires rank <= 1
    ensures (rank, 0) in PAIR
  {
  }

  /** A run of the scheduler so far, with k activates at most, that has collided or is in the
      described state. */
  ghost predicate Goes(p: Timing, g: Shape, total: nat, ins: seq<Input>, k: nat, queues: Queues,
                       clock: nat, m0: BankState, m1: BankState, ss: seq<Sent>)
    requires p.Sane()
  {
    Calm(p, g, total, ins, PAIR, k) && Follows(p, g, ins, queues, clock, m0, m1, ss)
  }

  // ---------- the scheduler's choices ----------

  /** The scheduler is asked. */
  lemma Question(p: Timing, g: Shape, total: nat, ins: seq<Input>, k: nat, queues: Queues,
                 clock: nat, m0: BankState, m1: BankState, ss: seq<Sent>) returns (f: Full, ch1: Channel)
    requires p.Sane() && p.tCMD == 1 && Goes(p, g, total, ins, k, queues, clock, m0, m1, ss) && FullRun(p, g, ins).Running?
    ensures Asks(p, g, total, ins, PAIR, k, queues, f, ch1) && f.sys.ch.clock == clock
    ensures BankIs(ch1, 0, 0, Tick(p, m0)) && BankIs(ch1, 1, 0, Tick(p, m1))
  {
    f := FullRun(p, g, ins).state;
    ArrivalOrder.RunKeepsFull(p, g, ins);
    DeliverSettles(p, g.policy, f.sys.ch);
    ch1 := Deliver(p, TickAll(p, f.sys.ch)).state;
    assert ch1.ranks[0].mc == TickRank(p, f.sys.ch.ranks[0]).mc && ch1.ranks[1].mc == TickRank(p, f.sys.ch.ranks[1]).mc;
  }

  lemma TheBank(p: Timing, ch1: Channel, m0: BankState, m1: BankState, rank: nat)
    requires p.Sane() && rank <= 1 && BankIs(ch1, 0, 0, Tick(p, m0)) && BankIs(ch1, 1, 0, Tick(p, m1))
    ensures BankIs(ch1, rank, 0, Tick(p, if rank == 0 then m0 else m1))
  {
    if rank != 0 {
      assert rank == 1;
    }
  }

  /** With open pages, the row of this bank is not closed before cycle t. */
  predicate Late(policy: Policy, m: BankState, t: int) {
    policy.OpenPage? ==> m.countdown == 0 && (m.status.RowActive? ==> m.nextPrecharge >= t)
  }

  lemma BothHeld(policy: Policy, p: Timing, ch1: Channel, clock: int, m0: BankState, m1: BankState)
    requires p.Sane() && BankIs(ch1, 0, 0, Tick(p, m0)) && BankIs(ch1, 1, 0, Tick(p, m1))
    requires Late(policy, m0, clock + 1) && Late(policy, m1, clock + 1)
    ensures Held(policy, ch1, clock, PAIR)
  {
  }

  lemma OtherHeld(policy: Policy, p: Timing, ch1: Channel, clock: int, m0: BankState, m1: BankState, rank: nat)
    requires p.Sane() && BankIs(ch1, 0, 0, Tick(p, m0)) && BankIs(ch1, 1, 0, Tick(p, m1)) && rank <= 1
    requires Late(policy, if rank == 0 then m1 else m0, clock + 1)
    ensures Held(policy, ch1, clock, PAIR - {(rank, 0)})
  {
  }

  /** The bank of a rank that a write waits for. */
  predicate Opens(m: BankState, t: int) {
    m.status.RowActive? && m.lastCommand.ACTIVATE? && m.openRow == 0 && m.countdown == 0 && m.nextWrite == t
  }

  lemma OpenedIs(p: Timing, t: nat, rank: nat)
    requires p.Sane()
    ensures Opens(Opened(p, t, rank), Max(t + (p.tRCD - p.AL), 0)) && Tick(p, Opened(p, t, rank)) == Opened(p, t, rank)
  {
  }

  /** An ACTIVATE is sent at once. */
  lemma ChosenAct(p: Timing, g: Shape, total: nat, ins: seq<Input>, k: nat, rank: nat,
                  clock: nat, m0: BankState, m1: BankState, ss: seq<Sent>)
    requires p.Sane() && p.tCMD == 1 && TwoRanks(g) && rank <= 1 && k < 4
    requires Goes(p, g, total, ins, k, Both(g, rank), clock, m0, m1, ss) && (if rank == 0 then m0 else m1) == FRESH_BANK
    ensures Calm(p, g, total, ins + [Do([], Take(rank, g.Lane(0), 0))], PAIR, k + 1)
  {
    InPair(rank);
    if FullRun(p, g, ins).Running? {
      ActIsChosen(p, g, total, ins, k, rank, clock, m0, m1, ss);
    }
    CalmOpen(p, g, total, ins, [], PAIR, k, rank, 0);
  }

  lemma ActIsChosen(p: Timing, g: Shape, total: nat, ins: seq<Input>, k: nat, rank: nat,
                    clock: nat, m0: BankState, m1: BankState, ss: seq<Sent>)
    requires p.Sane() && p.tCMD == 1 && TwoRanks(g) && rank <= 1 && k < 4 && FullRun(p, g, ins).Running?
    requires Goes(p, g, total, ins, k, Both(g, rank), clock, m0, m1, ss) && (if rank == 0 then m0 else m1) == FRESH_BANK
    ensures MayChoose(p, g, total, ins, -1, Take(rank, g.Lane(0), 0))
  {
    var f, ch1 := Question(p, g, total, ins, k, Both(g, rank), clock, m0, m1, ss);
    TheBank(p, ch1, m0, m1, rank);
    MayOpen(p, g, total, ins, PAIR, k, f, ch1, rank, 0, FRESH_BANK);
  }

  /** A write is sent when its time has come. */
  lemma ChosenWrite(p: Timing, g: Shape, total: nat, ins: seq<Input>, arrivals: seq<Packet>, k: nat, rank: nat,
                    clock: nat, m0: BankState, m1: BankState, ss: seq<Sent>)
    requires p.Sane() && p.tCMD == 1 && TwoRanks(g) && rank <= 1 && total > 0
    requires Goes(p, g, total, ins, k, Rest(g, rank), clock, m0, m1, ss)
    requires var m := if rank == 0 then m0 else m1; Opens(m, m.nextWrite) && m.nextWrite <= clock
    ensures Calm(p, g, total, ins + [Do(arrivals, Take(rank, g.Lane(0), 0))], PAIR, k)
  {
    InPair(rank);
    if FullRun(p, g, ins).Running? {
      WriteIsChosen(p, g, total, ins, k, rank, clock, m0, m1, ss);
    }
    CalmWrite(p, g, total, ins, arrivals, PAIR, k, rank, 0);
  }

  lemma WriteIsChosen(p: Timing, g: Shape, total: nat, ins: seq<Input>, k: nat, rank: nat,
                      clock: nat, m0: BankState, m1: BankState, ss: seq<Sent>)
    requires p.Sane() && p.tCMD == 1 && TwoRanks(g) && rank <= 1 && total > 0 && FullRun(p, g, ins).Running?
    requires Goes(p, g, total, ins, k, Rest(g, rank), clock, m0, m1, ss)
    requires var m := if rank == 0 then m0 else m1; Opens(m, m.nextWrite) && m.nextWrite <= clock
    ensures MayChoose(p, g, total, ins, -1, Take(rank, g.Lane(0), 0))
  {
    var m := if rank == 0 then m0 else m1;
    var f, ch1 := Question(p, g, total, ins, k, Rest(g, rank), clock, m0, m1, ss);
    TheBank(p, ch1, m0, m1, rank);
    MayWrite(p, g, total, ins, PAIR, k, f, ch1, rank, 0, m);
  }

  lemma WaitsFor(p: Timing, g: Shape, total: nat, ins: seq<Input>, k: nat, f: Full, ch1: Channel, rank: nat, m: BankState)
    requires p.Sane() && TwoRanks(g) && rank <= 1 && total > 0 && Asks(p, g, total, ins, PAIR, k, Rest(g, rank), f, ch1)
    requires Opens(m, m.nextWrite) && f.sys.ch.clock < m.nextWrite && BankIs(ch1, rank, 0, Tick(p, m))
    requires Held(g.policy, ch1, f.sys.ch.clock, PAIR - {(rank, 0)})
    ensures MayChoose(p, g, total, ins, -1, Wait)
  {
    MayIdle(p, g, total, ins, PAIR, k, f, ch1, rank, 0, m);
  }

  /** Until then nothing else can be sent. */
  lemma ChosenWait(p: Timing, g: Shape, total: nat, ins: seq<Input>, k: nat, rank: nat,
                   clock: nat, m0: BankState, m1: BankState, ss: seq<Sent>)
    requires p.Sane() && p.tCMD == 1 && TwoRanks(g) && rank <= 1 && total > 0
    requires Goes(p, g, total, ins, k, Rest(g, rank), clock, m0, m1, ss)
    requires var m := if rank == 0 then m0 else m1; Opens(m, m.nextWrite) && clock < m.nextWrite
    requires Late(g.policy, if rank == 0 then m1 else m0, clock + 1)
    ensures Calm(p, g, total, ins + [Do([], Wait)], PAIR, k)
  {
    if FullRun(p, g, ins).Running? {
      WaitIsChosen(p, g, total, ins, k, rank, clock, m0, m1, ss);
    }
    CalmWait(p, g, total, ins, [], PAIR, k);
  }

  lemma WaitIsChosen(p: Timing, g: Shape, total: nat, ins: seq<Input>, k: nat, rank: nat,
                     clock: nat, m0: BankState, m1: BankState, ss: seq<Sent>)
    requires p.Sane() && p.tCMD == 1 && TwoRanks(g) && rank <= 1 && total > 0 && FullRun(p, g, ins).Running?
    requires Goes(p, g, total, ins, k, Rest(g, rank), clock, m0, m1, ss)
    requires var m := if rank == 0 then m0 else m1; Opens(m, m.nextWrite) && clock < m.nextWrite
    requires Late(g.policy, if rank == 0 then m1 else m0, clock + 1)
    ensures MayChoose(p, g, total, ins, -1, Wait)
  {
    var m := if rank == 0 then m0 else m1;
    var f, ch1 := Question(p, g, total, ins, k, Rest(g, rank), clock, m0, m1, ss);
    TheBank(p, ch1, m0, m1, rank);
    OtherHeld(g.policy, p, ch1, clock, m0, m1, rank);
    WaitsFor(p, g, total, ins, k, f, ch1, rank, m);
  }

  /** With empty queues, nothing is sent while no row may be closed. */
  lemma ChosenRest(p: Timing, g: Shape, total: nat, ins: seq<Input>, arrivals: seq<Packet>, k: nat, rank: nat,
                   clock: nat, m0: BankState, m1: BankState, ss: seq<Sent>)
    requires p.Sane() && p.tCMD == 1 && TwoRanks(g) && rank <= 1
    requires Goes(p, g, total, ins, k, Only(g, rank, 0, []), clock, m0, m1, ss)
    requires Late(g.policy, m0, clock + 1) && Late(g.policy, m1, clock + 1)
    ensures Calm(p, g, total, ins + [Do(arrivals, Wait)], PAIR, k)
    ensures MayChoose(p, g, total, ins, -1, Wait)
  {
    if FullRun(p, g, ins).Running? {
      var f, ch1 := Question(p, g, total, ins, k, Only(g, rank, 0, []), clock, m0, m1, ss);
      BothHeld(g.policy, p, ch1, clock, m0, m1);
      MayRest(p, g, total, ins, PAIR, k, f, ch1, rank, 0);
    }
    CalmWait(p, g, total, ins, arrivals, PAIR, k);
  }

  // ---------- the run ----------

  /** The first transaction arrives in cycle 0. */
  lemma Begun(p: Timing, g: Shape, total: nat) returns (ins: seq<Input>)
    requires p.Sane() && p.tCMD == 1 && TwoRanks(g)
    ensures Goes(p, g, total, ins, 0, Both(g, 0), 1, FRESH_BANK, FRESH_BANK, [])
  {
    var input := Do([Write(g.policy, 0, 0)], Wait);
    CalmStart(p, g, total, PAIR);
    OnlyNothing(g, 0, 0);
    assert Follows(p, g, [], FullStart(g).queues, 0, FRESH_BANK, FRESH_BANK, []) by {
      assert SentOf([]) == [];
    }
    ChosenRest(p, g, total, [], input.arrivals, 0, 0, 0, FRESH_BANK, FRESH_BANK, []);
    ArrivalCycle(p, g, FullStart(g), 0, 0);
    Extend(p, g, [], input, Nothing, FullStart(g).queues, Both(g, 0), 0, FRESH_BANK, FRESH_BANK, []);
    ins := [] + [input];
  }

  /** The ACTIVATE of a rank's transaction. */
  lemma TakeAct(p: Timing, g: Shape, ins: seq<Input>, rank: nat, clock: nat, m0: BankState, m1: BankState, ss: seq<Sent>)
    requires p.Sane() && p.tCMD == 1 && TwoRanks(g) && rank <= 1 && Follows(p, g, ins, Both(g, rank), clock, m0, m1, ss)
    requires Permitted(p, g.policy, clock, Send(Act(rank, 0)), m0, m1)
    requires ss == [] || clock < ss[0].at + p.WL() + p.Burst()
    ensures Follows(p, g, ins + [Do([], Take(rank, g.Lane(0), 0))], Rest(g, rank), clock + 1,
                    BankAfter(p, clock, Send(Act(rank, 0)), 0, m0), BankAfter(p, clock, Send(Act(rank, 0)), 1, m1), ss)
  {
    var e := Write(g.policy, rank, 0);
    ScheduleOne(g, rank, 0);
    if FullRun(p, g, ins).Running? {
      TakeCycle(p, g, FullRun(p, g, ins).state, rank, 0, [ActFor(e), e]);
      assert [ActFor(e), e][1..] == [e];
    }
    Extend(p, g, ins, Do([], Take(rank, g.Lane(0), 0)), Send(Act(rank, 0)), Both(g, rank), Rest(g, rank), clock, m0, m1, ss);
  }

  /** A cycle without a command. */
  lemma Idle(p: Timing, g: Shape, ins: seq<Input>, queues: Queues, clock: nat, m0: BankState, m1: BankState, ss: seq<Sent>)
    requires p.Sane() && p.tCMD == 1 && Follows(p, g, ins, queues, clock, m0, m1, ss)
    requires ss == [] || clock < ss[0].at + p.WL() + p.Burst()
    ensures Follows(p, g, ins + [Do([], Wait)], queues, clock + 1, Tick(p, m0), Tick(p, m1), ss)
  {
    if FullRun(p, g, ins).Running? {
      IdleCycle(p, g, FullRun(p, g, ins).state, queues);
    }
    Extend(p, g, ins, Do([], Wait), Nothing, queues, queues, clock, m0, m1, ss);
  }

  lemma ActOpens(p: Timing, t: nat, rank: nat, i: nat)
    requires p.Sane()
    ensures BankAfter(p, t, Send(Act(rank, 0)), i, FRESH_BANK) == if i == rank then Opened(p, t, rank) else FRESH_BANK
    ensures Issuable(t, Act(rank, 0), Tick(p, FRESH_BANK))
  {
  }

  /** Rank 0 is opened at cycle 1. */
  lemma FirstAct(p: Timing, g: Shape, total: nat) returns (ins: seq<Input>)
    requires p.Sane() && p.tCMD == 1 && TwoRanks(g)
    ensures Goes(p, g, total, ins, 1, Rest(g, 0), 2, Opened(p, 1, 0), FRESH_BANK, [])
  {
    var before := Begun(p, g, total);
    ChosenAct(p, g, total, before, 0, 0, 1, FRESH_BANK, FRESH_BANK, []);
    ActOpens(p, 1, 0, 0);
    ActOpens(p, 1, 0, 1);
    TakeAct(p, g, before, 0, 1, FRESH_BANK, FRESH_BANK, []);
    ins := before + [Do([], Take(0, g.Lane(0), 0))];
  }

  /** Rank 0 was opened at cycle 1 and nothing else has happened, before cycle n. */
  lemma {:induction false} FirstOpen(p: Timing, g: Shape, total: nat, n: nat) returns (ins: seq<Input>)
    requires p.Sane() && p.tCMD == 1 && TwoRanks(g) && total > 0 && 2 <= n <= First(p)
    ensures Goes(p, g, total, ins, 1, Rest(g, 0), n, Opened(p, 1, 0), FRESH_BANK, [])
  {
    if n == 2 {
      ins := FirstAct(p, g, total);
    } else {
      var before := FirstOpen(p, g, total, n - 1);
      OpenedIs(p, 1, 0);
      ChosenWait(p, g, total, before, 1, 0, n - 1, Opened(p, 1, 0), FRESH_BANK, []);
      Idle(p, g, before, Rest(g, 0), n - 1, Opened(p, 1, 0), FRESH_BANK, []);
      ins := before + [Do([], Wait)];
    }
  }

  /** With open pages, the rank just written is held for its write recovery. */
  lemma WrittenIsLate(p: Timing, g: Shape, t: nat, rank: nat, m: BankState)
    requires p.Sane() && m.countdown == 0 && m.status.RowActive?
    ensures Late(g.policy, BankAfter(p, t, Send(Wr(g.policy, rank)), rank, m), t + p.WL() + p.Burst())
  {
  }

  lemma StaysLate(p: Timing, policy: Policy, t: nat, pop: Pop, rank: nat, m: BankState, until: int)
    requires p.Sane() && Late(policy, m, until)
    requires pop.Send? ==> pop.command.rank != rank && (pop.command.kind.ACTIVATE? || IsWrite(pop.command))
    ensures Late(policy, BankAfter(p, t, pop, rank, m), until)
  {
  }

  /** Until when the row of the first write stays open. */
  function Until(p: Timing): int {
    First(p) + p.WL() + p.Burst()
  }

  /** Rank 0 is written as soon as possible; the second transaction arrives. */
  lemma FirstWritten(p: Timing, g: Shape, total: nat) returns (ins: seq<Input>, m0: BankState)
    requires p.Sane() && p.tCMD == 1 && TwoRanks(g) && total > 0
    ensures Goes(p, g, total, ins, 1, Both(g, 1), First(p) + 1, m0, FRESH_BANK, [Sent(Wr(g.policy, 0), First(p))])
    ensures Late(g.policy, m0, Until(p))
  {
    var t, a, pop := First(p), Opened(p, 1, 0), Send(Wr(g.policy, 0));
    var before := FirstOpen(p, g, total, t);
    OpenedIs(p, 1, 0);
    ChosenWrite(p, g, total, before, [Write(g.policy, 1, 0)], 1, 0, t, a, FRESH_BANK, []);
    WriteFirst(p, g, before, a);
    WrittenIsLate(p, g, t, 0, a);
    ins, m0 := before + [Do([Write(g.policy, 1, 0)], Take(0, g.Lane(0), 0))], BankAfter(p, t, pop, 0, a);
  }

  lemma WriteIsPermitted(p: Timing, policy: Policy, rank: nat, t: int, m0: BankState, m1: BankState)
    requires p.Sane() && rank <= 1
    requires var m := if rank == 0 then m0 else m1; Opens(m, m.nextWrite) && m.nextWrite <= t
    ensures Permitted(p, policy, t, Send(Wr(policy, rank)), m0, m1)
  {
  }

  lemma WriteFirst(p: Timing, g: Shape, before: seq<Input>, a: BankState)
    requires p.Sane() && p.tCMD == 1 && TwoRanks(g) && Opens(a, a.nextWrite) && a.nextWrite <= First(p)
    requires Follows(p, g, before, Rest(g, 0), First(p), a, FRESH_BANK, [])
    ensures Follows(p, g, before + [Do([Write(g.policy, 1, 0)], Take(0, g.Lane(0), 0))], Both(g, 1), First(p) + 1,
                    BankAfter(p, First(p), Send(Wr(g.policy, 0)), 0, a), FRESH_BANK, [Sent(Wr(g.policy, 0), First(p))])
  {
    var t, pop := First(p), Send(Wr(g.policy, 0));
    var input := Do([Write(g.policy, 1, 0)], Take(0, g.Lane(0), 0));
    if FullRun(p, g, before).Running? {
      TakeAndArrive(p, g, FullRun(p, g, before).state, 0, 0, Write(g.policy, 0, 0), 1, 0);
    }
    WriteIsPermitted(p, g.policy, 0, t, a, FRESH_BANK);
    Extend(p, g, before, input, pop, Rest(g, 0), Both(g, 1), t, a, FRESH_BANK, []);
    assert [] + [Sent(Wr(g.policy, 0), t)] == [Sent(Wr(g.policy, 0), t)];
  }

  /** Rank 1 is opened in the next cycle. */
  lemma SecondOpen(p: Timing, g: Shape, total: nat) returns (ins: seq<Input>, m0: BankState)
    requires p.Sane() && p.tCMD == 1 && TwoRanks(g) && total > 0
    ensures Goes(p, g, total, ins, 2, Rest(g, 1), First(p) + 2, m0, Opened(p, First(p) + 1, 1), [Sent(Wr(g.policy, 0), First(p))])
    ensures Late(g.policy, m0, Until(p))
  {
    var t := First(p) + 1;
    var before, b := FirstWritten(p, g, total);
    ChosenAct(p, g, total, before, 1, 1, t, b, FRESH_BANK, [Sent(Wr(g.policy, 0), First(p))]);
    TakeAct(p, g, before, 1, t, b, FRESH_BANK, [Sent(Wr(g.policy, 0), First(p))]);
    StaysLate(p, g.policy, t, Send(Act(1, 0)), 0, b, Until(p));
    ins, m0 := before + [Do([], Take(1, g.Lane(0), 0))], BankAfter(p, t, Send(Act(1, 0)), 0, b);
  }

  /** ... and k cycles have passed since. */
  lemma {:induction false} SecondReady(p: Timing, g: Shape, total: nat, k: nat) returns (ins: seq<Input>, m0: BankState)
    requires p.Sane() && p.tCMD == 1 && TwoRanks(g) && total > 0 && 1 <= k <= Gap(p) && Gap(p) + 1 < p.Burst()
    ensures Goes(p, g, total, ins, 2, Rest(g, 1), First(p) + 1 + k, m0, Opened(p, First(p) + 1, 1), [Sent(Wr(g.policy, 0), First(p))])
    ensures Late(g.policy, m0, Until(p))
  {
    if k == 1 {
      ins, m0 := SecondOpen(p, g, total);
    } else {
      var before, b := SecondReady(p, g, total, k - 1);
      var t := First(p) + k;
      OpenedIs(p, First(p) + 1, 1);
      ChosenWait(p, g, total, before, 2, 1, t, b, Opened(p, First(p) + 1, 1), [Sent(Wr(g.policy, 0), First(p))]);
      Idle(p, g, before, Rest(g, 1), t, b, Opened(p, First(p) + 1, 1), [Sent(Wr(g.policy, 0), First(p))]);
      StaysLate(p, g.policy, t, Nothing, 0, b, Until(p));
      ins, m0 := before + [Do([], Wait)], Tick(p, b);
    }
  }

  /** Both writes are outstanding. */
  lemma SecondWritten(p: Timing, g: Shape, total: nat) returns (ins: seq<Input>, m0: BankState, m1: BankState)
    requires p.Sane() && p.tCMD == 1 && TwoRanks(g) && total > 0 && Gap(p) + 1 < p.Burst()
    ensures Goes(p, g, total, ins, 2, Only(g, 1, 0, []), Second(p) + 1, m0, m1,
                 [Sent(Wr(g.policy, 0), First(p)), Sent(Wr(g.policy, 1), Second(p))])
    ensures Late(g.policy, m0, Until(p)) && Late(g.policy, m1, Until(p))
  {
    var t, c, pop := Second(p), Opened(p, First(p) + 1, 1), Send(Wr(g.policy, 1));
    var before, b := SecondReady(p, g, total, Gap(p));
    OpenedIs(p, First(p) + 1, 1);
    ChosenWrite(p, g, total, before, [], 2, 1, t, b, c, [Sent(Wr(g.policy, 0), First(p))]);
    WriteSecond(p, g, before, b, c);
    WrittenIsLate(p, g, t, 1, c);
    StaysLate(p, g.policy, t, pop, 0, b, Until(p));
    ins, m0, m1 := before + [Do([], Take(1, g.Lane(0), 0))], BankAfter(p, t, pop, 0, b), BankAfter(p, t, pop, 1, c);
  }

  lemma WriteSecond(p: Timing, g: Shape, before: seq<Input>, b: BankState, c: BankState)
    requires p.Sane() && p.tCMD == 1 && TwoRanks(g) && Gap(p) + 1 < p.Burst() && Opens(c, c.nextWrite) && c.nextWrite <= Second(p)
    requires Follows(p, g, before, Rest(g, 1), Second(p), b, c, [Sent(Wr(g.policy, 0), First(p))])
    ensures var pop := Send(Wr(g.policy, 1));
            Follows(p, g, before + [Do([], Take(1, g.Lane(0), 0))], Only(g, 1, 0, []), Second(p) + 1,
                    BankAfter(p, Second(p), pop, 0, b), BankAfter(p, Second(p), pop, 1, c),
                    [Sent(Wr(g.policy, 0), First(p)), Sent(Wr(g.policy, 1), Second(p))])
  {
    WriteIsPermitted(p, g.policy, 1, Second(p), b, c);
    TakeWrite(p, g, before, 1, Second(p), b, c, [Sent(Wr(g.policy, 0), First(p))]);
    assert [Sent(Wr(g.policy, 0), First(p))] + [Sent(Wr(g.policy, 1), Second(p))]
        == [Sent(Wr(g.policy, 0), First(p)), Sent(Wr(g.policy, 1), Second(p))];
  }

  /** The write of a rank's transaction. */
  lemma TakeWrite(p: Timing, g: Shape, ins: seq<Input>, rank: nat, clock: nat, m0: BankState, m1: BankState, ss: seq<Sent>)
    requires p.Sane() && p.tCMD == 1 && TwoRanks(g) && rank <= 1 && Follows(p, g, ins, Rest(g, rank), clock, m0, m1, ss)
    requires Permitted(p, g.policy, clock, Send(Wr(g.policy, rank)), m0, m1)
    requires ss == [] || clock < ss[0].at + p.WL() + p.Burst()
    ensures var pop := Send(Wr(g.policy, rank));
            Follows(p, g, ins + [Do([], Take(rank, g.Lane(0), 0))], Only(g, rank, 0, []), clock + 1,
                    BankAfter(p, clock, pop, 0, m0), BankAfter(p, clock, pop, 1, m1), AfterIssue(clock, ss, pop))
  {
    if FullRun(p, g, ins).Running? {
      TakeCycle(p, g, FullRun(p, g, ins).state, rank, 0, [Write(g.policy, rank, 0)]);
      assert [Write(g.policy, rank, 0)][1..] == [];
    }
    Extend(p, g, ins, Do([], Take(rank, g.Lane(0), 0)), Send(Wr(g.policy, rank)), Rest(g, rank), Only(g, rank, 0, []), clock, m0, m1, ss);
  }

  /** ... and k cycles have passed since the second. */
  lemma {:induction false} BothSent(p: Timing, g: Shape, total: nat, k: nat) returns (ins: seq<Input>, m0: BankState, m1: BankState)
    requires p.Sane() && p.tCMD == 1 && TwoRanks(g) && total > 0 && 1 <= k <= p.WL() && Gap(p) + 1 < p.Burst()
    ensures Goes(p, g, total, ins, 2, Only(g, 1, 0, []), Second(p) + k, m0, m1,
                 [Sent(Wr(g.policy, 0), First(p)), Sent(Wr(g.policy, 1), Second(p))])
    ensures Late(g.policy, m0, Until(p)) && Late(g.policy, m1, Until(p))
  {
    if k == 1 {
      ins, m0, m1 := SecondWritten(p, g, total);
    } else {
      var ss := [Sent(Wr(g.policy, 0), First(p)), Sent(Wr(g.policy, 1), Second(p))];
      var before, b, c := BothSent(p, g, total, k - 1);
      var t := Second(p) + k - 1;
      ChosenRest(p, g, total, before, [], 2, 1, t, b, c, ss);
      Idle(p, g, before, Only(g, 1, 0, []), t, b, c, ss);
      StaysLate(p, g.policy, t, Nothing, 0, b, Until(p));
      StaysLate(p, g.policy, t, Nothing, 1, c, Until(p));
      ins, m0, m1 := before + [Do([], Wait)], Tick(p, b), Tick(p, c);
    }
  }

  /** Of two outstanding writes, the first is on the bus once its latency is over. */
  lemma BusOrQueue(p: Timing, t: int, io: Data, first: Sent, second: Sent)
    requires p.Sane() && WritesOnTime(p, t, io) && Outstanding(io) == [first, second]
    ensures io.bus.Quiet? ==> first.at + p.WL() > t
    ensures io.bus.Transfer? ==>
              && io.bus.write.issuedAt == first.at
              && io.writes != [] && io.writes[0].issuedAt == second.at
  {
    if io.bus.Quiet? {
      assert Outstanding(io)[0] == SentOf(io.writes)[0];
    } else {
      assert Outstanding(io)[0] == OnDataBus(io.bus)[0];
      assert Outstanding(io)[1] == SentOf(io.writes)[0];
    }
  }

  /** When the second write's latency is over, the first is still on the bus. */
  lemma Collide(p: Timing, policy: Policy, s: System, clock: int, first: Sent, second: Sent)
    requires p.Sane() && p.tCMD == 1 && SystemInv(p, policy, s) && s.ch.clock == clock
    requires Outstanding(s.io) == [first, second]
    requires clock == second.at + p.WL() && first.at + 1 < second.at < first.at + p.Burst()
    ensures SystemCycle(p, policy, s, Decision(Nothing, STAY)) == Crashed(DataBusCollision)
  {
    var io2 := Arrival(p, s.ch.clock, UpdateRanks(p, s.ch.clock, s.io), s.ch.bus);
    assert WritesOnTime(p, clock - 1, s.io);
    BusOrQueue(p, clock - 1, s.io, first, second);
    assert io2.bus == s.io.bus && io2.writes == s.io.writes;
    assert WriteSend(p, DataDeliver(io2)) == Crashed(DataBusCollision);
    DeliverSettles(p, policy, s.ch);
  }

  /** With an unsafe bus, two transactions make two writes collide. */
  lemma SomeRunCollides(p: Timing, g: Shape, total: nat) returns (ins: seq<Input>)
    requires p.Sane() && p.tCMD == 1 && TwoRanks(g) && total > 0 && !BusSafe(p, g.numRanks)
    ensures IsScheduled(p, g, total, ins, Never(|ins|)) && NoMoves(ins)
    ensures FullRun(p, g, ins) == Crashed(DataBusCollision)
  {
    var ss := [Sent(Wr(g.policy, 0), First(p)), Sent(Wr(g.policy, 1), Second(p))];
    var before, m0, m1 := BothSent(p, g, total, p.WL());
    ChosenRest(p, g, total, before, [], 2, 1, Second(p) + p.WL(), m0, m1, ss);
    LastInput(p, g, total, before, Wait, PAIR, 2);
    Collides(p, g, before, m0, m1);
    ins := before + [Do([], Wait)];
  }

  lemma Collides(p: Timing, g: Shape, before: seq<Input>, m0: BankState, m1: BankState)
    requires p.Sane() && p.tCMD == 1 && TwoRanks(g) && !BusSafe(p, g.numRanks)
    requires Follows(p, g, before, Only(g, 1, 0, []), Second(p) + p.WL(), m0, m1,
                     [Sent(Wr(g.policy, 0), First(p)), Sent(Wr(g.policy, 1), Second(p))])
    ensures FullRun(p, g, before + [Do([], Wait)]) == Crashed(DataBusCollision)
  {
    RunSnoc(p, g, before, Do([], Wait));
    ArrivalOrder.RunKeepsFull(p, g, before);
    var o := FullRun(p, g, before);
    if o.Running? {
      IdleCycle(p, g, o.state, Only(g, 1, 0, []));
      Collide(p, g.policy, o.state.sys, Second(p) + p.WL(), Sent(Wr(g.policy, 0), First(p)), Sent(Wr(g.policy, 1), Second(p)));
    }
  }

  /** Exactly when no run fails: the scheduler has no run that does, and on a safe bus no choices
      whatever lead to it. */
  lemma CollisionIff(p: Timing, g: Shape, total: nat)
    requires p.Sane() && p.tCMD == 1 && Reaches(g, 0, 0) && total > 0
    ensures NeverFails(p, g, total) <==> BusSafe(p, g.numRanks)
  {
    if BusSafe(p, g.numRanks) {
      forall ins, due: seq<int> | |due| == |ins| ensures DoesNotFail(p, g, total, ins, due) {
        ArrivalOrder.NoControllerRunFails(p, g, ins);
      }
    } else {
      var ins := SomeRunCollides(p, g, total);
      assert !DoesNotFail(p, g, total, ins, Never(|ins|));
    }
  }

  ghost predicate NeverFails(p: Timing, g: Shape, total: nat)
    requires p.Sane()
  {
    forall ins, due: seq<int> :: |due| == |ins| ==> DoesNotFail(p, g, total, ins, due)
  }

  ghost predicate DoesNotFail(p: Timing, g: Shape, total: nat, ins: seq<Input>, due: seq<int>)
    requires p.Sane() && |due| == |ins|
  {
    IsScheduled(p, g, total, ins, due) ==> !FullRun(p, g, ins).Crashed?
  }
}
