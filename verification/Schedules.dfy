/** Building blocks of concrete runs: queues that hold one transaction, and the cycles on them. */
module Schedules {
  import opened RowStore
  import opened Packets
  import opened BankTiming
  import opened Protocol
  import opened DataPath
  import opened CommandQueues
  import opened Controller
  import opened OpenRows
  import opened ScheduledRuns
  import QueueOrder
  import SchedulerInRun
  import Scheduler

  /** A write transaction to the first cell of a bank, as its column access. */
  function Write(policy: Policy, r: nat, b: nat): Packet {
    Packet(Command(if policy.OpenPage? then WRITE else WRITE_P, r, b, 0, 0, Tracer), 0)
  }

  function Act(r: nat, b: nat): Command {
    Command(ACTIVATE, r, b, 0, 0, Tracer)
  }

  /** Bank (r, b) exists, and its queue takes a transaction. */
  ghost predicate Reaches(g: Shape, r: nat, b: nat) {
    r < g.numRanks && b < g.numBanks && g.queueDepth >= 2 && g.transactionDepth >= 1
  }

  /** All queues are empty but that of bank (r, b), which holds q. */
  function Only(g: Shape, r: nat, b: nat, q: seq<Packet>): Queues {
    var queues := FullStart(g).queues;
    if InQueues(queues, r, g.Lane(b)) then With(queues, r, g.Lane(b), q) else queues
  }

  /** The input of a cycle without power moves. */
  function Do(arrivals: seq<Packet>, choice: Choice): Input {
    Input(arrivals, choice, STAY)
  }

  lemma OnlyNothing(g: Shape, r: nat, b: nat)
    requires Reaches(g, r, b)
    ensures Only(g, r, b, []) == FullStart(g).queues
  {
    var queues := FullStart(g).queues;
    assert queues[r][g.Lane(b) := []] == queues[r];
    assert queues[r := queues[r]] == queues;
  }

  lemma TakeFirst(g: Shape, r: nat, b: nat, q: seq<Packet>)
    requires Reaches(g, r, b) && q != []
    ensures var queues, take := Only(g, r, b, q), Take(r, g.Lane(b), 0);
            && Legal(g, queues, take) && PopOf(queues, take) == Send(q[0].command)
            && After(g.policy, queues, take) == Only(g, r, b, q[1..])
  {
    var queues, x := FullStart(g).queues, g.Lane(b);
    assert With(queues, r, x, q)[r][x] == q;
    assert q[..0] + q[1..] == q[1..];
    assert queues[r][x := q][x := q[1..]] == queues[r][x := q[1..]];
    assert With(With(queues, r, x, q), r, x, q[1..]) == With(queues, r, x, q[1..]);
  }

  lemma ScheduleOne(g: Shape, r: nat, b: nat)
    requires Reaches(g, r, b)
    ensures var e := Write(g.policy, r, b);
            ValidArrival(g, e) && ActFor(e).command == Act(r, b)
            && Schedule(g, FullStart(g).queues, [e]) == Running((Only(g, r, b, [ActFor(e), e]), []))
  {
    var e, queues, x := Write(g.policy, r, b), FullStart(g).queues, g.Lane(b);
    assert FirstWithRoom(g, queues, [e]) == 0;
    var q1 := With(queues, r, x, [ActFor(e)]);
    assert [] + [ActFor(e)] == [ActFor(e)] && [ActFor(e)] + [e] == [ActFor(e), e];
    assert q1[r][x] == [ActFor(e)];
    assert queues[r][x := [ActFor(e)]][x := [ActFor(e), e]] == queues[r][x := [ActFor(e), e]];
    assert With(q1, r, x, [ActFor(e), e]) == With(queues, r, x, [ActFor(e), e]);
    assert RemoveAt([e], 0) == [];
  }

  // ---------- cycles of the controller ----------

  /** The run has reached a state with these queues and an empty transaction queue. */
  ghost predicate At(o: Outcome<Full>, queues: Queues) {
    o.Running? && o.state.queues == queues && o.state.waiting == []
  }

  /** The cycle does what the channel does with this command, and leaves these queues. */
  ghost predicate Moves(p: Timing, g: Shape, f: Full, input: Input, pop: Pop, queues: Queues)
    requires p.Sane()
  {
    var o, c := FullCycle(p, g, f, input), SystemCycle(p, g.policy, f.sys, Decision(pop, STAY));
    if c.Running? then At(o, queues) && o.state.sys == c.state else o == c.PropagateFailure<Full>()
  }

  lemma IdleCycle(p: Timing, g: Shape, f: Full, queues: Queues)
    requires p.Sane() && At(Running(f), queues)
    ensures Moves(p, g, f, Do([], Wait), Nothing, queues)
  {
    assert f.waiting + [] == f.waiting;
  }

  lemma ArrivalCycle(p: Timing, g: Shape, f: Full, r: nat, b: nat)
    requires p.Sane() && Reaches(g, r, b) && At(Running(f), FullStart(g).queues)
    ensures var e := Write(g.policy, r, b);
            Moves(p, g, f, Do([e], Wait), Nothing, Only(g, r, b, [ActFor(e), e]))
  {
    ScheduleOne(g, r, b);
    assert [] + [Write(g.policy, r, b)] == [Write(g.policy, r, b)];
  }

  lemma TakeCycle(p: Timing, g: Shape, f: Full, r: nat, b: nat, q: seq<Packet>)
    requires p.Sane() && Reaches(g, r, b) && q != [] && At(Running(f), Only(g, r, b, q))
    ensures Moves(p, g, f, Do([], Take(r, g.Lane(b), 0)), Send(q[0].command), Only(g, r, b, q[1..]))
  {
    TakeFirst(g, r, b, q);
    assert f.waiting + [] == f.waiting;
  }

  /** The last command of bank (r, b) leaves as a transaction for bank (s, c) arrives. */
  lemma TakeAndArrive(p: Timing, g: Shape, f: Full, r: nat, b: nat, x: Packet, s: nat, c: nat)
    requires p.Sane() && Reaches(g, r, b) && Reaches(g, s, c) && At(Running(f), Only(g, r, b, [x]))
    ensures var e := Write(g.policy, s, c);
            Moves(p, g, f, Do([e], Take(r, g.Lane(b), 0)), Send(x.command), Only(g, s, c, [ActFor(e), e]))
  {
    TakeFirst(g, r, b, [x]);
    assert [x][1..] == [];
    OnlyNothing(g, r, b);
    ScheduleOne(g, s, c);
    assert [] + [Write(g.policy, s, c)] == [Write(g.policy, s, c)];
  }

  lemma RunSnoc(p: Timing, g: Shape, ins: seq<Input>, input: Input)
    requires p.Sane()
    ensures var o := FullRun(p, g, ins);
            FullRun(p, g, ins + [input]) == if o.Running? then FullCycle(p, g, o.state, input) else o
  {
  }

  // ---------- runs that the scheduler may choose ----------

  /** No rank ever waits for a refresh. */
  function Never(n: nat): seq<int> {
    seq(n, _ => -1)
  }

  /** A run of the scheduler without refreshes and power moves, in which only these banks were
      addressed, no row was hit twice and no rank has more than k activates in its window. */
  ghost predicate Calm(p: Timing, g: Shape, total: nat, ins: seq<Input>, banks: set<(nat, nat)>, k: nat)
    requires p.Sane()
  {
    && IsScheduled(p, g, total, ins, Never(|ins|))
    && RowHits(p, g, ins) == Scheduler.NoAccesses(g)
    && OnlyTo(Decisions(p, g, ins), banks)
    && FewActs(p, g, ins, k)
    && NoMoves(ins)
  }

  ghost predicate NoMoves(ins: seq<Input>) {
    forall i :: 0 <= i < |ins| ==> ins[i].power == STAY
  }

  ghost predicate FewActs(p: Timing, g: Shape, ins: seq<Input>, k: nat)
    requires p.Sane()
  {
    forall r :: 0 <= r < g.numRanks ==> |Counters(p, g, ins)[r]| <= k
  }

  lemma CalmStart(p: Timing, g: Shape, total: nat, banks: set<(nat, nat)>)
    requires p.Sane()
    ensures Calm(p, g, total, [], banks, 0)
  {
    forall r | 0 <= r < g.numRanks ensures |Counters(p, g, [])[r]| <= 0 {
      assert ActsTo([], r) == [];
    }
  }

  /** The decision of a further input. */
  ghost function DecisionOf(p: Timing, g: Shape, ins: seq<Input>, input: Input): Decision
    requires p.Sane()
  {
    var o := FullRun(p, g, ins);
    Decision(if o.Running? then PopOf(o.state.queues, input.choice) else Nothing, input.power)
  }

  lemma DecisionsMore(p: Timing, g: Shape, ins: seq<Input>, input: Input)
    requires p.Sane()
    ensures Decisions(p, g, ins + [input]) == Decisions(p, g, ins) + [DecisionOf(p, g, ins, input)]
  {
    assert (ins + [input])[..|ins|] == ins;
  }

  lemma FewActsMore(p: Timing, g: Shape, ins: seq<Input>, input: Input, k: nat)
    requires p.Sane() && FewActs(p, g, ins, k)
    ensures FewActs(p, g, ins + [input], k + 1)
    ensures !(DecisionOf(p, g, ins, input).pop.Send? && DecisionOf(p, g, ins, input).pop.command.kind.ACTIVATE?) ==>
              FewActs(p, g, ins + [input], k)
  {
    DecisionsMore(p, g, ins, input);
    var ds, d := Decisions(p, g, ins), DecisionOf(p, g, ins, input);
    forall r | 0 <= r < g.numRanks
      ensures |Counters(p, g, ins + [input])[r]| <= |Counters(p, g, ins)[r]| + (if IsActTo(d.pop, r) then 1 else 0)
    {
      var wants := ActsTo(ds + [d], r);
      assert wants[..|ds|] == ActsTo(ds, r);
    }
  }

  /** The choices of these runs: nothing, or the front of a queue. */
  predicate FrontOrNothing(choice: Choice) {
    choice.Wait? || (choice.Take? && choice.i == 0)
  }

  lemma HitsMore(p: Timing, g: Shape, ins: seq<Input>, input: Input)
    requires p.Sane() && FrontOrNothing(input.choice)
    ensures RowHits(p, g, ins + [input]) == RowHits(p, g, ins)
  {
    assert (ins + [input])[..|ins|] == ins;
  }

  /** In a calm run no rank sleeps, so none has to be woken up. */
  lemma CalmPower(p: Timing, g: Shape, total: nat, ins: seq<Input>, input: Input, banks: set<(nat, nat)>, k: nat)
    requires p.Sane() && Calm(p, g, total, ins, banks, k) && Narrow(DecisionOf(p, g, ins, input), banks)
    ensures MayPower(p, g, ins, -1, input)
  {
    var o := FullRun(p, g, ins);
    if o.Running? && Deliver(p, TickAll(p, o.state.sys.ch)).Running? {
      var ch1 := Deliver(p, TickAll(p, o.state.sys.ch)).state;
      CalmRests(p, g, total, ins, banks, k, o.state, ch1);
      var c2 := PopPhase(p, g.policy, ch1, PopOf(o.state.queues, input.choice));
      if c2.Running? {
        RestPopped(p, g.policy, ch1, PopOf(o.state.queues, input.choice), c2.state, banks);
      }
    }
  }

  lemma CalmRests(p: Timing, g: Shape, total: nat, ins: seq<Input>, banks: set<(nat, nat)>, k: nat, f: Full, ch1: Channel)
    requires p.Sane() && Calm(p, g, total, ins, banks, k) && SchedulerInRun.Asked(p, g, ins, f, ch1)
    ensures RestElsewhere(ch1, banks)
  {
    RunIsSystemRun(p, g, ins);
    RunRests(p, g.policy, g.numRanks, g.numBanks, Decisions(p, g, ins), banks);
    RestDelivered(p, f.sys.ch, ch1, banks);
  }

  lemma CalmMore(p: Timing, g: Shape, total: nat, ins: seq<Input>, input: Input, banks: set<(nat, nat)>, k: nat)
    requires p.Sane() && Calm(p, g, total, ins, banks, k) && FrontOrNothing(input.choice)
    requires MayChoose(p, g, total, ins, -1, input.choice) && Narrow(DecisionOf(p, g, ins, input), banks)
    ensures Calm(p, g, total, ins + [input], banks, k + 1)
    ensures !(DecisionOf(p, g, ins, input).pop.Send? && DecisionOf(p, g, ins, input).pop.command.kind.ACTIVATE?) ==>
              Calm(p, g, total, ins + [input], banks, k)
  {
    CalmPower(p, g, total, ins, input, banks, k);
    ScheduledMore(p, g, total, ins, Never(|ins|), input, -1);
    assert Never(|ins|) + [-1] == Never(|ins + [input]|);
    HitsMore(p, g, ins, input);
    DecisionsMore(p, g, ins, input);
    FewActsMore(p, g, ins, input, k);
  }

  lemma CalmWait(p: Timing, g: Shape, total: nat, ins: seq<Input>, arrivals: seq<Packet>, banks: set<(nat, nat)>, k: nat)
    requires p.Sane() && Calm(p, g, total, ins, banks, k) && MayChoose(p, g, total, ins, -1, Wait)
    ensures Calm(p, g, total, ins + [Do(arrivals, Wait)], banks, k)
  {
    CalmMore(p, g, total, ins, Do(arrivals, Wait), banks, k);
  }

  lemma CalmTake(p: Timing, g: Shape, total: nat, ins: seq<Input>, arrivals: seq<Packet>, banks: set<(nat, nat)>, k: nat,
                 r: nat, b: nat, q: seq<Packet>)
    requires p.Sane() && Reaches(g, r, b) && Calm(p, g, total, ins, banks, k) && (r, b) in banks
    requires q != [] && (FullRun(p, g, ins).Running? ==> At(FullRun(p, g, ins), Only(g, r, b, q)))
    requires MayChoose(p, g, total, ins, -1, Take(r, g.Lane(b), 0))
    requires q[0].command == Act(r, b) || q[0] == Write(g.policy, r, b)
    ensures Calm(p, g, total, ins + [Do(arrivals, Take(r, g.Lane(b), 0))], banks,
                 if q[0].command == Act(r, b) then k + 1 else k)
  {
    TakeFirst(g, r, b, q);
    CalmMore(p, g, total, ins, Do(arrivals, Take(r, g.Lane(b), 0)), banks, k);
  }

  lemma CalmOpen(p: Timing, g: Shape, total: nat, ins: seq<Input>, arrivals: seq<Packet>, banks: set<(nat, nat)>, k: nat,
                 r: nat, b: nat)
    requires p.Sane() && Reaches(g, r, b) && Calm(p, g, total, ins, banks, k) && (r, b) in banks
    requires var e, o := Write(g.policy, r, b), FullRun(p, g, ins); o.Running? ==> At(o, Only(g, r, b, [ActFor(e), e]))
    requires MayChoose(p, g, total, ins, -1, Take(r, g.Lane(b), 0))
    ensures Calm(p, g, total, ins + [Do(arrivals, Take(r, g.Lane(b), 0))], banks, k + 1)
  {
    var e := Write(g.policy, r, b);
    CalmTake(p, g, total, ins, arrivals, banks, k, r, b, [ActFor(e), e]);
  }

  lemma CalmWrite(p: Timing, g: Shape, total: nat, ins: seq<Input>, arrivals: seq<Packet>, banks: set<(nat, nat)>, k: nat,
                  r: nat, b: nat)
    requires p.Sane() && Reaches(g, r, b) && Calm(p, g, total, ins, banks, k) && (r, b) in banks
    requires var o := FullRun(p, g, ins); o.Running? ==> At(o, Only(g, r, b, [Write(g.policy, r, b)]))
    requires MayChoose(p, g, total, ins, -1, Take(r, g.Lane(b), 0))
    ensures Calm(p, g, total, ins + [Do(arrivals, Take(r, g.Lane(b), 0))], banks, k)
  {
    CalmTake(p, g, total, ins, arrivals, banks, k, r, b, [Write(g.policy, r, b)]);
  }

  lemma CalmWiden(p: Timing, g: Shape, total: nat, ins: seq<Input>, banks: set<(nat, nat)>, more: set<(nat, nat)>, k: nat)
    requires p.Sane() && Calm(p, g, total, ins, banks, k) && banks <= more
    ensures Calm(p, g, total, ins, more, k)
  {
    forall t | 0 <= t < |ins| ensures Narrow(Decisions(p, g, ins)[t], more) {
      assert Narrow(Decisions(p, g, ins)[t], banks);
    }
  }

  /** A last input to a calm run. */
  lemma LastInput(p: Timing, g: Shape, total: nat, ins: seq<Input>, choice: Choice, banks: set<(nat, nat)>, k: nat)
    requires p.Sane() && Calm(p, g, total, ins, banks, k) && MayChoose(p, g, total, ins, -1, choice)
    requires Narrow(DecisionOf(p, g, ins, Do([], choice)), banks)
    ensures var all := ins + [Do([], choice)]; IsScheduled(p, g, total, all, Never(|all|)) && NoMoves(all)
  {
    CalmPower(p, g, total, ins, Do([], choice), banks, k);
    ScheduledMore(p, g, total, ins, Never(|ins|), Do([], choice), -1);
    assert Never(|ins|) + [-1] == Never(|ins + [Do([], choice)]|);
  }

  // ---------- what the scheduler chooses on a single queue ----------

  lemma FineNone(g: Shape, mc: seq<BankState>, r: nat, b: nat)
    ensures QueueOrder.QueueOk(g, [], mc, r, g.Lane(b))
  {
  }

  lemma FineBoth(g: Shape, mc: seq<BankState>, r: nat, b: nat)
    requires Reaches(g, r, b)
    ensures var e := Write(g.policy, r, b); QueueOrder.QueueOk(g, [ActFor(e), e], mc, r, g.Lane(b))
  {
    var e := Write(g.policy, r, b);
    var q := [ActFor(e), e];
    assert PairedAt(q, 0) && PairedAt(q, 1);
    assert g.policy.ClosePage? ==> QueueOrder.LooseAt(q, mc, 0) && QueueOrder.LooseAt(q, mc, 1);
  }

  lemma FineRest(g: Shape, mc: seq<BankState>, r: nat, b: nat)
    requires Reaches(g, r, b) && (g.policy.ClosePage? ==> Open(mc, b))
    ensures QueueOrder.QueueOk(g, [Write(g.policy, r, b)], mc, r, g.Lane(b))
  {
    var q := [Write(g.policy, r, b)];
    assert PairedAt(q, 0);
    assert g.policy.ClosePage? ==> QueueOrder.LooseAt(q, mc, 0);
  }

  lemma OnlyFine(g: Shape, v: Scheduler.View, r: nat, b: nat, q: seq<Packet>)
    requires Reaches(g, r, b) && Scheduler.Covers(g, v) && QueueOrder.QueueOk(g, q, v.banks[r], r, g.Lane(b))
    ensures Scheduler.AllFine(g, v, Only(g, r, b, q))
  {
    var queues := Only(g, r, b, q);
    forall s: nat, x: nat | InQueues(queues, s, x) ensures Scheduler.Fine(g, v, queues[s][x], s, x) {
      if (s, x) != (r, g.Lane(b)) {
        assert queues[s][x] == [];
      }
    }
  }

  lemma ChoosesTake(g: Shape, v: Scheduler.View, r: nat, b: nat, q: seq<Packet>)
    requires Reaches(g, r, b) && Scheduler.Covers(g, v) && QueueOrder.QueueOk(g, q, v.banks[r], r, g.Lane(b)) && q != []
    requires q[0].command.rank == r && q[0].command.bank < g.numBanks && Scheduler.CanIssue(g, v, q[0].command)
    ensures Scheduler.Chooses(g, v, Only(g, r, b, q), -1, Take(r, g.Lane(b), 0))
  {
    OnlyFine(g, v, r, b, q);
    assert Only(g, r, b, q)[r][g.Lane(b)] == q;
    assert Scheduler.Takeable(g, v, q, r, g.Lane(b), 0);
  }

  lemma ChoosesWait(g: Shape, v: Scheduler.View, r: nat, b: nat, q: seq<Packet>)
    requires Reaches(g, r, b) && Scheduler.Covers(g, v) && QueueOrder.QueueOk(g, q, v.banks[r], r, g.Lane(b))
    requires Scheduler.NoneTakeable(g, v, q, r, g.Lane(b))
    requires g.policy.OpenPage? ==>
               Scheduler.AllFine(g, v, Only(g, r, b, q)) && Scheduler.NoneClosable(g, v, Only(g, r, b, q))
    ensures Scheduler.Chooses(g, v, Only(g, r, b, q), -1, Wait)
  {
    OnlyFine(g, v, r, b, q);
    var queues := Only(g, r, b, q);
    forall s: nat, x: nat | InQueues(queues, s, x) ensures Scheduler.Clear(g, v, queues, -1, s, x) {
      if (s, x) != (r, g.Lane(b)) {
        assert queues[s][x] == [];
      }
    }
  }

  /** A bank that no PRECHARGE may go to: its row is closed, was opened too recently, or is waited
      for. */
  ghost predicate StaysOpen(g: Shape, v: Scheduler.View, queues: Queues, s: nat, c: nat)
    requires Scheduler.Covers(g, v) && Scheduler.AllFine(g, v, queues) && s < g.numRanks && c < g.numBanks
  {
    var m, q := v.banks[s][c], queues[s][g.Lane(c)];
    || !m.status.RowActive? || v.clock < m.nextPrecharge
    || (v.accesses[s][c] != v.total && q != [] && q[0].command.bank == c && q[0].command.row == m.openRow)
  }

  lemma NoneCloses(g: Shape, v: Scheduler.View, queues: Queues)
    requires Scheduler.Covers(g, v) && Scheduler.AllFine(g, v, queues)
    requires forall s: nat, c: nat :: s < g.numRanks && c < g.numBanks ==> StaysOpen(g, v, queues, s, c)
    ensures Scheduler.NoneClosable(g, v, queues)
  {
    forall s: nat, c: nat | s < g.numRanks && c < g.numBanks ensures !Scheduler.Closable(g, v, queues, s, c) {
      assert StaysOpen(g, v, queues, s, c);
    }
  }

  // ---------- the view of a run ----------

  /** What the scheduler sees after these inputs. */
  ghost function ViewOf(p: Timing, g: Shape, total: nat, ins: seq<Input>, f: Full, ch1: Channel): Scheduler.View
    requires p.Sane()
  {
    Viewed(f.sys.ch.clock, ch1, Counters(p, g, ins), RowHits(p, g, ins), total)
  }

  /** In a calm run: its view covers all banks, few activates, no accesses, and the banks that were
      not addressed rest. */
  lemma CalmView(p: Timing, g: Shape, total: nat, ins: seq<Input>, banks: set<(nat, nat)>, k: nat, f: Full, ch1: Channel)
    requires p.Sane() && Calm(p, g, total, ins, banks, k) && SchedulerInRun.Asked(p, g, ins, f, ch1)
    ensures |ch1.ranks| == g.numRanks
    ensures var v := ViewOf(p, g, total, ins, f, ch1);
            && Scheduler.Covers(g, v)
            && (forall r :: 0 <= r < g.numRanks ==> v.activates[r] <= k)
            && v.accesses == Scheduler.NoAccesses(g)
    ensures RestElsewhere(ch1, banks)
  {
    RunIsSystemRun(p, g, ins);
    SchedulerInRun.RunSized(p, g.policy, g.numRanks, g.numBanks, Decisions(p, g, ins));
    SchedulerInRun.DeliverSized(p, f.sys.ch, ch1, g.numRanks, g.numBanks);
    CalmRests(p, g, total, ins, banks, k, f, ch1);
  }

  // ---------- the scheduler's choice in a calm run ----------

  /** A calm run whose scheduler is asked for a command. */
  ghost predicate Asks(p: Timing, g: Shape, total: nat, ins: seq<Input>, banks: set<(nat, nat)>, k: nat, queues: Queues,
                       f: Full, ch1: Channel)
    requires p.Sane()
  {
    Calm(p, g, total, ins, banks, k) && SchedulerInRun.Asked(p, g, ins, f, ch1) && f.queues == queues
  }

  predicate BankIs(ch1: Channel, r: nat, b: nat, m: BankState) {
    r < |ch1.ranks| && b < |ch1.ranks[r].mc| && ch1.ranks[r].mc[b] == m
  }

  /** With open pages: no PRECHARGE may go to these banks, which are closed or were used recently. */
  ghost predicate Held(policy: Policy, ch1: Channel, clock: int, banks: set<(nat, nat)>) {
    policy.OpenPage? ==>
      forall i: nat, j: nat :: i < |ch1.ranks| && j < |ch1.ranks[i].mc| && (i, j) in banks ==> HeldAt(ch1, clock, i, j)
  }

  predicate HeldAt(ch1: Channel, clock: int, i: nat, j: nat)
    requires i < |ch1.ranks| && j < |ch1.ranks[i].mc|
  {
    !ch1.ranks[i].mc[j].status.RowActive? || clock < ch1.ranks[i].mc[j].nextPrecharge
  }

  /** An ACTIVATE whose bank is closed and free is sent. */
  lemma MayOpen(p: Timing, g: Shape, total: nat, ins: seq<Input>, banks: set<(nat, nat)>, k: nat, f: Full, ch1: Channel,
                r: nat, b: nat, m: BankState)
    requires p.Sane() && Reaches(g, r, b) && k < 4 && BankIs(ch1, r, b, m)
    requires var e := Write(g.policy, r, b); Asks(p, g, total, ins, banks, k, Only(g, r, b, [ActFor(e), e]), f, ch1)
    requires m.status.Idle? && m.nextActivate <= f.sys.ch.clock
    ensures MayChoose(p, g, total, ins, -1, Take(r, g.Lane(b), 0))
  {
    CalmView(p, g, total, ins, banks, k, f, ch1);
    FineBoth(g, ch1.ranks[r].mc, r, b);
    var e := Write(g.policy, r, b);
    ChoosesTake(g, ViewOf(p, g, total, ins, f, ch1), r, b, [ActFor(e), e]);
  }

  /** A write whose row is open and ready is sent. */
  lemma MayWrite(p: Timing, g: Shape, total: nat, ins: seq<Input>, banks: set<(nat, nat)>, k: nat, f: Full, ch1: Channel,
                 r: nat, b: nat, m: BankState)
    requires p.Sane() && Reaches(g, r, b) && total > 0 && BankIs(ch1, r, b, m)
    requires Asks(p, g, total, ins, banks, k, Only(g, r, b, [Write(g.policy, r, b)]), f, ch1)
    requires m.status.RowActive? && m.lastCommand.ACTIVATE? && m.openRow == 0 && m.nextWrite <= f.sys.ch.clock
    ensures MayChoose(p, g, total, ins, -1, Take(r, g.Lane(b), 0))
  {
    CalmView(p, g, total, ins, banks, k, f, ch1);
    FineRest(g, ch1.ranks[r].mc, r, b);
    ChoosesTake(g, ViewOf(p, g, total, ins, f, ch1), r, b, [Write(g.policy, r, b)]);
  }

  /** With empty queues and no row to close, nothing is sent. */
  lemma MayRest(p: Timing, g: Shape, total: nat, ins: seq<Input>, banks: set<(nat, nat)>, k: nat, f: Full, ch1: Channel,
                r: nat, b: nat)
    requires p.Sane() && Reaches(g, r, b) && Asks(p, g, total, ins, banks, k, Only(g, r, b, []), f, ch1)
    requires Held(g.policy, ch1, f.sys.ch.clock, banks)
    ensures MayChoose(p, g, total, ins, -1, Wait)
  {
    CalmView(p, g, total, ins, banks, k, f, ch1);
    var v := ViewOf(p, g, total, ins, f, ch1);
    FineNone(g, ch1.ranks[r].mc, r, b);
    OnlyFine(g, v, r, b, []);
    if g.policy.OpenPage? {
      forall s: nat, c: nat | s < g.numRanks && c < g.numBanks ensures StaysOpen(g, v, Only(g, r, b, []), s, c) {
        assert HeldAt(ch1, f.sys.ch.clock, s, c) || Resting(ch1.ranks[s].mc[c]);
      }
      NoneCloses(g, v, Only(g, r, b, []));
    }
    ChoosesWait(g, v, r, b, []);
  }

  /** While the write to the open row has to wait, nothing is sent. */
  lemma MayIdle(p: Timing, g: Shape, total: nat, ins: seq<Input>, banks: set<(nat, nat)>, k: nat, f: Full, ch1: Channel,
                r: nat, b: nat, m: BankState)
    requires p.Sane() && Reaches(g, r, b) && total > 0 && BankIs(ch1, r, b, m)
    requires Asks(p, g, total, ins, banks, k, Only(g, r, b, [Write(g.policy, r, b)]), f, ch1)
    requires m.status.RowActive? && m.lastCommand.ACTIVATE? && m.openRow == 0 && f.sys.ch.clock < m.nextWrite
    requires Held(g.policy, ch1, f.sys.ch.clock, banks - {(r, b)})
    ensures MayChoose(p, g, total, ins, -1, Wait)
  {
    CalmView(p, g, total, ins, banks, k, f, ch1);
    var v, q := ViewOf(p, g, total, ins, f, ch1), [Write(g.policy, r, b)];
    FineRest(g, ch1.ranks[r].mc, r, b);
    OnlyFine(g, v, r, b, q);
    assert Only(g, r, b, q)[r][g.Lane(b)] == q;
    if g.policy.OpenPage? {
      forall s: nat, c: nat | s < g.numRanks && c < g.numBanks ensures StaysOpen(g, v, Only(g, r, b, q), s, c) {
        assert (s, c) == (r, b) || HeldAt(ch1, f.sys.ch.clock, s, c) || Resting(ch1.ranks[s].mc[c]);
      }
      NoneCloses(g, v, Only(g, r, b, q));
    }
    ChoosesWait(g, v, r, b, q);
  }
}
