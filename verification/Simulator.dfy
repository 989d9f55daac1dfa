/**
 The whole memory system, driven cycle by cycle: transactions arrive, the command queue of the
 scheduler chooses, the channel moves, a transaction is split into commands, and ranks are put
 to sleep or woken up (MemorySystem::update, MemoryController::update).
 */
module Simulator {
  import opened RowStore
  import opened Packets
  import opened MixedRadix
  import opened AddressMapping
  import Storage
  import opened BankTiming
  import opened Protocol
  import opened DataPath
  import opened ReadReturns
  import opened CommandQueues
  import opened Controller
  import Schedules
  import QueueOrder
  import ArrivalOrder
  import DataBusSafety
  import FlatMemory
  import PendingReads
  import SchedulerInRun
  import Progress
  import Refreshes
  import Completion
  import Scheduler
  import opened ScheduledRuns
  import RR = RoundRobin

  // ---------- one cycle ----------

  /** What comes from outside in a cycle: transactions, the rank that is due for a refresh (or
      -1), and the ranks that are not about to be refreshed. */
  datatype Event = Event(arrivals: seq<Storage.Op>, refresh: int, calm: nat -> bool)

  /** The ranks that may go to sleep: nothing is queued for them and no refresh waits or is near. */
  function Sleepy(queues: Queues, waits: int, calm: nat -> bool): nat -> bool {
    (i: nat) => IsEmpty(queues, i) && i != waits && calm(i)
  }

  function Moves(o: Outcome<Channel>, queues: Queues, waits: int, calm: nat -> bool): nat -> PowerMove {
    if o.Running? then (i: nat) => Move(o.state, i, Sleepy(queues, waits, calm)(i)) else STAY
  }

  /** The parameters fit together. */
  ghost predicate Setting(p: Timing, g: Shape, geo: Geometry) {
    p.Sane() && p.tCMD == 1 && geo.Valid() && g.numRanks == Pow2(geo.rankBits) && g.numBanks == Pow2(geo.bankBits)
  }

  lemma TranslatedIsValid(p: Timing, g: Shape, geo: Geometry, scheme: Scheme, op: Storage.Op)
    requires Setting(p, g, geo)
    ensures ValidArrival(g, FlatMemory.Translate(geo, scheme, g.policy, op))
  {
    var n := Index(geo, Word.Value(op.address));
    DecodeInRange(geo, scheme, n);
    assert Decode(geo, scheme, n).Get(RankField) < Pow2(geo.Width(RankField));
    assert Decode(geo, scheme, n).Get(BankField) < Pow2(geo.Width(BankField));
  }

  /** A cycle that is allowed, taken apart. */
  ghost predicate Parts(p: Timing, g: Shape, f: Full, input: Input, o: Outcome<Full>)
    requires p.Sane()
  {
    var c := SystemCycle(p, g.policy, f.sys, Decision(PopOf(f.queues, input.choice), input.power));
    var s := Schedule(g, After(g.policy, f.queues, input.choice), f.waiting + input.arrivals);
    if c.Running? then s.Running? && o.Running? && o.state.sys == c.state && o.state.queues == s.state.0 && o.state.waiting == s.state.1
    else c == Crashed(DataBusCollision) && o == Crashed(DataBusCollision)
  }

  lemma CycleParts(p: Timing, g: Shape, f: Full, input: Input)
    requires p.Sane() && p.tCMD == 1 && ArrivalOrder.FullInv(p, g, f) && Admissible(g, f, input)
    requires !FullCycle(p, g, f, input).NotAllowed?
    ensures Parts(p, g, f, input, FullCycle(p, g, f, input))
  {
    var c := SystemCycle(p, g.policy, f.sys, Decision(PopOf(f.queues, input.choice), input.power));
    if c.Running? {
      ArrivalOrder.CycleKeepsFull(p, g, f, input, c.state);
    } else {
      ArrivalOrder.OneMoreCycle(p, g, f, input);
    }
  }

  /** The controller at the end of a cycle, as one step of the run: the channel accepted the
      command and the power moves. */
  lemma StepIs(p: Timing, g: Shape, ins: seq<Input>, f: Full, ch1: Channel, input: Input, queues: Queues, waits: int)
    requires p.Sane() && p.tCMD == 1 && SchedulerInRun.Asked(p, g, ins, f, ch1) && Admissible(g, f, input)
    requires var pop := PopOf(f.queues, input.choice); pop.Send? ==> MayIssue(g.policy, ch1, pop.command)
    requires var o := PopPhase(p, g.policy, ch1, PopOf(f.queues, input.choice));
             o.Running? ==> MovesOk(o.state, queues, waits, input.power)
    ensures Parts(p, g, f, input, FullRun(p, g, ins + [input]))
  {
    var o2 := PopPhase(p, g.policy, ch1, PopOf(f.queues, input.choice));
    if o2.Running? {
      MovesAllowed(p, o2.state, queues, waits, o2.state, input.power, 0);
    }
    SchedulerInRun.ChoiceIsAccepted(p, g, ins, f, ch1, input);
    Schedules.RunSnoc(p, g, ins, input);
    ArrivalOrder.RunKeepsFull(p, g, ins);
    CycleParts(p, g, f, input);
  }

  // ---------- what every cycle keeps ----------

  /** The objects are a state of the run with these inputs. */
  ghost predicate Reached(p: Timing, g: Shape, ins: seq<Input>, sys: System, queues: Queues, waiting: seq<Packet>)
    requires p.Sane()
  {
    var o := FullRun(p, g, ins);
    o.Running? && o.state.sys == sys && o.state.queues == queues && o.state.waiting == waiting
  }

  /** The transactions accepted are those that arrived in the run. */
  ghost predicate Accepted(g: Shape, geo: Geometry, scheme: Scheme, chan: nat, ins: seq<Input>, ops: seq<Storage.Op>) {
    && FlatMemory.OnChannel(geo, scheme, chan, ops)
    && ArrivalOrder.Arrivals(ins) == FlatMemory.TranslateAll(geo, scheme, g.policy, ops)
  }

  ghost predicate Windows(p: Timing, g: Shape, ins: seq<Input>, counters: seq<seq<nat>>)
    requires p.Sane()
  {
    |counters| == g.numRanks
    && forall r :: 0 <= r < g.numRanks ==> WindowOk(p.tFAW, counters[r], Decisions(p, g, ins), r)
  }

  lemma AcceptedMore(g: Shape, geo: Geometry, scheme: Scheme, chan: nat, ins: seq<Input>, ops: seq<Storage.Op>,
                     input: Input, more: seq<Storage.Op>)
    requires Accepted(g, geo, scheme, chan, ins, ops) && FlatMemory.OnChannel(geo, scheme, chan, more)
    requires input.arrivals == FlatMemory.TranslateAll(geo, scheme, g.policy, more)
    ensures Accepted(g, geo, scheme, chan, ins + [input], ops + more)
  {
    assert (ins + [input])[..|ins|] == ins;
    FlatMemory.TranslateConcat(geo, scheme, g.policy, ops, more);
  }

  lemma WindowsStep(p: Timing, g: Shape, ins: seq<Input>, input: Input, f: Full, counters: seq<seq<nat>>, counters': seq<seq<nat>>)
    requires p.Sane() && FullRun(p, g, ins) == Running(f) && Windows(p, g, ins, counters)
    requires Scheduler.Counted(p.tFAW, counters, counters', PopOf(f.queues, input.choice))
    ensures Windows(p, g, ins + [input], counters')
  {
    var ds, d := Decisions(p, g, ins), Decision(PopOf(f.queues, input.choice), input.power);
    assert (ins + [input])[..|ins|] == ins;
    assert Decisions(p, g, ins + [input]) == ds + [d];
    forall r | 0 <= r < g.numRanks ensures WindowOk(p.tFAW, counters'[r], ds + [d], r) {
      WindowStep(p.tFAW, counters[r], counters'[r], ds, d, r);
    }
  }

  // ---------- the memory system ----------

  /** A transaction as the controller queues it. */
  method Translate(g: Shape, geo: Geometry, scheme: Scheme, op: Storage.Op) returns (e: Packet)
    requires geo.Valid()
    ensures e == FlatMemory.Translate(geo, scheme, g.policy, op)
  {
    var misaligned, c := Map(geo, scheme, op.address);
    var data := if op.WriteOp? then op.data else Tracer;
    e := Packet(Command(FlatMemory.KindOf(g.policy, op), c.rank, c.bank, c.row, c.column, data), Word.Value(op.address));
  }

  method TranslateAll(g: Shape, geo: Geometry, scheme: Scheme, ops: seq<Storage.Op>) returns (ps: seq<Packet>)
    requires geo.Valid()
    ensures ps == FlatMemory.TranslateAll(geo, scheme, g.policy, ops)
  {
    ps := [];
    for i := 0 to |ops|
      invariant |ps| == i && forall j :: 0 <= j < i ==> ps[j] == FlatMemory.Translate(geo, scheme, g.policy, ops[j])
    {
      var e := Translate(g, geo, scheme, ops[i]);
      ps := ps + [e];
    }
  }

  lemma MaySplit(p: Timing, g: Shape, ins: seq<Input>, f: Full, choice: Choice, arrivals: seq<Packet>)
    requires p.Sane() && p.tCMD == 1 && FullRun(p, g, ins) == Running(f) && Legal(g, f.queues, choice)
    requires QueueOrder.AllValid(g, arrivals)
    ensures QueueOrder.WithinDepth(g, After(g.policy, f.queues, choice)) && QueueOrder.AllValid(g, f.waiting + arrivals)
  {
    ArrivalOrder.RunKeepsFull(p, g, ins);
    QueueOrder.AfterWithinDepth(g, f.queues, f.sys.ch, choice);
  }

  /** The first transaction whose queue has room is split into an ACTIVATE and its access. */
  method ScheduleTransaction(queue: Scheduler.CommandQueue, waiting: seq<Packet>) returns (waiting': seq<Packet>)
    requires QueueOrder.WithinDepth(queue.g, queue.queues) && QueueOrder.AllValid(queue.g, waiting)
    modifies queue`queues
    ensures Schedule(queue.g, old(queue.queues), waiting) == Running((queue.queues, waiting'))
  {
    var i := 0;
    waiting' := waiting;
    while i < |waiting|
      invariant 0 <= i <= |waiting| && queue.queues == old(queue.queues)
      invariant forall j :: 0 <= j < i ==> !HasRoom(queue.g, queue.queues, waiting[j])
    {
      var room := queue.HasRoomFor(waiting[i]);
      if room {
        FirstIs(queue.g, queue.queues, waiting, i);
        QueueOrder.InRange(queue.g, queue.queues, waiting[i]);
        var ok := queue.Enqueue(ActFor(waiting[i]));
        ok := queue.Enqueue(waiting[i]);
        waiting' := RemoveAt(waiting, i);
        return;
      }
      i := i + 1;
    }
    FirstIs(queue.g, queue.queues, waiting, i);
  }

  lemma FirstIs(g: Shape, queues: Queues, waiting: seq<Packet>, i: nat)
    requires i <= |waiting| && (i < |waiting| ==> HasRoom(g, queues, waiting[i]))
    requires forall j :: 0 <= j < i ==> !HasRoom(g, queues, waiting[j])
    ensures FirstWithRoom(g, queues, waiting) == i
  {
  }

  /** All that every cycle keeps. */
  ghost predicate Consistent(p: Timing, g: Shape, geo: Geometry, scheme: Scheme, chan: nat, ins: seq<Input>, sys: System,
                             queues: Queues, waiting: seq<Packet>, ops: seq<Storage.Op>, counters: seq<seq<nat>>,
                             accesses: seq<seq<nat>>, total: nat)
    requires p.Sane()
  {
    && Shaped(g, accesses) && Reached(p, g, ins, sys, queues, waiting) && Accepted(g, geo, scheme, chan, ins, ops)
    && Windows(p, g, ins, counters)
  }

  lemma Begin(p: Timing, g: Shape, geo: Geometry, scheme: Scheme, chan: nat, total: nat)
    requires p.Sane()
    ensures Consistent(p, g, geo, scheme, chan, [], SystemStart(g.numRanks, g.numBanks), FullStart(g).queues, [], [],
                       seq(g.numRanks, _ => []), Scheduler.NoAccesses(g), total)
  {
    forall r | 0 <= r < g.numRanks ensures WindowOk(p.tFAW, [], Decisions(p, g, []), r) {
      assert ActsTo([], r) == [];
    }
  }

  /** What the scheduler saw and did in a cycle. */
  ghost predicate Saw(g: Shape, f: Full, ch1: Channel, choice: Choice, v: Scheduler.View, next: int) {
    && v.banks == SchedulerInRun.Banks(ch1) && |ch1.ranks| == g.numRanks && Shaped(g, v.accesses)
    && Scheduler.Chooses(g, v, f.queues, next, choice)
  }

  lemma CountShaped(g: Shape, queues: Queues, accesses: seq<seq<nat>>, choice: Choice)
    requires Shaped(g, accesses)
    ensures Shaped(g, Scheduler.Count(g.policy, queues, accesses, choice))
  {
  }

  lemma UpdateKeepsRun(p: Timing, g: Shape, ins: seq<Input>, input: Input, f: Full, ch1: Channel, sys': System,
                       v: Scheduler.View, next: int)
    requires p.Sane() && p.tCMD == 1 && SchedulerInRun.Asked(p, g, ins, f, ch1) && Admissible(g, f, input)
    requires Parts(p, g, f, input, FullRun(p, g, ins + [input])) && Saw(g, f, ch1, input.choice, v, next)
    requires SystemCycle(p, g.policy, f.sys, Decision(PopOf(f.queues, input.choice), input.power)) == Running(sys')
    ensures var s := Schedule(g, After(g.policy, f.queues, input.choice), f.waiting + input.arrivals);
            && s.Running? && Reached(p, g, ins + [input], sys', s.state.0, s.state.1)
            && Shaped(g, Scheduler.Count(g.policy, f.queues, v.accesses, input.choice))
  {
    CountShaped(g, f.queues, v.accesses, input.choice);
  }

  /** What happened in a cycle that went through. */
  ghost predicate Happened(p: Timing, g: Shape, geo: Geometry, scheme: Scheme, chan: nat, ins: seq<Input>, input: Input,
                           f: Full, ch1: Channel, sys': System, v: Scheduler.View, next: int, more: seq<Storage.Op>,
                           counters: seq<seq<nat>>, counters': seq<seq<nat>>)
    requires p.Sane()
  {
    && SchedulerInRun.Asked(p, g, ins, f, ch1) && Admissible(g, f, input) && Saw(g, f, ch1, input.choice, v, next)
    && Parts(p, g, f, input, FullRun(p, g, ins + [input]))
    && SystemCycle(p, g.policy, f.sys, Decision(PopOf(f.queues, input.choice), input.power)) == Running(sys')
    && FlatMemory.OnChannel(geo, scheme, chan, more)
    && input.arrivals == FlatMemory.TranslateAll(geo, scheme, g.policy, more)
    && Scheduler.Counted(p.tFAW, counters, counters', PopOf(f.queues, input.choice))
  }

  lemma UpdateKeeps(p: Timing, g: Shape, geo: Geometry, scheme: Scheme, chan: nat, ins: seq<Input>, input: Input, f: Full,
                    ch1: Channel, sys': System, v: Scheduler.View, next: int, ops: seq<Storage.Op>, more: seq<Storage.Op>,
                    counters: seq<seq<nat>>, counters': seq<seq<nat>>)
    requires p.Sane() && p.tCMD == 1
    requires Happened(p, g, geo, scheme, chan, ins, input, f, ch1, sys', v, next, more, counters, counters')
    requires Consistent(p, g, geo, scheme, chan, ins, f.sys, f.queues, f.waiting, ops, counters, v.accesses, v.total)
    ensures var s := Schedule(g, After(g.policy, f.queues, input.choice), f.waiting + input.arrivals);
            s.Running? && Consistent(p, g, geo, scheme, chan, ins + [input], sys', s.state.0, s.state.1, ops + more, counters',
                                     Scheduler.Count(g.policy, f.queues, v.accesses, input.choice), v.total)
  {
    UpdateKeepsRun(p, g, ins, input, f, ch1, sys', v, next);
    WindowsStep(p, g, ins, input, f, counters, counters');
    AcceptedMore(g, geo, scheme, chan, ins, ops, input, more);
  }

  /** The choices and power moves of the run so far are the simulator's. */
  ghost predicate Driven(p: Timing, g: Shape, total: nat, ins: seq<Input>, requests: seq<int>, accesses: seq<seq<nat>>)
    requires p.Sane()
  {
    Refreshes.Simulated(p, g, total, ins, requests) && accesses == RowHits(p, g, ins)
  }

  /** The rank that waits in the next cycle, if this one is due for a refresh. */
  ghost function NextOf(p: Timing, g: Shape, ins: seq<Input>, requests: seq<int>, request: int): int
    requires p.Sane() && |requests| == |ins|
  {
    Refreshes.NextDue(Refreshes.Waits(p, g, ins, requests), request)
  }

  lemma DrivenOn(p: Timing, g: Shape, ins: seq<Input>, requests: seq<int>, input: Input, request: int, f: Full, ch1: Channel,
                 v: Scheduler.View, counters: seq<seq<nat>>)
    requires p.Sane() && SchedulerInRun.Asked(p, g, ins, f, ch1) && Driven(p, g, v.total, ins, requests, v.accesses)
    requires Windows(p, g, ins, counters) && v == Viewed(f.sys.ch.clock, ch1, counters, v.accesses, v.total)
    requires var next := NextOf(p, g, ins, requests, request);
             Saw(g, f, ch1, input.choice, v, next) && MayPower(p, g, ins, next, input)
    ensures Driven(p, g, v.total, ins + [input], requests + [request], Scheduler.Count(g.policy, f.queues, v.accesses, input.choice))
    ensures Refreshes.Waits(p, g, ins + [input], requests + [request])
            == AfterPop(NextOf(p, g, ins, requests, request), PopOf(f.queues, input.choice))
  {
    assert counters == Counters(p, g, ins);
    Refreshes.SimulatedMore(p, g, v.total, ins, input, requests, request);
    assert (ins + [input])[..|ins|] == ins;
  }

  lemma PowerIs(p: Timing, g: Shape, ins: seq<Input>, f: Full, ch1: Channel, input: Input, queues: Queues, waiting: seq<Packet>,
                next: int, calm: nat -> bool)
    requires p.Sane() && SchedulerInRun.Asked(p, g, ins, f, ch1)
    requires Schedule(g, After(g.policy, f.queues, input.choice), f.waiting + input.arrivals) == Running((queues, waiting))
    requires input.power == Moves(PopPhase(p, g.policy, ch1, PopOf(f.queues, input.choice)), queues, AfterPop(next, PopOf(f.queues, input.choice)), calm)
    ensures MayPower(p, g, ins, next, input)
  {
    var o2 := PopPhase(p, g.policy, ch1, PopOf(f.queues, input.choice));
    if o2.Running? {
      MovesAreOk(o2.state, queues, AfterPop(next, PopOf(f.queues, input.choice)), calm, input.power);
    }
  }

  lemma MovesAreOk(ch: Channel, queues: Queues, waits: int, calm: nat -> bool, power: nat -> PowerMove)
    requires power == Moves(Running(ch), queues, waits, calm)
    ensures MovesOk(ch, queues, waits, power)
  {
    forall i: nat ensures MayMove(ch, queues, waits, i, power(i)) {
      assert power(i) == Move(ch, i, Sleepy(queues, waits, calm)(i));
    }
  }

  /** What a pop does: the scheduler's choice passes the controller's tests, and is counted. */
  ghost predicate Popped(p: Timing, g: Shape, f: Full, ch1: Channel, choice: Choice, pop: Pop, v: Scheduler.View, next: int,
                         counters: seq<seq<nat>>, counters': seq<seq<nat>>, accesses': seq<seq<nat>>) {
    && Saw(g, f, ch1, choice, v, next)
    && Legal(g, f.queues, choice) && pop == PopOf(f.queues, choice)
    && (pop.Send? ==> MayIssue(g.policy, ch1, pop.command))
    && Scheduler.Counted(p.tFAW, counters, counters', pop)
    && accesses' == Scheduler.Count(g.policy, f.queues, v.accesses, choice)
  }

  /** What the objects of the memory system amount to between cycles. */
  ghost predicate Held(p: Timing, g: Shape, geo: Geometry, scheme: Scheme, chan: nat, ins: seq<Input>, requests: seq<int>, sys: System,
                       queues: Queues, waiting: seq<Packet>, ops: seq<Storage.Op>, counters: seq<seq<nat>>,
                       accesses: seq<seq<nat>>, total: nat)
    requires p.Sane()
  {
    && Consistent(p, g, geo, scheme, chan, ins, sys, queues, waiting, ops, counters, accesses, total)
    && Driven(p, g, total, ins, requests, accesses)
  }

  /** The cycle after a pop is the next step of the run. */
  lemma StepWas(p: Timing, g: Shape, ins: seq<Input>, f: Full, ch1: Channel, input: Input, v: Scheduler.View, next: int,
                counters: seq<seq<nat>>, counters': seq<seq<nat>>, accesses': seq<seq<nat>>, queues': Queues, calm: nat -> bool)
    requires p.Sane() && p.tCMD == 1 && SchedulerInRun.Asked(p, g, ins, f, ch1)
    requires Popped(p, g, f, ch1, input.choice, PopOf(f.queues, input.choice), v, next, counters, counters', accesses')
    requires QueueOrder.AllValid(g, input.arrivals) && |f.waiting| + |input.arrivals| <= g.transactionDepth
    requires input.power == Moves(PopPhase(p, g.policy, ch1, PopOf(f.queues, input.choice)), queues', AfterPop(next, PopOf(f.queues, input.choice)), calm)
    ensures Admissible(g, f, input) && Parts(p, g, f, input, FullRun(p, g, ins + [input]))
  {
    var o2 := PopPhase(p, g.policy, ch1, PopOf(f.queues, input.choice));
    if o2.Running? {
      MovesAreOk(o2.state, queues', AfterPop(next, PopOf(f.queues, input.choice)), calm, input.power);
    }
    StepIs(p, g, ins, f, ch1, input, queues', AfterPop(next, PopOf(f.queues, input.choice)));
  }

  /** A cycle of the memory system, of which o is what the channel makes. */
  ghost predicate Cycled(p: Timing, g: Shape, ins: seq<Input>, f: Full, ch1: Channel, input: Input, v: Scheduler.View, next: int,
                         counters: seq<seq<nat>>, counters': seq<seq<nat>>, accesses': seq<seq<nat>>,
                         queues': Queues, waiting': seq<Packet>, calm: nat -> bool, o: Outcome<System>)
    requires p.Sane()
  {
    && SchedulerInRun.Asked(p, g, ins, f, ch1) && Admissible(g, f, input)
    && Popped(p, g, f, ch1, input.choice, PopOf(f.queues, input.choice), v, next, counters, counters', accesses')
    && v == Viewed(f.sys.ch.clock, ch1, counters, v.accesses, v.total)
    && Parts(p, g, f, input, FullRun(p, g, ins + [input]))
    && SystemCycle(p, g.policy, f.sys, Decision(PopOf(f.queues, input.choice), input.power)) == o
    && Schedule(g, After(g.policy, f.queues, input.choice), f.waiting + input.arrivals) == Running((queues', waiting'))
    && input.power == Moves(PopPhase(p, g.policy, ch1, PopOf(f.queues, input.choice)), queues', AfterPop(next, PopOf(f.queues, input.choice)), calm)
  }

  /** What a cycle leaves: everything in order, or a collision on the data bus. */
  ghost predicate CycleEnds(p: Timing, g: Shape, geo: Geometry, scheme: Scheme, chan: nat, ins: seq<Input>, requests: seq<int>,
                            o: Outcome<System>, queues: Queues, waiting: seq<Packet>, ops: seq<Storage.Op>,
                            counters: seq<seq<nat>>, accesses: seq<seq<nat>>, total: nat)
    requires p.Sane()
  {
    if o.Running?
    then Held(p, g, geo, scheme, chan, ins, requests, o.state, queues, waiting, ops, counters, accesses, total)
    else Failed(p, g, total, ins, requests, accesses)
  }

  ghost predicate Failed(p: Timing, g: Shape, total: nat, ins: seq<Input>, requests: seq<int>, accesses: seq<seq<nat>>)
    requires p.Sane()
  {
    FullRun(p, g, ins) == Crashed(DataBusCollision) && Driven(p, g, total, ins, requests, accesses)
  }

  lemma AdvanceKeeps(p: Timing, g: Shape, geo: Geometry, scheme: Scheme, chan: nat, ins: seq<Input>, requests: seq<int>, input: Input,
                     f: Full, ch1: Channel, o: Outcome<System>, v: Scheduler.View, request: int, ops: seq<Storage.Op>, more: seq<Storage.Op>,
                     counters: seq<seq<nat>>, counters': seq<seq<nat>>, accesses': seq<seq<nat>>,
                     queues': Queues, waiting': seq<Packet>, calm: nat -> bool)
    requires p.Sane() && p.tCMD == 1
    requires Held(p, g, geo, scheme, chan, ins, requests, f.sys, f.queues, f.waiting, ops, counters, v.accesses, v.total)
    requires Cycled(p, g, ins, f, ch1, input, v, NextOf(p, g, ins, requests, request), counters, counters', accesses',
                    queues', waiting', calm, o)
    requires FlatMemory.OnChannel(geo, scheme, chan, more) && input.arrivals == FlatMemory.TranslateAll(geo, scheme, g.policy, more)
    ensures CycleEnds(p, g, geo, scheme, chan, ins + [input], requests + [request], o, queues', waiting', ops + more,
                      counters', accesses', v.total)
    ensures Refreshes.Waits(p, g, ins + [input], requests + [request])
            == AfterPop(NextOf(p, g, ins, requests, request), PopOf(f.queues, input.choice))
  {
    var next := NextOf(p, g, ins, requests, request);
    PowerIs(p, g, ins, f, ch1, input, queues', waiting', next, calm);
    DrivenOn(p, g, ins, requests, input, request, f, ch1, v, counters);
    if o.Running? {
      UpdateKeeps(p, g, geo, scheme, chan, ins, input, f, ch1, o.state, v, next, ops, more, counters, counters');
    }
  }

  /** A cycle, from the pop to its end. */
  lemma CycleKeeps(p: Timing, g: Shape, geo: Geometry, scheme: Scheme, chan: nat, ins: seq<Input>, requests: seq<int>, input: Input,
                   f: Full, ch1: Channel, o: Outcome<System>, v: Scheduler.View, request: int, ops: seq<Storage.Op>, more: seq<Storage.Op>,
                   counters: seq<seq<nat>>, counters': seq<seq<nat>>, accesses': seq<seq<nat>>,
                   queues': Queues, waiting': seq<Packet>, calm: nat -> bool)
    requires p.Sane() && p.tCMD == 1 && SchedulerInRun.Asked(p, g, ins, f, ch1)
    requires Held(p, g, geo, scheme, chan, ins, requests, f.sys, f.queues, f.waiting, ops, counters, v.accesses, v.total)
    requires v == Viewed(f.sys.ch.clock, ch1, counters, v.accesses, v.total)
    requires FlatMemory.OnChannel(geo, scheme, chan, more) && input.arrivals == FlatMemory.TranslateAll(geo, scheme, g.policy, more)
    requires QueueOrder.AllValid(g, input.arrivals) && |f.waiting| + |input.arrivals| <= g.transactionDepth
    requires var pop := PopOf(f.queues, input.choice); var next := NextOf(p, g, ins, requests, request);
             && Popped(p, g, f, ch1, input.choice, pop, v, next, counters, counters', accesses')
             && input.power == Moves(PopPhase(p, g.policy, ch1, pop), queues', AfterPop(next, pop), calm)
             && SystemCycle(p, g.policy, f.sys, Decision(pop, input.power)) == o
    requires Schedule(g, After(g.policy, f.queues, input.choice), f.waiting + input.arrivals) == Running((queues', waiting'))
    ensures CycleEnds(p, g, geo, scheme, chan, ins + [input], requests + [request], o, queues', waiting', ops + more,
                      counters', accesses', v.total)
    ensures Appended(ins, ins + [input], |input.arrivals|, requests, requests + [request], request)
    ensures Refreshes.Waits(p, g, ins + [input], requests + [request])
            == AfterPop(NextOf(p, g, ins, requests, request), PopOf(f.queues, input.choice))
  {
    IsAppended(ins, input, requests, request);
    StepWas(p, g, ins, f, ch1, input, v, NextOf(p, g, ins, requests, request), counters, counters', accesses', queues', calm);
    AdvanceKeeps(p, g, geo, scheme, chan, ins, requests, input, f, ch1, o, v, request, ops, more,
                 counters, counters', accesses', queues', waiting', calm);
  }

  /** One more cycle, with n arrivals and this request. */
  ghost predicate Appended(ins: seq<Input>, ins': seq<Input>, n: nat, requests: seq<int>, requests': seq<int>, request: int) {
    |ins'| == |ins| + 1 && ins'[..|ins|] == ins && |ins'[|ins|].arrivals| == n && requests' == requests + [request]
  }

  lemma IsAppended(ins: seq<Input>, input: Input, requests: seq<int>, request: int)
    ensures Appended(ins, ins + [input], |input.arrivals|, requests, requests + [request], request)
  {
  }

  class MemorySystem {
    const p: Timing
    const g: Shape
    const geo: Geometry
    const scheme: Scheme
    const chan: nat
    const queue: Scheduler.CommandQueue
    var sys: System
    var waiting: seq<Packet>
    var accepted: seq<Storage.Op>
    ghost var ins: seq<Input>
    ghost var requests: seq<int>

    /** Between cycles, the register of the queue is that of the requests. */
    ghost predicate Valid()
      reads this, queue
    {
      Sound() && queue.Blocked() == Refreshes.Waits(p, g, ins, requests)
    }

    ghost predicate Sound()
      reads this, queue
    {
      && Setting(p, g, geo) && queue.Valid() && queue.g == g && queue.tFAW == p.tFAW
      && Held(p, g, geo, scheme, chan, ins, requests, sys, queue.queues, waiting, accepted, queue.counters, queue.accesses, queue.total)
    }

    constructor (p: Timing, g: Shape, geo: Geometry, scheme: Scheme, chan: nat, rr: RR.Policy, total: nat)
      requires Setting(p, g, geo)
      ensures Valid() && fresh(queue) && queue.total == total && accepted == [] && ins == [] && !queue.refreshWaiting
      ensures this.p == p && this.g == g && this.geo == geo && this.scheme == scheme && this.chan == chan
    {
      this.p, this.g, this.geo, this.scheme, this.chan := p, g, geo, scheme, chan;
      queue := new Scheduler.CommandQueue(g, rr, p.tFAW, total, p.AL);
      sys, waiting, accepted, ins, requests := SystemStart(g.numRanks, g.numBanks), [], [], [], [];
      new;
      Begin(p, g, geo, scheme, chan, total);
    }

    /** As many transactions as the transaction queue has room for. */
    method Accept(ops: seq<Storage.Op>) returns (n: nat, arrivals: seq<Packet>)
      requires Sound()
      ensures n <= |ops| && (n == |ops| || |waiting| + n == g.transactionDepth)
      ensures arrivals == FlatMemory.TranslateAll(geo, scheme, g.policy, ops[..n])
      ensures |waiting| + n <= g.transactionDepth && QueueOrder.AllValid(g, arrivals)
    {
      SchedulerInRun.WaitingBounded(p, g, ins);
      var room := g.transactionDepth - |waiting|;
      n := if |ops| <= room then |ops| else room;
      arrivals := TranslateAll(g, geo, scheme, ops[..n]);
      forall j | 0 <= j < n ensures ValidArrival(g, arrivals[j]) {
        TranslatedIsValid(p, g, geo, scheme, ops[j]);
      }
    }

    /** The bank states that the scheduler sees in this cycle. */
    method Look() returns (ch1: Channel)
      requires Sound()
      ensures Deliver(p, TickAll(p, sys.ch)) == Running(ch1) && |ch1.ranks| == g.numRanks && ch1.clock == sys.ch.clock
      ensures Scheduler.Fits(g, SchedulerInRun.Banks(ch1), queue.accesses, queue.queues)
    {
      ghost var f := FullRun(p, g, ins).state;
      ArrivalOrder.RunKeepsFull(p, g, ins);
      DeliverSettles(p, g.policy, sys.ch);
      ch1 := Deliver(p, TickAll(p, sys.ch)).state;
      SchedulerInRun.SchedulerCanRun(p, g, ins, f, ch1, queue.accesses);
    }

    /** The scheduler chooses a command. */
    method Pop(ghost f: Full) returns (ch1: Channel, choice: Choice, pop: Pop)
      requires Sound() && FullRun(p, g, ins) == Running(f)
      modifies queue
      ensures queue.Valid() && SchedulerInRun.Asked(p, g, ins, f, ch1)
      ensures Popped(p, g, f, ch1, choice, pop, Viewed(sys.ch.clock, ch1, old(queue.counters), old(queue.accesses), queue.total),
                     old(queue.Blocked()), old(queue.counters), queue.counters, queue.accesses)
      ensures queue.Blocked() == AfterPop(old(queue.Blocked()), pop)
      ensures queue.queues == After(g.policy, f.queues, choice)
    {
      ch1 := Look();
      choice, pop := queue.Pop(sys.ch.clock, SchedulerInRun.Banks(ch1));
      assert f.queues == old(queue.queues);
      assert old(queue.Seen(sys.ch.clock, SchedulerInRun.Banks(ch1)))
          == Viewed(sys.ch.clock, ch1, old(queue.counters), old(queue.accesses), queue.total);
    }

    /** ... and a transaction is split. */
    method PopAndSplit(arrivals: seq<Packet>, ghost f: Full) returns (ch1: Channel, choice: Choice, pop: Pop, waiting': seq<Packet>)
      requires Sound() && FullRun(p, g, ins) == Running(f) && QueueOrder.AllValid(g, arrivals)
      modifies queue
      ensures queue.Valid() && SchedulerInRun.Asked(p, g, ins, f, ch1)
      ensures Popped(p, g, f, ch1, choice, pop, Viewed(sys.ch.clock, ch1, old(queue.counters), old(queue.accesses), queue.total),
                     old(queue.Blocked()), old(queue.counters), queue.counters, queue.accesses)
      ensures queue.Blocked() == AfterPop(old(queue.Blocked()), pop)
      ensures Schedule(g, After(g.policy, f.queues, choice), waiting + arrivals) == Running((queue.queues, waiting'))
    {
      ch1, choice, pop := Pop(f);
      MaySplit(p, g, ins, f, choice, arrivals);
      waiting' := ScheduleTransaction(queue, waiting + arrivals);
    }

    /** The cycle after the transactions more have arrived. */
    method Advance(arrivals: seq<Packet>, more: seq<Storage.Op>, calm: nat -> bool, ghost request: int) returns (ok: bool)
      requires Sound() && queue.Blocked() == NextOf(p, g, ins, requests, request)
      requires FlatMemory.OnChannel(geo, scheme, chan, more)
      requires arrivals == FlatMemory.TranslateAll(geo, scheme, g.policy, more) && QueueOrder.AllValid(g, arrivals)
      requires |waiting| + |arrivals| <= g.transactionDepth
      modifies this, queue
      ensures accepted == old(accepted) + more
      ensures Appended(old(ins), ins, |arrivals|, old(requests), requests, request)
      ensures ok ==> Valid()
      ensures !ok ==> Failed(p, g, queue.total, ins, requests, queue.accesses)
    {
      ghost var f, counters, accesses := FullRun(p, g, ins).state, queue.counters, queue.accesses;
      var ch1, choice, pop, waiting' := PopAndSplit(arrivals, f);
      var power := Moves(PopPhase(p, g.policy, ch1, pop), queue.queues, queue.Blocked(), calm);
      var o := SystemCycle(p, g.policy, sys, Decision(pop, power));
      ghost var input := Input(arrivals, choice, power);
      CycleKeeps(p, g, geo, scheme, chan, ins, requests, input, f, ch1, o,
                 Viewed(sys.ch.clock, ch1, counters, accesses, queue.total), request, accepted, more,
                 counters, queue.counters, queue.accesses, queue.queues, waiting', calm);
      waiting, accepted, ins, requests := waiting', accepted + more, ins + [input], requests + [request];
      ok := o.Running?;
      if ok {
        sys := o.state;
        assert Held(p, g, geo, scheme, chan, ins, requests, sys, queue.queues, waiting, accepted, queue.counters, queue.accesses, queue.total);
        return;
      }
    }

    /** One cycle; it fails only by a collision on the data bus. */
    method Update(e: Event) returns (ok: bool, n: nat)
      requires Valid() && FlatMemory.OnChannel(geo, scheme, chan, e.arrivals) && e.refresh < g.numRanks
      modifies this, queue
      ensures n <= |e.arrivals| && accepted == old(accepted) + e.arrivals[..n]
      ensures n == |e.arrivals| || old(|waiting|) + n == g.transactionDepth
      ensures Appended(old(ins), ins, n, old(requests), requests, e.refresh)
      ensures ok ==> Valid()
      ensures !ok ==> Failed(p, g, queue.total, ins, requests, queue.accesses)
    {
      var arrivals;
      n, arrivals := Accept(e.arrivals);
      if e.refresh >= 0 {
        queue.NeedRefresh(e.refresh);
      }
      ok := Advance(arrivals, e.arrivals[..n], e.calm, e.refresh);
    }
  }

  // ---------- whole runs ----------

  /** The results of a run that went through. */
  ghost predicate Correct(p: Timing, g: Shape, geo: Geometry, scheme: Scheme, sys: System, ops: seq<Storage.Op>,
                          ds: seq<Decision>)
  {
    && |sys.io.ranks| == g.numRanks
    && (forall k: Key :: k.rank < g.numRanks ==> Answered(geo, scheme, g.policy, sys, ops, k))
    && (forall r :: 0 <= r < g.numRanks ==> Spread(p.tFAW, ActTimes(ds, r)))
  }

  /** What a row's reads have returned is what the flat memory answers first. */
  ghost predicate Answered(geo: Geometry, scheme: Scheme, policy: Policy, sys: System, ops: seq<Storage.Op>, k: Key)
    requires k.rank < |sys.io.ranks|
  {
    ArrivalOrder.RowReads(Done(sys.io.ranks[k.rank].returned), k) <= FlatMemory.FlatAnswers(geo, scheme, policy, ops, k)
  }

  lemma ConsistentIsCorrect(m: MemorySystem)
    requires m.Valid()
    ensures Correct(m.p, m.g, m.geo, m.scheme, m.sys, m.accepted, Decisions(m.p, m.g, m.ins))
    ensures PendingReads.DeskRun(m.p, m.g, m.ins).Running?
    ensures RowsKept(m.g, m.queue.queues, m.sys.ch, m.queue.accesses, m.queue.total)
  {
    ScheduledKeepsRows(m.p, m.g, m.queue.total, m.ins, Refreshes.DueIn(m.p, m.g, m.ins, m.requests));
    var ds := Decisions(m.p, m.g, m.ins);
    FlatMemory.NoReadIsLost(m.p, m.g, m.geo, m.scheme, m.ins, m.accepted);
    assert m.g.numRanks > 0;
    ArrivalOrder.ReadsReturnLatestWrite(m.p, m.g, m.ins, 0);
    forall k: Key | k.rank < m.g.numRanks ensures Answered(m.geo, m.scheme, m.g.policy, m.sys, m.accepted, k) {
      FlatMemory.SystemIsFlatMemory(m.p, m.g, m.geo, m.scheme, m.chan, m.ins, m.accepted, k);
    }
    forall r | 0 <= r < m.g.numRanks ensures Spread(m.p.tFAW, ActTimes(ds, r)) {
      WindowSpread(m.p.tFAW, m.queue.counters[r], ds, r);
    }
  }

  /** The refresh requests, a negative number for none. */
  function Requests(events: seq<Event>): (requests: seq<int>)
    ensures |requests| == |events|
  {
    seq(|events|, i requires 0 <= i < |events| => events[i].refresh)
  }

  lemma RequestsMore(events: seq<Event>, i: nat)
    requires i < |events|
    ensures Requests(events[..i + 1]) == Requests(events[..i]) + [events[i].refresh]
  {
  }

  /** Every run of the simulator, over any events: the data returned is that of the flat memory in
      the order of acceptance, activates keep their window, no returned read lacks its
      transaction, and with open pages no access is stranded; a run fails only by a collision on
      the data bus, and never if the bus is safe. */
  method Run(p: Timing, g: Shape, geo: Geometry, scheme: Scheme, chan: nat, rr: RR.Policy, total: nat, events: seq<Event>)
    returns (ok: bool, m: MemorySystem)
    requires Setting(p, g, geo)
    requires forall i :: 0 <= i < |events| ==> FlatMemory.OnChannel(geo, scheme, chan, events[i].arrivals) && events[i].refresh < g.numRanks
    ensures m.p == p && m.g == g
    ensures ok ==> m.Valid() && |m.ins| == |events|
    ensures |m.ins| <= |events| && Refreshes.Simulated(p, g, total, m.ins, Requests(events[..|m.ins|]))
    ensures ok ==> Correct(p, g, geo, scheme, m.sys, m.accepted, Decisions(p, g, m.ins))
    ensures ok ==> PendingReads.DeskRun(p, g, m.ins).Running?
    ensures ok ==> RowsKept(g, m.queue.queues, m.sys.ch, m.queue.accesses, total)
    ensures !ok ==> FullRun(p, g, m.ins) == Crashed(DataBusCollision) && !DataBusSafety.BusSafe(p, g.numRanks)
  {
    m := new MemorySystem(p, g, geo, scheme, chan, rr, total);
    ok := true;
    var i := 0;
    while i < |events| && ok
      invariant 0 <= i <= |events| && m.p == p && m.g == g && m.geo == geo && m.scheme == scheme && m.chan == chan
      invariant m.queue.total == total && fresh(m) && fresh(m.queue) && |m.ins| == i && m.requests == Requests(events[..i])
      invariant ok ==> m.Valid()
      invariant !ok ==> Failed(p, g, total, m.ins, m.requests, m.queue.accesses)
    {
      var n;
      ok, n := m.Update(events[i]);
      RequestsMore(events, i);
      i := i + 1;
    }
    if ok {
      ConsistentIsCorrect(m);
    } else if DataBusSafety.BusSafe(p, g.numRanks) {
      ArrivalOrder.NoControllerRunFails(p, g, m.ins);
    }
  }

  // ---------- the end of a run ----------

  /** All reads of a row have been answered as the flat memory answers them. */
  ghost predicate AnsweredFully(geo: Geometry, scheme: Scheme, policy: Policy, sys: System, ops: seq<Storage.Op>, k: Key) {
    k.rank < |sys.io.ranks|
    && ArrivalOrder.RowReads(Done(sys.io.ranks[k.rank].returned), k) == FlatMemory.FlatAnswers(geo, scheme, policy, ops, k)
  }

  ghost predicate AllAnswered(g: Shape, geo: Geometry, scheme: Scheme, sys: System, ops: seq<Storage.Op>) {
    forall k: Key :: k.rank < g.numRanks ==> AnsweredFully(geo, scheme, g.policy, sys, ops, k)
  }

  /** The run so far, taken apart: the inputs that were there, and further ones without arrivals. */
  ghost predicate QuietSince(ins: seq<Input>, requests: seq<int>, more: seq<Input>, asked: seq<int>, ins': seq<Input>, requests': seq<int>) {
    ins' == ins + more && requests' == requests + asked && |more| == |asked| && Progress.NoArrivals(more)
  }

  lemma QuietMore(ins: seq<Input>, requests: seq<int>, more: seq<Input>, asked: seq<int>, ins1: seq<Input>, requests1: seq<int>,
                  ins2: seq<Input>, requests2: seq<int>, request: int)
    requires QuietSince(ins, requests, more, asked, ins1, requests1) && Appended(ins1, ins2, 0, requests1, requests2, request)
    ensures QuietSince(ins, requests, more + [ins2[|ins1|]], asked + [request], ins2, requests2)
  {
    assert ins2 == ins1 + [ins2[|ins1|]];
  }

  /** Parameters with which a run cannot get stuck. */
  ghost predicate Lively(p: Timing, g: Shape, total: nat) {
    p.tRP >= 1 && total > 0 && g.queueDepth >= 2
  }

  /** The cycles that suffice from here on. */
  ghost function EnoughFor(m: MemorySystem, ins: seq<Input>, requests: seq<int>, asked: seq<int>): nat
    requires m.p.Sane() && |requests| == |ins| && FullRun(m.p, m.g, ins).Running?
  {
    Progress.Enough(m.p, m.g, ins, requests, asked)
  }

  /** If the first n of these cycles suffice to empty the queues and the rest for the last reads to
      return, every read has been answered. */
  ghost predicate AnsweredAfter(m: MemorySystem, ins: seq<Input>, requests: seq<int>, events: seq<Event>, n: nat)
    requires m.p.Sane() && |requests| == |ins| && FullRun(m.p, m.g, ins).Running?
    reads m
  {
    n + Completion.Latency(m.p) <= |events| && n >= EnoughFor(m, ins, requests, Requests(events[..n])) ==>
      AllAnswered(m.g, m.geo, m.scheme, m.sys, m.accepted)
  }

  /** The memory system runs on without transactions, while refreshes go on: after enough cycles its
      queues are empty, and a little later every read has been answered.  It stops only by a
      collision on an unsafe data bus. */
  method RunOut(m: MemorySystem, events: seq<Event>) returns (ok: bool)
    requires m.Valid() && Lively(m.p, m.g, m.queue.total)
    requires forall i :: 0 <= i < |events| ==> events[i].arrivals == [] && events[i].refresh < m.g.numRanks
    modifies m, m.queue
    ensures m.accepted == old(m.accepted)
    ensures |old(m.requests)| == |old(m.ins)| && FullRun(m.p, m.g, old(m.ins)).Running?
    ensures ok ==> m.Valid()
    ensures ok && |events| >= EnoughFor(m, old(m.ins), old(m.requests), Requests(events)) ==>
              m.waiting == [] && forall r :: 0 <= r < |m.queue.queues| ==> IsEmpty(m.queue.queues, r)
    ensures ok ==> forall n: nat :: AnsweredAfter(m, old(m.ins), old(m.requests), events, n)
    ensures !ok ==> Failed(m.p, m.g, m.queue.total, m.ins, m.requests, m.queue.accesses) && !DataBusSafety.BusSafe(m.p, m.g.numRanks)
  {
    ghost var more := [];
    ghost var ins, requests := m.ins, m.requests;
    ok := true;
    for i := 0 to |events|
      invariant ok && m.Valid() && m.accepted == old(m.accepted)
      invariant |more| == i && QuietSince(ins, requests, more, Requests(events[..i]), m.ins, m.requests)
    {
      ghost var ins1, requests1 := m.ins, m.requests;
      var n;
      ok, n := m.Update(events[i]);
      if !ok {
        if DataBusSafety.BusSafe(m.p, m.g.numRanks) {
          ArrivalOrder.NoControllerRunFails(m.p, m.g, m.ins);
        }
        return;
      }
      RequestsMore(events, i);
      QuietMore(ins, requests, more, Requests(events[..i]), ins1, requests1, m.ins, m.requests, events[i].refresh);
      more := more + [m.ins[|ins1|]];
    }
    assert events[..|events|] == events;
    Ends(m, ins, requests, more, events);
  }

  lemma Ends(m: MemorySystem, ins: seq<Input>, requests: seq<int>, more: seq<Input>, events: seq<Event>)
    requires m.Valid() && Lively(m.p, m.g, m.queue.total) && |requests| == |ins| && FullRun(m.p, m.g, ins).Running?
    requires QuietSince(ins, requests, more, Requests(events), m.ins, m.requests)
    ensures |events| >= EnoughFor(m, ins, requests, Requests(events)) ==>
              m.waiting == [] && forall r :: 0 <= r < |m.queue.queues| ==> IsEmpty(m.queue.queues, r)
    ensures forall n: nat :: AnsweredAfter(m, ins, requests, events, n)
  {
    EndsDrained(m, ins, requests, more, Requests(events));
    forall n: nat ensures AnsweredAfter(m, ins, requests, events, n) {
      if n + Completion.Latency(m.p) <= |events| {
        assert Requests(events[..n]) == Requests(events)[..n];
        EndsAnswered(m, ins, requests, more, Requests(events), n);
      }
    }
  }

  lemma EndsDrained(m: MemorySystem, ins: seq<Input>, requests: seq<int>, more: seq<Input>, asked: seq<int>)
    requires m.Valid() && Lively(m.p, m.g, m.queue.total) && |requests| == |ins| && FullRun(m.p, m.g, ins).Running?
    requires QuietSince(ins, requests, more, asked, m.ins, m.requests)
    ensures |more| >= EnoughFor(m, ins, requests, asked) ==>
              m.waiting == [] && forall r :: 0 <= r < |m.queue.queues| ==> IsEmpty(m.queue.queues, r)
  {
    Progress.EveryRunDrains(m.p, m.g, m.queue.total, ins, requests, more, asked);
  }

  lemma EndsAnswered(m: MemorySystem, ins: seq<Input>, requests: seq<int>, more: seq<Input>, asked: seq<int>, n: nat)
    requires m.Valid() && Lively(m.p, m.g, m.queue.total) && |requests| == |ins| && FullRun(m.p, m.g, ins).Running?
    requires QuietSince(ins, requests, more, asked, m.ins, m.requests)
    requires n + Completion.Latency(m.p) <= |more|
    ensures n >= EnoughFor(m, ins, requests, asked[..n]) ==> AllAnswered(m.g, m.geo, m.scheme, m.sys, m.accepted)
  {
    Completion.SameArrivals(ins, more);
    if n >= EnoughFor(m, ins, requests, asked[..n]) {
      forall k: Key | k.rank < m.g.numRanks ensures AnsweredFully(m.geo, m.scheme, m.g.policy, m.sys, m.accepted, k) {
        RowAnswered(m.p, m.g, m.geo, m.scheme, m.chan, m.queue.total, ins, requests, more, asked, n, m.accepted, k);
      }
    }
  }

  lemma Halves<T>(a: seq<T>, b: seq<T>, n: nat)
    requires n <= |b|
    ensures a + b == a + b[..n] + b[n..]
  {
  }

  lemma RowAnswered(p: Timing, g: Shape, geo: Geometry, scheme: Scheme, chan: nat, total: nat, ins: seq<Input>, requests: seq<int>,
                    more: seq<Input>, asked: seq<int>, n: nat, ops: seq<Storage.Op>, k: Key)
    requires p.Sane() && p.tCMD == 1 && Lively(p, g, total) && k.rank < g.numRanks
    requires FullRun(p, g, ins).Running? && FullRun(p, g, ins + more).Running?
    requires |requests| == |ins| && |asked| == |more| && Progress.NoArrivals(more)
    requires Refreshes.Simulated(p, g, total, ins + more, requests + asked)
    requires n + Completion.Latency(p) <= |more| && n >= Progress.Enough(p, g, ins, requests, asked[..n])
    requires FlatMemory.OnChannel(geo, scheme, chan, ops)
    requires ArrivalOrder.Arrivals(ins) == FlatMemory.TranslateAll(geo, scheme, g.policy, ops)
    ensures Completion.AnswersAll(p, g, geo, scheme, ins + more, ops, k)
  {
    Halves(ins, more, n);
    Halves(requests, asked, n);
    Completion.EverythingIsAnswered(p, g, geo, scheme, chan, total, ins, requests, more[..n], asked[..n], more[n..], asked[n..], ops, k);
  }
}
