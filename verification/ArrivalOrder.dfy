/**
 The whole memory system against a sequential memory: for every row, the reads it has
 answered are, in order and with their data, the first answers of a memory that serves the
 transactions one by one as they arrive.
 */
module ArrivalOrder {
  import opened RowStore
  import opened Packets
  import opened BankTiming
  import opened Protocol
  import opened DataPath
  import opened ReadReturns
  import opened Coherence
  import opened DataBusSafety
  import opened CommandQueues
  import opened Controller
  import opened QueueOrder

  // ---------- the invariant over runs ----------

  ghost predicate BalancedFull(g: Shape, f: Full, k: Key) {
    Balanced(g, f.queues, f.waiting, f.arrived, f.issued, k)
  }

  ghost predicate FullInv(p: Timing, g: Shape, f: Full)
    requires p.Sane()
  {
    && SystemInv(p, g.policy, f.sys)
    && QueuesOk(g, f.queues, f.sys.ch)
    && AllValid(g, f.waiting)
    && forall k :: BalancedFull(g, f, k)
  }

  lemma StartFull(p: Timing, g: Shape)
    requires p.Sane()
    ensures FullInv(p, g, FullStart(g))
  {
    SystemStartInv(p, g.policy, g.numRanks, g.numBanks);
    var f := FullStart(g);
    forall r: nat, x: nat | InQueues(f.queues, r, x) ensures LaneOk(g, f.queues, f.sys.ch, r, x) {
      assert f.queues[r][x] == [];
    }
    forall k ensures BalancedFull(g, f, k) {
      assert QueueOf(g, f.queues, k.rank, k.bank) == [];
    }
  }

  /** A cycle whose channel step went through. */
  lemma CycleKeepsFull(p: Timing, g: Shape, f: Full, input: Input, sys': System)
    requires p.Sane() && p.tCMD == 1 && FullInv(p, g, f) && Admissible(g, f, input)
    requires SystemCycle(p, g.policy, f.sys, Decision(PopOf(f.queues, input.choice), input.power)) == Running(sys')
    ensures FullCycle(p, g, f, input).Running?
    ensures FullInv(p, g, FullCycle(p, g, f, input).state)
  {
    ChoiceHeeds(p, g, f.queues, f.sys.ch, input.choice);
    SystemCycleKeepsInv(p, g.policy, f.sys, Decision(PopOf(f.queues, input.choice), input.power));
    PopKeepsQueues(p, g, f, input, sys');
    var queues, waiting := After(g.policy, f.queues, input.choice), f.waiting + input.arrivals;
    ScheduleKeeps(g, queues, sys'.ch, waiting);
    var f' := FullCycle(p, g, f, input).state;
    forall k ensures BalancedFull(g, f', k) {
      CycleBalanced(p, g, f, input, sys', k);
    }
  }

  lemma CycleBalanced(p: Timing, g: Shape, f: Full, input: Input, sys': System, k: Key)
    requires p.Sane() && QueuesOk(g, f.queues, f.sys.ch) && Legal(g, f.queues, input.choice) && BalancedFull(g, f, k)
    requires QueuesOk(g, After(g.policy, f.queues, input.choice), sys'.ch) && AllValid(g, f.waiting + input.arrivals)
    ensures var queues := After(g.policy, f.queues, input.choice);
            var o := Schedule(g, queues, f.waiting + input.arrivals);
            o.Running? && Balanced(g, o.state.0, o.state.1, f.arrived + input.arrivals,
                                   f.issued + Chosen(f.queues, input.choice), k)
  {
    var queues, issued := After(g.policy, f.queues, input.choice), f.issued + Chosen(f.queues, input.choice);
    PopBalanced(g, f, input.choice, k);
    ArriveBalanced(g, queues, f.waiting, f.arrived, issued, input.arrivals, k);
    ScheduleBalanced(g, queues, sys'.ch, f.waiting + input.arrivals, f.arrived + input.arrivals, issued, k);
  }

  /** In every run, no queue overflows, and every row's accesses keep their order. */
  lemma {:induction false} RunKeepsFull(p: Timing, g: Shape, ins: seq<Input>)
    requires p.Sane() && p.tCMD == 1
    ensures var o := FullRun(p, g, ins);
            (o.Running? ==> FullInv(p, g, o.state)) && (o.Crashed? ==> o.error == DataBusCollision)
  {
    if ins == [] {
      StartFull(p, g);
    } else {
      var before, input := ins[..|ins| - 1], ins[|ins| - 1];
      RunKeepsFull(p, g, before);
      var o := FullRun(p, g, before);
      if o.Running? && Admissible(g, o.state, input) {
        OneMoreCycle(p, g, o.state, input);
      }
    }
  }

  lemma OneMoreCycle(p: Timing, g: Shape, f: Full, input: Input)
    requires p.Sane() && p.tCMD == 1 && FullInv(p, g, f) && Admissible(g, f, input)
    ensures var o := FullCycle(p, g, f, input);
            (o.Running? ==> FullInv(p, g, o.state)) && (o.Crashed? ==> o.error == DataBusCollision)
  {
    var d := Decision(PopOf(f.queues, input.choice), input.power);
    ChoiceHeeds(p, g, f.queues, f.sys.ch, input.choice);
    SystemCycleKeepsInv(p, g.policy, f.sys, d);
    var o := SystemCycle(p, g.policy, f.sys, d);
    if o.Running? {
      CycleKeepsFull(p, g, f, input, o.state);
    }
  }

  /** In every run, for every parameters and policy: no rank ever refuses a command or a power
      move, no command meets another on the bus, and no queue overflows. */
  lemma NoCommandIsRefused(p: Timing, g: Shape, ins: seq<Input>)
    requires p.Sane() && p.tCMD == 1
    ensures var o := FullRun(p, g, ins);
            && o != Crashed(RankRefused) && o != Crashed(PowerRefused)
            && o != Crashed(CommandBusCollision) && o != Crashed(QueueOverflow)
  {
    RunKeepsFull(p, g, ins);
  }

  /** In every run, every rank has returned exactly the reads that were due, in issue order, each
      1 + RL + BL/2 cycles after its issue, with the data of the latest write command sent before
      it to the same cell. */
  lemma ReadsReturnLatestWrite(p: Timing, g: Shape, ins: seq<Input>, i: nat)
    requires p.Sane() && p.tCMD == 1 && i < g.numRanks
    ensures var o := FullRun(p, g, ins);
            o.Running? ==>
              && |o.state.sys.io.ranks| == g.numRanks
              && Served(p, |ins|, o.state.sys.io.ranks[i].returned, ReadsOf(Decisions(p, g, ins), i))
  {
    RunKeepsFull(p, g, ins);
    RunIsSystemRun(p, g, ins);
    ServedByNow(p, g.policy, g.numRanks, g.numBanks, Decisions(p, g, ins), i);
  }

  // ---------- a sequential memory ----------

  /** The data of the latest write to a cell among these accesses, or the tracer. */
  function Latest(cs: seq<Packet>, cell: Cell): Payload {
    if cs == [] then Tracer
    else
      var c := cs[|cs| - 1].command;
      if IsWrite(c) && CellOf(c) == cell then c.data else Latest(cs[..|cs| - 1], cell)
  }

  /** The answers of a memory that serves the accesses one by one. */
  function Answers(cs: seq<Packet>): seq<(Command, Payload)> {
    if cs == [] then []
    else
      var before, c := cs[..|cs| - 1], cs[|cs| - 1].command;
      Answers(before) + (if IsRead(c) then [(c, Latest(before, CellOf(c)))] else [])
  }

  /** A sequential memory never takes an answer back. */
  lemma {:induction false} AnswersPrefix(a: seq<Packet>, b: seq<Packet>)
    ensures Answers(a) <= Answers(a + b)
  {
    if b == [] {
      assert a + b == a;
    } else {
      AnswersPrefix(a, b[..|b| - 1]);
      assert (a + b)[..|a + b| - 1] == a + b[..|b| - 1];
    }
  }

  // ---------- what the system answered ----------

  function KeyOf(c: Command): Key {
    Key(c.rank, c.bank, c.row)
  }

  function RowOf(cell: Cell): Key {
    Key(cell.rank, cell.bank, cell.row)
  }

  /** The tickets of a row, as answers. */
  function RowReads(ts: seq<Ticket>, k: Key): seq<(Command, Payload)> {
    if ts == [] then []
    else
      var t := ts[|ts| - 1];
      RowReads(ts[..|ts| - 1], k) + (if KeyOf(t.command) == k then [(t.command, t.data)] else [])
  }

  lemma {:induction false} RowReadsPrefix(a: seq<Ticket>, b: seq<Ticket>, k: Key)
    ensures RowReads(a, k) <= RowReads(a + b, k)
  {
    if b == [] {
      assert a + b == a;
    } else {
      RowReadsPrefix(a, b[..|b| - 1], k);
      assert (a + b)[..|a + b| - 1] == a + b[..|b| - 1];
    }
  }

  /** The commands sent tell a row the same as the packets issued. */
  ghost predicate Agrees(ds: seq<Decision>, issued: seq<Packet>, k: Key) {
    && (forall cell :: RowOf(cell) == k ==> LatestIn(ds, cell) == Latest(Select(issued, k), cell))
    && RowReads(ReadsOf(ds, k.rank), k) == Answers(Select(issued, k))
  }

  /** A command that is no column access to the row. */
  lemma AgreesElsewhere(ds: seq<Decision>, d: Decision, issued: seq<Packet>, more: seq<Packet>, k: Key)
    requires Agrees(ds, issued, k) && Select(more, k) == []
    requires d.pop.Send? && (IsRead(d.pop.command) || IsWrite(d.pop.command)) ==> KeyOf(d.pop.command) != k
    ensures Agrees(ds + [d], issued + more, k)
  {
    SelectConcat(issued, more, k);
    assert Select(issued, k) + [] == Select(issued, k);
    var all := ds + [d];
    assert all[..|all| - 1] == ds;
    var rs := ReadsOf(all, k.rank);
    if rs != ReadsOf(ds, k.rank) {
      assert rs[..|rs| - 1] == ReadsOf(ds, k.rank);
    }
  }

  /** A column access to the row. */
  lemma AgreesHere(ds: seq<Decision>, d: Decision, issued: seq<Packet>, e: Packet, k: Key)
    requires Agrees(ds, issued, k) && Hits(e, k) && d.pop == Send(e.command)
    ensures Agrees(ds + [d], issued + [e], k)
  {
    SelectConcat(issued, [e], k);
    SelectOne(e, k);
    var cs := Select(issued, k);
    var cs' := cs + [e];
    assert cs'[..|cs'| - 1] == cs;
    var all := ds + [d];
    assert all[..|all| - 1] == ds;
    if IsRead(e.command) {
      assert RowOf(CellOf(e.command)) == k;
      var rs := ReadsOf(all, k.rank);
      assert rs[..|rs| - 1] == ReadsOf(ds, k.rank);
    } else {
      assert ReadsOf(all, k.rank) == ReadsOf(ds, k.rank);
      assert Answers(cs') == Answers(cs);
    }
  }

  lemma AgreesStep(g: Shape, f: Full, input: Input, ds: seq<Decision>, k: Key)
    requires Legal(g, f.queues, input.choice) && Agrees(ds, f.issued, k)
    ensures Agrees(ds + [Decision(PopOf(f.queues, input.choice), input.power)],
                   f.issued + Chosen(f.queues, input.choice), k)
  {
    var d, more := Decision(PopOf(f.queues, input.choice), input.power), Chosen(f.queues, input.choice);
    if input.choice.Take? && Hits(more[0], k) {
      AgreesHere(ds, d, f.issued, more[0], k);
    } else {
      if input.choice.Take? {
        SelectOne(more[0], k);
      }
      AgreesElsewhere(ds, d, f.issued, more, k);
    }
  }

  lemma {:induction false} RunAgrees(p: Timing, g: Shape, ins: seq<Input>, k: Key)
    requires p.Sane()
    ensures var o := FullRun(p, g, ins); o.Running? ==> Agrees(Decisions(p, g, ins), o.state.issued, k)
  {
    if ins != [] {
      var before, input := ins[..|ins| - 1], ins[|ins| - 1];
      RunAgrees(p, g, before, k);
      if FullRun(p, g, ins).Running? {
        AgreesStep(g, FullRun(p, g, before).state, input, Decisions(p, g, before), k);
      }
    }
  }

  // ---------- the main results ----------

  /** The transactions of a run, in order of arrival. */
  function Arrivals(ins: seq<Input>): seq<Packet> {
    if ins == [] then [] else Arrivals(ins[..|ins| - 1]) + ins[|ins| - 1].arrivals
  }

  lemma {:induction false} ArrivedIs(p: Timing, g: Shape, ins: seq<Input>)
    requires p.Sane()
    ensures var o := FullRun(p, g, ins); o.Running? ==> o.state.arrived == Arrivals(ins)
  {
    if ins != [] {
      ArrivedIs(p, g, ins[..|ins| - 1]);
    }
  }

  /** In every run and for every row, the reads returned so far are the first answers of a
      memory that serves the transactions one by one in the order of their arrival. */
  lemma AnswersInArrivalOrder(p: Timing, g: Shape, ins: seq<Input>, k: Key)
    requires p.Sane() && p.tCMD == 1 && k.rank < g.numRanks
    ensures var o := FullRun(p, g, ins);
            o.Running? ==>
              && |o.state.sys.io.ranks| == g.numRanks
              && RowReads(Done(o.state.sys.io.ranks[k.rank].returned), k) <= Answers(Select(Arrivals(ins), k))
  {
    var o, ds := FullRun(p, g, ins), Decisions(p, g, ins);
    if o.Running? {
      var f := o.state;
      ReadsReturnLatestWrite(p, g, ins, k.rank);
      RunAgrees(p, g, ins, k);
      ReturnedFirst(p, |ds|, f.sys.io.ranks[k.rank].returned, ReadsOf(ds, k.rank), k);
      IssuedFirst(p, g, ins, k);
      PrefixTrans(RowReads(Done(f.sys.io.ranks[k.rank].returned), k), Answers(Select(f.issued, k)),
                  Answers(Select(Arrivals(ins), k)));
    }
  }

  lemma PrefixTrans<T>(a: seq<T>, b: seq<T>, c: seq<T>)
    requires a <= b <= c
    ensures a <= c
  {
  }

  lemma ReturnedFirst(p: Timing, now: int, returned: seq<(Ticket, int)>, issued: seq<Ticket>, k: Key)
    requires p.Sane() && Served(p, now, returned, issued)
    ensures RowReads(Done(returned), k) <= RowReads(issued, k)
  {
    var n := |returned|;
    assert Done(returned) == issued[..n];
    assert issued == issued[..n] + issued[n..];
    RowReadsPrefix(issued[..n], issued[n..], k);
  }

  /** The accesses issued to a row are the first that arrived for it. */
  lemma IssuedFirst(p: Timing, g: Shape, ins: seq<Input>, k: Key)
    requires p.Sane() && p.tCMD == 1
    ensures var o := FullRun(p, g, ins);
            o.Running? ==>
              && Select(o.state.issued, k) <= Select(Arrivals(ins), k)
              && Answers(Select(o.state.issued, k)) <= Answers(Select(Arrivals(ins), k))
  {
    var o := FullRun(p, g, ins);
    RunKeepsFull(p, g, ins);
    ArrivedIs(p, g, ins);
    if o.Running? {
      var f := o.state;
      assert BalancedFull(g, f, k);
      FirstPart(Select(f.arrived, k), Select(f.issued, k), Select(QueueOf(g, f.queues, k.rank, k.bank), k),
                Select(f.waiting, k));
    }
  }

  lemma FirstPart(all: seq<Packet>, a: seq<Packet>, b: seq<Packet>, c: seq<Packet>)
    requires all == a + b + c
    ensures a <= all && Answers(a) <= Answers(all)
  {
    assert all == a + (b + c);
    AnswersPrefix(a, b + c);
  }

  // ---------- the data bus ----------

  /** The invariant of a run whose data bus is safe. */
  ghost predicate SafeFull(p: Timing, g: Shape, f: Full)
    requires p.Sane()
  {
    FullInv(p, g, f) && SafeInv(p, g.policy, f.sys) && |f.sys.ch.ranks| == g.numRanks
  }

  lemma SafeStep(p: Timing, g: Shape, f: Full, input: Input)
    requires p.Sane() && p.tCMD == 1 && BusSafe(p, g.numRanks) && SafeFull(p, g, f) && Admissible(g, f, input)
    ensures var o := FullCycle(p, g, f, input); !o.Crashed? && (o.Running? ==> SafeFull(p, g, o.state))
  {
    var d := Decision(PopOf(f.queues, input.choice), input.power);
    ChoiceHeeds(p, g, f.queues, f.sys.ch, input.choice);
    SafeCycle(p, g.policy, f.sys, d);
    var o := SystemCycle(p, g.policy, f.sys, d);
    if o.Running? {
      CycleKeepsFull(p, g, f, input, o.state);
    }
  }

  /** With a safe data bus, no run of the controller fails at all. */
  lemma {:induction false} NoControllerRunFails(p: Timing, g: Shape, ins: seq<Input>)
    requires p.Sane() && p.tCMD == 1 && BusSafe(p, g.numRanks)
    ensures var o := FullRun(p, g, ins); !o.Crashed? && (o.Running? ==> SafeFull(p, g, o.state))
  {
    if ins == [] {
      StartFull(p, g);
      SafeStart(p, g.policy, g.numRanks, g.numBanks);
    } else {
      NoControllerRunFails(p, g, ins[..|ins| - 1]);
      var o := FullRun(p, g, ins[..|ins| - 1]);
      if o.Running? && Admissible(g, o.state, ins[|ins| - 1]) {
        SafeStep(p, g, o.state, ins[|ins| - 1]);
      }
    }
  }
}
