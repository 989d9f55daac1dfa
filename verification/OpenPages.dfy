/**
 With open pages, a row that was opened for an access stays open until the access is taken:
 the scheduler does not close it, so the access is never stranded without its ACTIVATE.
 */
module OpenPages {
  import opened BankTiming
  import opened Protocol
  import opened DataPath
  import opened CommandQueues
  import opened Controller
  import opened OpenRows
  import QueueOrder
  import ArrivalOrder
  import Floors
  import Scheduler

  // ---------- the invariant ----------

  /** An access without its ACTIVATE is the first of its row, and its row is open and has not
      been hit since. */
  ghost predicate KeptAt(q: seq<Packet>, mc: seq<BankState>, acc: seq<nat>, i: nat)
    requires i < |q|
  {
    var b := q[i].command.bank;
    IsColumn(q[i]) && !HasAct(q, i) ==>
      && b < |mc| && b < |acc| && mc[b].status.RowActive? && mc[b].openRow == q[i].command.row && acc[b] == 0
      && FirstOfRow(q, i)
  }

  ghost predicate Kept(q: seq<Packet>, mc: seq<BankState>, acc: seq<nat>) {
    forall i :: 0 <= i < |q| ==> KeptAt(q, mc, acc, i)
  }

  /** The accesses to a row are counted from its opening. */
  ghost predicate Rested(mc: seq<BankState>, acc: seq<nat>) {
    |mc| == |acc| && forall b :: 0 <= b < |mc| && !mc[b].status.RowActive? ==> acc[b] == 0
  }

  // ---------- phases that keep the rows ----------

  predicate SameRow1(m: BankState, n: BankState) {
    (m.status.RowActive? <==> n.status.RowActive?) && (m.status.RowActive? ==> n.openRow == m.openRow)
  }

  ghost predicate SameRows(a: seq<BankState>, b: seq<BankState>) {
    |a| == |b| && forall j :: 0 <= j < |a| ==> SameRow1(a[j], b[j])
  }

  lemma KeptSame(q: seq<Packet>, a: seq<BankState>, b: seq<BankState>, acc: seq<nat>)
    requires SameRows(a, b)
    ensures Kept(q, a, acc) ==> Kept(q, b, acc)
    ensures Rested(a, acc) ==> Rested(b, acc)
  {
    if Kept(q, a, acc) {
      forall i | 0 <= i < |q| ensures KeptAt(q, b, acc, i) {
        assert KeptAt(q, a, acc, i);
      }
    }
  }

  lemma TickRows(p: Timing, ch: Channel, ch1: Channel, r: nat)
    requires p.Sane() && Inv(p, OpenPage, ch.clock, ch) && Deliver(p, TickAll(p, ch)) == Running(ch1) && r < |ch.ranks|
    ensures r < |ch1.ranks| && SameRows(ch.ranks[r].mc, ch1.ranks[r].mc)
  {
    assert ch1.ranks[r].mc == TickRank(p, ch.ranks[r]).mc;
    assert RankInv(p, OpenPage, ch.clock, ch, r);
    var a := Arrived(p, ch.clock, ch.bus, r, ch.ranks[r]);
    forall b | 0 <= b < |ch.ranks[r].mc| ensures SameRow1(ch.ranks[r].mc[b], ch1.ranks[r].mc[b]) {
      assert BankOk(OpenPage, ch.clock - 1, a, b);
    }
  }

  lemma {:induction false} PowerStaysClosed(p: Timing, s: Channel, power: nat -> PowerMove, i: nat, r: nat, b: nat)
    requires PowerFrom(p, s, power, i).Running? && r < |s.ranks| && b < |s.ranks[r].mc| && !s.ranks[r].mc[b].status.RowActive?
    ensures var s' := PowerFrom(p, s, power, i).state;
            |s'.ranks| == |s.ranks| && |s'.ranks[r].mc| == |s.ranks[r].mc| && !s'.ranks[r].mc[b].status.RowActive?
    decreases |s.ranks| - i
  {
    if i < |s.ranks| {
      var o := PowerRank(p, s.clock, s.ranks[i], power(i));
      PowerStaysClosed(p, s.(ranks := s.ranks[i := o.state]), power, i + 1, r, b);
    }
  }

  lemma PowerRows(p: Timing, policy: Policy, s: Channel, power: nat -> PowerMove, r: nat)
    requires p.Sane() && Inv(p, policy, s.clock + 1, s) && TargetAwake(s) && PowerFrom(p, s, power, 0).Running?
    requires r < |s.ranks| && r < |PowerFrom(p, s, power, 0).state.ranks|
    requires |PowerFrom(p, s, power, 0).state.ranks[r].mc| == |s.ranks[r].mc|
    ensures SameRows(s.ranks[r].mc, PowerFrom(p, s, power, 0).state.ranks[r].mc)
  {
    var s' := PowerFrom(p, s, power, 0).state;
    forall b | 0 <= b < |s.ranks[r].mc| ensures SameRow1(s.ranks[r].mc[b], s'.ranks[r].mc[b]) {
      if s.ranks[r].mc[b].status.RowActive? {
        PowerKeepsActive(p, policy, s, power, 0, r, b);
      } else {
        PowerStaysClosed(p, s, power, 0, r, b);
      }
    }
  }

  // ---------- the issue of a command ----------

  /** What a command does to the row of a bank. */
  ghost predicate Effect(pop: Pop, r: nat, b: nat, m: BankState, m': BankState) {
    if pop.Send? && pop.command.rank == r && pop.command.bank == b && pop.command.kind.ACTIVATE?
    then !m.status.RowActive? && m'.status.RowActive? && m'.openRow == pop.command.row
    else if pop.Send? && pop.command.rank == r && pop.command.bank == b && pop.command.kind.PRECHARGE?
    then !m'.status.RowActive?
    else SameRow1(m, m')
  }

  lemma PopEffect(p: Timing, ch1: Channel, pop: Pop, ch2: Channel, r: nat, b: nat)
    requires p.Sane() && PopPhase(p, OpenPage, ch1, pop) == Running(ch2) && r < |ch1.ranks| && b < |ch1.ranks[r].mc|
    ensures r < |ch2.ranks| && |ch2.ranks[r].mc| == |ch1.ranks[r].mc|
    ensures Effect(pop, r, b, ch1.ranks[r].mc[b], ch2.ranks[r].mc[b])
  {
  }

  /** All banks of a rank. */
  ghost predicate Effects(pop: Pop, r: nat, mc: seq<BankState>, mc': seq<BankState>) {
    |mc| == |mc'| && forall b :: 0 <= b < |mc| ==> Effect(pop, r, b, mc[b], mc'[b])
  }

  // ---------- the queues ----------

  /** An access without its ACTIVATE is what its row waits for. */
  lemma LooseAwaits(q: seq<Packet>, i: nat)
    requires Paired(q) && QueueOrder.Typed(q) && i < |q| && IsColumn(q[i]) && !HasAct(q, i) && FirstOfRow(q, i)
    ensures Scheduler.Awaits(q, q[i].command.bank, q[i].command.row, i)
  {
    forall k | 0 <= k < i ensures !SameRow(q[k], q[i]) {
      assert PairedAt(q, k);
      assert IsAct(q[k]) && SameRow(q[k], q[i]) && k + 1 < i ==> SameRow(q[k + 1], q[i]);
    }
  }

  /** The command does not open a bank of this lane, and closes one only if no access waits. */
  ghost predicate Spares(g: Shape, q: seq<Packet>, mc: seq<BankState>, acc: seq<nat>, r: nat, x: nat, total: nat, pop: Pop) {
    pop.Send? && pop.command.rank == r && g.Lane(pop.command.bank) == x ==>
      && !pop.command.kind.ACTIVATE?
      && (pop.command.kind.PRECHARGE? && pop.command.bank < |mc| && pop.command.bank < |acc| ==>
            acc[pop.command.bank] == total || !Scheduler.WaitsOn(q, pop.command.bank, mc[pop.command.bank].openRow))
  }

  /** A lane from which nothing is taken. */
  lemma KeptElsewhere(g: Shape, q: seq<Packet>, mc: seq<BankState>, mc': seq<BankState>, acc: seq<nat>, acc': seq<nat>,
                      r: nat, x: nat, total: nat, pop: Pop)
    requires Kept(q, mc, acc) && Paired(q) && QueueOrder.Typed(q) && Effects(pop, r, mc, mc') && total > 0
    requires forall j :: 0 <= j < |q| ==> QueueOrder.PacketOk(g, q[j], r, x)
    requires Spares(g, q, mc, acc, r, x, total, pop)
    requires |acc'| == |acc| && forall b :: 0 <= b < |acc| && g.Lane(b) == x ==> acc'[b] == acc[b] || acc'[b] == 0
    ensures Kept(q, mc', acc')
  {
    forall i | 0 <= i < |q| ensures KeptAt(q, mc', acc', i) {
      assert KeptAt(q, mc, acc, i) && QueueOrder.PacketOk(g, q[i], r, x);
      if IsColumn(q[i]) && !HasAct(q, i) {
        var b := q[i].command.bank;
        LooseAwaits(q, i);
        assert Effect(pop, r, b, mc[b], mc'[b]);
      }
    }
  }

  /** The packet at position i after the removal, at its old position. */
  function OldPlace(q: seq<Packet>, j: nat, i: nat): nat
    requires j < |q|
  {
    if i < (if HasAct(q, j) then j - 1 else j) then i else if HasAct(q, j) then i + 2 else i + 1
  }

  lemma Moved(q: seq<Packet>, j: nat, i: nat)
    requires j < |q| && i < |Taken(OpenPage, q, j)|
    ensures var k := OldPlace(q, j, i); k < |q| && k != j && Taken(OpenPage, q, j)[i] == q[k]
  {
  }

  /** Which accesses are without their ACTIVATE after a removal. */
  lemma LooseBefore(q: seq<Packet>, j: nat, i: nat)
    requires Paired(q) && j < |q| && i < |Taken(OpenPage, q, j)|
    ensures var k := OldPlace(q, j, i);
            k < |q| && (IsColumn(q[k]) && !HasAct(Taken(OpenPage, q, j), i) ==> !HasAct(q, k) || (k == j + 1 && IsAct(q[j])))
  {
  }

  /** The first of its row stays the first. */
  lemma StillFirst(q: seq<Packet>, j: nat, i: nat)
    requires j < |q| && i < |Taken(OpenPage, q, j)| && OldPlace(q, j, i) < |q| && FirstOfRow(q, OldPlace(q, j, i))
    ensures FirstOfRow(Taken(OpenPage, q, j), i)
  {
  }

  /** The lane a packet is taken from. */
  lemma KeptTaken(t: int, q: seq<Packet>, mc: seq<BankState>, mc': seq<BankState>, acc: seq<nat>, acc': seq<nat>, r: nat, j: nat)
    requires Kept(q, mc, acc) && Paired(q) && QueueOrder.Typed(q) && Rested(mc, acc) && j < |q| && FirstOfRow(q, j)
    requires var c := q[j].command; c.rank == r && c.bank < |mc| && Issuable(t, c, mc[c.bank]) && Effects(Send(c), r, mc, mc')
    requires |acc'| == |acc| && forall b :: 0 <= b < |acc| && (b != q[j].command.bank || IsAct(q[j])) ==> acc'[b] == acc[b]
    ensures Kept(Taken(OpenPage, q, j), mc', acc')
  {
    var q' := Taken(OpenPage, q, j);
    forall i | 0 <= i < |q'| ensures KeptAt(q', mc', acc', i) {
      KeptMoved(t, q, mc, mc', acc, acc', r, j, i);
    }
  }

  lemma KeptMoved(t: int, q: seq<Packet>, mc: seq<BankState>, mc': seq<BankState>, acc: seq<nat>, acc': seq<nat>, r: nat, j: nat, i: nat)
    requires Kept(q, mc, acc) && Paired(q) && QueueOrder.Typed(q) && Rested(mc, acc) && j < |q| && FirstOfRow(q, j)
    requires var c := q[j].command; c.rank == r && c.bank < |mc| && Issuable(t, c, mc[c.bank]) && Effects(Send(c), r, mc, mc')
    requires |acc'| == |acc| && forall b :: 0 <= b < |acc| && (b != q[j].command.bank || IsAct(q[j])) ==> acc'[b] == acc[b]
    requires i < |Taken(OpenPage, q, j)|
    ensures KeptAt(Taken(OpenPage, q, j), mc', acc', i)
  {
    var q', k := Taken(OpenPage, q, j), OldPlace(q, j, i);
    Moved(q, j, i);
    if IsColumn(q'[i]) && !HasAct(q', i) {
      LooseBefore(q, j, i);
      var b := q[k].command.bank;
      if !HasAct(q, k) {
        assert KeptAt(q, mc, acc, k);
        assert Effect(Send(q[j].command), r, b, mc[b], mc'[b]);
        StillFirst(q, j, i);
        NotItsBank(t, q, mc, acc, j, k);
      } else {
        assert PairedAt(q, j);
        assert Effect(Send(q[j].command), r, b, mc[b], mc'[b]);
        FirstBehindAct(q, j);
      }
    }
  }

  /** A packet that may be issued goes to another bank than the accesses that stay behind. */
  lemma NotItsBank(t: int, q: seq<Packet>, mc: seq<BankState>, acc: seq<nat>, j: nat, k: nat)
    requires QueueOrder.Typed(q) && j < |q| && k < |q| && j != k && FirstOfRow(q, j) && IsColumn(q[k]) && !HasAct(q, k)
    requires KeptAt(q, mc, acc, k) && q[j].command.bank < |mc| && Issuable(t, q[j].command, mc[q[j].command.bank])
    ensures !SameBank(q[j], q[k])
  {
  }

  /** The access behind an ACTIVATE that is the first of its row becomes the first itself. */
  lemma FirstBehindAct(q: seq<Packet>, j: nat)
    requires Paired(q) && j + 1 < |q| && IsAct(q[j]) && FirstOfRow(q, j)
    ensures !HasAct(q, j) && FirstOfRow(Taken(OpenPage, q, j), j)
  {
    ActStandsAlone(q, j);
    assert PairedAt(q, j);
    var q' := Taken(OpenPage, q, j);
    forall l | 0 <= l < j ensures !(IsColumn(q'[l]) && SameRow(q'[l], q'[j])) {
      assert q'[l] == q[l] && q'[j] == q[j + 1];
    }
  }

  /** A new transaction at the end. */
  lemma KeptAppended(q: seq<Packet>, mc: seq<BankState>, acc: seq<nat>, e: Packet)
    requires Kept(q, mc, acc)
    ensures Kept(q + [ActFor(e)] + [e], mc, acc)
  {
    var q' := q + [ActFor(e)] + [e];
    forall i | 0 <= i < |q'| ensures KeptAt(q', mc, acc, i) {
      if i < |q| {
        assert KeptAt(q, mc, acc, i);
      }
    }
  }

  // ---------- the counters ----------

  lemma RestedStep(pop: Pop, r: nat, mc: seq<BankState>, mc': seq<BankState>, acc: seq<nat>, acc': seq<nat>)
    requires Rested(mc, acc) && Effects(pop, r, mc, mc') && |acc'| == |acc|
    requires forall b :: 0 <= b < |acc| ==>
               acc'[b] == acc[b] || acc'[b] == 0 || (mc[b].status.RowActive? && Accesses(pop, r, b))
    requires pop.Send? && pop.command.kind.PRECHARGE? && pop.command.rank == r && pop.command.bank < |acc| ==>
               acc'[pop.command.bank] == 0
    ensures Rested(mc', acc')
  {
  }

  /** How a choice changes the counters of a rank. */
  lemma CountIs(g: Shape, queues: Queues, accesses: seq<seq<nat>>, choice: Choice, r: nat, b: nat)
    requires Legal(g, queues, choice) && r < |accesses| && b < |accesses[r]|
    ensures var acc' := Scheduler.Count(g.policy, queues, accesses, choice); var pop := PopOf(queues, choice);
            && |acc'| == |accesses| && |acc'[r]| == |accesses[r]|
            && (acc'[r][b] == accesses[r][b] || acc'[r][b] == 0
                || (choice.Take? && choice.rank == r && pop.command.bank == b && HasAct(queues[r][choice.lane], choice.i)))
            && (pop.Send? && pop.command.kind.PRECHARGE? && choice.MakeUp? && pop.command.rank == r && pop.command.bank == b ==>
                  acc'[r][b] == 0)
            && (choice.Take? && !(choice.rank == r && pop.command.bank == b) ==> acc'[r][b] == accesses[r][b])
            && (choice.Take? && !HasAct(queues[choice.rank][choice.lane], choice.i) ==> acc'[r][b] == accesses[r][b])
  {
  }

  // ---------- whole states ----------

  ghost predicate RankKept(ch: Channel, accesses: seq<seq<nat>>, r: nat)
    requires r < |ch.ranks| && r < |accesses|
  {
    Rested(ch.ranks[r].mc, accesses[r])
  }

  ghost predicate LaneKept(queues: Queues, ch: Channel, accesses: seq<seq<nat>>, r: nat, x: nat)
    requires InQueues(queues, r, x) && r < |ch.ranks| && r < |accesses|
  {
    Kept(queues[r][x], ch.ranks[r].mc, accesses[r])
  }

  ghost predicate AllKept(g: Shape, queues: Queues, ch: Channel, accesses: seq<seq<nat>>) {
    && |queues| == |ch.ranks| == |accesses| == g.numRanks
    && (forall r :: 0 <= r < g.numRanks ==> RankKept(ch, accesses, r))
    && (forall r: nat, x: nat :: InQueues(queues, r, x) ==> LaneKept(queues, ch, accesses, r, x))
  }

  /** A cycle in which the scheduler made this choice. */
  ghost predicate Chose(p: Timing, g: Shape, f: Full, choice: Choice, power: nat -> PowerMove, ch1: Channel, ch2: Channel,
                        sys': System, v: Scheduler.View)
    requires p.Sane()
  {
    && g.policy.OpenPage? && ArrivalOrder.FullInv(p, g, f) && Legal(g, f.queues, choice)
    && Through(p, g.policy, f.sys, Decision(PopOf(f.queues, choice), power), ch1, ch2, sys')
    && |ch1.ranks| == |ch2.ranks| == |sys'.ch.ranks| == |f.sys.ch.ranks| == |v.banks| == g.numRanks
    && (forall r :: 0 <= r < g.numRanks ==> v.banks[r] == ch1.ranks[r].mc)
    && Scheduler.Covers(g, v) && Scheduler.AllFine(g, v, f.queues) && Scheduler.Cautious(g, v, f.queues, choice) && v.total > 0
  }

  lemma ChoseRows(p: Timing, g: Shape, f: Full, choice: Choice, power: nat -> PowerMove, ch1: Channel, ch2: Channel,
                  sys': System, v: Scheduler.View, r: nat)
    requires p.Sane() && p.tCMD == 1 && Chose(p, g, f, choice, power, ch1, ch2, sys', v) && r < g.numRanks
    ensures SameRows(f.sys.ch.ranks[r].mc, ch1.ranks[r].mc)
    ensures Effects(PopOf(f.queues, choice), r, ch1.ranks[r].mc, ch2.ranks[r].mc)
    ensures SameRows(ch2.ranks[r].mc, sys'.ch.ranks[r].mc)
  {
    var d := Decision(PopOf(f.queues, choice), power);
    TickRows(p, f.sys.ch, ch1, r);
    forall b | 0 <= b < |ch1.ranks[r].mc| ensures Effect(d.pop, r, b, ch1.ranks[r].mc[b], ch2.ranks[r].mc[b]) {
      PopEffect(p, ch1, d.pop, ch2, r, b);
    }
    assert |ch2.ranks[r].mc| == |ch1.ranks[r].mc| by {
      if d.pop.Send? {
        assert ch2.ranks[r].mc == IssueRank(p, ch1.clock, d.pop.command, r, ch1.ranks[r]).mc;
      }
    }
    PopInv(p, g.policy, f.sys, d, ch1, ch2, sys');
    Floors.PowerKeepsTimes(p, ch2, power, 0);
    assert Floors.SameTimesRank(ch2.ranks[r], sys'.ch.ranks[r]);
    PowerRows(p, g.policy, ch2, power, r);
  }

  lemma RankStep(p: Timing, g: Shape, f: Full, choice: Choice, power: nat -> PowerMove, ch1: Channel, ch2: Channel,
                 sys': System, v: Scheduler.View, r: nat)
    requires p.Sane() && p.tCMD == 1 && Chose(p, g, f, choice, power, ch1, ch2, sys', v) && r < g.numRanks
    requires Rested(f.sys.ch.ranks[r].mc, v.accesses[r])
    ensures var acc' := Scheduler.Count(g.policy, f.queues, v.accesses, choice);
            |acc'| == g.numRanks && Rested(sys'.ch.ranks[r].mc, acc'[r])
  {
    var pop, acc, acc' := PopOf(f.queues, choice), v.accesses, Scheduler.Count(g.policy, f.queues, v.accesses, choice);
    ChoseRows(p, g, f, choice, power, ch1, ch2, sys', v, r);
    var mc, mc1, mc2 := f.sys.ch.ranks[r].mc, ch1.ranks[r].mc, ch2.ranks[r].mc;
    KeptSame([], mc, mc1, acc[r]);
    assert |acc'| == |acc| && |acc'[r]| == |acc[r]|;
    forall b | 0 <= b < |acc[r]|
      ensures acc'[r][b] == acc[r][b] || acc'[r][b] == 0 || (mc1[b].status.RowActive? && Accesses(pop, r, b))
      ensures pop.Send? && pop.command.kind.PRECHARGE? && pop.command.rank == r && pop.command.bank == b ==> acc'[r][b] == 0
    {
      CountIs(g, f.queues, acc, choice, r, b);
      if choice.Take? {
        HitIsOpen(p, g, f, choice, ch1, ch2);
      }
    }
    RestedStep(pop, r, mc1, mc2, acc[r], acc'[r]);
    KeptSame([], mc2, sys'.ch.ranks[r].mc, acc'[r]);
  }

  /** A packet taken from a queue: it is no PRECHARGE, and if it comes with its ACTIVATE it is an
      access to an open row. */
  lemma HitIsOpen(p: Timing, g: Shape, f: Full, choice: Choice, ch1: Channel, ch2: Channel)
    requires p.Sane() && QueueOrder.QueuesOk(g, f.queues, f.sys.ch) && choice.Take? && Legal(g, f.queues, choice)
    requires PopPhase(p, g.policy, ch1, PopOf(f.queues, choice)) == Running(ch2)
    ensures var c, q := PopOf(f.queues, choice).command, f.queues[choice.rank][choice.lane];
            && c == q[choice.i].command && c.rank == choice.rank < |ch1.ranks| && g.Lane(c.bank) == choice.lane
            && c.bank < |ch1.ranks[c.rank].mc| && Issuable(ch1.clock, c, ch1.ranks[c.rank].mc[c.bank])
            && !c.kind.PRECHARGE? && !c.kind.REFRESH?
            && (HasAct(q, choice.i) ==> ch1.ranks[c.rank].mc[c.bank].status.RowActive? && Accesses(Send(c), c.rank, c.bank))
  {
    var r, x, q := choice.rank, choice.lane, f.queues[choice.rank][choice.lane];
    assert QueueOrder.LaneOk(g, f.queues, f.sys.ch, r, x);
    assert QueueOrder.PacketOk(g, q[choice.i], r, x);
    if HasAct(q, choice.i) {
      assert PairedAt(q, choice.i - 1);
    }
  }

  /** The queue of a lane after the choice. */
  function LaneAfter(queues: Queues, choice: Choice, r: nat, x: nat): seq<Packet>
    requires InQueues(queues, r, x)
  {
    if choice.Take? && choice.rank == r && choice.lane == x && choice.i < |queues[r][x]|
    then Taken(OpenPage, queues[r][x], choice.i) else queues[r][x]
  }

  lemma AfterIs(g: Shape, queues: Queues, choice: Choice, r: nat, x: nat)
    requires g.policy.OpenPage? && Legal(g, queues, choice)
    ensures |After(g.policy, queues, choice)| == |queues|
    ensures InQueues(After(g.policy, queues, choice), r, x) <==> InQueues(queues, r, x)
    ensures InQueues(queues, r, x) ==> After(g.policy, queues, choice)[r][x] == LaneAfter(queues, choice, r, x)
  {
  }

  lemma ChosenLaneStep(p: Timing, g: Shape, f: Full, choice: Choice, power: nat -> PowerMove, ch1: Channel, ch2: Channel,
                 sys': System, v: Scheduler.View, r: nat, x: nat)
    requires p.Sane() && p.tCMD == 1 && Chose(p, g, f, choice, power, ch1, ch2, sys', v) && InQueues(f.queues, r, x) && r < g.numRanks
    requires Rested(f.sys.ch.ranks[r].mc, v.accesses[r]) && Kept(f.queues[r][x], f.sys.ch.ranks[r].mc, v.accesses[r])
    requires choice.Take? && choice.rank == r && choice.lane == x
    ensures var acc' := Scheduler.Count(g.policy, f.queues, v.accesses, choice);
            |acc'| == g.numRanks && Kept(LaneAfter(f.queues, choice, r, x), sys'.ch.ranks[r].mc, acc'[r])
  {
    var pop, acc, acc' := PopOf(f.queues, choice), v.accesses, Scheduler.Count(g.policy, f.queues, v.accesses, choice);
    ChoseRows(p, g, f, choice, power, ch1, ch2, sys', v, r);
    var q, mc, mc1, mc2 := f.queues[r][x], f.sys.ch.ranks[r].mc, ch1.ranks[r].mc, ch2.ranks[r].mc;
    KeptSame(q, mc, mc1, acc[r]);
    assert |acc'| == |acc| && |acc'[r]| == |acc[r]|;
    assert QueueOrder.LaneOk(g, f.queues, f.sys.ch, r, x);
    Scheduler.IsTyped(g, v, q, r, x);
    HitIsOpen(p, g, f, choice, ch1, ch2);
    forall b | 0 <= b < |acc[r]| && (b != pop.command.bank || IsAct(q[choice.i])) ensures acc'[r][b] == acc[r][b] {
      CountIs(g, f.queues, acc, choice, r, b);
      if IsAct(q[choice.i]) {
        ActStandsAlone(q, choice.i);
      }
    }
    KeptTaken(ch1.clock, q, mc1, mc2, acc[r], acc'[r], r, choice.i);
    KeptSame(Taken(OpenPage, q, choice.i), mc2, sys'.ch.ranks[r].mc, acc'[r]);
  }

  lemma OtherLaneStep(p: Timing, g: Shape, f: Full, choice: Choice, power: nat -> PowerMove, ch1: Channel, ch2: Channel,
                 sys': System, v: Scheduler.View, r: nat, x: nat)
    requires p.Sane() && p.tCMD == 1 && Chose(p, g, f, choice, power, ch1, ch2, sys', v) && InQueues(f.queues, r, x) && r < g.numRanks
    requires Rested(f.sys.ch.ranks[r].mc, v.accesses[r]) && Kept(f.queues[r][x], f.sys.ch.ranks[r].mc, v.accesses[r])
    requires !(choice.Take? && choice.rank == r && choice.lane == x)
    ensures var acc' := Scheduler.Count(g.policy, f.queues, v.accesses, choice);
            |acc'| == g.numRanks && Kept(LaneAfter(f.queues, choice, r, x), sys'.ch.ranks[r].mc, acc'[r])
  {
    var pop, acc, acc' := PopOf(f.queues, choice), v.accesses, Scheduler.Count(g.policy, f.queues, v.accesses, choice);
    ChoseRows(p, g, f, choice, power, ch1, ch2, sys', v, r);
    var q, mc, mc1, mc2 := f.queues[r][x], f.sys.ch.ranks[r].mc, ch1.ranks[r].mc, ch2.ranks[r].mc;
    KeptSame(q, mc, mc1, acc[r]);
    assert |acc'| == |acc| && |acc'[r]| == |acc[r]|;
    assert QueueOrder.LaneOk(g, f.queues, f.sys.ch, r, x);
    Scheduler.IsTyped(g, v, q, r, x);
    LaneSpared(p, g, f, choice, ch1, ch2, v, r, x);
    forall b | 0 <= b < |acc[r]| && g.Lane(b) == x ensures acc'[r][b] == acc[r][b] || acc'[r][b] == 0 {
      CountIs(g, f.queues, acc, choice, r, b);
      if choice.Take? {
        HitIsOpen(p, g, f, choice, ch1, ch2);
      }
    }
    KeptElsewhere(g, q, mc1, mc2, acc[r], acc'[r], r, x, v.total, pop);
    KeptSame(q, mc2, sys'.ch.ranks[r].mc, acc'[r]);
  }

  lemma LaneStep(p: Timing, g: Shape, f: Full, choice: Choice, power: nat -> PowerMove, ch1: Channel, ch2: Channel,
                 sys': System, v: Scheduler.View, r: nat, x: nat)
    requires p.Sane() && p.tCMD == 1 && Chose(p, g, f, choice, power, ch1, ch2, sys', v) && InQueues(f.queues, r, x) && r < g.numRanks
    requires Rested(f.sys.ch.ranks[r].mc, v.accesses[r]) && Kept(f.queues[r][x], f.sys.ch.ranks[r].mc, v.accesses[r])
    ensures var acc' := Scheduler.Count(g.policy, f.queues, v.accesses, choice);
            |acc'| == g.numRanks && Kept(LaneAfter(f.queues, choice, r, x), sys'.ch.ranks[r].mc, acc'[r])
  {
    if choice.Take? && choice.rank == r && choice.lane == x {
      ChosenLaneStep(p, g, f, choice, power, ch1, ch2, sys', v, r, x);
    } else {
      OtherLaneStep(p, g, f, choice, power, ch1, ch2, sys', v, r, x);
    }
  }

  lemma LaneSpared(p: Timing, g: Shape, f: Full, choice: Choice, ch1: Channel, ch2: Channel, v: Scheduler.View, r: nat, x: nat)
    requires p.Sane() && QueueOrder.QueuesOk(g, f.queues, f.sys.ch) && Legal(g, f.queues, choice) && r < g.numRanks
    requires PopPhase(p, g.policy, ch1, PopOf(f.queues, choice)) == Running(ch2) && r < |ch1.ranks|
    requires Scheduler.Covers(g, v) && Scheduler.AllFine(g, v, f.queues) && Scheduler.Cautious(g, v, f.queues, choice)
    requires v.banks[r] == ch1.ranks[r].mc && InQueues(f.queues, r, x)
    requires !(choice.Take? && choice.rank == r && choice.lane == x)
    ensures Spares(g, f.queues[r][x], ch1.ranks[r].mc, v.accesses[r], r, x, v.total, PopOf(f.queues, choice))
  {
  }

  /** A cycle keeps all rows that accesses wait for. */
  lemma CycleKeepsRows(p: Timing, g: Shape, f: Full, choice: Choice, power: nat -> PowerMove, ch1: Channel, ch2: Channel,
                       sys': System, v: Scheduler.View)
    requires p.Sane() && p.tCMD == 1 && Chose(p, g, f, choice, power, ch1, ch2, sys', v)
    requires AllKept(g, f.queues, f.sys.ch, v.accesses)
    ensures AllKept(g, After(g.policy, f.queues, choice), sys'.ch, Scheduler.Count(g.policy, f.queues, v.accesses, choice))
  {
    var queues', acc' := After(g.policy, f.queues, choice), Scheduler.Count(g.policy, f.queues, v.accesses, choice);
    AfterIs(g, f.queues, choice, 0, 0);
    assert |acc'| == g.numRanks;
    forall r | 0 <= r < g.numRanks ensures RankKept(sys'.ch, acc', r) {
      assert RankKept(f.sys.ch, v.accesses, r);
      RankStep(p, g, f, choice, power, ch1, ch2, sys', v, r);
    }
    forall r: nat, x: nat | InQueues(queues', r, x) ensures LaneKept(queues', sys'.ch, acc', r, x) {
      AfterIs(g, f.queues, choice, r, x);
      assert RankKept(f.sys.ch, v.accesses, r) && LaneKept(f.queues, f.sys.ch, v.accesses, r, x);
      LaneStep(p, g, f, choice, power, ch1, ch2, sys', v, r, x);
    }
  }

  /** So does splitting a transaction. */
  lemma SplitKeepsRows(g: Shape, queues: Queues, ch: Channel, accesses: seq<seq<nat>>, waiting: seq<Packet>)
    requires QueueOrder.QueuesOk(g, queues, ch) && QueueOrder.AllValid(g, waiting) && AllKept(g, queues, ch, accesses)
    ensures Schedule(g, queues, waiting).Running?
    ensures AllKept(g, Schedule(g, queues, waiting).state.0, ch, accesses)
  {
    var i := FirstWithRoom(g, queues, waiting);
    if i < |waiting| {
      var e := waiting[i];
      var s, y := e.command.rank, g.Lane(e.command.bank);
      QueueOrder.EnqueuesPair(g, queues, ch, e);
      var queues' := QueueOrder.Split(g, queues, e);
      forall r: nat, x: nat | InQueues(queues', r, x) ensures LaneKept(queues', ch, accesses, r, x) {
        assert LaneKept(queues, ch, accesses, r, x);
        if (r, x) == (s, y) {
          KeptAppended(queues[r][x], ch.ranks[r].mc, accesses[r], e);
        }
      }
    }
  }

  lemma StartKept(g: Shape)
    ensures AllKept(g, FullStart(g).queues, FullStart(g).sys.ch, Scheduler.NoAccesses(g))
  {
  }

  /** An access whose ACTIVATE was issued lacks nothing but time: once its bank's next read and
      write times are past, it can be issued and taken. */
  lemma NeverStranded(g: Shape, v: Scheduler.View, queues: Queues, r: nat, x: nat, i: nat)
    requires g.policy.OpenPage? && Scheduler.Covers(g, v) && Scheduler.AllFine(g, v, queues) && v.total > 0
    requires InQueues(queues, r, x) && i < |queues[r][x]| && r < g.numRanks && Kept(queues[r][x], v.banks[r], v.accesses[r])
    requires IsColumn(queues[r][x][i]) && !HasAct(queues[r][x], i) && queues[r][x][i].command.bank < |v.banks[r]|
    requires v.banks[r][queues[r][x][i].command.bank].nextRead <= v.clock
    requires v.banks[r][queues[r][x][i].command.bank].nextWrite <= v.clock
    ensures Scheduler.Takeable(g, v, queues[r][x], r, x, i)
  {
    var q := queues[r][x];
    assert KeptAt(q, v.banks[r], v.accesses[r], i);
    assert Scheduler.Fine(g, v, q, r, x);
    assert QueueOrder.PacketOk(g, q[i], r, x);
  }
}
