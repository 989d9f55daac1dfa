/**
 With closed pages a bank is only opened for an access that stands in the queue: an open bank
 that is not about to precharge by itself has such an access, for the row that is open.
 */
module ClosedPages {
  import opened Packets
  import opened BankTiming
  import opened Protocol
  import opened OpenRows
  import opened CommandQueues
  import opened Controller
  import Deadlines
  import QueueOrder
  import ArrivalOrder

  /** Entry i is an access to this row whose ACTIVATE is gone. */
  predicate LooseRow(q: seq<Packet>, i: nat, b: nat, row: nat) {
    i < |q| && IsColumn(q[i]) && !HasAct(q, i) && q[i].command.bank == b && q[i].command.row == row
  }

  predicate OpenFor(m: BankState) {
    m.status.RowActive? && !AutoPrecharging(m)
  }

  ghost predicate Matched(q: seq<Packet>, m: BankState, b: nat) {
    OpenFor(m) ==> exists i: nat :: LooseRow(q, i, b, m.openRow)
  }

  // ---------- the phases of a cycle ----------

  lemma MatchedTick(p: Timing, q: seq<Packet>, m: BankState, b: nat)
    requires p.Sane() && Matched(q, m, b)
    ensures Matched(q, Tick(p, m), b)
  {
  }

  /** The access behind a taken ACTIVATE is the one its bank is open for. */
  lemma ActMatched(p: Timing, q: seq<Packet>, i: nat, t: int, m: BankState)
    requires p.Sane() && Paired(q) && i < |q| && IsAct(q[i])
    ensures var c := q[i].command; Matched(RemoveAt(q, i), Issue(p, t, c, c.rank, c.bank, m), c.bank)
  {
    ActStandsAlone(q, i);
    assert PairedAt(q, i);
    assert LooseRow(RemoveAt(q, i), i, q[i].command.bank, q[i].command.row);
  }

  /** After an access the bank is about to precharge. */
  lemma AccessMatched(p: Timing, q: seq<Packet>, c: Command, t: int, m: BankState)
    requires p.Sane() && AutoKind(c)
    ensures Matched(q, Issue(p, t, c, c.rank, c.bank, m), c.bank)
  {
  }

  /** Another bank: its access stays in the queue. */
  lemma LooseStays(q: seq<Packet>, i: nat, k: nat, b: nat, row: nat)
    requires Paired(q) && i < |q| && Removable(ClosePage, q, i) && LooseRow(q, k, b, row) && q[i].command.bank != b
    ensures LooseRow(RemoveAt(q, i), if k < i then k else k - 1, b, row)
  {
    var q' := RemoveAt(q, i);
    var j := if k < i then k else k - 1;
    assert q'[j] == q[k];
    assert i > 0 ==> PairedAt(q, i - 1);
  }

  lemma MatchedRemoved(q: seq<Packet>, i: nat, m: BankState, b: nat)
    requires Paired(q) && i < |q| && Removable(ClosePage, q, i) && Matched(q, m, b) && q[i].command.bank != b
    ensures Matched(RemoveAt(q, i), m, b)
  {
    if OpenFor(m) {
      var k: nat :| LooseRow(q, k, b, m.openRow);
      LooseStays(q, i, k, b, m.openRow);
    }
  }

  lemma MatchedAppended(q: seq<Packet>, e: Packet, m: BankState, b: nat)
    requires Matched(q, m, b)
    ensures Matched(q + [ActFor(e)] + [e], m, b)
  {
    if OpenFor(m) {
      var k: nat :| LooseRow(q, k, b, m.openRow);
      assert LooseRow(q + [ActFor(e)] + [e], k, b, m.openRow);
    }
  }

  /** A command to another bank leaves open what was open. */
  lemma IssueApart(p: Timing, t: int, c: Command, i: nat, j: nat, m: BankState)
    requires p.Sane() && (i, j) != (c.rank, c.bank) && (c.kind.REFRESH? ==> i != c.rank)
    ensures var m' := Issue(p, t, c, i, j, m); (OpenFor(m') <==> OpenFor(m)) && m'.openRow == m.openRow
  {
  }

  lemma MatchedSame(q: seq<Packet>, m: BankState, m': BankState, b: nat)
    requires Matched(q, m, b) && (OpenFor(m') ==> OpenFor(m) && m'.openRow == m.openRow)
    ensures Matched(q, m', b)
  {
  }

  // ---------- one bank through a cycle ----------

  ghost predicate BankMatched(g: Shape, queues: Queues, ch: Channel, r: nat, b: nat) {
    r < |ch.ranks| && b < |ch.ranks[r].mc| && InQueues(queues, r, g.Lane(b)) ==> Matched(queues[r][g.Lane(b)], ch.ranks[r].mc[b], b)
  }

  ghost predicate AllMatched(g: Shape, queues: Queues, ch: Channel) {
    forall r: nat, b: nat :: BankMatched(g, queues, ch, r, b)
  }

  lemma TickMatched(p: Timing, g: Shape, queues: Queues, ch: Channel, ch1: Channel, r: nat, b: nat)
    requires p.Sane() && AllMatched(g, queues, ch) && Deliver(p, TickAll(p, ch)) == Running(ch1)
    ensures BankMatched(g, queues, ch1, r, b)
  {
    assert BankMatched(g, queues, ch, r, b);
    if r < |ch1.ranks| && b < |ch1.ranks[r].mc| && InQueues(queues, r, g.Lane(b)) {
      assert ch1.ranks[r].mc == TickRank(p, ch.ranks[r]).mc;
      MatchedTick(p, queues[r][g.Lane(b)], ch.ranks[r].mc[b], b);
    }
  }

  /** The choice is taken from the lane of the bank. */
  lemma TakenMatched(p: Timing, g: Shape, q: seq<Packet>, mc: seq<BankState>, x: nat, i: nat, t: int, r: nat, b: nat, m: BankState)
    requires p.Sane() && g.policy.ClosePage? && QueueOrder.QueueOk(g, q, mc, r, x) && i < |q| && Removable(ClosePage, q, i)
    requires Matched(q, m, b)
    ensures Matched(RemoveAt(q, i), Issue(p, t, q[i].command, r, b, m), b)
  {
    var c := q[i].command;
    assert QueueOrder.PacketOk(g, q[i], r, x);
    if c.bank == b {
      if IsAct(q[i]) {
        ActMatched(p, q, i, t, m);
      } else {
        AccessMatched(p, RemoveAt(q, i), c, t, m);
      }
    } else {
      MatchedRemoved(q, i, m, b);
      IssueApart(p, t, c, r, b, m);
      MatchedSame(RemoveAt(q, i), m, Issue(p, t, c, r, b, m), b);
    }
  }

  /** Nothing is taken from the lane of the bank. */
  lemma OtherMatched(p: Timing, g: Shape, q: seq<Packet>, t: int, c: Command, mc: seq<BankState>, r: nat, b: nat)
    requires p.Sane() && b < |mc| && Matched(q, mc[b], b)
    requires c.kind.REFRESH? || (r, b) != (c.rank, c.bank)
    ensures Matched(q, Issue(p, t, c, r, b, mc[b]), b)
  {
    if c.kind.REFRESH? && c.rank == r {
    } else {
      IssueApart(p, t, c, r, b, mc[b]);
      MatchedSame(q, mc[b], Issue(p, t, c, r, b, mc[b]), b);
    }
  }

  lemma PopMatched(p: Timing, g: Shape, queues: Queues, ch: Channel, ch1: Channel, choice: Choice, ch2: Channel, r: nat, b: nat)
    requires p.Sane() && g.policy.ClosePage? && QueueOrder.QueuesOk(g, queues, ch) && Legal(g, queues, choice)
    requires BankMatched(g, queues, ch1, r, b) && PopPhase(p, g.policy, ch1, PopOf(queues, choice)) == Running(ch2)
    ensures BankMatched(g, After(g.policy, queues, choice), ch2, r, b)
  {
    var queues', x := After(g.policy, queues, choice), g.Lane(b);
    if r < |ch2.ranks| && b < |ch2.ranks[r].mc| && InQueues(queues', r, x) && !choice.Wait? {
      var c, mc1 := PopOf(queues, choice).command, ch1.ranks[r].mc;
      assert ch2.ranks[r].mc[b] == Issue(p, ch1.clock, c, r, b, mc1[b]);
      if choice.Take? && choice.rank == r && choice.lane == x {
        assert QueueOrder.LaneOk(g, queues, ch, r, x);
        TakenMatched(p, g, queues[r][x], ch.ranks[r].mc, x, choice.i, ch1.clock, r, b, mc1[b]);
      } else {
        if choice.Take? {
          ApartFrom(g, queues, ch, choice, r, b);
        } else {
          assert Uses(g.policy, c.kind);
        }
        OtherMatched(p, g, queues[r][x], ch1.clock, c, mc1, r, b);
      }
    }
  }

  lemma ApartFrom(g: Shape, queues: Queues, ch: Channel, choice: Choice, r: nat, b: nat)
    requires QueueOrder.QueuesOk(g, queues, ch) && Legal(g, queues, choice) && choice.Take?
    requires !(choice.rank == r && choice.lane == g.Lane(b))
    ensures var c := PopOf(queues, choice).command; (r, b) != (c.rank, c.bank)
  {
    var q := queues[choice.rank][choice.lane];
    assert QueueOrder.LaneOk(g, queues, ch, choice.rank, choice.lane);
    assert QueueOrder.PacketOk(g, q[choice.i], choice.rank, choice.lane);
  }

  lemma PowerMatched(p: Timing, g: Shape, queues: Queues, ch2: Channel, power: nat -> PowerMove, r: nat, b: nat)
    requires PowerFrom(p, ch2, power, 0).Running? && BankMatched(g, queues, ch2, r, b)
    ensures BankMatched(g, queues, PowerFrom(p, ch2, power, 0).state, r, b)
  {
    if r < |ch2.ranks| {
      Deadlines.PowerAt(p, ch2, power, 0, r);
    } else {
      Deadlines.PowerSame(p, ch2, power);
    }
  }

  /** A transaction is split. */
  lemma SplitMatched(g: Shape, queues: Queues, ch: Channel, waiting: seq<Packet>, r: nat, b: nat)
    requires QueueOrder.QueuesOk(g, queues, ch) && QueueOrder.AllValid(g, waiting) && BankMatched(g, queues, ch, r, b)
    ensures Schedule(g, queues, waiting).Running? && BankMatched(g, Schedule(g, queues, waiting).state.0, ch, r, b)
  {
    QueueOrder.ScheduleKeeps(g, queues, ch, waiting);
    var i := FirstWithRoom(g, queues, waiting);
    if i < |waiting| {
      QueueOrder.EnqueuesPair(g, queues, ch, waiting[i]);
      if InQueues(queues, r, g.Lane(b)) && r < |ch.ranks| && b < |ch.ranks[r].mc| {
        MatchedAppended(queues[r][g.Lane(b)], waiting[i], ch.ranks[r].mc[b], b);
      }
    }
  }

  lemma CycleMatched(p: Timing, g: Shape, f: Full, input: Input)
    requires p.Sane() && p.tCMD == 1 && g.policy.ClosePage? && ArrivalOrder.FullInv(p, g, f) && AllMatched(g, f.queues, f.sys.ch)
    requires FullCycle(p, g, f, input).Running?
    ensures var f' := FullCycle(p, g, f, input).state; AllMatched(g, f'.queues, f'.sys.ch)
  {
    var f' := FullCycle(p, g, f, input).state;
    var ch1, ch2, s' := GoesThrough(p, g.policy, f.sys, Decision(PopOf(f.queues, input.choice), input.power));
    QueueOrder.ChoiceHeeds(p, g, f.queues, f.sys.ch, input.choice);
    QueueOrder.PopKeepsQueues(p, g, f, input, s');
    forall r: nat, b: nat ensures BankMatched(g, f'.queues, f'.sys.ch, r, b) {
      TickMatched(p, g, f.queues, f.sys.ch, ch1, r, b);
      PopMatched(p, g, f.queues, f.sys.ch, ch1, input.choice, ch2, r, b);
      PowerMatched(p, g, After(g.policy, f.queues, input.choice), ch2, input.power, r, b);
      SplitMatched(g, After(g.policy, f.queues, input.choice), s'.ch, f.waiting + input.arrivals, r, b);
    }
  }

  /** In every run with closed pages, every bank that stays open is open for a queued access. */
  lemma {:induction false} RunMatched(p: Timing, g: Shape, ins: seq<Input>)
    requires p.Sane() && p.tCMD == 1 && g.policy.ClosePage?
    ensures var o := FullRun(p, g, ins); o.Running? ==> AllMatched(g, o.state.queues, o.state.sys.ch)
  {
    if ins != [] {
      var before := ins[..|ins| - 1];
      RunMatched(p, g, before);
      ArrivalOrder.RunKeepsFull(p, g, before);
      if FullRun(p, g, ins).Running? {
        CycleMatched(p, g, FullRun(p, g, before).state, ins[|ins| - 1]);
      }
    }
  }
}
