/**
 What a free rank does for its queue: once the times of its banks are past, the scheduler can
 send a command for every queue that is not empty, or close a row that is in its way.
 */
module Serving {
  import opened BankTiming
  import opened CommandQueues
  import opened Controller
  import opened ClosedPages
  import QueueOrder
  import OpenPages
  import Scheduler

  /** The bank is at rest, or open for accesses, and all its times are past. */
  predicate Usable(m: BankState, t: int) {
    && !m.status.Precharging? && !m.status.PowerDown? && !AutoPrecharging(m)
    && m.nextRead <= t && m.nextWrite <= t && m.nextActivate <= t && m.nextPrecharge <= t
  }

  ghost predicate RankFree(g: Shape, v: Scheduler.View, r: nat)
    requires Scheduler.Covers(g, v) && r < g.numRanks
  {
    v.activates[r] < 4 && forall b :: 0 <= b < g.numBanks ==> Usable(v.banks[r][b], v.clock)
  }

  ghost predicate SomeTakeable(g: Shape, v: Scheduler.View, q: seq<Packet>, r: nat, x: nat)
    requires Scheduler.Covers(g, v) && Scheduler.Fine(g, v, q, r, x)
  {
    exists i :: 0 <= i < |q| && Scheduler.Takeable(g, v, q, r, x, i)
  }

  // ---------- open pages ----------

  /** The first packet for an open row, or the access behind it, can be taken. */
  lemma RowGoes(g: Shape, v: Scheduler.View, q: seq<Packet>, r: nat, x: nat, b: nat, k: nat)
    requires g.policy.OpenPage? && Scheduler.Covers(g, v) && Scheduler.Fine(g, v, q, r, x) && RankFree(g, v, r) && k < |q|
    requires b < g.numBanks && v.banks[r][b].status.RowActive? && v.accesses[r][b] < v.total
    requires q[k].command.bank == b && q[k].command.row == v.banks[r][b].openRow
    requires forall j :: 0 <= j < k ==> !(q[j].command.bank == b && q[j].command.row == v.banks[r][b].openRow)
    ensures SomeTakeable(g, v, q, r, x)
  {
    assert QueueOrder.PacketOk(g, q[k], r, x) && PairedAt(q, k);
    if IsAct(q[k]) {
      assert QueueOrder.PacketOk(g, q[k + 1], r, x);
      assert Scheduler.Takeable(g, v, q, r, x, k + 1);
    } else {
      assert Scheduler.Takeable(g, v, q, r, x, k);
    }
  }

  /** A closed bank is opened for the front of the queue. */
  lemma FrontOpens(g: Shape, v: Scheduler.View, q: seq<Packet>, r: nat, x: nat)
    requires Scheduler.Covers(g, v) && Scheduler.Fine(g, v, q, r, x) && RankFree(g, v, r) && q != [] && IsAct(q[0])
    requires q[0].command.bank < g.numBanks && !v.banks[r][q[0].command.bank].status.RowActive?
    ensures SomeTakeable(g, v, q, r, x)
  {
    assert QueueOrder.PacketOk(g, q[0], r, x);
    assert Scheduler.Takeable(g, v, q, r, x, 0);
  }

  lemma OpenServes(g: Shape, v: Scheduler.View, queues: Queues, r: nat, x: nat)
    requires g.policy.OpenPage? && Scheduler.Covers(g, v) && Scheduler.AllFine(g, v, queues) && InQueues(queues, r, x) && r < g.numRanks
    requires RankFree(g, v, r) && queues[r][x] != [] && OpenPages.Kept(queues[r][x], v.banks[r], v.accesses[r])
    requires forall b :: 0 <= b < g.numBanks ==> v.accesses[r][b] <= v.total
    ensures Scheduler.Fine(g, v, queues[r][x], r, x)
    ensures SomeTakeable(g, v, queues[r][x], r, x) || !Scheduler.NoneClosable(g, v, queues)
  {
    var q, b := queues[r][x], queues[r][x][0].command.bank;
    assert Scheduler.Fine(g, v, q, r, x);
    assert QueueOrder.PacketOk(g, q[0], r, x);
    var m := v.banks[r][b];
    assert OpenPages.KeptAt(q, v.banks[r], v.accesses[r], 0);
    if !m.status.RowActive? {
      FrontOpens(g, v, q, r, x);
    } else if Scheduler.NoneClosable(g, v, queues) {
      assert !Scheduler.Closable(g, v, queues, r, b);
      var k := FirstFor(q, b, m.openRow);
      RowGoes(g, v, q, r, x, b, k);
    }
  }

  /** The first packet for a row. */
  lemma FirstFor(q: seq<Packet>, b: nat, row: nat) returns (k: nat)
    requires exists j :: 0 <= j < |q| && q[j].command.bank == b && q[j].command.row == row
    ensures k < |q| && q[k].command.bank == b && q[k].command.row == row
    ensures forall j :: 0 <= j < k ==> !(q[j].command.bank == b && q[j].command.row == row)
  {
    k := 0;
    while !(q[k].command.bank == b && q[k].command.row == row)
      invariant k < |q|
      invariant forall j :: 0 <= j < k ==> !(q[j].command.bank == b && q[j].command.row == row)
      decreases |q| - k
    {
      k := k + 1;
    }
  }

  // ---------- closed pages ----------

  /** The access whose ACTIVATE is gone finds its row open. */
  lemma LooseGoes(g: Shape, v: Scheduler.View, q: seq<Packet>, r: nat, x: nat)
    requires g.policy.ClosePage? && Scheduler.Covers(g, v) && Scheduler.Fine(g, v, q, r, x) && RankFree(g, v, r) && q != [] && IsColumn(q[0])
    requires var b := q[0].command.bank;
             b < g.numBanks && Matched(q, v.banks[r][b], b) && v.accesses[r][b] < v.total
    ensures SomeTakeable(g, v, q, r, x)
  {
    var b := q[0].command.bank;
    var m := v.banks[r][b];
    assert QueueOrder.PacketOk(g, q[0], r, x) && QueueOrder.LooseAt(q, v.banks[r], 0);
    var k: nat :| LooseRow(q, k, b, m.openRow);
    assert QueueOrder.LooseAt(q, v.banks[r], k);
    assert k == 0;
    assert Scheduler.Takeable(g, v, q, r, x, 0);
  }

  lemma ClosedServes(g: Shape, v: Scheduler.View, queues: Queues, r: nat, x: nat)
    requires g.policy.ClosePage? && Scheduler.Covers(g, v) && Scheduler.AllFine(g, v, queues) && InQueues(queues, r, x) && r < g.numRanks
    requires RankFree(g, v, r) && queues[r][x] != []
    requires forall b: nat :: b < g.numBanks && g.Lane(b) == x ==> Matched(queues[r][x], v.banks[r][b], b)
    requires forall b :: 0 <= b < g.numBanks ==> v.accesses[r][b] < v.total
    ensures Scheduler.Fine(g, v, queues[r][x], r, x) && SomeTakeable(g, v, queues[r][x], r, x)
  {
    var q, b := queues[r][x], queues[r][x][0].command.bank;
    assert Scheduler.Fine(g, v, q, r, x);
    assert QueueOrder.PacketOk(g, q[0], r, x);
    if IsColumn(q[0]) {
      LooseGoes(g, v, q, r, x);
    } else {
      if v.banks[r][b].status.RowActive? {
        var k: nat :| LooseRow(q, k, b, v.banks[r][b].openRow);
        assert QueueOrder.LooseAt(q, v.banks[r], k);
        assert SameBank(q[0], q[k]);
      }
      FrontOpens(g, v, q, r, x);
    }
  }

  // ---------- refreshes ----------

  /** With open pages: the next access to an open row can be taken, or the row be closed. */
  lemma OpenRowGoes(g: Shape, v: Scheduler.View, queues: Queues, r: nat, b: nat)
    requires g.policy.OpenPage? && Scheduler.Covers(g, v) && Scheduler.AllFine(g, v, queues) && r < g.numRanks && b < g.numBanks
    requires RankFree(g, v, r) && v.banks[r][b].status.RowActive? && v.total > 0
    requires InQueues(queues, r, g.Lane(b)) && OpenPages.Kept(queues[r][g.Lane(b)], v.banks[r], v.accesses[r])
    ensures !Scheduler.RowHeld(g, v, queues, r, b)
  {
    var x := g.Lane(b);
    var q, row := queues[r][x], v.banks[r][b].openRow;
    assert Scheduler.Fine(g, v, q, r, x);
    if Scheduler.WaitsOn(q, b, row) {
      var j: nat :| Scheduler.Awaits(q, b, row, j);
      assert OpenPages.KeptAt(q, v.banks[r], v.accesses[r], j) && QueueOrder.PacketOk(g, q[j], r, x);
      assert j > 0 ==> PairedAt(q, j - 1);
      assert Scheduler.Takeable(g, v, q, r, x, j);
    }
  }

  /** With closed pages: the access that an open bank waits for can be taken. */
  lemma ClosedRowGoes(g: Shape, v: Scheduler.View, queues: Queues, r: nat, b: nat)
    requires g.policy.ClosePage? && Scheduler.Covers(g, v) && Scheduler.AllFine(g, v, queues) && r < g.numRanks && b < g.numBanks
    requires RankFree(g, v, r) && v.banks[r][b].status.RowActive? && v.accesses[r][b] < v.total
    requires InQueues(queues, r, g.Lane(b)) && Matched(queues[r][g.Lane(b)], v.banks[r][b], b)
    ensures !Scheduler.RowHeld(g, v, queues, r, b)
  {
    var x := g.Lane(b);
    var q, row := queues[r][x], v.banks[r][b].openRow;
    assert Scheduler.Fine(g, v, q, r, x);
    var j: nat :| LooseRow(q, j, b, row);
    assert QueueOrder.LooseAt(q, v.banks[r], j) && QueueOrder.PacketOk(g, q[j], r, x);
    forall k | 0 <= k < j ensures !(q[k].command.bank == b && q[k].command.row == row) {
      assert !SameBank(q[k], q[j]);
    }
    assert Scheduler.Awaits(q, b, row, j);
    assert Scheduler.Takeable(g, v, q, r, x, j);
  }

  /** So a free rank that waits for its refresh is not held up. */
  lemma RefreshGoes(g: Shape, v: Scheduler.View, queues: Queues, r: nat)
    requires Scheduler.Covers(g, v) && Scheduler.AllFine(g, v, queues) && r < g.numRanks && g.numBanks > 0 && RankFree(g, v, r)
    requires forall b: nat :: b < g.numBanks && v.banks[r][b].status.RowActive? ==> !Scheduler.RowHeld(g, v, queues, r, b)
    ensures !Scheduler.Hindered(g, v, queues, r)
  {
    assert Usable(v.banks[r][0], v.clock);
  }
}
