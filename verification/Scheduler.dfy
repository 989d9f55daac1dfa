/**
 The choice of the next command (CommandQueue::pop): refreshes first, then the queues in
 turn, then, with open pages, rows to close.
 */
module Scheduler {
  import opened RowStore
  import opened Packets
  import opened BankTiming
  import opened Protocol
  import opened DataPath
  import opened CommandQueues
  import opened Controller
  import QueueOrder
  import ActivationWindow
  import RR = RoundRobin

  /** What the scheduler sees: the controller's bank states, the number of activates in each
      rank's window, and the accesses to each open row. */
  datatype View = View(clock: int, banks: seq<seq<BankState>>, activates: seq<nat>, accesses: seq<seq<nat>>, total: nat)

  ghost predicate Covers(g: Shape, v: View) {
    && |v.banks| == g.numRanks && |v.activates| == g.numRanks && |v.accesses| == g.numRanks
    && (forall r :: 0 <= r < g.numRanks ==> |v.banks[r]| == g.numBanks)
    && (forall r :: 0 <= r < g.numRanks ==> |v.accesses[r]| == g.numBanks)
  }

  ghost predicate Fine(g: Shape, v: View, q: seq<Packet>, r: nat, x: nat)
    requires Covers(g, v)
  {
    r < g.numRanks && QueueOrder.QueueOk(g, q, v.banks[r], r, x)
  }

  ghost predicate AllFine(g: Shape, v: View, queues: Queues)
    requires Covers(g, v)
  {
    && QueueOrder.Shaped(g, queues)
    && forall r: nat, x: nat :: InQueues(queues, r, x) ==> Fine(g, v, queues[r][x], r, x)
  }

  /** CommandQueue::isIssuable. */
  predicate CanIssue(g: Shape, v: View, c: Command)
    requires c.rank < |v.banks| && c.bank < |v.banks[c.rank]|
    requires c.rank < |v.activates| && c.rank < |v.accesses| && c.bank < |v.accesses[c.rank]|
  {
    && Issuable(v.clock, c, v.banks[c.rank][c.bank])
    && (c.kind.ACTIVATE? ==> v.activates[c.rank] < 4)
    && (IsRead(c) || IsWrite(c) ==> v.accesses[c.rank][c.bank] < v.total)
  }

  /** Entry i may be taken now. */
  ghost predicate Takeable(g: Shape, v: View, q: seq<Packet>, r: nat, x: nat, i: nat)
    requires Covers(g, v) && Fine(g, v, q, r, x) && i < |q|
  {
    assert QueueOrder.PacketOk(g, q[i], r, x);
    CanIssue(g, v, q[i].command) && Removable(g.policy, q, i)
  }

  ghost predicate NoneTakeable(g: Shape, v: View, q: seq<Packet>, r: nat, x: nat)
    requires Covers(g, v) && Fine(g, v, q, r, x)
  {
    forall i :: 0 <= i < |q| ==> !Takeable(g, v, q, r, x, i)
  }

  // ---------- one queue ----------

  /** With closed pages, the first issuable packet that is not held back by its ACTIVATE. */
  method ScanClosed(g: Shape, v: View, q: seq<Packet>, r: nat, x: nat) returns (found: bool, i: nat)
    requires g.policy.ClosePage? && Covers(g, v) && Fine(g, v, q, r, x)
    ensures found ==> i < |q| && Takeable(g, v, q, r, x, i) && forall j :: 0 <= j < i ==> !Takeable(g, v, q, r, x, j)
    ensures !found ==> NoneTakeable(g, v, q, r, x)
  {
    i := 0;
    while i < |q|
      invariant i <= |q|
      invariant forall j :: 0 <= j < i ==> !Takeable(g, v, q, r, x, j)
      invariant forall j :: 0 <= j < i && IsAct(q[j]) ==> QueueOrder.PacketOk(g, q[j], r, x) && !CanIssue(g, v, q[j].command)
    {
      assert QueueOrder.PacketOk(g, q[i], r, x);
      assert i > 0 ==> PairedAt(q, i - 1);
      if CanIssue(g, v, q[i].command) && !(i > 0 && IsAct(q[i - 1]) && q[i - 1].address == q[i].address) {
        assert Removable(g.policy, q, i);
        return true, i;
      }
      i := i + 1;
    }
    found := false;
  }

  /** With open pages, the first issuable packet that no earlier access to its row precedes. */
  method ScanOpen(g: Shape, v: View, q: seq<Packet>, r: nat, x: nat) returns (found: bool, i: nat)
    requires g.policy.OpenPage? && Covers(g, v) && Fine(g, v, q, r, x)
    ensures found ==> i < |q| && Takeable(g, v, q, r, x, i) && forall j :: 0 <= j < i ==> !Takeable(g, v, q, r, x, j)
    ensures !found ==> NoneTakeable(g, v, q, r, x)
  {
    i := 0;
    while i < |q|
      invariant i <= |q|
      invariant forall j :: 0 <= j < i ==> !Takeable(g, v, q, r, x, j)
    {
      assert QueueOrder.PacketOk(g, q[i], r, x);
      if CanIssue(g, v, q[i].command) {
        IsTyped(g, v, q, r, x);
        var dependencyFound := Depends(q, i);
        if !dependencyFound {
          return true, i;
        }
      }
      i := i + 1;
    }
    found := false;
  }

  lemma IsTyped(g: Shape, v: View, q: seq<Packet>, r: nat, x: nat)
    requires Covers(g, v) && Fine(g, v, q, r, x)
    ensures QueueOrder.Typed(q)
  {
    forall j | 0 <= j < |q| ensures IsAct(q[j]) || IsColumn(q[j]) {
      assert QueueOrder.PacketOk(g, q[j], r, x);
    }
  }

  method Depends(q: seq<Packet>, i: nat) returns (dependencyFound: bool)
    requires i < |q| && QueueOrder.Typed(q)
    ensures dependencyFound <==> !FirstOfRow(q, i)
  {
    dependencyFound := false;
    var j := 0;
    while j < i && !dependencyFound
      invariant 0 <= j <= i
      invariant dependencyFound ==> !FirstOfRow(q, i)
      invariant !dependencyFound ==> forall k :: 0 <= k < j ==> !(IsColumn(q[k]) && SameRow(q[k], q[i]))
    {
      if !IsAct(q[j]) && SameRow(q[j], q[i]) {
        dependencyFound := true;
      }
      j := j + 1;
    }
  }

  /** With closed pages and a queue per bank, only the front is looked at. */
  method LookAtFront(g: Shape, v: View, q: seq<Packet>, r: nat, x: nat) returns (found: bool)
    requires g.policy.ClosePage? && g.structure.PerRankPerBank? && Covers(g, v) && Fine(g, v, q, r, x)
    ensures found ==> q != [] && Takeable(g, v, q, r, x, 0)
    ensures !found ==> NoneTakeable(g, v, q, r, x)
  {
    if q == [] {
      return false;
    }
    assert QueueOrder.PacketOk(g, q[0], r, x);
    found := CanIssue(g, v, q[0].command);
    if !found {
      forall i | 0 <= i < |q| ensures !Takeable(g, v, q, r, x, i) {
        FrontDecides(g, v, q, r, x, i);
      }
    }
  }

  /** If the front cannot be sent, nothing behind it can. */
  lemma FrontDecides(g: Shape, v: View, q: seq<Packet>, r: nat, x: nat, i: nat)
    requires g.policy.ClosePage? && g.structure.PerRankPerBank? && Covers(g, v) && Fine(g, v, q, r, x) && i < |q|
    requires !Takeable(g, v, q, r, x, 0)
    ensures !Takeable(g, v, q, r, x, i)
  {
    var mc := v.banks[r];
    assert QueueOrder.PacketOk(g, q[0], r, x) && QueueOrder.PacketOk(g, q[i], r, x);
    assert QueueOrder.LooseAt(q, mc, 0) && QueueOrder.LooseAt(q, mc, i);
    assert SameBank(q[0], q[i]);
  }

  /** One visit of a queue. */
  method Visit(g: Shape, v: View, q: seq<Packet>, r: nat, x: nat) returns (found: bool, i: nat)
    requires Covers(g, v) && Fine(g, v, q, r, x)
    ensures found ==> i < |q| && Takeable(g, v, q, r, x, i) && forall j :: 0 <= j < i ==> !Takeable(g, v, q, r, x, j)
    ensures !found ==> NoneTakeable(g, v, q, r, x)
  {
    if g.policy.OpenPage? {
      found, i := ScanOpen(g, v, q, r, x);
    } else if g.structure.PerRank? {
      found, i := ScanClosed(g, v, q, r, x);
    } else {
      found := LookAtFront(g, v, q, r, x);
      i := 0;
    }
  }

  // ---------- all queues in turn ----------

  /** Nothing can be taken from this queue, or its rank waits for a refresh. */
  ghost predicate Clear(g: Shape, v: View, queues: Queues, blocked: int, r: nat, x: nat)
    requires Covers(g, v) && AllFine(g, v, queues) && InQueues(queues, r, x)
  {
    r == blocked || NoneTakeable(g, v, queues[r][x], r, x)
  }

  ghost predicate AllClear(g: Shape, v: View, queues: Queues, blocked: int)
    requires Covers(g, v) && AllFine(g, v, queues)
  {
    forall r: nat, x: nat :: InQueues(queues, r, x) ==> Clear(g, v, queues, blocked, r, x)
  }

  /** The outcome of a search through the queues. */
  ghost predicate Found(g: Shape, v: View, queues: Queues, blocked: int, found: bool, r: nat, x: nat, i: nat)
    requires Covers(g, v) && AllFine(g, v, queues)
  {
    if found then InQueues(queues, r, x) && r != blocked && i < |queues[r][x]| && Takeable(g, v, queues[r][x], r, x, i)
    else AllClear(g, v, queues, blocked)
  }

  /** Nothing before position i of the queue can be taken. */
  ghost predicate FirstInLane(g: Shape, v: View, queues: Queues, r: nat, x: nat, i: nat)
    requires Covers(g, v) && AllFine(g, v, queues)
  {
    InQueues(queues, r, x) && i < |queues[r][x]| && forall j :: 0 <= j < i ==> !Takeable(g, v, queues[r][x], r, x, j)
  }

  /** A queue per rank: the ranks in turn. */
  method RanksInTurn(g: Shape, v: View, queues: Queues, start: nat, blocked: int) returns (found: bool, r: nat, i: nat)
    requires Covers(g, v) && AllFine(g, v, queues) && g.structure.PerRank? && start < g.numRanks
    ensures r < g.numRanks && Found(g, v, queues, blocked, found, r, 0, i)
    ensures found ==> RanksBehind(g, v, queues, blocked, start, r) && FirstInLane(g, v, queues, r, 0, i)
  {
    r := start;
    while true
      invariant r < g.numRanks
      invariant RanksBehind(g, v, queues, blocked, start, r)
      decreases RR.Distance(g.numRanks, start, r)
    {
      RR.Step(g.numRanks, start, r, r < start);
      if r != blocked {
        found, i := Visit(g, v, queues[r][0], r, 0);
        if found {
          return;
        }
      }
      OneMoreRank(g, v, queues, blocked, start, r);
      Modulo(r, g.numRanks);
      r := (r + 1) % g.numRanks;
      if r == start {
        return false, r, 0;
      }
    }
  }

  lemma Modulo(r: nat, n: nat)
    requires r < n
    ensures (r + 1) % n == RR.Next(n, r)
  {
  }

  ghost predicate RanksBehind(g: Shape, v: View, queues: Queues, blocked: int, start: nat, r: nat)
    requires Covers(g, v) && AllFine(g, v, queues) && g.structure.PerRank?
  {
    forall s: nat :: InQueues(queues, s, 0) && RR.Visited(start, r, r < start, s) ==> Clear(g, v, queues, blocked, s, 0)
  }

  lemma OneMoreRank(g: Shape, v: View, queues: Queues, blocked: int, start: nat, r: nat)
    requires Covers(g, v) && AllFine(g, v, queues) && g.structure.PerRank? && r < g.numRanks && start < g.numRanks
    requires RanksBehind(g, v, queues, blocked, start, r) && Clear(g, v, queues, blocked, r, 0)
    ensures var r' := RR.Next(g.numRanks, r);
            if r' == start then AllClear(g, v, queues, blocked) else RanksBehind(g, v, queues, blocked, start, r')
  {
    RR.Step(g.numRanks, start, r, r < start);
    var r' := RR.Next(g.numRanks, r);
    forall s: nat | InQueues(queues, s, 0) && (r' == start || RR.Visited(start, r', r' < start, s))
      ensures Clear(g, v, queues, blocked, s, 0)
    {
      assert s == r || RR.Visited(start, r, r < start, s);
    }
    if r' == start {
      forall s: nat, x: nat | InQueues(queues, s, x) ensures Clear(g, v, queues, blocked, s, x) {
        assert x == 0;
      }
    }
  }

  /** A queue per bank: all banks of all ranks in turn. */
  method LanesInTurn(g: Shape, v: View, queues: Queues, rr: RR.Policy, rank: nat, bank: nat, blocked: int)
    returns (found: bool, r: nat, b: nat, i: nat)
    requires Covers(g, v) && AllFine(g, v, queues) && g.structure.PerRankPerBank? && rank < g.numRanks && bank < g.numBanks
    ensures r < g.numRanks && b < g.numBanks && Found(g, v, queues, blocked, found, r, b, i)
    ensures found ==> FirstInLane(g, v, queues, r, b, i)
                      && ClearBehind(g, v, queues, rr, blocked, RR.Place(rr, g.numRanks, g.numBanks, rank, bank),
                                     RR.Place(rr, g.numRanks, g.numBanks, r, b))
  {
    var ranks, banks := g.numRanks, g.numBanks;
    r, b := rank, bank;
    RR.NextPlace(rr, ranks, banks, rank, bank);
    ghost var start, n := RR.Place(rr, ranks, banks, rank, bank), ranks * banks;
    while true
      invariant r < ranks && b < banks
      invariant RR.Place(rr, ranks, banks, r, b) < n
      invariant ClearBehind(g, v, queues, rr, blocked, start, RR.Place(rr, ranks, banks, r, b))
      decreases RR.Distance(n, start, RR.Place(rr, ranks, banks, r, b))
    {
      ghost var p := RR.Place(rr, ranks, banks, r, b);
      RR.NextPlace(rr, ranks, banks, r, b);
      RR.Step(n, start, p, p < start);
      if r != blocked {
        found, i := Visit(g, v, queues[r][b], r, b);
        if found {
          return;
        }
      }
      OneMoreClear(g, v, queues, rr, blocked, start, r, b);
      r, b := RR.NextRank(rr, ranks, banks, r, b), RR.NextBank(rr, ranks, banks, r, b);
      RR.NextPlace(rr, ranks, banks, r, b);
      if r == rank && b == bank {
        return false, r, b, 0;
      }
      if RR.Place(rr, ranks, banks, r, b) == start {
        RR.PlaceUnique(rr, ranks, banks, r, b, rank, bank);
      }
    }
  }

  /** All lanes visited on the way round to place p are clear. */
  ghost predicate ClearBehind(g: Shape, v: View, queues: Queues, rr: RR.Policy, blocked: int, start: nat, p: nat)
    requires Covers(g, v) && AllFine(g, v, queues) && g.structure.PerRankPerBank?
  {
    forall s: nat, c: nat :: InQueues(queues, s, c) && RR.Visited(start, p, p < start, RR.Place(rr, g.numRanks, g.numBanks, s, c))
                             ==> Clear(g, v, queues, blocked, s, c)
  }

  lemma OneMoreClear(g: Shape, v: View, queues: Queues, rr: RR.Policy, blocked: int, start: nat, r: nat, b: nat)
    requires Covers(g, v) && AllFine(g, v, queues) && g.structure.PerRankPerBank? && r < g.numRanks && b < g.numBanks
    requires start < g.numRanks * g.numBanks
    requires ClearBehind(g, v, queues, rr, blocked, start, RR.Place(rr, g.numRanks, g.numBanks, r, b))
    requires Clear(g, v, queues, blocked, r, b)
    ensures var p := RR.Next(g.numRanks * g.numBanks, RR.Place(rr, g.numRanks, g.numBanks, r, b));
            if p == start then AllClear(g, v, queues, blocked) else ClearBehind(g, v, queues, rr, blocked, start, p)
  {
    var n, p := g.numRanks * g.numBanks, RR.Place(rr, g.numRanks, g.numBanks, r, b);
    RR.NextPlace(rr, g.numRanks, g.numBanks, r, b);
    RR.Step(n, start, p, p < start);
    var p' := RR.Next(n, p);
    forall s: nat, c: nat | InQueues(queues, s, c)
                            && (p' == start || RR.Visited(start, p', p' < start, RR.Place(rr, g.numRanks, g.numBanks, s, c)))
      ensures Clear(g, v, queues, blocked, s, c)
    {
      RR.NextPlace(rr, g.numRanks, g.numBanks, s, c);
      var q := RR.Place(rr, g.numRanks, g.numBanks, s, c);
      if q == p {
        RR.PlaceUnique(rr, g.numRanks, g.numBanks, s, c, r, b);
      } else {
        assert RR.Visited(start, p, p < start, q);
      }
    }
  }

  // ---------- refreshes ----------

  /** Where the open row's first packet stands. */
  method FirstForRow(q: seq<Packet>, b: nat, row: nat) returns (j: nat)
    ensures j <= |q| && forall k :: 0 <= k < j ==> !(q[k].command.bank == b && q[k].command.row == row)
    ensures j < |q| ==> q[j].command.bank == b && q[j].command.row == row
  {
    j := 0;
    while j < |q| && !(q[j].command.bank == b && q[j].command.row == row)
      invariant j <= |q|
      invariant forall k :: 0 <= k < j ==> !(q[k].command.bank == b && q[k].command.row == row)
    {
      j := j + 1;
    }
  }

  /** The first packet of a row, if its ACTIVATE is gone, may be taken under either policy. */
  lemma FirstMayGo(g: Shape, v: View, q: seq<Packet>, r: nat, x: nat, j: nat)
    requires Covers(g, v) && Fine(g, v, q, r, x) && j < |q| && !IsAct(q[j])
    requires forall k :: 0 <= k < j ==> !SameRow(q[k], q[j])
    ensures Removable(g.policy, q, j) && !HasAct(q, j)
  {
    assert j > 0 ==> PairedAt(q, j - 1);
  }

  function Refresh(rank: nat): Command {
    Command(REFRESH, rank, 0, 0, 0, Tracer)
  }

  function Precharge(rank: nat, bank: nat): Command {
    Command(PRECHARGE, rank, bank, 0, 0, Tracer)
  }

  /** A choice that passes all tests. */
  ghost predicate Good(g: Shape, v: View, queues: Queues, choice: Choice)
    requires Covers(g, v) && AllFine(g, v, queues)
  {
    match choice
    case Wait => true
    case MakeUp(c) => (c.kind.REFRESH? || c.kind.PRECHARGE?) && c.rank < g.numRanks
                      && Ready(g.policy, v.clock, c, v.banks[c.rank])
    case Take(r, x, i) => InQueues(queues, r, x) && i < |queues[r][x]| && Takeable(g, v, queues[r][x], r, x, i)
  }

  /** The first packet for a row is an access, at position j. */
  ghost predicate Awaits(q: seq<Packet>, b: nat, row: nat, j: nat) {
    && j < |q| && IsColumn(q[j]) && q[j].command.bank == b && q[j].command.row == row
    && forall k :: 0 <= k < j ==> !(q[k].command.bank == b && q[k].command.row == row)
  }

  ghost predicate WaitsOn(q: seq<Packet>, b: nat, row: nat) {
    exists j: nat :: Awaits(q, b, row, j)
  }

  /** A row is closed only if no access is the next to use it, or it was used often enough. */
  ghost predicate MayClose(g: Shape, v: View, queues: Queues, r: nat, b: nat)
    requires Covers(g, v) && AllFine(g, v, queues) && r < g.numRanks && b < g.numBanks
  {
    v.accesses[r][b] == v.total || !WaitsOn(queues[r][g.Lane(b)], b, v.banks[r][b].openRow)
  }

  ghost predicate Cautious(g: Shape, v: View, queues: Queues, choice: Choice)
    requires Covers(g, v) && AllFine(g, v, queues)
  {
    choice.MakeUp? && choice.command.kind.PRECHARGE? ==>
      choice.command.rank < g.numRanks && choice.command.bank < g.numBanks
      && MayClose(g, v, queues, choice.command.rank, choice.command.bank)
  }

  lemma AwaitsFirst(q: seq<Packet>, b: nat, row: nat, j: nat)
    requires j <= |q| && (j < |q| ==> q[j].command.bank == b && q[j].command.row == row)
    requires forall k :: 0 <= k < j ==> !(q[k].command.bank == b && q[k].command.row == row)
    ensures forall k: nat :: Awaits(q, b, row, k) ==> k == j
    ensures j < |q| && IsColumn(q[j]) ==> Awaits(q, b, row, j)
  {
  }

  /** The access that still goes to an open row of a rank waiting for a refresh. */
  method LastAccess(g: Shape, v: View, queues: Queues, r: nat, b: nat) returns (choice: Choice, closeRow: bool)
    requires Covers(g, v) && AllFine(g, v, queues) && r < g.numRanks && b < g.numBanks
    ensures choice.Wait? || choice.Take?
    ensures Good(g, v, queues, choice) && (choice.Take? ==> choice.rank == r && choice.lane == g.Lane(b))
    ensures choice.Take? ==> !HasAct(queues[r][g.Lane(b)], choice.i) && !closeRow
    ensures closeRow ==> MayClose(g, v, queues, r, b)
    ensures choice.Wait? && (closeRow && g.policy.OpenPage? ==> v.clock < v.banks[r][b].nextPrecharge) ==> RowHeld(g, v, queues, r, b)
  {
    var x := g.Lane(b);
    assert InQueues(queues, r, x);
    var q := queues[r][x];
    var j := FirstForRow(q, b, v.banks[r][b].openRow);
    choice, closeRow := Wait, true;
    AwaitsFirst(q, b, v.banks[r][b].openRow, j);
    if j < |q| && !IsAct(q[j]) {
      closeRow := false;
      assert QueueOrder.PacketOk(g, q[j], r, x);
      if CanIssue(g, v, q[j].command) {
        FirstMayGo(g, v, q, r, x, j);
        choice := Take(r, x, j);
      }
    }
  }

  /** A bank that keeps a refresh waiting. */
  predicate HoldsUp(v: View, bank: BankState) {
    bank.status.RowActive? || bank.nextActivate > v.clock
  }

  /** Nothing can be done now about the row of this bank: its next access cannot be issued yet, or
      it is too early to close it. */
  ghost predicate RowHeld(g: Shape, v: View, queues: Queues, r: nat, b: nat)
    requires Covers(g, v) && AllFine(g, v, queues) && r < g.numRanks && b < g.numBanks
  {
    assert InQueues(queues, r, g.Lane(b));
    var q, bank := queues[r][g.Lane(b)], v.banks[r][b];
    && (forall j: nat :: Awaits(q, b, bank.openRow, j) ==> !Takeable(g, v, q, r, g.Lane(b), j))
    && (g.policy.OpenPage? && !WaitsOn(q, b, bank.openRow) ==> v.clock < bank.nextPrecharge)
  }

  /** The rank cannot be refreshed, and nothing can be done about it now. */
  ghost predicate Hindered(g: Shape, v: View, queues: Queues, r: nat)
    requires Covers(g, v) && AllFine(g, v, queues) && r < g.numRanks && g.numBanks > 0
  {
    v.banks[r][0].status.PowerDown?
    || exists b: nat :: b < g.numBanks && HoldsUp(v, v.banks[r][b]) && (v.banks[r][b].status.RowActive? ==> RowHeld(g, v, queues, r, b))
  }

  method FirstHolding(g: Shape, v: View, r: nat) returns (b: nat)
    requires Covers(g, v) && r < g.numRanks
    ensures b <= g.numBanks && forall c :: 0 <= c < b ==> !HoldsUp(v, v.banks[r][c])
    ensures b < g.numBanks ==> HoldsUp(v, v.banks[r][b])
  {
    b := 0;
    while b < g.numBanks && !HoldsUp(v, v.banks[r][b])
      invariant b <= g.numBanks && forall c :: 0 <= c < b ==> !HoldsUp(v, v.banks[r][c])
    {
      b := b + 1;
    }
  }

  /** What is done for a rank that waits for a refresh; it is refreshed exactly when ready. */
  method ForRefresh(g: Shape, v: View, queues: Queues, r: nat) returns (choice: Choice)
    requires Covers(g, v) && AllFine(g, v, queues) && r < g.numRanks && g.numBanks > 0
    ensures Good(g, v, queues, choice)
    ensures RefreshReady(v.clock, v.banks[r]) <==> choice == MakeUp(Refresh(r))
    ensures choice.MakeUp? ==> choice.command.rank == r && (choice.command.kind.REFRESH? ==> choice.command == Refresh(r))
    ensures choice.Take? ==> choice.rank == r && !HasAct(queues[r][choice.lane], choice.i)
    ensures Cautious(g, v, queues, choice)
    ensures choice.Wait? ==> Hindered(g, v, queues, r)
  {
    choice := Wait;
    var b := FirstHolding(g, v, r);
    if b < g.numBanks {
      if v.banks[r][b].status.RowActive? {
        var closeRow;
        choice, closeRow := LastAccess(g, v, queues, r, b);
        if g.policy.OpenPage? && closeRow && v.clock >= v.banks[r][b].nextPrecharge {
          choice := MakeUp(Precharge(r, b));
        }
      }
    } else if !v.banks[r][0].status.PowerDown? {
      choice := MakeUp(Refresh(r));
    }
  }

  // ---------- rows to close ----------

  /** An open row that nothing waits for, or that was accessed often enough. */
  ghost predicate Closable(g: Shape, v: View, queues: Queues, r: nat, b: nat)
    requires Covers(g, v) && AllFine(g, v, queues) && r < g.numRanks && b < g.numBanks
  {
    var bank, q := v.banks[r][b], queues[r][g.Lane(b)];
    && bank.status.RowActive? && v.clock >= bank.nextPrecharge
    && (v.accesses[r][b] == v.total
        || forall k :: 0 <= k < |q| ==> !(q[k].command.bank == b && q[k].command.row == bank.openRow))
  }

  ghost predicate KeptBehind(g: Shape, v: View, queues: Queues, rr: RR.Policy, start: nat, p: nat)
    requires Covers(g, v) && AllFine(g, v, queues)
  {
    forall s: nat, c: nat :: s < g.numRanks && c < g.numBanks
                             && RR.Visited(start, p, p < start, RR.Place(rr, g.numRanks, g.numBanks, s, c))
                             ==> !Closable(g, v, queues, s, c)
  }

  lemma OneMoreKept(g: Shape, v: View, queues: Queues, rr: RR.Policy, start: nat, r: nat, b: nat)
    requires Covers(g, v) && AllFine(g, v, queues) && r < g.numRanks && b < g.numBanks && start < g.numRanks * g.numBanks
    requires KeptBehind(g, v, queues, rr, start, RR.Place(rr, g.numRanks, g.numBanks, r, b))
    requires !Closable(g, v, queues, r, b)
    ensures var p := RR.Next(g.numRanks * g.numBanks, RR.Place(rr, g.numRanks, g.numBanks, r, b));
            if p == start then NoneClosable(g, v, queues) else KeptBehind(g, v, queues, rr, start, p)
  {
    var n, p := g.numRanks * g.numBanks, RR.Place(rr, g.numRanks, g.numBanks, r, b);
    RR.NextPlace(rr, g.numRanks, g.numBanks, r, b);
    RR.Step(n, start, p, p < start);
    var p' := RR.Next(n, p);
    forall s: nat, c: nat | s < g.numRanks && c < g.numBanks
                            && (p' == start || RR.Visited(start, p', p' < start, RR.Place(rr, g.numRanks, g.numBanks, s, c)))
      ensures !Closable(g, v, queues, s, c)
    {
      RR.NextPlace(rr, g.numRanks, g.numBanks, s, c);
      var q := RR.Place(rr, g.numRanks, g.numBanks, s, c);
      if q == p {
        RR.PlaceUnique(rr, g.numRanks, g.numBanks, s, c, r, b);
      } else {
        assert RR.Visited(start, p, p < start, q);
      }
    }
  }

  ghost predicate NoneClosable(g: Shape, v: View, queues: Queues)
    requires Covers(g, v) && AllFine(g, v, queues)
  {
    forall r: nat, b: nat :: r < g.numRanks && b < g.numBanks ==> !Closable(g, v, queues, r, b)
  }

  method IsClosable(g: Shape, v: View, queues: Queues, r: nat, b: nat) returns (closable: bool)
    requires Covers(g, v) && AllFine(g, v, queues) && r < g.numRanks && b < g.numBanks
    ensures closable <==> Closable(g, v, queues, r, b)
  {
    assert InQueues(queues, r, g.Lane(b));
    var bank, q := v.banks[r][b], queues[r][g.Lane(b)];
    closable := false;
    if bank.status.RowActive? {
      var j := FirstForRow(q, b, bank.openRow);
      if j == |q| || v.accesses[r][b] == v.total {
        closable := v.clock >= bank.nextPrecharge;
      }
    }
  }

  method RowsInTurn(g: Shape, v: View, queues: Queues, rr: RR.Policy, rank: nat, bank: nat)
    returns (found: bool, r: nat, b: nat)
    requires Covers(g, v) && AllFine(g, v, queues) && rank < g.numRanks && bank < g.numBanks
    ensures r < g.numRanks && b < g.numBanks
    ensures found ==> Closable(g, v, queues, r, b)
    ensures !found ==> NoneClosable(g, v, queues)
  {
    var ranks, banks := g.numRanks, g.numBanks;
    r, b := rank, bank;
    RR.NextPlace(rr, ranks, banks, rank, bank);
    ghost var start, n := RR.Place(rr, ranks, banks, rank, bank), ranks * banks;
    while true
      invariant r < ranks && b < banks
      invariant RR.Place(rr, ranks, banks, r, b) < n
      invariant KeptBehind(g, v, queues, rr, start, RR.Place(rr, ranks, banks, r, b))
      decreases RR.Distance(n, start, RR.Place(rr, ranks, banks, r, b))
    {
      ghost var p := RR.Place(rr, ranks, banks, r, b);
      RR.NextPlace(rr, ranks, banks, r, b);
      RR.Step(n, start, p, p < start);
      found := IsClosable(g, v, queues, r, b);
      if found {
        return;
      }
      OneMoreKept(g, v, queues, rr, start, r, b);
      r, b := RR.NextRank(rr, ranks, banks, r, b), RR.NextBank(rr, ranks, banks, r, b);
      RR.NextPlace(rr, ranks, banks, r, b);
      if r == rank && b == bank {
        return;
      }
      if RR.Place(rr, ranks, banks, r, b) == start {
        RR.PlaceUnique(rr, ranks, banks, r, b, rank, bank);
      }
    }
  }

  // ---------- the choice ----------

  /** Where the round robins stand. */
  datatype Turn = Turn(rank: nat, bank: nat, rankPRE: nat, bankPRE: nat)
  {
    predicate Valid(g: Shape) {
      rank < g.numRanks && bank < g.numBanks && rankPRE < g.numRanks && bankPRE < g.numBanks
    }
  }

  /** The command taken is the first that can be, in the order of the round robin. */
  ghost predicate FirstInTurn(g: Shape, v: View, queues: Queues, rr: RR.Policy, turn: Turn, blocked: int, choice: Choice)
    requires Covers(g, v) && AllFine(g, v, queues)
  {
    choice.Take? ==>
      && FirstInLane(g, v, queues, choice.rank, choice.lane, choice.i)
      && if g.structure.PerRank? then RanksBehind(g, v, queues, blocked, turn.rank, choice.rank)
         else ClearBehind(g, v, queues, rr, blocked, RR.Place(rr, g.numRanks, g.numBanks, turn.rank, turn.bank),
                          RR.Place(rr, g.numRanks, g.numBanks, choice.rank, choice.lane))
  }

  /** A queue with a command to send, in turn. */
  method NextInTurn(g: Shape, v: View, queues: Queues, rr: RR.Policy, turn: Turn, blocked: int)
    returns (choice: Choice, turn': Turn)
    requires Covers(g, v) && AllFine(g, v, queues) && turn.Valid(g)
    ensures turn'.Valid(g) && Good(g, v, queues, choice)
    ensures choice.Wait? || (choice.Take? && choice.rank != blocked)
    ensures FirstInTurn(g, v, queues, rr, turn, blocked, choice)
    ensures choice.Wait? ==> AllClear(g, v, queues, blocked)
  {
    var found, r, b, i;
    if g.structure.PerRank? {
      found, r, i := RanksInTurn(g, v, queues, turn.rank, blocked);
      turn' := turn.(rank := r);
      choice := if found then Take(r, 0, i) else Wait;
    } else {
      found, r, b, i := LanesInTurn(g, v, queues, rr, turn.rank, turn.bank, blocked);
      turn' := turn.(rank := r, bank := b);
      choice := if found then Take(r, b, i) else Wait;
    }
  }

  lemma ClosableIsReady(g: Shape, v: View, queues: Queues, r: nat, b: nat)
    requires Covers(g, v) && AllFine(g, v, queues) && g.policy.OpenPage? && r < g.numRanks && b < g.numBanks
    requires Closable(g, v, queues, r, b)
    ensures Good(g, v, queues, MakeUp(Precharge(r, b))) && Cautious(g, v, queues, MakeUp(Precharge(r, b)))
  {
  }

  /** What the scheduler may choose when refreshRank waits for a refresh (or none, if negative).
      The choice passes all tests; a rank that is ready is refreshed; a command from the queues is
      the first of its queue that can go; rows are closed for the refresh or when no command can
      go; and nothing is chosen only if nothing can be. */
  ghost predicate Chooses(g: Shape, v: View, queues: Queues, refreshRank: int, choice: Choice) {
    && Covers(g, v) && AllFine(g, v, queues) && refreshRank < g.numRanks && g.numBanks > 0
    && Good(g, v, queues, choice) && Cautious(g, v, queues, choice)
    && (refreshRank >= 0 && RefreshReady(v.clock, v.banks[refreshRank]) ==> choice == MakeUp(Refresh(refreshRank)))
    && (choice.MakeUp? && choice.command.kind.REFRESH? ==> refreshRank >= 0 && choice == MakeUp(Refresh(refreshRank)))
    && (choice.MakeUp? && choice.command.rank != refreshRank ==> AllClear(g, v, queues, refreshRank))
    && (choice.Take? && choice.rank != refreshRank ==> FirstInLane(g, v, queues, choice.rank, choice.lane, choice.i))
    && (choice.Wait? ==> AllClear(g, v, queues, refreshRank) && (g.policy.OpenPage? ==> NoneClosable(g, v, queues)))
    && (choice.Wait? && refreshRank >= 0 ==> Hindered(g, v, queues, refreshRank))
  }

  /** The next command: for a waiting refresh, from the queues, or to close a row. */
  method Choose(g: Shape, v: View, queues: Queues, rr: RR.Policy, turn: Turn, refreshRank: int)
    returns (choice: Choice, turn': Turn)
    requires Covers(g, v) && AllFine(g, v, queues) && turn.Valid(g) && refreshRank < g.numRanks && g.numBanks > 0
    ensures turn'.Valid(g) && Chooses(g, v, queues, refreshRank, choice)
    ensures choice.Take? && choice.rank != refreshRank ==> FirstInTurn(g, v, queues, rr, turn, refreshRank, choice)
  {
    choice, turn' := Wait, turn;
    if refreshRank >= 0 {
      choice := ForRefresh(g, v, queues, refreshRank);
    }
    if choice.Wait? {
      choice, turn' := NextInTurn(g, v, queues, rr, turn, refreshRank);
      if choice.Wait? && g.policy.OpenPage? {
        var found, r, b := RowsInTurn(g, v, queues, rr, turn.rankPRE, turn.bankPRE);
        turn' := turn'.(rankPRE := r, bankPRE := b);
        if found {
          ClosableIsReady(g, v, queues, r, b);
          choice := MakeUp(Precharge(r, b));
        }
      }
    }
  }

  // ---------- the queue object ----------

  /** The accesses to open rows after a choice: counted when a row is hit, reset when closed. */
  function Count(policy: Policy, queues: Queues, accesses: seq<seq<nat>>, choice: Choice): seq<seq<nat>> {
    match choice
    case Wait => accesses
    case MakeUp(c) =>
      if c.kind.PRECHARGE? && c.rank < |accesses| && c.bank < |accesses[c.rank]|
      then accesses[c.rank := accesses[c.rank][c.bank := 0]] else accesses
    case Take(r, x, i) =>
      if policy.OpenPage? && InQueues(queues, r, x) && i < |queues[r][x]| && HasAct(queues[r][x], i) then
        var b := queues[r][x][i].command.bank;
        if r < |accesses| && b < |accesses[r]| then accesses[r := accesses[r][b := accesses[r][b] + 1]] else accesses
      else accesses
  }

  function NoAccesses(g: Shape): seq<seq<nat>> {
    seq(g.numRanks, _ => seq(g.numBanks, _ => 0))
  }

  /** The activate counters of all ranks after one more cycle. */
  function Aged(counters: seq<seq<nat>>): (aged: seq<seq<nat>>)
    ensures |aged| == |counters|
  {
    seq(|counters|, i requires 0 <= i < |counters| => ActivationWindow.Advance(counters[i]))
  }

  function Sizes(counters: seq<seq<nat>>): (sizes: seq<nat>)
    ensures |sizes| == |counters|
  {
    seq(|counters|, i requires 0 <= i < |counters| => |counters[i]|)
  }

  /** The counters after a pop: aged, and one more for an activate, which had room. */
  ghost predicate Counted(tFAW: nat, counters: seq<seq<nat>>, counters': seq<seq<nat>>, pop: Pop) {
    var aged := Aged(counters);
    if pop.Send? && pop.command.kind.ACTIVATE?
    then pop.command.rank < |counters| && ActivationWindow.Open(aged[pop.command.rank])
         && counters' == aged[pop.command.rank := aged[pop.command.rank] + [tFAW]]
    else counters' == aged
  }

  ghost predicate Fits(g: Shape, banks: seq<seq<BankState>>, accesses: seq<seq<nat>>, queues: Queues) {
    && |banks| == g.numRanks && |accesses| == g.numRanks && QueueOrder.Shaped(g, queues)
    && (forall r :: 0 <= r < g.numRanks ==> |banks[r]| == g.numBanks && |accesses[r]| == g.numBanks)
    && forall r: nat, x: nat :: InQueues(queues, r, x) ==> QueueOrder.QueueOk(g, queues[r][x], banks[r], r, x)
  }

  class CommandQueue {
    const g: Shape
    const rr: RR.Policy
    const tFAW: nat
    const total: nat
    const AL: nat
    var queues: Queues
    var turn: Turn
    var refreshRank: int
    var refreshWaiting: bool
    var sendAct: bool
    var counters: seq<seq<nat>>
    var accesses: seq<seq<nat>>

    ghost predicate Valid()
      reads this
    {
      && g.numRanks > 0 && g.numBanks > 0 && turn.Valid(g) && |counters| == g.numRanks
      && (refreshWaiting ==> 0 <= refreshRank < g.numRanks)
    }

    /** The rank that must not be given new commands. */
    function Blocked(): int
      reads this
    {
      if refreshWaiting then refreshRank else -1
    }

    function Seen(clock: int, banks: seq<seq<BankState>>): View
      reads this
    {
      View(clock, banks, Sizes(Aged(counters)), accesses, total)
    }

    constructor (g: Shape, rr: RR.Policy, tFAW: nat, total: nat, AL: nat)
      requires g.numRanks > 0 && g.numBanks > 0
      ensures Valid() && !refreshWaiting && queues == FullStart(g).queues
      ensures this.g == g && this.rr == rr && this.tFAW == tFAW && this.total == total && this.AL == AL
      ensures counters == seq(g.numRanks, _ => []) && accesses == NoAccesses(g)
    {
      this.g, this.rr, this.tFAW, this.total, this.AL := g, rr, tFAW, total, AL;
      queues := seq(g.numRanks, _ => seq(g.Lanes(), _ => []));
      turn, refreshRank, refreshWaiting, sendAct := Turn(0, 0, 0, 0), 0, false, true;
      counters := seq(g.numRanks, _ => []);
      accesses := NoAccesses(g);
    }

    /** Room for a transaction's two commands. */
    method HasRoomFor(e: Packet) returns (room: bool)
      requires QueueOrder.Shaped(g, queues) && ValidArrival(g, e)
      ensures room <==> HasRoom(g, queues, e)
    {
      QueueOrder.InRange(g, queues, e);
      var size := |queues[e.command.rank][g.Lane(e.command.bank)]|;
      room := size > g.queueDepth || g.queueDepth - size >= 2;
    }

    /** Appends a packet to its queue; false is the exit for too many. */
    method Enqueue(e: Packet) returns (ok: bool)
      requires InQueues(queues, e.command.rank, g.Lane(e.command.bank))
      modifies this`queues
      ensures ok ==> Controller.Enqueue(g, old(queues), e) == Running(queues)
      ensures !ok ==> Controller.Enqueue(g, old(queues), e) == Crashed(QueueOverflow)
    {
      var r, x := e.command.rank, g.Lane(e.command.bank);
      queues := With(queues, r, x, queues[r][x] + [e]);
      ok := |queues[r][x]| <= g.queueDepth;
    }

    /** A rank is due for a refresh. */
    method NeedRefresh(rank: nat)
      requires Valid() && rank < g.numRanks
      modifies this`refreshWaiting, this`refreshRank
      ensures Valid() && Blocked() == rank
    {
      refreshWaiting, refreshRank := true, rank;
    }

    /** The next command, if any.  It leaves the queues in order, passes the controller's tests
        and keeps the activate window (see Chooses and Counted). */
    method Pop(clock: int, banks: seq<seq<BankState>>) returns (choice: Choice, pop: Pop)
      requires Valid() && Fits(g, banks, accesses, queues)
      modifies this
      ensures Valid()
      ensures Legal(g, old(queues), choice)
      ensures pop == PopOf(old(queues), choice) && queues == After(g.policy, old(queues), choice)
      ensures pop.Send? ==> pop.command.rank < g.numRanks && Ready(g.policy, clock, pop.command, banks[pop.command.rank])
      ensures Counted(tFAW, old(counters), counters, pop)
      ensures accesses == Count(g.policy, old(queues), old(accesses), choice)
      ensures Blocked() == if pop.Send? && pop.command.kind.REFRESH? then -1 else old(Blocked())
      ensures Chooses(g, old(Seen(clock, banks)), old(queues), old(Blocked()), choice)
      ensures choice.Take? && choice.rank != old(Blocked()) ==>
                FirstInTurn(g, old(Seen(clock, banks)), old(queues), rr, old(turn), old(Blocked()), choice)
    {
      var turn';
      choice, turn' := Decide(clock, banks);
      pop := PopOf(queues, choice);
      counters := Aged(counters);
      accesses := Count(g.policy, queues, accesses, choice);
      queues := After(g.policy, queues, choice);
      if pop.Send? && pop.command.kind.REFRESH? {
        refreshRank, refreshWaiting := -1, false;
      }
      turn := turn';
      if pop.Send? {
        Rotate();
        if pop.command.kind.ACTIVATE? {
          counters := counters[pop.command.rank := counters[pop.command.rank] + [tFAW]];
        }
      }
    }

    method Decide(clock: int, banks: seq<seq<BankState>>) returns (choice: Choice, turn': Turn)
      requires Valid() && Fits(g, banks, accesses, queues)
      ensures turn'.Valid(g) && Legal(g, queues, choice)
      ensures var pop := PopOf(queues, choice);
              && (pop.Nothing? <==> choice.Wait?)
              && (pop.Send? ==> pop.command.rank < g.numRanks && Ready(g.policy, clock, pop.command, banks[pop.command.rank]))
              && (pop.Send? && pop.command.kind.ACTIVATE? ==> ActivationWindow.Open(Aged(counters)[pop.command.rank]))
      ensures Chooses(g, Seen(clock, banks), queues, Blocked(), choice)
      ensures choice.Take? && choice.rank != Blocked() ==>
                FirstInTurn(g, Seen(clock, banks), queues, rr, turn, Blocked(), choice)
    {
      var v := Seen(clock, banks);
      FitsCovers(g, v, queues);
      choice, turn' := Choose(g, v, queues, rr, turn, Blocked());
      GoodIsLegal(g, v, queues, choice);
    }

    /** With posted accesses, the turn stays for the access that follows its ACTIVATE. */
    method Rotate()
      requires g.numRanks > 0 && g.numBanks > 0 && turn.Valid(g)
      modifies this`turn, this`sendAct
      ensures turn.Valid(g)
      ensures AL > 0 && old(sendAct) ==> !sendAct && turn == old(turn)
      ensures !(AL > 0 && old(sendAct)) ==>
                && sendAct && turn.rankPRE == old(turn.rankPRE) && turn.bankPRE == old(turn.bankPRE)
                && RR.Place(rr, g.numRanks, g.numBanks, turn.rank, turn.bank)
                   == RR.Next(g.numRanks * g.numBanks, RR.Place(rr, g.numRanks, g.numBanks, old(turn.rank), old(turn.bank)))
    {
      if AL > 0 && sendAct {
        sendAct := false;
      } else {
        sendAct := true;
        RR.NextPlace(rr, g.numRanks, g.numBanks, turn.rank, turn.bank);
        turn := turn.(rank := RR.NextRank(rr, g.numRanks, g.numBanks, turn.rank, turn.bank),
                      bank := RR.NextBank(rr, g.numRanks, g.numBanks, turn.rank, turn.bank));
      }
    }
  }

  lemma FitsCovers(g: Shape, v: View, queues: Queues)
    requires Fits(g, v.banks, v.accesses, queues) && |v.activates| == g.numRanks
    ensures Covers(g, v) && AllFine(g, v, queues)
  {
  }

  lemma GoodIsLegal(g: Shape, v: View, queues: Queues, choice: Choice)
    requires Covers(g, v) && AllFine(g, v, queues) && Good(g, v, queues, choice)
    ensures Legal(g, queues, choice)
    ensures PopOf(queues, choice).Nothing? <==> choice.Wait?
    ensures var pop := PopOf(queues, choice);
            pop.Send? ==>
              && pop.command.rank < g.numRanks && Ready(g.policy, v.clock, pop.command, v.banks[pop.command.rank])
              && (pop.command.kind.ACTIVATE? ==> v.activates[pop.command.rank] < 4)
              && (pop.command.kind.REFRESH? ==> choice == MakeUp(pop.command))
  {
    if choice.Take? {
      var q := queues[choice.rank][choice.lane];
      assert Fine(g, v, q, choice.rank, choice.lane);
      assert QueueOrder.PacketOk(g, q[choice.i], choice.rank, choice.lane);
    }
  }
}
