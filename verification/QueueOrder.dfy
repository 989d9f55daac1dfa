/**
 Over every run of the controller: pairs stay together, no queue overflows, and the accesses
 to a row are issued in the order in which their transactions arrived, none lost and none
 issued twice.
 */
module QueueOrder {
  import opened BankTiming
  import opened Protocol
  import opened DataPath
  import opened Coherence
  import opened OpenRows
  import opened CommandQueues
  import opened Controller

  // ---------- the invariant of the queues ----------

  predicate PacketOk(g: Shape, e: Packet, r: nat, x: nat) {
    && e.command.rank == r && e.command.bank < g.numBanks && g.Lane(e.command.bank) == x
    && (IsAct(e) || IsColumn(e)) && Uses(g.policy, e.command.kind)
  }

  /** A column access whose ACTIVATE is gone is the first of its bank, and its bank is open. */
  ghost predicate LooseAt(q: seq<Packet>, mc: seq<BankState>, i: nat)
    requires i < |q|
  {
    IsColumn(q[i]) && !HasAct(q, i) ==>
      Open(mc, q[i].command.bank) && forall j :: 0 <= j < i ==> !SameBank(q[j], q[i])
  }

  ghost predicate Orderly(q: seq<Packet>, mc: seq<BankState>) {
    forall i :: 0 <= i < |q| ==> LooseAt(q, mc, i)
  }

  /** Queues hold ACTIVATEs and column accesses only. */
  ghost predicate Typed(q: seq<Packet>) {
    forall j :: 0 <= j < |q| ==> IsAct(q[j]) || IsColumn(q[j])
  }

  ghost predicate QueueOk(g: Shape, q: seq<Packet>, mc: seq<BankState>, r: nat, x: nat) {
    && |q| <= g.queueDepth
    && Paired(q)
    && (forall j :: 0 <= j < |q| ==> PacketOk(g, q[j], r, x))
    && (g.policy.ClosePage? ==> Orderly(q, mc))
  }

  ghost predicate LaneOk(g: Shape, queues: Queues, ch: Channel, r: nat, x: nat)
    requires InQueues(queues, r, x) && r < |ch.ranks|
  {
    QueueOk(g, queues[r][x], ch.ranks[r].mc, r, x)
  }

  ghost predicate Shaped(g: Shape, queues: Queues) {
    |queues| == g.numRanks && forall r :: 0 <= r < |queues| ==> |queues[r]| == g.Lanes()
  }

  ghost predicate QueuesOk(g: Shape, queues: Queues, ch: Channel) {
    && Shaped(g, queues) && |ch.ranks| == g.numRanks
    && forall r: nat, x: nat :: InQueues(queues, r, x) ==> LaneOk(g, queues, ch, r, x)
  }

  // ---------- taking a command ----------

  /** The packet taken is the first access to its row. */
  lemma TakesFirst(g: Shape, q: seq<Packet>, mc: seq<BankState>, r: nat, x: nat, i: nat)
    requires QueueOk(g, q, mc, r, x) && i < |q| && Removable(g.policy, q, i) && IsColumn(q[i])
    ensures FirstOfRow(q, i)
  {
    if g.policy.ClosePage? {
      assert LooseAt(q, mc, i);
    }
  }

  lemma TakenOrderly(q: seq<Packet>, mc: seq<BankState>, mc': seq<BankState>, i: nat)
    requires Paired(q) && Orderly(q, mc) && i < |q| && Removable(ClosePage, q, i) && Typed(q)
    requires IsAct(q[i]) ==> Open(mc', q[i].command.bank) && !Open(mc, q[i].command.bank)
    requires forall b: nat :: Open(mc, b) && !(IsColumn(q[i]) && b == q[i].command.bank) ==> Open(mc', b)
    ensures Orderly(RemoveAt(q, i), mc')
  {
    var q' := RemoveAt(q, i);
    forall j | 0 <= j < |q'| ensures LooseAt(q', mc', j) {
      if IsAct(q[i]) && j == i {
        LoosenedByAct(q, mc, mc', i);
      } else {
        StaysLoose(q, mc, mc', i, j);
      }
    }
  }

  /** The access behind a taken ACTIVATE becomes loose; its bank is now open. */
  lemma LoosenedByAct(q: seq<Packet>, mc: seq<BankState>, mc': seq<BankState>, i: nat)
    requires Paired(q) && Orderly(q, mc) && i < |q| && IsAct(q[i]) && FirstActOfBank(q, i) && Typed(q)
    requires Open(mc', q[i].command.bank) && !Open(mc, q[i].command.bank)
    ensures i < |RemoveAt(q, i)| && LooseAt(RemoveAt(q, i), mc', i)
  {
    assert PairedAt(q, i);
    var q' := RemoveAt(q, i);
    forall j | 0 <= j < i ensures !SameBank(q'[j], q'[i]) {
      NoneOfBankBefore(q, mc, i, j);
    }
  }

  /** Nothing of the bank stands before the first ACTIVATE of a closed bank. */
  lemma NoneOfBankBefore(q: seq<Packet>, mc: seq<BankState>, i: nat, j: nat)
    requires Paired(q) && Orderly(q, mc) && j < i < |q| && IsAct(q[i]) && FirstActOfBank(q, i) && Typed(q)
    requires !Open(mc, q[i].command.bank)
    ensures !SameBank(q[j], q[i])
  {
    assert LooseAt(q, mc, j);
    if j > 0 && IsAct(q[j - 1]) {
      assert PairedAt(q, j - 1);
      assert !(IsAct(q[j - 1]) && SameBank(q[j - 1], q[i]));
    }
  }

  lemma StaysLoose(q: seq<Packet>, mc: seq<BankState>, mc': seq<BankState>, i: nat, j: nat)
    requires Paired(q) && Orderly(q, mc) && i < |q| && Removable(ClosePage, q, i)
    requires j < |RemoveAt(q, i)| && !(IsAct(q[i]) && j == i) && Typed(q)
    requires IsAct(q[i]) ==> !Open(mc, q[i].command.bank)
    requires forall b: nat :: Open(mc, b) && !(IsColumn(q[i]) && b == q[i].command.bank) ==> Open(mc', b)
    ensures LooseAt(RemoveAt(q, i), mc', j)
  {
    var q' := RemoveAt(q, i);
    var k := if j < i then j else j + 1;
    assert q'[j] == q[k];
    assert LooseAt(q, mc, k) && LooseAt(q, mc, i);
    assert i > 0 ==> PairedAt(q, i - 1);
    if IsColumn(q'[j]) && !HasAct(q', j) {
      assert !HasAct(q, k);
      assert k > i ==> !SameBank(q[i], q[k]);
      assert k < i && IsColumn(q[i]) ==> !SameBank(q[k], q[i]);
    }
  }

  lemma TakenPackets(g: Shape, q: seq<Packet>, i: nat, r: nat, x: nat)
    requires i < |q| && forall j :: 0 <= j < |q| ==> PacketOk(g, q[j], r, x)
    ensures forall j :: 0 <= j < |Taken(g.policy, q, i)| ==> PacketOk(g, Taken(g.policy, q, i)[j], r, x)
    ensures |Taken(g.policy, q, i)| < |q|
  {
  }

  /** The lane a command was taken from. */
  lemma LaneTaken(g: Shape, q: seq<Packet>, mc: seq<BankState>, mc': seq<BankState>, r: nat, x: nat, i: nat)
    requires QueueOk(g, q, mc, r, x) && i < |q| && Removable(g.policy, q, i)
    requires g.policy.ClosePage? && IsAct(q[i]) ==> Open(mc', q[i].command.bank) && !Open(mc, q[i].command.bank)
    requires g.policy.ClosePage? ==>
               forall b: nat :: Open(mc, b) && !(IsColumn(q[i]) && b == q[i].command.bank) ==> Open(mc', b)
    ensures QueueOk(g, Taken(g.policy, q, i), mc', r, x)
  {
    TakenPackets(g, q, i, r, x);
    TakenPaired(g.policy, q, i);
    if g.policy.ClosePage? {
      TakenOrderly(q, mc, mc', i);
    }
  }

  /** Another lane. */
  lemma LaneKept(g: Shape, q: seq<Packet>, mc: seq<BankState>, mc': seq<BankState>, r: nat, x: nat)
    requires QueueOk(g, q, mc, r, x)
    requires g.policy.ClosePage? ==> forall b: nat :: Open(mc, b) && g.Lane(b) == x ==> Open(mc', b)
    ensures QueueOk(g, q, mc', r, x)
  {
    if g.policy.ClosePage? {
      forall i | 0 <= i < |q| ensures LooseAt(q, mc', i) {
        assert LooseAt(q, mc, i) && PacketOk(g, q[i], r, x);
      }
    }
  }

  // ---------- a cycle ----------

  /** A cycle of the channel with the command that the choice names. */
  ghost predicate Steps(p: Timing, g: Shape, f: Full, input: Input, sys': System)
    requires p.Sane()
  {
    && SystemInv(p, g.policy, f.sys) && QueuesOk(g, f.queues, f.sys.ch) && Legal(g, f.queues, input.choice)
    && SystemCycle(p, g.policy, f.sys, Decision(PopOf(f.queues, input.choice), input.power)) == Running(sys')
  }

  /** With closed pages, an access taken from a queue goes to a bank that was opened for it. */
  lemma TakesOpen(g: Shape, q: seq<Packet>, mc: seq<BankState>, r: nat, x: nat, i: nat)
    requires QueueOk(g, q, mc, r, x) && i < |q| && Removable(g.policy, q, i) && g.policy.ClosePage? && IsColumn(q[i])
    ensures Open(mc, q[i].command.bank)
  {
    assert LooseAt(q, mc, i);
  }

  /** So what the queues hand out never goes to a bank that is about to precharge by itself. */
  lemma ChoiceHeeds(p: Timing, g: Shape, queues: Queues, ch: Channel, choice: Choice)
    requires p.Sane() && QueuesOk(g, queues, ch) && Legal(g, queues, choice)
    ensures HeedsNow(p, g.policy, ch, PopOf(queues, choice))
  {
    var o := Deliver(p, TickAll(p, ch));
    if o.Running? && choice.Take? && g.policy.ClosePage? {
      var r, x, q := choice.rank, choice.lane, queues[choice.rank][choice.lane];
      assert LaneOk(g, queues, ch, r, x);
      assert PacketOk(g, q[choice.i], r, x);
      if IsColumn(q[choice.i]) {
        TakesOpen(g, q, ch.ranks[r].mc, r, x, choice.i);
        TickOpen(p, ch, o.state, r, q[choice.i].command.bank);
      }
    }
  }

  lemma StillOpen(p: Timing, g: Shape, f: Full, input: Input, sys': System, r: nat, b: nat)
    requires p.Sane() && p.tCMD == 1 && g.policy.ClosePage? && Steps(p, g, f, input, sys')
    requires OpenIn(f.sys.ch, r, b) && !Accesses(PopOf(f.queues, input.choice), r, b)
    ensures OpenIn(sys'.ch, r, b)
  {
    ChoiceHeeds(p, g, f.queues, f.sys.ch, input.choice);
    CycleOpen(p, f.sys, Decision(PopOf(f.queues, input.choice), input.power), sys', r, b);
  }

  lemma ChosenLane(p: Timing, g: Shape, f: Full, input: Input, sys': System)
    requires p.Sane() && p.tCMD == 1 && Steps(p, g, f, input, sys') && input.choice.Take?
    requires |sys'.ch.ranks| == |f.sys.ch.ranks|
    ensures var c := input.choice;
            QueueOk(g, Taken(g.policy, f.queues[c.rank][c.lane], c.i), sys'.ch.ranks[c.rank].mc, c.rank, c.lane)
  {
    var c := input.choice;
    var r, x := c.rank, c.lane;
    var q, d := f.queues[r][x], Decision(PopOf(f.queues, c), input.power);
    assert LaneOk(g, f.queues, f.sys.ch, r, x);
    var mc, mc' := f.sys.ch.ranks[r].mc, sys'.ch.ranks[r].mc;
    assert PacketOk(g, q[c.i], r, x);
    if g.policy.ClosePage? {
      if IsAct(q[c.i]) {
        ChoiceHeeds(p, g, f.queues, f.sys.ch, c);
        CycleAct(p, f.sys, d, sys');
      }
      forall b: nat | Open(mc, b) && !(IsColumn(q[c.i]) && b == q[c.i].command.bank) ensures Open(mc', b) {
        StillOpen(p, g, f, input, sys', r, b);
      }
    }
    LaneTaken(g, q, mc, mc', r, x, c.i);
  }

  lemma OtherLane(p: Timing, g: Shape, f: Full, input: Input, sys': System, r: nat, x: nat)
    requires p.Sane() && p.tCMD == 1 && Steps(p, g, f, input, sys') && InQueues(f.queues, r, x)
    requires |sys'.ch.ranks| == |f.sys.ch.ranks|
    requires input.choice.Take? ==> (r, x) != (input.choice.rank, input.choice.lane)
    ensures QueueOk(g, f.queues[r][x], sys'.ch.ranks[r].mc, r, x)
  {
    var c := input.choice;
    assert LaneOk(g, f.queues, f.sys.ch, r, x);
    if c.Take? {
      assert LaneOk(g, f.queues, f.sys.ch, c.rank, c.lane);
      assert PacketOk(g, f.queues[c.rank][c.lane][c.i], c.rank, c.lane);
    }
    if g.policy.ClosePage? {
      forall b: nat | Open(f.sys.ch.ranks[r].mc, b) && g.Lane(b) == x ensures Open(sys'.ch.ranks[r].mc, b) {
        StillOpen(p, g, f, input, sys', r, b);
      }
    }
    LaneKept(g, f.queues[r][x], f.sys.ch.ranks[r].mc, sys'.ch.ranks[r].mc, r, x);
  }

  lemma PopKeepsQueues(p: Timing, g: Shape, f: Full, input: Input, sys': System)
    requires p.Sane() && p.tCMD == 1 && Steps(p, g, f, input, sys')
    ensures QueuesOk(g, After(g.policy, f.queues, input.choice), sys'.ch)
  {
    RanksStay(p, g.policy, f.sys, Decision(PopOf(f.queues, input.choice), input.power));
    var queues := After(g.policy, f.queues, input.choice);
    forall r: nat, x: nat | InQueues(queues, r, x) ensures LaneOk(g, queues, sys'.ch, r, x) {
      if input.choice.Take? && (r, x) == (input.choice.rank, input.choice.lane) {
        ChosenLane(p, g, f, input, sys');
      } else {
        OtherLane(p, g, f, input, sys', r, x);
      }
    }
  }

  // ---------- scheduling a transaction ----------

  lemma PairAppended(g: Shape, q: seq<Packet>, mc: seq<BankState>, r: nat, x: nat, e: Packet)
    requires QueueOk(g, q, mc, r, x) && ValidArrival(g, e) && e.command.rank == r && g.Lane(e.command.bank) == x
    requires |q| + 2 <= g.queueDepth
    ensures QueueOk(g, q + [ActFor(e)] + [e], mc, r, x)
  {
    var q' := q + [ActFor(e)] + [e];
    forall j | 0 <= j < |q'| ensures PairedAt(q', j) && PacketOk(g, q'[j], r, x) {
      assert j < |q| ==> PairedAt(q, j);
    }
    if g.policy.ClosePage? {
      forall j | 0 <= j < |q'| ensures LooseAt(q', mc, j) {
        assert j < |q| ==> LooseAt(q, mc, j);
      }
    }
  }

  /** The queues after a transaction was split. */
  function Split(g: Shape, queues: Queues, e: Packet): Queues
    requires InQueues(queues, e.command.rank, g.Lane(e.command.bank))
  {
    var r, x := e.command.rank, g.Lane(e.command.bank);
    With(queues, r, x, queues[r][x] + [ActFor(e)] + [e])
  }

  lemma InRange(g: Shape, queues: Queues, e: Packet)
    requires Shaped(g, queues) && ValidArrival(g, e)
    ensures InQueues(queues, e.command.rank, g.Lane(e.command.bank))
  {
  }

  lemma WithTwice(queues: Queues, r: nat, x: nat, a: seq<Packet>, b: seq<Packet>)
    requires InQueues(queues, r, x)
    ensures With(With(queues, r, x, a), r, x, b) == With(queues, r, x, b)
    ensures With(queues, r, x, a)[r][x] == a
  {
    assert queues[r][x := a][x := b] == queues[r][x := b];
  }

  /** With room for a pair, enqueueing never overflows. */
  lemma EnqueuesPair(g: Shape, queues: Queues, ch: Channel, e: Packet)
    requires QueuesOk(g, queues, ch) && ValidArrival(g, e) && HasRoom(g, queues, e)
    ensures InQueues(queues, e.command.rank, g.Lane(e.command.bank))
    ensures Enqueue(g, queues, ActFor(e)).Running?
    ensures Enqueue(g, Enqueue(g, queues, ActFor(e)).state, e) == Running(Split(g, queues, e))
    ensures QueuesOk(g, Split(g, queues, e), ch)
  {
    var r, x := e.command.rank, g.Lane(e.command.bank);
    InRange(g, queues, e);
    assert LaneOk(g, queues, ch, r, x);
    PairAppended(g, queues[r][x], ch.ranks[r].mc, r, x, e);
    var queues' := Split(g, queues, e);
    WithTwice(queues, r, x, queues[r][x] + [ActFor(e)], queues[r][x] + [ActFor(e)] + [e]);
    forall s: nat, y: nat | InQueues(queues', s, y) ensures LaneOk(g, queues', ch, s, y) {
      assert LaneOk(g, queues, ch, s, y);
    }
  }

  ghost predicate AllValid(g: Shape, waiting: seq<Packet>) {
    forall j :: 0 <= j < |waiting| ==> ValidArrival(g, waiting[j])
  }

  lemma ScheduleKeeps(g: Shape, queues: Queues, ch: Channel, waiting: seq<Packet>)
    requires QueuesOk(g, queues, ch) && AllValid(g, waiting)
    ensures Schedule(g, queues, waiting).Running?
    ensures QueuesOk(g, Schedule(g, queues, waiting).state.0, ch)
    ensures AllValid(g, Schedule(g, queues, waiting).state.1)
  {
    var i := FirstWithRoom(g, queues, waiting);
    if i < |waiting| {
      EnqueuesPair(g, queues, ch, waiting[i]);
    }
  }

  /** No queue is beyond its depth. */
  ghost predicate WithinDepth(g: Shape, queues: Queues) {
    && Shaped(g, queues)
    && forall r: nat, x: nat :: InQueues(queues, r, x) ==> |queues[r][x]| <= g.queueDepth
  }

  lemma AfterWithinDepth(g: Shape, queues: Queues, ch: Channel, choice: Choice)
    requires QueuesOk(g, queues, ch) && Legal(g, queues, choice)
    ensures WithinDepth(g, After(g.policy, queues, choice))
  {
    var queues' := After(g.policy, queues, choice);
    forall r: nat, x: nat | InQueues(queues', r, x) ensures |queues'[r][x]| <= g.queueDepth {
      assert LaneOk(g, queues, ch, r, x);
      if choice.Take? && (r, x) == (choice.rank, choice.lane) {
        TakenPackets(g, queues[r][x], choice.i, r, x);
      }
    }
  }

  /** ... so splitting a transaction never overflows. */
  lemma SplitRuns(g: Shape, queues: Queues, waiting: seq<Packet>)
    requires WithinDepth(g, queues) && AllValid(g, waiting)
    ensures Schedule(g, queues, waiting).Running?
  {
    var i := FirstWithRoom(g, queues, waiting);
    if i < |waiting| {
      var e := waiting[i];
      var r, x := e.command.rank, g.Lane(e.command.bank);
      InRange(g, queues, e);
      WithTwice(queues, r, x, queues[r][x] + [ActFor(e)], queues[r][x] + [ActFor(e)] + [e]);
    }
  }

  // ---------- the order of a row's accesses ----------

  /** Every access to the row that arrived was issued, is queued or is waiting, in that order. */
  ghost predicate Balanced(g: Shape, queues: Queues, waiting: seq<Packet>, arrived: seq<Packet>, issued: seq<Packet>, k: Key) {
    Select(arrived, k)
    == Select(issued, k) + Select(QueueOf(g, queues, k.rank, k.bank), k) + Select(waiting, k)
  }

  /** A packet of a lane belongs to the rows of that lane only. */
  lemma HitsLane(g: Shape, q: seq<Packet>, mc: seq<BankState>, r: nat, x: nat, i: nat, k: Key)
    requires QueueOk(g, q, mc, r, x) && i < |q| && (k.rank != r || g.Lane(k.bank) != x)
    ensures !Hits(q[i], k)
  {
  }

  /** What a row sees of a command being taken. */
  lemma TakeSelects(g: Shape, queues: Queues, ch: Channel, r: nat, x: nat, i: nat, k: Key)
    requires QueuesOk(g, queues, ch) && Legal(g, queues, Take(r, x, i))
    ensures Select(QueueOf(g, queues, k.rank, k.bank), k)
         == Select(Chosen(queues, Take(r, x, i)), k)
            + Select(QueueOf(g, After(g.policy, queues, Take(r, x, i)), k.rank, k.bank), k)
  {
    var q, mc := queues[r][x], ch.ranks[r].mc;
    assert LaneOk(g, queues, ch, r, x);
    SelectOne(q[i], k);
    WithTwice(queues, r, x, Taken(g.policy, q, i), q);
    if k.rank == r && g.Lane(k.bank) == x {
      if IsColumn(q[i]) {
        TakesFirst(g, q, mc, r, x, i);
      }
      TakenInOrder(g.policy, q, i, k);
    } else {
      HitsLane(g, q, mc, r, x, i, k);
    }
  }

  lemma PopBalanced(g: Shape, f: Full, choice: Choice, k: Key)
    requires QueuesOk(g, f.queues, f.sys.ch) && Legal(g, f.queues, choice)
    requires Balanced(g, f.queues, f.waiting, f.arrived, f.issued, k)
    ensures Balanced(g, After(g.policy, f.queues, choice), f.waiting, f.arrived, f.issued + Chosen(f.queues, choice), k)
  {
    var c := Chosen(f.queues, choice);
    SelectConcat(f.issued, c, k);
    if choice.Take? {
      TakeSelects(g, f.queues, f.sys.ch, choice.rank, choice.lane, choice.i, k);
      Regroup(Select(f.issued, k), Select(c, k),
              Select(QueueOf(g, After(g.policy, f.queues, choice), k.rank, k.bank), k), Select(f.waiting, k));
    } else {
      assert Select(c, k) == [];
    }
  }

  lemma Regroup(a: seq<Packet>, b: seq<Packet>, c: seq<Packet>, d: seq<Packet>)
    ensures a + (b + c) + d == a + b + c + d
  {
  }

  lemma ArriveBalanced(g: Shape, queues: Queues, waiting: seq<Packet>, arrived: seq<Packet>, issued: seq<Packet>,
                       more: seq<Packet>, k: Key)
    requires Balanced(g, queues, waiting, arrived, issued, k)
    ensures Balanced(g, queues, waiting + more, arrived + more, issued, k)
  {
    SelectConcat(waiting, more, k);
    SelectConcat(arrived, more, k);
  }

  /** Transactions to the same row wait for the same queue, so the first one goes first. */
  lemma FirstToGo(g: Shape, queues: Queues, waiting: seq<Packet>, k: Key)
    requires FirstWithRoom(g, queues, waiting) < |waiting|
    ensures var i := FirstWithRoom(g, queues, waiting); Hits(waiting[i], k) ==> FirstHit(waiting, i, k)
  {
  }

  lemma ScheduleBalanced(g: Shape, queues: Queues, ch: Channel, waiting: seq<Packet>, arrived: seq<Packet>,
                         issued: seq<Packet>, k: Key)
    requires QueuesOk(g, queues, ch) && AllValid(g, waiting) && Balanced(g, queues, waiting, arrived, issued, k)
    ensures Schedule(g, queues, waiting).Running?
    ensures var (queues', waiting') := Schedule(g, queues, waiting).state;
            Balanced(g, queues', waiting', arrived, issued, k)
  {
    var i := FirstWithRoom(g, queues, waiting);
    if i < |waiting| {
      var e := waiting[i];
      var q := QueueOf(g, queues, k.rank, k.bank);
      EnqueuesPair(g, queues, ch, e);
      FirstToGo(g, queues, waiting, k);
      SelectRemoved(waiting, i, k);
      SplitSelects(g, queues, e, k);
      Regroup(Select(issued, k) + Select(q, k), [], if Hits(e, k) then [e] else [], Select(RemoveAt(waiting, i), k));
    }
  }

  lemma SplitSelects(g: Shape, queues: Queues, e: Packet, k: Key)
    requires IsColumn(e) && InQueues(queues, e.command.rank, g.Lane(e.command.bank))
    ensures Select(QueueOf(g, Split(g, queues, e), k.rank, k.bank), k)
         == Select(QueueOf(g, queues, k.rank, k.bank), k) + (if Hits(e, k) then [e] else [])
  {
    var r, x := e.command.rank, g.Lane(e.command.bank);
    var q := queues[r][x];
    if k.rank == r && g.Lane(k.bank) == x {
      WithTwice(queues, r, x, q + [ActFor(e)] + [e], q);
      SelectConcat(q + [ActFor(e)], [e], k);
      SelectConcat(q, [ActFor(e)], k);
      SelectOne(e, k);
      SelectOne(ActFor(e), k);
    }
  }
}
