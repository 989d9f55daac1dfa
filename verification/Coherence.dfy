/**
 Reads return the latest write.  A cycle of the channel in which the command issued heeds
 automatic precharges keeps the invariant that every issued read is returned exactly once, in
 issue order per rank, a fixed time after its issue, with the data of the latest write command
 issued before it to the same cell.  ArrivalOrder.ReadsReturnLatestWrite is the result for whole
 runs.
 */
module Coherence {
  import opened RowStore
  import opened Packets
  import opened BankTiming
  import opened Protocol
  import opened DataPath
  import opened Floors
  import opened ReadReturns
  import opened WritePath

  // ---------- the invariant after cycle t ----------

  /** An outstanding write keeps reads of its rank away until its data has arrived. */
  ghost predicate Shielded(p: Timing, t: int, ranks: seq<RankPair>, w: Sent) {
    w.at <= t && ReadFloor(ranks, w.command.rank, w.at + p.WL() + p.Burst())
  }

  ghost predicate WriteInv(p: Timing, t: int, ranks: seq<RankPair>, io: Data, golden: Memory) {
    && WritesOnTime(p, t, io) && Spaced(Outstanding(io), 1)
    && golden == Drain(io.mem, Outstanding(io))
    && forall k :: 0 <= k < |Outstanding(io)| ==> Shielded(p, t, ranks, Outstanding(io)[k])
  }

  /** The read on its way to rank i, with the data it will fetch. */
  function Coming(t: int, bus: Bus, mem: Memory, i: nat): seq<Ticket> {
    if bus.Busy? && bus.command.rank == i && IsRead(bus.command)
    then [Ticket(bus.command, t, Fetch(mem, CellOf(bus.command)))] else []
  }

  /** The rank may not be read again within a burst of its latest read. */
  ghost predicate ReadGap(p: Timing, t: int, ranks: seq<RankPair>, i: nat, issued: seq<Ticket>) {
    issued != [] ==>
      var next := issued[|issued| - 1].issuedAt + p.Burst();
      next <= t + 1 || ReadBar(ranks, i, t, next)
  }

  /** The same in the middle of cycle t, before the next command. */
  ghost predicate MidGap(p: Timing, t: int, ranks: seq<RankPair>, i: nat, issued: seq<Ticket>) {
    issued != [] ==>
      var next := issued[|issued| - 1].issuedAt + p.Burst();
      next <= t || ReadBar(ranks, i, t, next)
  }

  ghost predicate IssueOrder(p: Timing, t: int, issued: seq<Ticket>) {
    Apart(issued, p.Burst()) && forall k :: 0 <= k < |issued| ==> issued[k].issuedAt <= t
  }

  /** Everything issued to rank i is returned, in flight, or on the command bus, in order. */
  ghost predicate ReadInv(p: Timing, t: int, ch: Channel, mem: Memory, io: RankIo, i: nat, issued: seq<Ticket>) {
    && issued == Done(io.returned) + InFlight(io) + Coming(t, ch.bus, mem, i)
    && IssueOrder(p, t, issued) && OnTime(p, t, io) && ReadGap(p, t, ch.ranks, i, issued)
  }

  ghost predicate ReadInvs(p: Timing, t: int, s: System) {
    && |s.io.ranks| == |s.ch.ranks| == |s.h.issued|
    && forall i :: 0 <= i < |s.ch.ranks| ==> RankReads(p, t, s, i)
  }

  ghost predicate RankReads(p: Timing, t: int, s: System, i: nat)
    requires i < |s.io.ranks| && i < |s.h.issued|
  {
    ReadInv(p, t, s.ch, s.io.mem, s.io.ranks[i], i, s.h.issued[i])
  }

  ghost predicate SystemInv(p: Timing, policy: Policy, s: System)
    requires p.Sane()
  {
    && Inv(p, policy, s.ch.clock, s.ch)
    && WriteInv(p, s.ch.clock - 1, s.ch.ranks, s.io, s.h.golden)
    && ReadInvs(p, s.ch.clock - 1, s)
  }

  // ---------- reads, up to the issue phase ----------

  /** Rank i in the middle of cycle t, after the command on the bus has arrived. */
  ghost predicate ReadMid(p: Timing, t: int, io: RankIo, issued: seq<Ticket>) {
    && issued == Done(io.returned) + InFlight(io)
    && IssueOrder(p, t - 1, issued) && OnTime(p, t, io)
  }

  lemma ApartPart(a: seq<Ticket>, b: seq<Ticket>, c: seq<Ticket>, gap: nat)
    requires Apart(a + b + c, gap)
    ensures Apart(b, gap)
  {
    var abc := a + b + c;
    forall k, l | 0 <= k < l < |b| ensures b[k].issuedAt + gap <= b[l].issuedAt {
      assert abc[|a| + k] == b[k] && abc[|a| + l] == b[l];
    }
  }

  lemma ReadToMid(p: Timing, t: int, ch: Channel, io: Data, i: nat, issued: seq<Ticket>)
    requires p.Sane() && p.tCMD == 1 && i < |io.ranks|
    requires ReadInv(p, t - 1, ch, io.mem, io.ranks[i], i, issued)
    requires ch.bus.Busy? ==> ch.bus.left == 1
    ensures var io' := Arrival(p, t, UpdateRanks(p, t, io), ch.bus);
            |io'.ranks| == |io.ranks| && io'.mem == io.mem && ReadMid(p, t, io'.ranks[i], issued)
  {
    var r, coming := io.ranks[i], Coming(t - 1, ch.bus, io.mem, i);
    RankMoves(p, t, r, coming, issued);
    ArrivalAt(p, t, io, ch.bus, i);
    MovedMid(p, t, RankUpdate(p, t, r), coming, issued);
  }

  /** The rank with the reads that have just arrived. */
  function WithReads(p: Timing, r: RankIo, coming: seq<Ticket>): RankIo
    requires p.Sane() && |coming| <= 1
  {
    if coming == [] then r else r.(waiting := r.waiting + [Slot(coming[0], p.RL())])
  }

  lemma ArrivalAt(p: Timing, t: int, io: Data, bus: Bus, i: nat)
    requires p.Sane() && p.tCMD == 1 && i < |io.ranks| && (bus.Busy? ==> bus.left == 1)
    ensures var io' := Arrival(p, t, UpdateRanks(p, t, io), bus);
            && |io'.ranks| == |io.ranks| && io'.mem == io.mem
            && io'.ranks[i] == WithReads(p, RankUpdate(p, t, io.ranks[i]), Coming(t - 1, bus, io.mem, i))
  {
  }

  lemma MovedMid(p: Timing, t: int, r1: RankIo, coming: seq<Ticket>, issued: seq<Ticket>)
    requires p.Sane() && |coming| <= 1 && (coming != [] ==> coming[0].issuedAt == t - 1)
    requires issued == Done(r1.returned) + InFlight(r1) + coming && OnTime(p, t, r1) && IssueOrder(p, t - 1, issued)
    ensures ReadMid(p, t, WithReads(p, r1, coming), issued)
  {
  }

  /** The rank's own update moves its reads along and loses none. */
  lemma RankMoves(p: Timing, t: int, r: RankIo, coming: seq<Ticket>, issued: seq<Ticket>)
    requires p.Sane() && issued == Done(r.returned) + InFlight(r) + coming
    requires IssueOrder(p, t - 1, issued) && OnTime(p, t - 1, r)
    ensures var r1 := RankUpdate(p, t, r);
            issued == Done(r1.returned) + InFlight(r1) + coming && OnTime(p, t, r1)
  {
    ApartPart(Done(r.returned), InFlight(r), coming, p.Burst());
    RankUpdateKeeps(p, t - 1, r);
    RankUpdateOnTime(p, t - 1, r);
  }

  // ---------- writes, up to the issue phase ----------

  /** The write side in the middle of cycle t, after the data bus has moved. */
  ghost predicate WriteMid(p: Timing, t: int, ranks: seq<RankPair>, io: Data, golden: Memory) {
    && WritesOnTime(p, t, io) && Spaced(Outstanding(io), 1)
    && golden == Drain(io.mem, Outstanding(io))
    && forall k :: 0 <= k < |Outstanding(io)| ==> Shielded(p, t - 1, ranks, Outstanding(io)[k])
  }

  lemma SpacedTail(ss: seq<Sent>, gap: nat)
    requires Spaced(ss, gap) && ss != []
    ensures Spaced(ss[1..], gap)
  {
  }

  lemma WriteToMid(p: Timing, t: int, before: seq<RankPair>, ranks: seq<RankPair>, io: Data, golden: Memory)
    requires p.Sane() && WriteInv(p, t - 1, before, io, golden) && SameTimes(before, ranks)
    requires WriteSend(p, DataDeliver(io)).Running?
    ensures WriteMid(p, t, ranks, WriteSend(p, DataDeliver(io)).state, golden)
    ensures WriteSend(p, DataDeliver(io)).state.ranks == io.ranks
  {
    WriteCycle(p, t - 1, io);
    var io' := WriteSend(p, DataDeliver(io)).state;
    var ss, ss' := Outstanding(io), Outstanding(io');
    if ss' != ss {
      SpacedTail(ss, 1);
    }
    forall k | 0 <= k < |ss'| ensures Shielded(p, t - 1, ranks, ss'[k]) {
      var w := if ss' == ss then ss[k] else ss[k + 1];
      assert ss'[k] == w && Shielded(p, t - 1, before, w);
      KeepFloors(before, ranks, w.command.rank, w.at + p.WL() + p.Burst());
    }
  }

  /** When a read may be issued, no write to its rank is outstanding, so the bank already
      holds what the reference memory holds. */
  lemma ReadSeesGolden(p: Timing, policy: Policy, ch: Channel, io: Data, golden: Memory, c: Command)
    requires p.Sane() && WriteMid(p, ch.clock, ch.ranks, io, golden) && MayIssue(policy, ch, c) && IsRead(c)
    ensures forall k :: 0 <= k < |Outstanding(io)| ==> Outstanding(io)[k].command.rank != c.rank
    ensures Fetch(golden, CellOf(c)) == Fetch(io.mem, CellOf(c))
  {
    var ss := Outstanding(io);
    forall k | 0 <= k < |ss| ensures ss[k].command.rank != c.rank {
      NotYetArrived(p, ch.clock, io, k);
      assert Shielded(p, ch.clock - 1, ch.ranks, ss[k]);
    }
    DrainElsewhere(io.mem, ss, CellOf(c));
  }

  // ---------- the issue phase ----------

  /** After delivery: the bus is free and every rank is in step. */
  ghost predicate Settled(policy: Policy, ch: Channel) {
    ch.bus.Free? && forall i :: 0 <= i < |ch.ranks| ==> RankOk(policy, ch.clock, ch.ranks[i])
  }

  lemma SettledTarget(p: Timing, policy: Policy, ch: Channel, pop: Pop)
    requires p.Sane() && Settled(policy, ch) && PopPhase(p, policy, ch, pop).Running? && Heeds(policy, ch, pop)
    ensures TargetSettled(ch, pop)
  {
    if pop.Send? {
      assert RankOk(policy, ch.clock, ch.ranks[pop.command.rank]);
      ReadyIsSettled(policy, ch.clock, pop.command, ch.ranks[pop.command.rank]);
    }
  }

  /** A shielded write stays shielded when the next command is issued. */
  lemma ShieldKept(p: Timing, policy: Policy, ch: Channel, pop: Pop, ranks: seq<RankPair>, w: Sent)
    requires p.Sane() && Settled(policy, ch) && PopPhase(p, policy, ch, pop).Running? && Heeds(policy, ch, pop)
    requires SameTimes(PopPhase(p, policy, ch, pop).state.ranks, ranks)
    requires Shielded(p, ch.clock - 1, ch.ranks, w)
    requires pop.Send? && IsRead(pop.command) ==> w.command.rank != pop.command.rank
    ensures Shielded(p, ch.clock, ranks, w)
  {
  }

  lemma WriteIssue(p: Timing, policy: Policy, ch: Channel, pop: Pop, ranks: seq<RankPair>, io: Data, h: History)
    requires p.Sane() && Settled(policy, ch) && PopPhase(p, policy, ch, pop).Running? && Heeds(policy, ch, pop)
    requires SameTimes(PopPhase(p, policy, ch, pop).state.ranks, ranks)
    requires WriteMid(p, ch.clock, ch.ranks, io, h.golden)
    ensures WriteInv(p, ch.clock, ranks, Accept(p, ch.clock, io, pop), Record(ch.clock, h, pop).golden)
  {
    var t := ch.clock;
    var ss := Outstanding(io);
    if pop.Send? && IsRead(pop.command) {
      ReadSeesGolden(p, policy, ch, io, h.golden, pop.command);
    }
    forall k | 0 <= k < |ss| ensures Shielded(p, t, ranks, ss[k]) {
      assert Shielded(p, t - 1, ch.ranks, ss[k]);
      ShieldKept(p, policy, ch, pop, ranks, ss[k]);
    }
    if pop.Send? && IsWrite(pop.command) {
      var w := Sent(pop.command, t);
      AcceptWrite(p, t, io, pop.command);
      DrainSnoc(io.mem, ss, w);
      PopAdds(p, policy, ch, pop.command);
      KeepFloors(PopPhase(p, policy, ch, pop).state.ranks, ranks, w.command.rank, t + p.WL() + p.Burst());
      assert Shielded(p, t, ranks, w);
      forall k | 0 <= k < |ss| ensures ss[k].at + 1 <= t {
        assert Shielded(p, t - 1, ch.ranks, ss[k]);
      }
    }
  }

  lemma AcceptWrite(p: Timing, t: int, io: Data, c: Command)
    requires p.Sane() && WritesOnTime(p, t, io) && IsWrite(c)
    ensures var io' := Accept(p, t, io, Send(c));
            WritesOnTime(p, t, io') && io'.mem == io.mem && Outstanding(io') == Outstanding(io) + [Sent(c, t)]
  {
  }

  /** What bars reads before the power moves does so after them. */
  ghost predicate KeepsBar(before: seq<RankPair>, ranks: seq<RankPair>, t: int) {
    forall i: nat, v: int :: ReadBar(before, i, t, v) ==> ReadBar(ranks, i, t, v)
  }

  /** A read issued to rank i joins the issued reads with the data it will fetch. */
  lemma ReadIssueHere(p: Timing, policy: Policy, ch: Channel, c: Command, ch': Channel, io: Data, h: History)
    requires p.Sane() && IsRead(c) && PopPhase(p, policy, ch, Send(c)).Running? && !AutoPrecharging(ch.ranks[c.rank].mc[c.bank])
    requires KeepsBar(PopPhase(p, policy, ch, Send(c)).state.ranks, ch'.ranks, ch.clock)
    requires ch'.bus.Busy? && ch'.bus.command == c
    requires WriteMid(p, ch.clock, ch.ranks, io, h.golden)
    requires c.rank < |ch.ranks| == |io.ranks| == |h.issued|
    requires ReadMid(p, ch.clock, io.ranks[c.rank], h.issued[c.rank])
    requires MidGap(p, ch.clock, ch.ranks, c.rank, h.issued[c.rank])
    ensures ReadInv(p, ch.clock, ch', io.mem, io.ranks[c.rank], c.rank,
                    h.issued[c.rank] + [Ticket(c, ch.clock, Fetch(h.golden, CellOf(c)))])
  {
    var t, issued := ch.clock, h.issued[c.rank];
    ReadSeesGolden(p, policy, ch, io, h.golden, c);
    NextReadApart(p, policy, ch, c, issued);
    PopAdds(p, policy, ch, c);
    assert ReadBar(ch'.ranks, c.rank, t, t + p.Burst());
  }

  lemma ReadIssue(p: Timing, policy: Policy, ch: Channel, pop: Pop, ch': Channel, io: Data, h: History, i: nat)
    requires p.Sane() && Settled(policy, ch) && PopPhase(p, policy, ch, pop).Running? && Heeds(policy, ch, pop)
    requires KeepsBar(PopPhase(p, policy, ch, pop).state.ranks, ch'.ranks, ch.clock)
    requires ch'.bus == PopPhase(p, policy, ch, pop).state.bus
    requires WriteMid(p, ch.clock, ch.ranks, io, h.golden)
    requires i < |ch.ranks| == |io.ranks| == |h.issued|
    requires ReadMid(p, ch.clock, io.ranks[i], h.issued[i]) && MidGap(p, ch.clock, ch.ranks, i, h.issued[i])
    ensures ReadInv(p, ch.clock, ch', io.mem, io.ranks[i], i, Record(ch.clock, h, pop).issued[i])
  {
    SettledTarget(p, policy, ch, pop);
    if pop.Send? && IsRead(pop.command) && pop.command.rank == i {
      ReadIssueHere(p, policy, ch, pop.command, ch', io, h);
    } else {
      assert Record(ch.clock, h, pop).issued[i] == h.issued[i];
      assert Coming(ch.clock, ch'.bus, io.mem, i) == [];
      GapKept(p, policy, ch, pop, ch'.ranks, i, h.issued[i]);
      NothingComing(p, ch.clock, ch', io.mem, io.ranks[i], i, h.issued[i]);
    }
  }

  lemma NothingComing(p: Timing, t: int, ch: Channel, mem: Memory, io: RankIo, i: nat, issued: seq<Ticket>)
    requires ReadMid(p, t, io, issued) && ReadGap(p, t, ch.ranks, i, issued) && Coming(t, ch.bus, mem, i) == []
    ensures ReadInv(p, t, ch, mem, io, i, issued)
  {
  }

  lemma NextReadApart(p: Timing, policy: Policy, ch: Channel, c: Command, issued: seq<Ticket>)
    requires p.Sane() && MayIssue(policy, ch, c) && IsRead(c) && !AutoPrecharging(ch.ranks[c.rank].mc[c.bank])
    requires IssueOrder(p, ch.clock - 1, issued) && MidGap(p, ch.clock, ch.ranks, c.rank, issued)
    ensures forall data :: IssueOrder(p, ch.clock, issued + [Ticket(c, ch.clock, data)])
  {
  }

  lemma GapKept(p: Timing, policy: Policy, ch: Channel, pop: Pop, ranks: seq<RankPair>, i: nat, issued: seq<Ticket>)
    requires p.Sane() && PopPhase(p, policy, ch, pop).Running? && TargetSettled(ch, pop)
    requires KeepsBar(PopPhase(p, policy, ch, pop).state.ranks, ranks, ch.clock)
    requires !(pop.Send? && IsRead(pop.command) && pop.command.rank == i)
    requires IssueOrder(p, ch.clock - 1, issued) && MidGap(p, ch.clock, ch.ranks, i, issued)
    ensures ReadGap(p, ch.clock, ranks, i, issued)
  {
  }

  // ---------- whole cycles ----------

  /** The phases of a cycle that runs: after delivery, after the write path, at its end. */
  ghost predicate Phases(p: Timing, policy: Policy, s: System, d: Decision, ch1: Channel, io3: Data, ch3: Channel)
    requires p.Sane()
  {
    && Deliver(p, TickAll(p, s.ch)) == Running(ch1)
    && WriteSend(p, DataDeliver(Arrival(p, s.ch.clock, UpdateRanks(p, s.ch.clock, s.io), s.ch.bus))) == Running(io3)
    && Heeds(policy, ch1, d.pop) && PopPhase(p, policy, ch1, d.pop).Running?
    && PowerFrom(p, PopPhase(p, policy, ch1, d.pop).state, d.power, 0) == Running(ch3)
  }

  /** The channel after the cycle, as the other invariants see it. */
  lemma ChannelAfter(p: Timing, policy: Policy, s: System, d: Decision, ch1: Channel, io3: Data, ch3: Channel)
    requires p.Sane() && p.tCMD == 1 && Inv(p, policy, s.ch.clock, s.ch)
    requires Phases(p, policy, s, d, ch1, io3, ch3)
    ensures ch1.clock == s.ch.clock && Settled(policy, ch1) && SameTimes(s.ch.ranks, ch1.ranks)
    ensures SameTimes(PopPhase(p, policy, ch1, d.pop).state.ranks, ch3.ranks)
    ensures ch3.bus == PopPhase(p, policy, ch1, d.pop).state.bus && ch3.clock == s.ch.clock
    ensures |ch3.ranks| == |s.ch.ranks|
    ensures Inv(p, policy, s.ch.clock + 1, ch3)
  {
    DeliverSettles(p, policy, s.ch);
    DeliverKeepsTimes(p, s.ch);
    PopKeepsInv(p, policy, ch1, d.pop);
    var ch2 := PopPhase(p, policy, ch1, d.pop).state;
    PowerKeepsInv(p, policy, ch2, d.power, 0);
    PowerKeepsTimes(p, ch2, d.power, 0);
  }

  lemma BarAfter(p: Timing, policy: Policy, s: System, d: Decision, ch1: Channel, io3: Data, ch3: Channel)
    requires p.Sane() && p.tCMD == 1 && Inv(p, policy, s.ch.clock, s.ch)
    requires Phases(p, policy, s, d, ch1, io3, ch3)
    ensures KeepsBar(PopPhase(p, policy, ch1, d.pop).state.ranks, ch3.ranks, s.ch.clock)
  {
    DeliverSettles(p, policy, s.ch);
    PopKeepsInv(p, policy, ch1, d.pop);
    PowerKeepsBar(p, policy, PopPhase(p, policy, ch1, d.pop).state, d.power);
  }

  lemma PowerKeepsBar(p: Timing, policy: Policy, s: Channel, power: nat -> PowerMove)
    requires p.Sane() && Inv(p, policy, s.clock + 1, s) && TargetAwake(s) && PowerFrom(p, s, power, 0).Running?
    ensures KeepsBar(s.ranks, PowerFrom(p, s, power, 0).state.ranks, s.clock)
  {
    forall i: nat, v: int | ReadBar(s.ranks, i, s.clock, v)
      ensures ReadBar(PowerFrom(p, s, power, 0).state.ranks, i, s.clock, v)
    {
      PowerBar(p, policy, s, power, i, s.clock, v);
    }
  }

  lemma WriteInvSame(p: Timing, t: int, ranks: seq<RankPair>, io: Data, io': Data, golden: Memory)
    requires WriteInv(p, t, ranks, io, golden)
    requires io'.mem == io.mem && io'.bus == io.bus && io'.writes == io.writes
    ensures WriteInv(p, t, ranks, io', golden)
  {
  }

  lemma WritesAfter(p: Timing, policy: Policy, s: System, d: Decision, ch1: Channel, io3: Data, ch3: Channel)
    requires p.Sane() && p.tCMD == 1 && SystemInv(p, policy, s)
    requires Phases(p, policy, s, d, ch1, io3, ch3)
    ensures WriteMid(p, s.ch.clock, ch1.ranks, io3, s.h.golden)
    ensures WriteInv(p, s.ch.clock, ch3.ranks, Accept(p, s.ch.clock, io3, d.pop), Record(s.ch.clock, s.h, d.pop).golden)
  {
    var t: int := s.ch.clock;
    var io2 := Arrival(p, t, UpdateRanks(p, t, s.io), s.ch.bus);
    ChannelAfter(p, policy, s, d, ch1, io3, ch3);
    WriteInvSame(p, t - 1, s.ch.ranks, s.io, io2, s.h.golden);
    WriteToMid(p, t, s.ch.ranks, ch1.ranks, io2, s.h.golden);
    WriteIssue(p, policy, ch1, d.pop, ch3.ranks, io3, s.h);
  }

  lemma ReadsMidway(p: Timing, s: System, ch1: Channel, io3: Data, i: nat)
    requires p.Sane() && p.tCMD == 1 && ReadInvs(p, s.ch.clock - 1, s) && i < |s.ch.ranks|
    requires s.ch.bus.Busy? ==> s.ch.bus.left == 1
    requires Deliver(p, TickAll(p, s.ch)) == Running(ch1)
    requires WriteSend(p, DataDeliver(Arrival(p, s.ch.clock, UpdateRanks(p, s.ch.clock, s.io), s.ch.bus))) == Running(io3)
    ensures |io3.ranks| == |s.io.ranks|
    ensures ReadMid(p, s.ch.clock, io3.ranks[i], s.h.issued[i])
    ensures MidGap(p, s.ch.clock, ch1.ranks, i, s.h.issued[i])
  {
    var t: int := s.ch.clock;
    assert RankReads(p, t - 1, s, i);
    ReadToMid(p, t, s.ch, s.io, i, s.h.issued[i]);
    RanksUntouched(p, Arrival(p, t, UpdateRanks(p, t, s.io), s.ch.bus), io3);
    GapToMid(p, s.ch, ch1, i, s.h.issued[i]);
  }

  lemma ReadsAfter(p: Timing, policy: Policy, s: System, d: Decision, ch1: Channel, io3: Data, ch3: Channel, i: nat)
    requires p.Sane() && p.tCMD == 1 && SystemInv(p, policy, s) && i < |s.ch.ranks|
    requires Phases(p, policy, s, d, ch1, io3, ch3)
    ensures |io3.ranks| == |s.io.ranks|
    ensures |Record(s.ch.clock, s.h, d.pop).issued| == |s.h.issued|
    ensures ReadInv(p, s.ch.clock, ch3, io3.mem, io3.ranks[i], i, Record(s.ch.clock, s.h, d.pop).issued[i])
  {
    ChannelAfter(p, policy, s, d, ch1, io3, ch3);
    WritesAfter(p, policy, s, d, ch1, io3, ch3);
    ReadsMidway(p, s, ch1, io3, i);
    BarAfter(p, policy, s, d, ch1, io3, ch3);
    ReadIssue(p, policy, ch1, d.pop, ch3, io3, s.h, i);
  }

  lemma RanksUntouched(p: Timing, io: Data, io': Data)
    requires WriteSend(p, DataDeliver(io)) == Running(io')
    ensures io'.ranks == io.ranks
  {
  }

  lemma GapToMid(p: Timing, ch: Channel, ch1: Channel, i: nat, issued: seq<Ticket>)
    requires p.Sane() && Deliver(p, TickAll(p, ch)) == Running(ch1) && ReadGap(p, ch.clock - 1, ch.ranks, i, issued)
    ensures MidGap(p, ch.clock, ch1.ranks, i, issued)
  {
  }

  /** A command heeds automatic precharges when its turn comes in this cycle. */
  ghost predicate HeedsNow(p: Timing, policy: Policy, ch: Channel, pop: Pop)
    requires p.Sane()
  {
    var o := Deliver(p, TickAll(p, ch));
    o.Running? ==> Heeds(policy, o.state, pop)
  }

  /** A cycle keeps the invariant; the only way it can fail is a collision on the data bus. */
  lemma SystemCycleKeepsInv(p: Timing, policy: Policy, s: System, d: Decision)
    requires p.Sane() && p.tCMD == 1 && SystemInv(p, policy, s) && HeedsNow(p, policy, s.ch, d.pop)
    ensures var o := SystemCycle(p, policy, s, d);
            && (o.Crashed? ==> o.error == DataBusCollision)
            && (o.Running? ==> SystemInv(p, policy, o.state) && o.state.ch.clock == s.ch.clock + 1)
  {
    var t: int := s.ch.clock;
    DeliverSettles(p, policy, s.ch);
    var ch1 := Deliver(p, TickAll(p, s.ch)).state;
    PopKeepsInv(p, policy, ch1, d.pop);
    var o2 := PopPhase(p, policy, ch1, d.pop);
    if o2.Running? {
      PowerKeepsInv(p, policy, o2.state, d.power, 0);
    }
    var o := SystemCycle(p, policy, s, d);
    if o.Running? {
      var io3 := WriteSend(p, DataDeliver(Arrival(p, t, UpdateRanks(p, t, s.io), s.ch.bus))).state;
      var ch3 := PowerFrom(p, o2.state, d.power, 0).state;
      RunningCycle(p, policy, s, d, ch1, io3, ch3);
    }
  }

  /** The state after a cycle that runs. */
  function Next(p: Timing, s: System, d: Decision, io3: Data, ch3: Channel): System
    requires p.Sane()
  {
    var t := s.ch.clock;
    System(ch3.(clock := t + 1), Accept(p, t, io3, d.pop), Record(t, s.h, d.pop))
  }

  lemma RunningReads(p: Timing, policy: Policy, s: System, d: Decision, ch1: Channel, io3: Data, ch3: Channel)
    requires p.Sane() && p.tCMD == 1 && SystemInv(p, policy, s)
    requires Phases(p, policy, s, d, ch1, io3, ch3) && |ch3.ranks| == |s.ch.ranks|
    ensures ReadInvs(p, s.ch.clock, Next(p, s, d, io3, ch3))
  {
    var t: int := s.ch.clock;
    var s' := Next(p, s, d, io3, ch3);
    RanksUntouched(p, Arrival(p, t, UpdateRanks(p, t, s.io), s.ch.bus), io3);
    forall i | 0 <= i < |s'.ch.ranks| ensures RankReads(p, t, s', i) {
      ReadsAfter(p, policy, s, d, ch1, io3, ch3, i);
      ClockFree(p, t, ch3, s'.ch, io3.mem, io3.ranks[i], i, s'.h.issued[i]);
    }
  }

  lemma Assemble(p: Timing, policy: Policy, t: int, s: System)
    requires p.Sane() && s.ch.clock == t + 1 && Inv(p, policy, t + 1, s.ch)
    requires WriteInv(p, t, s.ch.ranks, s.io, s.h.golden) && ReadInvs(p, t, s)
    ensures SystemInv(p, policy, s)
  {
  }

  lemma RunningChannel(p: Timing, policy: Policy, s: System, d: Decision, ch1: Channel, io3: Data, ch3: Channel)
    requires p.Sane() && p.tCMD == 1 && Inv(p, policy, s.ch.clock, s.ch)
    requires Phases(p, policy, s, d, ch1, io3, ch3)
    ensures |ch3.ranks| == |s.ch.ranks| && Inv(p, policy, s.ch.clock + 1, ch3.(clock := s.ch.clock + 1))
  {
    ChannelAfter(p, policy, s, d, ch1, io3, ch3);
    AdvanceClock(p, policy, ch3);
  }

  lemma RunningCycle(p: Timing, policy: Policy, s: System, d: Decision, ch1: Channel, io3: Data, ch3: Channel)
    requires p.Sane() && p.tCMD == 1 && SystemInv(p, policy, s)
    requires Phases(p, policy, s, d, ch1, io3, ch3)
    ensures SystemInv(p, policy, Next(p, s, d, io3, ch3))
  {
    RunningChannel(p, policy, s, d, ch1, io3, ch3);
    WritesAfter(p, policy, s, d, ch1, io3, ch3);
    RunningReads(p, policy, s, d, ch1, io3, ch3);
    Assemble(p, policy, s.ch.clock, Next(p, s, d, io3, ch3));
  }

  lemma ClockFree(p: Timing, t: int, ch: Channel, ch': Channel, mem: Memory, io: RankIo, i: nat, issued: seq<Ticket>)
    requires ReadInv(p, t, ch, mem, io, i, issued) && ch'.bus == ch.bus && ch'.ranks == ch.ranks
    ensures ReadInv(p, t, ch', mem, io, i, issued)
  {
  }

  lemma SystemStartInv(p: Timing, policy: Policy, numRanks: nat, numBanks: nat)
    requires p.Sane()
    ensures SystemInv(p, policy, SystemStart(numRanks, numBanks))
  {
  }

  /** The packets returned are a prefix of the reads issued, with the same data, each exactly
      1 + RL + BL/2 cycles after its issue, and the others are not due before cycle now. */
  ghost predicate Served(p: Timing, now: int, returned: seq<(Ticket, int)>, issued: seq<Ticket>) {
    && |returned| <= |issued|
    && (forall k :: 0 <= k < |returned| ==>
          returned[k].0 == issued[k] && returned[k].1 == issued[k].issuedAt + 1 + p.RL() + p.Burst())
    && (forall k :: |returned| <= k < |issued| ==> issued[k].issuedAt + 1 + p.RL() + p.Burst() >= now)
  }

  lemma ReadInvServes(p: Timing, t: int, ch: Channel, mem: Memory, io: RankIo, i: nat, issued: seq<Ticket>)
    requires p.Sane() && ReadInv(p, t, ch, mem, io, i, issued)
    ensures Served(p, t + 1, io.returned, issued)
  {
  }

  // ---------- the specification, from the commands alone ----------

  /** The data of the latest write command to a cell, or the tracer. */
  function LatestIn(ds: seq<Decision>, cell: Cell): Payload {
    if ds == [] then Tracer
    else
      var pop := ds[|ds| - 1].pop;
      if pop.Send? && IsWrite(pop.command) && CellOf(pop.command) == cell then pop.command.data
      else LatestIn(ds[..|ds| - 1], cell)
  }

  /** The read commands issued to rank i, each with its cycle and the data it must return. */
  function ReadsOf(ds: seq<Decision>, i: nat): seq<Ticket> {
    if ds == [] then []
    else
      var before, pop := ds[..|ds| - 1], ds[|ds| - 1].pop;
      ReadsOf(before, i)
      + (if pop.Send? && IsRead(pop.command) && pop.command.rank == i
         then [Ticket(pop.command, |ds| - 1, LatestIn(before, CellOf(pop.command)))] else [])
  }

  ghost predicate Recorded(h: History, ds: seq<Decision>, numRanks: nat) {
    && |h.issued| == numRanks
    && (forall cell :: Fetch(h.golden, cell) == LatestIn(ds, cell))
    && (forall i :: 0 <= i < numRanks ==> h.issued[i] == ReadsOf(ds, i))
  }

  lemma RecordStep(h: History, ds: seq<Decision>, numRanks: nat)
    requires ds != [] && Recorded(h, ds[..|ds| - 1], numRanks)
    requires ds[|ds| - 1].pop.Send? ==> ds[|ds| - 1].pop.command.rank < numRanks
    ensures Recorded(Record(|ds| - 1, h, ds[|ds| - 1].pop), ds, numRanks)
  {
    var pop := ds[|ds| - 1].pop;
    var h' := Record(|ds| - 1, h, pop);
    forall cell ensures Fetch(h'.golden, cell) == LatestIn(ds, cell) {
      assert Fetch(h.golden, cell) == LatestIn(ds[..|ds| - 1], cell);
    }
    forall i | 0 <= i < numRanks ensures h'.issued[i] == ReadsOf(ds, i) {
      assert h.issued[i] == ReadsOf(ds[..|ds| - 1], i);
    }
  }

  /** The history variables are determined by the commands that were sent. */
  lemma {:induction false} HistoryIsTrace(p: Timing, policy: Policy, numRanks: nat, numBanks: nat, ds: seq<Decision>)
    requires p.Sane()
    ensures var o := SystemRun(p, policy, numRanks, numBanks, ds);
            o.Running? ==>
              |o.state.ch.ranks| == numRanks && o.state.ch.clock == |ds| && Recorded(o.state.h, ds, numRanks)
  {
    if ds == [] {
    } else {
      var before, d := ds[..|ds| - 1], ds[|ds| - 1];
      HistoryIsTrace(p, policy, numRanks, numBanks, before);
      var o := SystemRun(p, policy, numRanks, numBanks, before);
      if o.Running? && SystemCycle(p, policy, o.state, d).Running? {
        RanksStay(p, policy, o.state, d);
        RecordStep(o.state.h, ds, numRanks);
      }
    }
  }

  lemma RanksStay(p: Timing, policy: Policy, s: System, d: Decision)
    requires p.Sane() && SystemCycle(p, policy, s, d).Running?
    ensures var s' := SystemCycle(p, policy, s, d).state;
            |s'.ch.ranks| == |s.ch.ranks| && s'.ch.clock == s.ch.clock + 1 && s'.h == Record(s.ch.clock, s.h, d.pop)
    ensures d.pop.Send? ==> d.pop.command.rank < |s.ch.ranks|
  {
    var ch1 := Deliver(p, TickAll(p, s.ch)).state;
    DeliverKeepsTimes(p, s.ch);
    PowerKeepsTimes(p, PopPhase(p, policy, ch1, d.pop).state, d.power, 0);
  }

  /** A state that keeps the invariant: every rank has returned exactly the reads that were due,
      in issue order, each with the data of the latest write command sent before it to the same
      cell. */
  lemma ServedByNow(p: Timing, policy: Policy, numRanks: nat, numBanks: nat, ds: seq<Decision>, i: nat)
    requires p.Sane() && i < numRanks
    ensures var o := SystemRun(p, policy, numRanks, numBanks, ds);
            o.Running? && SystemInv(p, policy, o.state) ==>
              |o.state.io.ranks| == numRanks && Served(p, |ds|, o.state.io.ranks[i].returned, ReadsOf(ds, i))
  {
    HistoryIsTrace(p, policy, numRanks, numBanks, ds);
    var o := SystemRun(p, policy, numRanks, numBanks, ds);
    if o.Running? && SystemInv(p, policy, o.state) {
      var s := o.state;
      var t: int := |ds| - 1;
      assert RankReads(p, t, s, i);
      ReadInvServes(p, t, s.ch, s.io.mem, s.io.ranks[i], i, s.h.issued[i]);
    }
  }
}
