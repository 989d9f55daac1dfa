/**
 The data bus.  Writes of one rank keep a burst apart; writes of different ranks do so only
 if a row opened after the first write cannot be written within a burst of it.  That
 condition is exact: it holds if and only if no schedule makes two writes collide.
 */
module DataBusSafety {
  import opened Packets
  import opened BankTiming
  import opened Protocol
  import opened DataPath
  import opened Floors
  import opened WritePath
  import opened Coherence

  predicate BusSafe(p: Timing, numRanks: nat) {
    numRanks <= 1 || p.Burst() <= Max(1, p.tRCD - p.AL) + 1
  }

  // ---------- the invariant after cycle t ----------

  /** No bank may be written within a burst of the latest write: none of its own rank, and
      none that is open in another. */
  ghost predicate KeptApart(p: Timing, t: int, ranks: seq<RankPair>, at: int, rank: nat) {
    var v := at + p.Burst();
    v <= t + 1 || (WriteFloor(ranks, rank, v) && forall i :: 0 <= i < |ranks| ==> OpenWriteFloor(ranks, i, v))
  }

  /** ... and its own rank not read until its data has arrived. */
  ghost predicate ReadsWait(p: Timing, t: int, ranks: seq<RankPair>, at: int, rank: nat) {
    var v := at + p.WL() + p.Burst();
    v <= t + 1 || ReadFloor(ranks, rank, v)
  }

  ghost predicate BusInv(p: Timing, t: int, ranks: seq<RankPair>, ss: seq<Sent>, last: LastWrite) {
    && Spaced(ss, p.Burst())
    && match last
       case NoWrite => ss == []
       case WroteAt(at, rank) =>
         && at <= t && rank < |ranks| && (forall k :: 0 <= k < |ss| ==> ss[k].at <= at)
         && KeptApart(p, t, ranks, at, rank) && ReadsWait(p, t, ranks, at, rank)
  }

  lemma KeptAcross(p: Timing, t: int, before: seq<RankPair>, ranks: seq<RankPair>, at: int, rank: nat)
    requires SameTimes(before, ranks)
    ensures KeptApart(p, t, before, at, rank) ==> KeptApart(p, t, ranks, at, rank)
    ensures ReadsWait(p, t, before, at, rank) ==> ReadsWait(p, t, ranks, at, rank)
  {
    var v := at + p.Burst();
    KeepFloors(before, ranks, rank, v);
    KeepFloors(before, ranks, rank, at + p.WL() + p.Burst());
    forall i | 0 <= i < |ranks| && OpenWriteFloor(before, i, v) ensures OpenWriteFloor(ranks, i, v) {
      KeepFloors(before, ranks, i, v);
    }
  }

  /** A command other than a write keeps the writes apart. */
  lemma OtherCommandKeeps(p: Timing, policy: Policy, ch: Channel, pop: Pop, at: int, rank: nat)
    requires p.Sane() && Settled(policy, ch) && PopPhase(p, policy, ch, pop).Running? && Heeds(policy, ch, pop)
    requires !(pop.Send? && IsWrite(pop.command)) && BusSafe(p, |ch.ranks|)
    requires at <= ch.clock - 1 && rank < |ch.ranks|
    requires KeptApart(p, ch.clock - 1, ch.ranks, at, rank) && ReadsWait(p, ch.clock - 1, ch.ranks, at, rank)
    ensures KeptApart(p, ch.clock, PopPhase(p, policy, ch, pop).state.ranks, at, rank)
    ensures ReadsWait(p, ch.clock, PopPhase(p, policy, ch, pop).state.ranks, at, rank)
  {
    SettledTarget(p, policy, ch, pop);
    var ranks, v, w := PopPhase(p, policy, ch, pop).state.ranks, at + p.Burst(), at + p.WL() + p.Burst();
    if pop.Send? && IsRead(pop.command) && pop.command.rank == rank {
      assert w <= ch.clock;
    } else {
      PopFloors(p, policy, ch, pop, rank, v);
      PopFloors(p, policy, ch, pop, rank, w);
      if v > ch.clock + 1 {
        forall i | 0 <= i < |ranks| ensures OpenWriteFloor(ranks, i, v) {
          PopOpenFloor(p, policy, ch, pop, i, v);
        }
      }
    }
  }

  /** A write is issued no earlier than a burst after the latest write. */
  lemma WriteComesLater(p: Timing, policy: Policy, ch: Channel, c: Command, at: int, rank: nat)
    requires p.Sane() && Settled(policy, ch) && MayIssue(policy, ch, c) && IsWrite(c) && Heeds(policy, ch, Send(c))
    requires KeptApart(p, ch.clock - 1, ch.ranks, at, rank)
    ensures at + p.Burst() <= ch.clock
  {
    assert RankOk(policy, ch.clock, ch.ranks[c.rank]);
    ReadyIsSettled(policy, ch.clock, c, ch.ranks[c.rank]);
    assert at + p.Burst() <= ch.clock || OpenWriteFloor(ch.ranks, c.rank, at + p.Burst());
  }

  lemma WriteKeepsApart(p: Timing, policy: Policy, ch: Channel, c: Command)
    requires p.Sane() && PopPhase(p, policy, ch, Send(c)).Running? && IsWrite(c)
    ensures KeptApart(p, ch.clock, PopPhase(p, policy, ch, Send(c)).state.ranks, ch.clock, c.rank)
    ensures ReadsWait(p, ch.clock, PopPhase(p, policy, ch, Send(c)).state.ranks, ch.clock, c.rank)
  {
  }

  function AfterIssue(t: int, ss: seq<Sent>, pop: Pop): seq<Sent> {
    if pop.Send? && IsWrite(pop.command) then ss + [Sent(pop.command, t)] else ss
  }

  lemma IssueKeepsBusInv(p: Timing, policy: Policy, ch: Channel, pop: Pop, ranks: seq<RankPair>, ss: seq<Sent>, h: History)
    requires p.Sane() && Settled(policy, ch) && PopPhase(p, policy, ch, pop).Running? && BusSafe(p, |ch.ranks|)
    requires Heeds(policy, ch, pop)
    requires SameTimes(PopPhase(p, policy, ch, pop).state.ranks, ranks)
    requires BusInv(p, ch.clock - 1, ch.ranks, ss, h.lastWrite)
    ensures BusInv(p, ch.clock, ranks, AfterIssue(ch.clock, ss, pop), Record(ch.clock, h, pop).lastWrite)
  {
    var t, ranks2 := ch.clock, PopPhase(p, policy, ch, pop).state.ranks;
    if pop.Send? && IsWrite(pop.command) {
      WriteKeepsApart(p, policy, ch, pop.command);
      KeptAcross(p, t, ranks2, ranks, t, pop.command.rank);
      if h.lastWrite.WroteAt? {
        WriteComesLater(p, policy, ch, pop.command, h.lastWrite.at, h.lastWrite.rank);
      }
    } else if h.lastWrite.WroteAt? {
      OtherCommandKeeps(p, policy, ch, pop, h.lastWrite.at, h.lastWrite.rank);
      KeptAcross(p, t, ranks2, ranks, h.lastWrite.at, h.lastWrite.rank);
    }
  }

  lemma DeliveryKeepsBusInv(p: Timing, t: int, before: seq<RankPair>, ranks: seq<RankPair>, ss: seq<Sent>, ss': seq<Sent>, last: LastWrite)
    requires BusInv(p, t, before, ss, last) && SameTimes(before, ranks)
    requires ss' == ss || (ss != [] && ss' == ss[1..])
    ensures BusInv(p, t, ranks, ss', last)
  {
    if ss' != ss {
      SpacedTail(ss, p.Burst());
    }
    if last.WroteAt? {
      KeptAcross(p, t, before, ranks, last.at, last.rank);
    }
  }

  // ---------- whole runs ----------

  ghost predicate SafeInv(p: Timing, policy: Policy, s: System)
    requires p.Sane()
  {
    SystemInv(p, policy, s) && BusInv(p, s.ch.clock - 1, s.ch.ranks, Outstanding(s.io), s.h.lastWrite)
  }

  lemma IssuedSent(p: Timing, t: int, io: Data, pop: Pop)
    requires p.Sane() && WritesOnTime(p, t, io)
    ensures Outstanding(Accept(p, t, io, pop)) == AfterIssue(t, Outstanding(io), pop)
  {
  }

  lemma MidwayBusInv(p: Timing, s: System, ranks: seq<RankPair>, io3: Data)
    requires p.Sane() && WriteInv(p, s.ch.clock - 1, s.ch.ranks, s.io, s.h.golden)
    requires BusInv(p, s.ch.clock - 1, s.ch.ranks, Outstanding(s.io), s.h.lastWrite) && SameTimes(s.ch.ranks, ranks)
    requires WriteSend(p, DataDeliver(Arrival(p, s.ch.clock, UpdateRanks(p, s.ch.clock, s.io), s.ch.bus))) == Running(io3)
    ensures BusInv(p, s.ch.clock - 1, ranks, Outstanding(io3), s.h.lastWrite)
  {
    var t: int := s.ch.clock;
    var io2 := Arrival(p, t, UpdateRanks(p, t, s.io), s.ch.bus);
    assert Outstanding(io2) == Outstanding(s.io);
    WriteCycle(p, t - 1, io2);
    DeliveryKeepsBusInv(p, t - 1, s.ch.ranks, ranks, Outstanding(io2), Outstanding(io3), s.h.lastWrite);
  }

  lemma RunningKeepsBusInv(p: Timing, policy: Policy, s: System, d: Decision, ch1: Channel, io3: Data, ch3: Channel)
    requires p.Sane() && p.tCMD == 1 && SafeInv(p, policy, s) && BusSafe(p, |s.ch.ranks|)
    requires Phases(p, policy, s, d, ch1, io3, ch3)
    ensures BusInv(p, s.ch.clock, ch3.ranks, Outstanding(Accept(p, s.ch.clock, io3, d.pop)), Record(s.ch.clock, s.h, d.pop).lastWrite)
  {
    ChannelAfter(p, policy, s, d, ch1, io3, ch3);
    WritesAfter(p, policy, s, d, ch1, io3, ch3);
    MidwayBusInv(p, s, ch1.ranks, io3);
    IssueKeepsBusInv(p, policy, ch1, d.pop, ch3.ranks, Outstanding(io3), s.h);
    IssuedSent(p, s.ch.clock, io3, d.pop);
  }

  lemma NoCollisionNow(p: Timing, policy: Policy, s: System)
    requires p.Sane() && SafeInv(p, policy, s)
    ensures var t := s.ch.clock;
            WriteSend(p, DataDeliver(Arrival(p, t, UpdateRanks(p, t, s.io), s.ch.bus))).Running?
  {
  }

  lemma SafeCycle(p: Timing, policy: Policy, s: System, d: Decision)
    requires p.Sane() && p.tCMD == 1 && SafeInv(p, policy, s) && BusSafe(p, |s.ch.ranks|)
    requires HeedsNow(p, policy, s.ch, d.pop)
    ensures var o := SystemCycle(p, policy, s, d);
            !o.Crashed? && (o.Running? ==> SafeInv(p, policy, o.state) && |o.state.ch.ranks| == |s.ch.ranks|)
  {
    var t: int := s.ch.clock;
    SystemCycleKeepsInv(p, policy, s, d);
    NoCollisionNow(p, policy, s);
    DeliverSettles(p, policy, s.ch);
    var ch1 := Deliver(p, TickAll(p, s.ch)).state;
    PopKeepsInv(p, policy, ch1, d.pop);
    var o2 := PopPhase(p, policy, ch1, d.pop);
    if o2.Running? {
      PowerKeepsInv(p, policy, o2.state, d.power, 0);
    }
    var o := SystemCycle(p, policy, s, d);
    if o.Running? {
      var io3 := WriteSend(p, DataDeliver(Arrival(p, t, UpdateRanks(p, t, s.io), s.ch.bus))).state;
      var ch3 := PowerFrom(p, o2.state, d.power, 0).state;
      RanksStay(p, policy, s, d);
      RunningKeepsBusInv(p, policy, s, d, ch1, io3, ch3);
      assert o.state == Next(p, s, d, io3, ch3);
    }
  }

  lemma SafeStart(p: Timing, policy: Policy, numRanks: nat, numBanks: nat)
    requires p.Sane()
    ensures SafeInv(p, policy, SystemStart(numRanks, numBanks))
  {
  }
}
