/**
 Lower bounds on the controller's next-read and next-write times, and how long they last:
 only a read or write with automatic precharge lowers them, and only for its own bank.
 */
module Floors {
  import opened Packets
  import opened BankTiming
  import opened Protocol
  import opened DataPath

  predicate Writable(m: BankState) {
    m.status.RowActive? && !AutoPrecharging(m)
  }

  /** No bank of rank i may be read before v. */
  ghost predicate ReadFloor(ranks: seq<RankPair>, i: nat, v: int) {
    i < |ranks| ==> forall j :: 0 <= j < |ranks[i].mc| ==> ranks[i].mc[j].nextRead >= v
  }

  /** No bank of rank i may be written before v. */
  ghost predicate WriteFloor(ranks: seq<RankPair>, i: nat, v: int) {
    i < |ranks| ==> forall j :: 0 <= j < |ranks[i].mc| ==> ranks[i].mc[j].nextWrite >= v
  }

  /** No bank of rank i that is open for writing may be written before v. */
  ghost predicate OpenWriteFloor(ranks: seq<RankPair>, i: nat, v: int) {
    i < |ranks| ==>
      forall j :: 0 <= j < |ranks[i].mc| && Writable(ranks[i].mc[j]) ==> ranks[i].mc[j].nextWrite >= v
  }

  /** After cycle t: the bank may not be read before v, by its next-read time or because it is
      about to precharge and will not do so earlier. */
  predicate Barred(m: BankState, t: int, v: int) {
    m.nextRead >= v || (AutoPrecharging(m) && t + m.countdown >= v)
  }

  ghost predicate ReadBar(ranks: seq<RankPair>, i: nat, t: int, v: int) {
    i < |ranks| ==> forall j :: 0 <= j < |ranks[i].mc| ==> Barred(ranks[i].mc[j], t, v)
  }

  // ---------- phases that keep the times ----------

  ghost predicate SameTimesRank(a: RankPair, b: RankPair) {
    && |a.mc| == |b.mc|
    && forall j :: 0 <= j < |a.mc| ==>
         && b.mc[j].nextRead == a.mc[j].nextRead && b.mc[j].nextWrite == a.mc[j].nextWrite
         && (Writable(b.mc[j]) ==> Writable(a.mc[j]))
  }

  ghost predicate SameTimes(a: seq<RankPair>, b: seq<RankPair>) {
    |a| == |b| && forall i :: 0 <= i < |a| ==> SameTimesRank(a[i], b[i])
  }

  lemma KeepFloors(a: seq<RankPair>, b: seq<RankPair>, i: nat, v: int)
    requires SameTimes(a, b)
    ensures ReadFloor(a, i, v) ==> ReadFloor(b, i, v)
    ensures WriteFloor(a, i, v) ==> WriteFloor(b, i, v)
    ensures OpenWriteFloor(a, i, v) ==> OpenWriteFloor(b, i, v)
  {
  }

  lemma SameTimesTrans(a: seq<RankPair>, b: seq<RankPair>, c: seq<RankPair>)
    requires SameTimes(a, b) && SameTimes(b, c)
    ensures SameTimes(a, c)
  {
  }

  lemma DeliverKeepsTimes(p: Timing, s: Channel)
    requires p.Sane() && Deliver(p, TickAll(p, s)).Running?
    ensures SameTimes(s.ranks, Deliver(p, TickAll(p, s)).state.ranks)
  {
    var s1 := Deliver(p, TickAll(p, s)).state;
    forall i | 0 <= i < |s.ranks| ensures SameTimesRank(s.ranks[i], s1.ranks[i]) {
      assert s1.ranks[i].mc == TickRank(p, s.ranks[i]).mc;
    }
  }

  lemma {:induction false} PowerKeepsTimes(p: Timing, s: Channel, power: nat -> PowerMove, i: nat)
    requires PowerFrom(p, s, power, i).Running?
    ensures SameTimes(s.ranks, PowerFrom(p, s, power, i).state.ranks)
    ensures PowerFrom(p, s, power, i).state.bus == s.bus && PowerFrom(p, s, power, i).state.clock == s.clock
    decreases |s.ranks| - i
  {
    if i >= |s.ranks| {
    } else {
      var r := PowerRank(p, s.clock, s.ranks[i], power(i)).state;
      var s' := s.(ranks := s.ranks[i := r]);
      PowerKeepsTimes(p, s', power, i + 1);
      assert SameTimesRank(s.ranks[i], r);
      assert SameTimes(s.ranks, s'.ranks);
      SameTimesTrans(s.ranks, s'.ranks, PowerFrom(p, s', power, i + 1).state.ranks);
    }
  }

  // ---------- the issue phase ----------

  /** The bank after the issue: its times only grow, except for the bank an automatic
      precharge was addressed to. */
  lemma IssueTimes(p: Timing, t: int, c: Command, i: nat, j: nat, m: BankState)
    requires p.Sane() && (i == c.rank && j == c.bank ==> !AutoPrecharging(m))
    ensures var m' := Issue(p, t, c, i, j, m);
            && (!(AutoKind(c) && i == c.rank && j == c.bank) ==> m'.nextRead >= m.nextRead && m'.nextWrite >= m.nextWrite)
            && (AutoKind(c) && i == c.rank && j == c.bank ==>
                  m'.nextRead == m'.nextWrite >= t + (if IsRead(c) then p.ReadAutopre() else p.WriteAutopre()))
            && (Writable(m') ==> (Writable(m) && !(AutoKind(c) && i == c.rank && j == c.bank))
                                 || (c.kind.ACTIVATE? && i == c.rank && j == c.bank
                                     && m'.nextWrite >= t + (p.tRCD - p.AL)))
  {
  }

  /** What a column access adds for the banks of its own rank ... */
  lemma IssueAdds(p: Timing, t: int, c: Command, j: nat, m: BankState)
    requires p.Sane() && (IsRead(c) || IsWrite(c)) && (AutoKind(c) && j == c.bank ==> m.status.RowActive?)
    ensures var m' := Issue(p, t, c, c.rank, j, m);
            && (IsRead(c) ==> Barred(m', t, t + p.Burst()))
            && (IsWrite(c) ==> m'.nextRead >= t + p.WL() + p.Burst() && m'.nextWrite >= t + p.Burst())
  {
  }

  /** The command does not go to a bank that is about to precharge by itself. */
  ghost predicate TargetSettled(s: Channel, pop: Pop) {
    pop.Send? && pop.command.rank < |s.ranks| && pop.command.bank < |s.ranks[pop.command.rank].mc| ==>
      !AutoPrecharging(s.ranks[pop.command.rank].mc[pop.command.bank])
  }

  lemma PopFloors(p: Timing, policy: Policy, s: Channel, pop: Pop, i: nat, v: int)
    requires p.Sane() && PopPhase(p, policy, s, pop).Running? && TargetSettled(s, pop)
    requires pop.Send? && AutoKind(pop.command) && i == pop.command.rank ==>
               v <= s.clock + (if IsRead(pop.command) then p.ReadAutopre() else p.WriteAutopre())
    ensures var ranks := PopPhase(p, policy, s, pop).state.ranks;
            && |ranks| == |s.ranks|
            && (ReadFloor(s.ranks, i, v) ==> ReadFloor(ranks, i, v))
            && (WriteFloor(s.ranks, i, v) ==> WriteFloor(ranks, i, v))
  {
    if pop.Send? && i < |s.ranks| {
      var ranks := PopPhase(p, policy, s, pop).state.ranks;
      forall j | 0 <= j < |s.ranks[i].mc|
        ensures s.ranks[i].mc[j].nextRead >= v ==> ranks[i].mc[j].nextRead >= v
        ensures s.ranks[i].mc[j].nextWrite >= v ==> ranks[i].mc[j].nextWrite >= v
      {
        IssueTimes(p, s.clock, pop.command, i, j, s.ranks[i].mc[j]);
      }
    }
  }

  lemma PopOpenFloor(p: Timing, policy: Policy, s: Channel, pop: Pop, i: nat, v: int)
    requires p.Sane() && PopPhase(p, policy, s, pop).Running? && TargetSettled(s, pop)
    requires OpenWriteFloor(s.ranks, i, v)
    requires v <= s.clock + (p.tRCD - p.AL) || WriteFloor(s.ranks, i, v)
    ensures OpenWriteFloor(PopPhase(p, policy, s, pop).state.ranks, i, v)
  {
  }

  lemma PopAdds(p: Timing, policy: Policy, s: Channel, c: Command)
    requires p.Sane() && PopPhase(p, policy, s, Send(c)).Running?
    ensures var ranks := PopPhase(p, policy, s, Send(c)).state.ranks;
            && (IsRead(c) ==> ReadBar(ranks, c.rank, s.clock, s.clock + p.Burst()))
            && (IsWrite(c) ==> ReadFloor(ranks, c.rank, s.clock + p.WL() + p.Burst()))
            && (IsWrite(c) ==> WriteFloor(ranks, c.rank, s.clock + p.Burst()))
  {
    var ranks := PopPhase(p, policy, s, Send(c)).state.ranks;
    if IsRead(c) || IsWrite(c) {
      forall j | 0 <= j < |s.ranks[c.rank].mc|
        ensures IsRead(c) ==> Barred(ranks[c.rank].mc[j], s.clock, s.clock + p.Burst())
        ensures IsWrite(c) ==> ranks[c.rank].mc[j].nextRead >= s.clock + p.WL() + p.Burst()
        ensures IsWrite(c) ==> ranks[c.rank].mc[j].nextWrite >= s.clock + p.Burst()
      {
        IssueAdds(p, s.clock, c, j, s.ranks[c.rank].mc[j]);
      }
    }
  }

  // ---------- the read bar through a cycle ----------

  lemma PowerBar(p: Timing, policy: Policy, s: Channel, power: nat -> PowerMove, i: nat, t: int, v: int)
    requires p.Sane() && Inv(p, policy, s.clock + 1, s) && TargetAwake(s)
    requires PowerFrom(p, s, power, 0).Running? && ReadBar(s.ranks, i, t, v)
    ensures ReadBar(PowerFrom(p, s, power, 0).state.ranks, i, t, v)
  {
    var s' := PowerFrom(p, s, power, 0).state;
    PowerKeepsTimes(p, s, power, 0);
    if i < |s.ranks| {
      assert SameTimesRank(s.ranks[i], s'.ranks[i]);
      forall j | 0 <= j < |s.ranks[i].mc| ensures Barred(s'.ranks[i].mc[j], t, v) {
        if s.ranks[i].mc[j].status.RowActive? {
          PowerKeepsActive(p, policy, s, power, 0, i, j);
        }
      }
    }
  }
}
