/**
 How long a bank can be busy: every time that the controller keeps for it lies at most Settle
 cycles ahead, and while no command is issued these times stand still, so that the bank is
 free once they are past.
 */
module Deadlines {
  import opened Packets
  import opened BankTiming
  import opened Protocol
  import opened DataPath
  import opened OpenRows
  import Floors

  /** More than all delays together that one command causes. */
  function Settle(p: Timing): (n: nat)
    ensures n >= 4
  {
    p.CL + 2 * p.AL + 2 * p.BL + p.tRAS + p.tRCD + p.tRRD + p.tRC + 2 * p.tRP + p.tCCD + p.tRTP + p.tWTR + p.tWR
    + p.tRTRS + p.tRFC + p.tFAW + p.tCKE + p.tXP + 4
  }

  // ---------- one bank ----------

  predicate AutoNext(m: BankState) {
    m.lastCommand.READ_P? || m.lastCommand.WRITE_P?
  }

  /** At cycle t, all times of the bank are at most h, and its countdowns end by then. */
  predicate Times(p: Timing, h: int, t: int, m: BankState) {
    && m.nextRead <= h && m.nextWrite <= h && m.nextActivate <= h && m.nextPrecharge <= h
    && (m.countdown > 0 ==> t + m.countdown + (if AutoNext(m) then p.tRP else 0) <= h)
  }

  lemma TimesTick(p: Timing, h: int, t: int, m: BankState)
    requires p.Sane() && Times(p, h, t, m)
    ensures Times(p, h, t + 1, Tick(p, m)) && Tick(p, m).nextPowerUp == m.nextPowerUp
  {
  }

  lemma TimesRead(p: Timing, h: int, t: int, c: Command, i: nat, j: nat, m: BankState)
    requires p.Sane() && Times(p, h, t + 1, m) && t + 1 + Settle(p) <= h && IsRead(c)
    ensures Times(p, h, t + 1, Issue(p, t, c, i, j, m))
  {
  }

  lemma TimesWrite(p: Timing, h: int, t: int, c: Command, i: nat, j: nat, m: BankState)
    requires p.Sane() && Times(p, h, t + 1, m) && t + 1 + Settle(p) <= h && IsWrite(c)
    ensures Times(p, h, t + 1, Issue(p, t, c, i, j, m))
  {
  }

  lemma TimesOther(p: Timing, h: int, t: int, c: Command, i: nat, j: nat, m: BankState)
    requires p.Sane() && Times(p, h, t + 1, m) && t + 1 + Settle(p) <= h && !IsRead(c) && !IsWrite(c)
    ensures Times(p, h, t + 1, Issue(p, t, c, i, j, m))
  {
  }

  lemma PowerUpKept(p: Timing, t: int, c: Command, i: nat, j: nat, m: BankState)
    requires p.Sane()
    ensures Issue(p, t, c, i, j, m).nextPowerUp == m.nextPowerUp
  {
  }

  lemma TimesIssue(p: Timing, h: int, t: int, c: Command, i: nat, j: nat, m: BankState)
    requires p.Sane() && Times(p, h, t + 1, m) && t + 1 + Settle(p) <= h
    ensures Times(p, h, t + 1, Issue(p, t, c, i, j, m)) && Issue(p, t, c, i, j, m).nextPowerUp == m.nextPowerUp
  {
    PowerUpKept(p, t, c, i, j, m);
    if IsRead(c) {
      TimesRead(p, h, t, c, i, j, m);
    } else if IsWrite(c) {
      TimesWrite(p, h, t, c, i, j, m);
    } else {
      TimesOther(p, h, t, c, i, j, m);
    }
  }

  // ---------- one rank ----------

  ghost predicate AllTimes(p: Timing, h: int, t: int, mc: seq<BankState>) {
    forall j :: 0 <= j < |mc| ==> Times(p, h, t, mc[j])
  }

  /** A sleeping rank can be woken up in time. */
  predicate Wakes(p: Timing, h: int, t: int, r: RankPair) {
    r.mcDown && r.mc != [] ==> Max(r.mc[0].nextPowerUp, t) + p.tXP < h
  }

  ghost predicate RankBy(p: Timing, h: int, t: int, r: RankPair) {
    AllTimes(p, h, t, r.mc) && Wakes(p, h, t, r)
  }

  /** The rank as the scheduler sees it. */
  lemma RankTicked(p: Timing, ch: Channel, ch1: Channel, h: int, r: nat)
    requires p.Sane() && Deliver(p, TickAll(p, ch)) == Running(ch1) && r < |ch.ranks| && AllTimes(p, h, ch.clock, ch.ranks[r].mc)
    ensures r < |ch1.ranks| && AllTimes(p, h, ch.clock + 1, ch1.ranks[r].mc) && ch1.ranks[r].mcDown == ch.ranks[r].mcDown
    ensures |ch1.ranks[r].mc| == |ch.ranks[r].mc| && (ch.ranks[r].mc != [] ==> ch1.ranks[r].mc[0].nextPowerUp == ch.ranks[r].mc[0].nextPowerUp)
  {
    assert ch1.ranks[r].mc == TickRank(p, ch.ranks[r]).mc;
    forall j | 0 <= j < |ch.ranks[r].mc| ensures Times(p, h, ch.clock + 1, ch1.ranks[r].mc[j]) {
      TimesTick(p, h, ch.clock, ch.ranks[r].mc[j]);
    }
    if ch.ranks[r].mc != [] {
      TimesTick(p, h, ch.clock, ch.ranks[r].mc[0]);
    }
  }

  lemma RankPopped(p: Timing, policy: Policy, ch1: Channel, pop: Pop, ch2: Channel, h: int, r: nat)
    requires p.Sane() && PopPhase(p, policy, ch1, pop) == Running(ch2) && r < |ch1.ranks|
    requires AllTimes(p, h, ch1.clock + 1, ch1.ranks[r].mc) && (pop.Send? ==> ch1.clock + 1 + Settle(p) <= h)
    ensures r < |ch2.ranks| && AllTimes(p, h, ch1.clock + 1, ch2.ranks[r].mc) && ch2.ranks[r].mcDown == ch1.ranks[r].mcDown
    ensures |ch2.ranks[r].mc| == |ch1.ranks[r].mc| && (ch1.ranks[r].mc != [] ==> ch2.ranks[r].mc[0].nextPowerUp == ch1.ranks[r].mc[0].nextPowerUp)
  {
    if pop.Send? {
      assert ch2.ranks[r].mc == IssueRank(p, ch1.clock, pop.command, r, ch1.ranks[r]).mc;
      forall j | 0 <= j < |ch1.ranks[r].mc| ensures Times(p, h, ch1.clock + 1, ch2.ranks[r].mc[j]) {
        TimesIssue(p, h, ch1.clock, pop.command, r, j, ch1.ranks[r].mc[j]);
      }
      if ch1.ranks[r].mc != [] {
        TimesIssue(p, h, ch1.clock, pop.command, r, 0, ch1.ranks[r].mc[0]);
      }
    }
  }

  /** What the power moves make of one rank. */
  lemma {:induction false} PowerAt(p: Timing, s: Channel, power: nat -> PowerMove, i: nat, r: nat)
    requires PowerFrom(p, s, power, i).Running? && i <= r < |s.ranks|
    ensures var s' := PowerFrom(p, s, power, i).state;
            |s'.ranks| == |s.ranks| && PowerRank(p, s.clock, s.ranks[r], power(r)) == Running(s'.ranks[r])
    decreases |s.ranks| - i
  {
    var o := PowerRank(p, s.clock, s.ranks[i], power(i));
    var s1 := s.(ranks := s.ranks[i := o.state]);
    if i < r {
      PowerAt(p, s1, power, i + 1, r);
    } else {
      PowerBelow(p, s1, power, i + 1, r);
    }
  }

  lemma {:induction false} PowerBelow(p: Timing, s: Channel, power: nat -> PowerMove, i: nat, r: nat)
    requires PowerFrom(p, s, power, i).Running? && r < i && r < |s.ranks|
    ensures var s' := PowerFrom(p, s, power, i).state; |s'.ranks| == |s.ranks| && s'.ranks[r] == s.ranks[r]
    decreases |s.ranks| - i
  {
    if i < |s.ranks| {
      var o := PowerRank(p, s.clock, s.ranks[i], power(i));
      PowerBelow(p, s.(ranks := s.ranks[i := o.state]), power, i + 1, r);
    }
  }

  /** A rank that stays asleep cannot be woken up yet, or the bound moves on with the clock. */
  predicate InTime(p: Timing, h: int, h': int, t: int, r: RankPair, move: PowerMove) {
    && (r.mcDown && r.mc != [] && move.Stay? ==> t < r.mc[0].nextPowerUp || h < h')
    && (move.GoDown? ==> t + 1 + Settle(p) <= h')
  }

  lemma RankPowered(p: Timing, h: int, h': int, t: int, r: RankPair, move: PowerMove, r': RankPair)
    requires AllTimes(p, h', t + 1, r.mc) && Wakes(p, h, t, r) && h <= h' && InTime(p, h, h', t, r, move)
    requires PowerRank(p, t, r, move) == Running(r')
    ensures RankBy(p, h', t + 1, r')
  {
  }

  /** A whole cycle: if a command is issued or the rank goes to sleep the bound moves on. */
  lemma RankCycle(p: Timing, policy: Policy, s: System, d: Decision, ch1: Channel, ch2: Channel, s': System, h: int, h': int, r: nat)
    requires p.Sane() && Through(p, policy, s, d, ch1, ch2, s') && r < |s.ch.ranks| && RankBy(p, h, s.ch.clock, s.ch.ranks[r])
    requires h <= h' && (d.pop.Send? ==> s.ch.clock + 1 + Settle(p) <= h') && InTime(p, h, h', s.ch.clock, s.ch.ranks[r], d.power(r))
    ensures r < |s'.ch.ranks| && RankBy(p, h', s.ch.clock + 1, s'.ch.ranks[r])
  {
    var t := s.ch.clock;
    RankTicked(p, s.ch, ch1, h, r);
    AllLater(p, h, h', t + 1, ch1.ranks[r].mc);
    RankPopped(p, policy, ch1, d.pop, ch2, h', r);
    PowerAt(p, ch2, d.power, 0, r);
    RankPowered(p, h, h', t, ch2.ranks[r], d.power(r), s'.ch.ranks[r]);
  }

  lemma AllLater(p: Timing, h: int, h': int, t: int, mc: seq<BankState>)
    requires AllTimes(p, h, t, mc) && h <= h'
    ensures AllTimes(p, h', t, mc)
  {
  }

  // ---------- every run ----------

  ghost predicate AllBy(p: Timing, ch: Channel) {
    forall r :: 0 <= r < |ch.ranks| ==> RankBy(p, ch.clock + Settle(p), ch.clock, ch.ranks[r])
  }

  lemma CycleBy(p: Timing, policy: Policy, s: System, d: Decision)
    requires p.Sane() && AllBy(p, s.ch) && SystemCycle(p, policy, s, d).Running?
    ensures AllBy(p, SystemCycle(p, policy, s, d).state.ch)
  {
    var ch1, ch2, s' := GoesThrough(p, policy, s, d);
    if s'.ch.ranks != [] {
      PowerAt(p, ch2, d.power, 0, 0);
    }
    forall r | 0 <= r < |s'.ch.ranks| ensures RankBy(p, s'.ch.clock + Settle(p), s'.ch.clock, s'.ch.ranks[r]) {
      RankCycle(p, policy, s, d, ch1, ch2, s', s.ch.clock + Settle(p), s.ch.clock + 1 + Settle(p), r);
    }
  }

  /** In every run, no bank is busy for longer. */
  lemma {:induction false} NeverLonger(p: Timing, policy: Policy, numRanks: nat, numBanks: nat, ds: seq<Decision>)
    requires p.Sane()
    ensures var o := SystemRun(p, policy, numRanks, numBanks, ds); o.Running? ==> AllBy(p, o.state.ch)
  {
    if ds == [] {
      forall r | 0 <= r < numRanks ensures RankBy(p, Settle(p), 0, Start(numRanks, numBanks).ranks[r]) {
      }
    } else {
      var before := ds[..|ds| - 1];
      NeverLonger(p, policy, numRanks, numBanks, before);
      var o := SystemRun(p, policy, numRanks, numBanks, before);
      if o.Running? && SystemCycle(p, policy, o.state, ds[|ds| - 1]).Running? {
        CycleBy(p, policy, o.state, ds[|ds| - 1]);
      }
    }
  }

  // ---------- banks that precharge ----------

  /** A precharge ends: it has a countdown. */
  predicate Ends(m: BankState) {
    m.status.Precharging? ==> m.lastCommand.PRECHARGE? && m.countdown >= 1
  }

  ghost predicate AllEnd(ch: Channel) {
    forall r: nat, b: nat :: r < |ch.ranks| && b < |ch.ranks[r].mc| ==> Ends(ch.ranks[r].mc[b])
  }

  lemma EndsIssue(p: Timing, policy: Policy, ch1: Channel, c: Command, r: nat, b: nat)
    requires p.Sane() && p.tRP >= 1 && r < |ch1.ranks| && b < |ch1.ranks[r].mc| && Ends(ch1.ranks[r].mc[b]) && MayIssue(policy, ch1, c)
    ensures Ends(Issue(p, ch1.clock, c, r, b, ch1.ranks[r].mc[b]))
  {
  }

  lemma CycleEnds(p: Timing, policy: Policy, s: System, d: Decision)
    requires p.Sane() && p.tRP >= 1 && AllEnd(s.ch) && SystemCycle(p, policy, s, d).Running?
    ensures AllEnd(SystemCycle(p, policy, s, d).state.ch)
  {
    var ch1, ch2, s' := GoesThrough(p, policy, s, d);
    forall r: nat, b: nat | r < |s'.ch.ranks| && b < |s'.ch.ranks[r].mc| ensures Ends(s'.ch.ranks[r].mc[b]) {
      EndsThrough(p, policy, s, d, ch1, ch2, s', r, b);
    }
  }

  lemma EndsThrough(p: Timing, policy: Policy, s: System, d: Decision, ch1: Channel, ch2: Channel, s': System, r: nat, b: nat)
    requires p.Sane() && p.tRP >= 1 && AllEnd(s.ch) && Through(p, policy, s, d, ch1, ch2, s')
    requires r < |s'.ch.ranks| && b < |s'.ch.ranks[r].mc|
    ensures Ends(s'.ch.ranks[r].mc[b])
  {
    PowerSame(p, ch2, d.power);
    PowerAt(p, ch2, d.power, 0, r);
    PowerBanks(p, ch2.clock, ch2.ranks[r], d.power(r), s'.ch.ranks[r]);
    EndsTicked(p, s.ch, ch1, r, b);
    EndsPopped(p, policy, ch1, d.pop, ch2, r, b);
    EndsPowered(p, ch2.clock, ch2.ranks[r], d.power(r), s'.ch.ranks[r], b);
  }

  lemma PowerBanks(p: Timing, t: int, r: RankPair, move: PowerMove, r': RankPair)
    requires PowerRank(p, t, r, move) == Running(r')
    ensures |r'.mc| == |r.mc|
  {
  }

  lemma EndsPowered(p: Timing, t: int, r: RankPair, move: PowerMove, r': RankPair, b: nat)
    requires PowerRank(p, t, r, move) == Running(r') && b < |r.mc| == |r'.mc| && Ends(r.mc[b])
    ensures Ends(r'.mc[b])
  {
  }

  lemma EndsTicked(p: Timing, ch: Channel, ch1: Channel, r: nat, b: nat)
    requires p.Sane() && p.tRP >= 1 && AllEnd(ch) && Deliver(p, TickAll(p, ch)) == Running(ch1)
    requires r < |ch1.ranks| && b < |ch1.ranks[r].mc|
    ensures Ends(ch1.ranks[r].mc[b])
  {
    assert ch1.ranks[r].mc == TickRank(p, ch.ranks[r]).mc;
    assert Ends(ch.ranks[r].mc[b]);
  }

  lemma EndsPopped(p: Timing, policy: Policy, ch1: Channel, pop: Pop, ch2: Channel, r: nat, b: nat)
    requires p.Sane() && p.tRP >= 1 && PopPhase(p, policy, ch1, pop) == Running(ch2) && r < |ch2.ranks| && b < |ch2.ranks[r].mc|
    requires r < |ch1.ranks| && b < |ch1.ranks[r].mc| ==> Ends(ch1.ranks[r].mc[b])
    ensures Ends(ch2.ranks[r].mc[b])
  {
    if pop.Send? {
      EndsIssue(p, policy, ch1, pop.command, r, b);
      assert ch2.ranks[r].mc[b] == Issue(p, ch1.clock, pop.command, r, b, ch1.ranks[r].mc[b]);
    }
  }

  lemma {:induction false} PowerSame(p: Timing, s: Channel, power: nat -> PowerMove)
    requires PowerFrom(p, s, power, 0).Running?
    ensures |PowerFrom(p, s, power, 0).state.ranks| == |s.ranks|
  {
    Floors.PowerKeepsTimes(p, s, power, 0);
  }

  lemma {:induction false} PrechargesEnd(p: Timing, policy: Policy, numRanks: nat, numBanks: nat, ds: seq<Decision>)
    requires p.Sane() && p.tRP >= 1
    ensures var o := SystemRun(p, policy, numRanks, numBanks, ds); o.Running? ==> AllEnd(o.state.ch)
  {
    if ds != [] {
      var before := ds[..|ds| - 1];
      PrechargesEnd(p, policy, numRanks, numBanks, before);
      var o := SystemRun(p, policy, numRanks, numBanks, before);
      if o.Running? && SystemCycle(p, policy, o.state, ds[|ds| - 1]).Running? {
        CycleEnds(p, policy, o.state, ds[|ds| - 1]);
      }
    }
  }
}
