/**
 With closed pages, a bank that was activated stays open until its column access is issued:
 nothing else the controller does closes it.
 */
module OpenRows {
  import opened Packets
  import opened BankTiming
  import opened Protocol
  import opened DataPath
  import opened Coherence

  /** The controller has activated the bank and sent no access to it yet. */
  predicate Open(mc: seq<BankState>, b: nat) {
    b < |mc| && mc[b].status.RowActive? && mc[b].lastCommand.ACTIVATE?
  }

  predicate OpenIn(ch: Channel, r: nat, b: nat) {
    r < |ch.ranks| && Open(ch.ranks[r].mc, b)
  }

  lemma TickOpen(p: Timing, ch: Channel, ch1: Channel, r: nat, b: nat)
    requires p.Sane() && Deliver(p, TickAll(p, ch)) == Running(ch1) && OpenIn(ch, r, b)
    ensures OpenIn(ch1, r, b)
  {
  }

  predicate Accesses(pop: Pop, r: nat, b: nat) {
    pop.Send? && (IsRead(pop.command) || IsWrite(pop.command)) && pop.command.rank == r && pop.command.bank == b
  }

  lemma PopOpen(p: Timing, ch1: Channel, pop: Pop, ch2: Channel, r: nat, b: nat)
    requires p.Sane() && PopPhase(p, ClosePage, ch1, pop) == Running(ch2)
    requires OpenIn(ch1, r, b) && !Accesses(pop, r, b)
    ensures OpenIn(ch2, r, b)
  {
  }

  /** An ACTIVATE opens a bank that was not open. */
  lemma PopAct(p: Timing, ch1: Channel, c: Command, ch2: Channel)
    requires p.Sane() && PopPhase(p, ClosePage, ch1, Send(c)) == Running(ch2) && c.kind.ACTIVATE?
    ensures OpenIn(ch2, c.rank, c.bank) && !OpenIn(ch1, c.rank, c.bank)
  {
  }

  lemma PowerOpen(p: Timing, policy: Policy, s: Channel, power: nat -> PowerMove, r: nat, b: nat)
    requires p.Sane() && Inv(p, policy, s.clock + 1, s) && TargetAwake(s)
    requires OpenIn(s, r, b) && PowerFrom(p, s, power, 0).Running?
    ensures OpenIn(PowerFrom(p, s, power, 0).state, r, b)
  {
    PowerKeepsActive(p, policy, s, power, 0, r, b);
  }

  /** The phases of a cycle of the channel that goes through. */
  ghost predicate Through(p: Timing, policy: Policy, s: System, d: Decision, ch1: Channel, ch2: Channel, s': System)
    requires p.Sane()
  {
    && SystemCycle(p, policy, s, d) == Running(s')
    && Deliver(p, TickAll(p, s.ch)) == Running(ch1)
    && PopPhase(p, policy, ch1, d.pop) == Running(ch2)
    && PowerFrom(p, ch2, d.power, 0).Running?
    && s'.ch == PowerFrom(p, ch2, d.power, 0).state.(clock := s.ch.clock + 1)
  }

  lemma GoesThrough(p: Timing, policy: Policy, s: System, d: Decision) returns (ch1: Channel, ch2: Channel, s': System)
    requires p.Sane() && SystemCycle(p, policy, s, d).Running?
    ensures Through(p, policy, s, d, ch1, ch2, s')
  {
    ch1 := Deliver(p, TickAll(p, s.ch)).state;
    ch2 := PopPhase(p, policy, ch1, d.pop).state;
    s' := SystemCycle(p, policy, s, d).state;
  }

  lemma PopInv(p: Timing, policy: Policy, s: System, d: Decision, ch1: Channel, ch2: Channel, s': System)
    requires p.Sane() && p.tCMD == 1 && Inv(p, policy, s.ch.clock, s.ch)
    requires Through(p, policy, s, d, ch1, ch2, s') && Heeds(policy, ch1, d.pop)
    ensures ch2.clock == s.ch.clock && Inv(p, policy, ch2.clock + 1, ch2) && TargetAwake(ch2)
  {
    DeliverSettles(p, policy, s.ch);
    PopKeepsInv(p, policy, ch1, d.pop);
  }

  /** Through a whole cycle. */
  lemma CycleOpen(p: Timing, s: System, d: Decision, s': System, r: nat, b: nat)
    requires p.Sane() && p.tCMD == 1 && Inv(p, ClosePage, s.ch.clock, s.ch) && HeedsNow(p, ClosePage, s.ch, d.pop)
    requires SystemCycle(p, ClosePage, s, d) == Running(s') && OpenIn(s.ch, r, b) && !Accesses(d.pop, r, b)
    ensures OpenIn(s'.ch, r, b)
  {
    var ch1, ch2, x := GoesThrough(p, ClosePage, s, d);
    PopInv(p, ClosePage, s, d, ch1, ch2, x);
    TickOpen(p, s.ch, ch1, r, b);
    PopOpen(p, ch1, d.pop, ch2, r, b);
    PowerOpen(p, ClosePage, ch2, d.power, r, b);
  }

  lemma CycleAct(p: Timing, s: System, d: Decision, s': System)
    requires p.Sane() && p.tCMD == 1 && Inv(p, ClosePage, s.ch.clock, s.ch) && HeedsNow(p, ClosePage, s.ch, d.pop)
    requires SystemCycle(p, ClosePage, s, d) == Running(s') && d.pop.Send? && d.pop.command.kind.ACTIVATE?
    ensures OpenIn(s'.ch, d.pop.command.rank, d.pop.command.bank)
    ensures !OpenIn(s.ch, d.pop.command.rank, d.pop.command.bank)
  {
    var ch1, ch2, x := GoesThrough(p, ClosePage, s, d);
    var c := d.pop.command;
    PopInv(p, ClosePage, s, d, ch1, ch2, x);
    PopAct(p, ch1, c, ch2);
    PowerOpen(p, ClosePage, ch2, d.power, c.rank, c.bank);
    if OpenIn(s.ch, c.rank, c.bank) {
      TickOpen(p, s.ch, ch1, c.rank, c.bank);
    }
  }
}
