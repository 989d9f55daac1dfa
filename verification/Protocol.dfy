/**
 One memory channel, cycle by cycle: the controller counts its banks down, the command on
 the bus reaches its rank, the scheduler may issue one command, and ranks may enter or
 leave power-down (MemorySystem::update, MemoryController::update, Rank.cpp).  Which
 command is issued is left open here, as long as the controller's timing table allows it;
 so is the powering down of a rank whose banks are idle.  The table alone does not protect a
 bank that precharges by itself (TimingTable.TableIff); the order of the command queues
 does (QueueOrder.ChoiceHeeds), and the results here assume it of each command (Heeds).
 */
module Protocol {
  import opened Packets
  import opened BankTiming

  datatype Policy = OpenPage | ClosePage

  /** Both copies of the state of one rank: mc the controller's, rk the rank's own. */
  datatype RankPair = RankPair(mc: seq<BankState>, rk: seq<BankState>, mcDown: bool, rkDown: bool)

  datatype Bus = Free | Busy(command: Command, left: nat)

  datatype Channel = Channel(clock: nat, ranks: seq<RankPair>, bus: Bus)

  datatype Pop = Nothing | Send(command: Command)

  datatype PowerMove = Stay | GoDown | WakeUp

  /** What the scheduler decides in one cycle; power(i) is the move of rank i. */
  datatype Decision = Decision(pop: Pop, power: nat -> PowerMove)

  datatype Error = RankRefused | CommandBusCollision | DataBusCollision | PowerRefused | QueueOverflow | NoMatchingTransaction

  datatype Outcome<+S> = Running(state: S) | Crashed(error: Error) | NotAllowed {
    predicate IsFailure() { !Running? }
    function PropagateFailure<T>(): Outcome<T>
      requires !Running?
    {
      if Crashed? then Crashed(error) else NotAllowed
    }
    function Extract(): S
      requires Running?
    {
      state
    }
  }

  // ---------- one cycle ----------

  function TickRank(p: Timing, r: RankPair): RankPair
    requires p.Sane()
  {
    r.(mc := seq(|r.mc|, j requires 0 <= j < |r.mc| => Tick(p, r.mc[j])))
  }

  function TickAll(p: Timing, s: Channel): Channel
    requires p.Sane()
  {
    s.(ranks := seq(|s.ranks|, i requires 0 <= i < |s.ranks| => TickRank(p, s.ranks[i])))
  }

  predicate RankAccepts(t: int, c: Command, rk: seq<BankState>) {
    if c.kind.REFRESH? then forall j :: 0 <= j < |rk| ==> Accepts(t, c, rk[j])
    else c.bank < |rk| && Accepts(t, c, rk[c.bank])
  }

  function ReceiveRank(p: Timing, t: int, c: Command, r: RankPair): RankPair
    requires p.Sane()
  {
    r.(rk := seq(|r.rk|, j requires 0 <= j < |r.rk| => Receive(p, t, c, j, r.rk[j])))
  }

  /** The command bus counts down and hands its packet to the rank when it reaches zero. */
  function Deliver(p: Timing, s: Channel): Outcome<Channel>
    requires p.Sane()
  {
    match s.bus
    case Free => Running(s)
    case Busy(c, left) =>
      if left != 1 then Running(s.(bus := Busy(c, if left == 0 then 0xFFFF_FFFF else left - 1)))
      else if c.rank >= |s.ranks| || !RankAccepts(s.clock, c, s.ranks[c.rank].rk) then Crashed(RankRefused)
      else Running(s.(bus := Free, ranks := s.ranks[c.rank := ReceiveRank(p, s.clock, c, s.ranks[c.rank])]))
  }

  /** All banks closed and past their activate time, and the rank not powered down. */
  predicate RefreshReady(t: int, mc: seq<BankState>) {
    && (forall j :: 0 <= j < |mc| ==> !mc[j].status.RowActive? && t >= mc[j].nextActivate)
    && mc != [] && !mc[0].status.PowerDown?
  }

  /** The commands a policy puts on the bus. */
  predicate Uses(policy: Policy, kind: PacketType) {
    match kind
    case ACTIVATE => true
    case REFRESH => true
    case READ => policy.OpenPage?
    case WRITE => policy.OpenPage?
    case PRECHARGE => policy.OpenPage?
    case READ_P => policy.ClosePage?
    case WRITE_P => policy.ClosePage?
    case DATA => false
  }

  /** The tests a command must pass before the queue hands it out. */
  predicate Ready(policy: Policy, t: int, c: Command, mc: seq<BankState>) {
    && c.bank < |mc| && Uses(policy, c.kind)
    && if c.kind.REFRESH? then RefreshReady(t, mc) else Issuable(t, c, mc[c.bank])
  }

  predicate MayIssue(policy: Policy, s: Channel, c: Command) {
    c.rank < |s.ranks| && Ready(policy, s.clock, c, s.ranks[c.rank].mc)
  }

  function IssueRank(p: Timing, t: int, c: Command, i: nat, r: RankPair): RankPair
    requires p.Sane()
  {
    r.(mc := seq(|r.mc|, j requires 0 <= j < |r.mc| => Issue(p, t, c, i, j, r.mc[j])))
  }

  function PopPhase(p: Timing, policy: Policy, s: Channel, pop: Pop): Outcome<Channel>
    requires p.Sane()
  {
    match pop
    case Nothing => Running(s)
    case Send(c) =>
      if !MayIssue(policy, s, c) then NotAllowed
      else if s.bus.Busy? then Crashed(CommandBusCollision)
      else Running(s.(bus := Busy(c, p.tCMD),
                      ranks := seq(|s.ranks|, i requires 0 <= i < |s.ranks| => IssueRank(p, s.clock, c, i, s.ranks[i]))))
  }

  predicate AllIdle(banks: seq<BankState>) {
    forall j :: 0 <= j < |banks| ==> banks[j].status.Idle?
  }

  function PowerRank(p: Timing, t: int, r: RankPair, move: PowerMove): Outcome<RankPair> {
    match move
    case Stay => Running(r)
    case GoDown =>
      if !AllIdle(r.mc) then NotAllowed
      else if !AllIdle(r.rk) then Crashed(PowerRefused)
      else Running(RankPair(Sleep(p, t, r.mc), Sleep(p, t, r.rk), true, true))
    case WakeUp =>
      if !r.mcDown || r.mc == [] || t < r.mc[0].nextPowerUp then NotAllowed
      else if !r.rkDown || exists j :: 0 <= j < |r.rk| && r.rk[j].nextPowerUp > t then Crashed(PowerRefused)
      else Running(RankPair(Wake(p, t, r.mc), Wake(p, t, r.rk), false, false))
  }

  function Sleep(p: Timing, t: int, banks: seq<BankState>): seq<BankState> {
    seq(|banks|, j requires 0 <= j < |banks| => banks[j].(status := PowerDown, nextPowerUp := t + p.tCKE))
  }

  function Wake(p: Timing, t: int, banks: seq<BankState>): seq<BankState> {
    seq(|banks|, j requires 0 <= j < |banks| => banks[j].(status := Idle, nextActivate := t + p.tXP))
  }

  /** The power moves of ranks i, i + 1, ..., in order. */
  function PowerFrom(p: Timing, s: Channel, power: nat -> PowerMove, i: nat): Outcome<Channel>
    decreases |s.ranks| - i
  {
    if i >= |s.ranks| then Running(s)
    else
      var r :- PowerRank(p, s.clock, s.ranks[i], power(i));
      PowerFrom(p, s.(ranks := s.ranks[i := r]), power, i + 1)
  }

  function Start(numRanks: nat, numBanks: nat): Channel {
    var banks := seq(numBanks, _ => FRESH_BANK);
    Channel(0, seq(numRanks, _ => RankPair(banks, banks, false, false)), Free)
  }

  // ---------- the invariant ----------

  /** A column access does not go to a bank that is about to precharge by itself. */
  ghost predicate Heeds(policy: Policy, s: Channel, pop: Pop) {
    policy.ClosePage? && pop.Send? && AutoKind(pop.command)
    && pop.command.rank < |s.ranks| && pop.command.bank < |s.ranks[pop.command.rank].mc| ==>
      !AutoPrecharging(s.ranks[pop.command.rank].mc[pop.command.bank])
  }

  /** Bank j is in step after cycle t, sleeps exactly when its rank does, and has only seen
      commands of the policy. */
  ghost predicate BankOk(policy: Policy, t: int, r: RankPair, j: nat)
    requires j < |r.mc| == |r.rk|
  {
    && InStep(t, r.mc[j], r.rk[j])
    && (r.mc[j].status.PowerDown? <==> r.mcDown)
    && (r.mcDown ==> r.mc[j].nextPowerUp == r.mc[0].nextPowerUp)
    && (policy.OpenPage? ==> !r.mc[j].lastCommand.READ_P? && !r.mc[j].lastCommand.WRITE_P?)
  }

  ghost predicate RankOk(policy: Policy, t: int, r: RankPair) {
    && |r.mc| == |r.rk| && r.mcDown == r.rkDown
    && forall j :: 0 <= j < |r.mc| ==> BankOk(policy, t, r, j)
  }

  /** The rank as it will be once the packet on the bus has arrived at cycle t. */
  function Arrived(p: Timing, t: int, bus: Bus, i: nat, r: RankPair): RankPair
    requires p.Sane()
  {
    if bus.Busy? && bus.command.rank == i then ReceiveRank(p, t, bus.command, r) else r
  }

  /** Rank i before cycle t: a packet on its way to it will be accepted, and the rank will
      then be in step with the controller's state after cycle t - 1. */
  ghost predicate RankInv(p: Timing, policy: Policy, t: int, s: Channel, i: nat)
    requires p.Sane() && i < |s.ranks|
  {
    && (s.bus.Busy? && s.bus.command.rank == i ==> RankAccepts(t, s.bus.command, s.ranks[i].rk))
    && RankOk(policy, t - 1, Arrived(p, t, s.bus, i, s.ranks[i]))
  }

  ghost predicate Inv(p: Timing, policy: Policy, t: int, s: Channel)
    requires p.Sane()
  {
    && (s.bus.Busy? ==> s.bus.left == 1 && s.bus.command.rank < |s.ranks|)
    && (forall i :: 0 <= i < |s.ranks| ==> RankInv(p, policy, t, s, i))
  }

  // ---------- countdown and delivery ----------

  lemma TickRankOk(p: Timing, policy: Policy, t: int, r: RankPair)
    requires p.Sane() && RankOk(policy, t - 1, r)
    ensures RankOk(policy, t, TickRank(p, r))
  {
    forall j | 0 <= j < |r.mc| ensures BankOk(policy, t, TickRank(p, r), j) {
      assert BankOk(policy, t - 1, r, j) && BankOk(policy, t - 1, r, 0);
      InStepTick(p, t, r.mc[j], r.rk[j]);
    }
  }

  lemma DeliverSettles(p: Timing, policy: Policy, s: Channel)
    requires p.Sane() && Inv(p, policy, s.clock, s)
    ensures Deliver(p, TickAll(p, s)).Running?
    ensures var s1 := Deliver(p, TickAll(p, s)).state;
            && s1.clock == s.clock && s1.bus.Free? && |s1.ranks| == |s.ranks|
            && forall i :: 0 <= i < |s.ranks| ==> RankOk(policy, s.clock, s1.ranks[i])
  {
    if s.bus.Busy? {
      assert RankInv(p, policy, s.clock, s, s.bus.command.rank);
    }
    var s1 := Deliver(p, TickAll(p, s)).state;
    forall i | 0 <= i < |s.ranks| ensures RankOk(policy, s.clock, s1.ranks[i]) {
      assert RankInv(p, policy, s.clock, s, i);
      var r := Arrived(p, s.clock, s.bus, i, s.ranks[i]);
      TickRankOk(p, policy, s.clock, r);
      assert s1.ranks[i] == TickRank(p, r);
    }
  }

  // ---------- issue ----------

  /** The bank a permitted command is addressed to is not about to precharge by itself. */
  lemma ReadyIsSettled(policy: Policy, t: int, c: Command, r: RankPair)
    requires RankOk(policy, t, r) && Ready(policy, t, c, r.mc)
    requires policy.ClosePage? && AutoKind(c) ==> !AutoPrecharging(r.mc[c.bank])
    ensures !AutoPrecharging(r.mc[c.bank])
  {
    assert BankOk(policy, t, r, c.bank);
  }

  /** One bank of the addressed rank, before and after a command is issued and received. */
  lemma IssueHereBank(p: Timing, policy: Policy, t: int, c: Command, r: RankPair, j: nat)
    requires p.Sane() && RankOk(policy, t, r) && Ready(policy, t, c, r.mc) && j < |r.mc|
    requires !AutoPrecharging(r.mc[c.bank])
    ensures BankOk(policy, t, ReceiveRank(p, t + 1, c, IssueRank(p, t, c, c.rank, r)), j)
    ensures c.kind.REFRESH? || j == c.bank ==> Accepts(t + 1, c, r.rk[j])
  {
    var m, k := r.mc[j], r.rk[j];
    assert BankOk(policy, t, r, j) && BankOk(policy, t, r, 0);
    if c.kind.REFRESH? {
      assert Issuable(t, c, m);
      IssuableIsAccepted(p, t, c, m, k);
    }
    if j == c.bank {
      InStepTarget(p, t, c, m, k);
      IssuableIsAccepted(p, t, c, m, k);
    } else {
      InStepNeighbour(p, t, c, j, m, k);
    }
  }

  /** Issuing keeps the addressed rank in step with what the rank will be one cycle later;
      until then it is neither idle nor powered down. */
  lemma IssueHere(p: Timing, policy: Policy, t: int, c: Command, r: RankPair)
    requires p.Sane() && RankOk(policy, t, r) && Ready(policy, t, c, r.mc)
    requires policy.ClosePage? && AutoKind(c) ==> !AutoPrecharging(r.mc[c.bank])
    ensures RankAccepts(t + 1, c, r.rk)
    ensures RankOk(policy, t, ReceiveRank(p, t + 1, c, IssueRank(p, t, c, c.rank, r)))
    ensures !AllIdle(IssueRank(p, t, c, c.rank, r).mc) && !r.mcDown
  {
    ReadyIsSettled(policy, t, c, r);
    forall j | 0 <= j < |r.mc|
      ensures BankOk(policy, t, ReceiveRank(p, t + 1, c, IssueRank(p, t, c, c.rank, r)), j)
      ensures c.kind.REFRESH? || j == c.bank ==> Accepts(t + 1, c, r.rk[j])
    {
      IssueHereBank(p, policy, t, c, r, j);
    }
    assert BankOk(policy, t, r, c.bank) && BankOk(policy, t, r, 0);
    assert !IssueRank(p, t, c, c.rank, r).mc[c.bank].status.Idle?;
  }

  /** The other ranks receive nothing and stay in step. */
  lemma IssueElsewhere(p: Timing, policy: Policy, t: int, c: Command, i: nat, r: RankPair)
    requires p.Sane() && RankOk(policy, t, r) && i != c.rank && Uses(policy, c.kind)
    ensures RankOk(policy, t, IssueRank(p, t, c, i, r))
  {
    forall j | 0 <= j < |r.mc| ensures BankOk(policy, t, IssueRank(p, t, c, i, r), j) {
      assert BankOk(policy, t, r, j) && BankOk(policy, t, r, 0);
      InStepElsewhere(p, t, c, i, j, r.mc[j], r.rk[j]);
    }
  }

  /** The rank a packet is on its way to is neither idle nor powered down. */
  ghost predicate TargetAwake(s: Channel) {
    s.bus.Busy? && s.bus.command.rank < |s.ranks| ==>
      !AllIdle(s.ranks[s.bus.command.rank].mc) && !s.ranks[s.bus.command.rank].mcDown
  }

  lemma PopKeepsInv(p: Timing, policy: Policy, s: Channel, pop: Pop)
    requires p.Sane() && p.tCMD == 1 && s.bus.Free? && Heeds(policy, s, pop)
    requires forall i :: 0 <= i < |s.ranks| ==> RankOk(policy, s.clock, s.ranks[i])
    ensures var o := PopPhase(p, policy, s, pop);
            !o.Crashed? && (o.Running? ==>
              o.state.clock == s.clock && Inv(p, policy, s.clock + 1, o.state) && TargetAwake(o.state))
  {
    var o := PopPhase(p, policy, s, pop);
    var t' := s.clock + 1;
    if o.Running? {
      forall i | 0 <= i < |s.ranks| ensures RankInv(p, policy, t', o.state, i) {
        assert RankOk(policy, s.clock, s.ranks[i]);
        if pop.Send? {
          if i == pop.command.rank {
            IssueHere(p, policy, s.clock, pop.command, s.ranks[i]);
          } else {
            IssueElsewhere(p, policy, s.clock, pop.command, i, s.ranks[i]);
          }
        }
      }
      if pop.Send? {
        assert RankOk(policy, s.clock, s.ranks[pop.command.rank]);
        IssueHere(p, policy, s.clock, pop.command, s.ranks[pop.command.rank]);
      }
    }
  }

  // ---------- power moves ----------

  lemma PowerRankOk(p: Timing, policy: Policy, t: int, r: RankPair, move: PowerMove)
    requires RankOk(policy, t, r)
    ensures var o := PowerRank(p, t, r, move);
            !o.Crashed? && (o.Running? ==> RankOk(policy, t, o.state))
  {
    forall j | 0 <= j < |r.mc|
      ensures r.mc[j].status.Idle? ==> r.rk[j].status.Idle?
      ensures r.mcDown ==> r.rk[j].nextPowerUp == r.mc[0].nextPowerUp
    {
      assert BankOk(policy, t, r, j);
    }
    var o := PowerRank(p, t, r, move);
    if o.Running? {
      forall j | 0 <= j < |r.mc| ensures BankOk(policy, t, o.state, j) {
        assert BankOk(policy, t, r, j) && BankOk(policy, t, r, 0);
      }
    }
  }

  lemma PowerStep(p: Timing, policy: Policy, s: Channel, i: nat, move: PowerMove)
    requires p.Sane() && Inv(p, policy, s.clock + 1, s) && i < |s.ranks|
    requires s.bus.Busy? && s.bus.command.rank == i ==> TargetAwake(s)
    ensures var o := PowerRank(p, s.clock, s.ranks[i], move);
            !o.Crashed? && (o.Running? ==> Inv(p, policy, s.clock + 1, s.(ranks := s.ranks[i := o.state])))
  {
    var r := s.ranks[i];
    var o := PowerRank(p, s.clock, r, move);
    assert RankInv(p, policy, s.clock + 1, s, i);
    if s.bus.Busy? && s.bus.command.rank == i {
      assert o.Running? ==> o.state == r;
    } else {
      PowerRankOk(p, policy, s.clock, r, move);
    }
    if o.Running? {
      var s', t' := s.(ranks := s.ranks[i := o.state]), s.clock + 1;
      forall k | 0 <= k < |s'.ranks| ensures RankInv(p, policy, t', s', k) {
        assert RankInv(p, policy, t', s, k);
      }
    }
  }

  lemma {:induction false} PowerKeepsInv(p: Timing, policy: Policy, s: Channel, power: nat -> PowerMove, i: nat)
    requires p.Sane() && Inv(p, policy, s.clock + 1, s)
    requires s.bus.Busy? && s.bus.command.rank >= i ==> TargetAwake(s)
    ensures var o := PowerFrom(p, s, power, i);
            !o.Crashed? && (o.Running? ==> o.state.clock == s.clock && Inv(p, policy, s.clock + 1, o.state))
    decreases |s.ranks| - i
  {
    if i >= |s.ranks| {
    } else {
      PowerStep(p, policy, s, i, power(i));
      var o := PowerRank(p, s.clock, s.ranks[i], power(i));
      if o.Running? {
        PowerKeepsInv(p, policy, s.(ranks := s.ranks[i := o.state]), power, i + 1);
      }
    }
  }

  lemma AsleepBank(p: Timing, policy: Policy, t: int, s: Channel, i: nat, b: nat)
    requires p.Sane() && Inv(p, policy, t, s) && i < |s.ranks| && s.ranks[i].mcDown && b < |s.ranks[i].mc|
    ensures s.ranks[i].mc[b].status.PowerDown?
  {
    assert RankInv(p, policy, t, s, i);
    var r := Arrived(p, t, s.bus, i, s.ranks[i]);
    assert BankOk(policy, t - 1, r, b);
  }

  /** Power moves do not touch a bank with an open row. */
  lemma {:induction false} PowerKeepsActive(p: Timing, policy: Policy, s: Channel, power: nat -> PowerMove, i: nat, r: nat, b: nat)
    requires p.Sane() && Inv(p, policy, s.clock + 1, s)
    requires s.bus.Busy? && s.bus.command.rank >= i ==> TargetAwake(s)
    requires r < |s.ranks| && b < |s.ranks[r].mc| && s.ranks[r].mc[b].status.RowActive?
    requires PowerFrom(p, s, power, i).Running?
    ensures var s' := PowerFrom(p, s, power, i).state;
            r < |s'.ranks| && b < |s'.ranks[r].mc| && s'.ranks[r].mc[b] == s.ranks[r].mc[b]
    decreases |s.ranks| - i
  {
    if i < |s.ranks| {
      PowerStep(p, policy, s, i, power(i));
      var o := PowerRank(p, s.clock, s.ranks[i], power(i));
      if i == r && s.ranks[i].mcDown {
        AsleepBank(p, policy, s.clock + 1, s, i, b);
      }
      PowerKeepsActive(p, policy, s.(ranks := s.ranks[i := o.state]), power, i + 1, r, b);
    }
  }

  /** No rank changes its power state. */
  const STAY: nat -> PowerMove := _ => Stay

  lemma {:induction false} StayKeeps(p: Timing, s: Channel, i: nat)
    ensures PowerFrom(p, s, STAY, i) == Running(s)
    decreases |s.ranks| - i
  {
    if i < |s.ranks| {
      assert s.(ranks := s.ranks[i := s.ranks[i]]) == s;
      StayKeeps(p, s, i + 1);
    }
  }

  lemma AdvanceClock(p: Timing, policy: Policy, s: Channel)
    requires p.Sane() && Inv(p, policy, s.clock + 1, s)
    ensures Inv(p, policy, s.clock + 1, s.(clock := s.clock + 1))
  {
    var t' := s.clock + 1;
    var s' := s.(clock := t');
    forall i | 0 <= i < |s.ranks| ensures RankInv(p, policy, t', s', i) {
      assert RankInv(p, policy, t', s, i);
    }
  }
}
