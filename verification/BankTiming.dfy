/**
 The timing state of one DRAM bank, kept twice in the simulator: once by the memory
 controller, which decides when a command may be issued (CommandQueue.cpp,
 MemoryController.cpp), and once by the rank, which refuses a command that arrives too
 early (Rank.cpp).  The two are updated by different code, one command-bus cycle apart.
 */
module BankTiming {
  import opened Packets

  /** The device parameters, in clock cycles. */
  datatype Timing = Timing(
    CL: nat, AL: nat, BL: nat, tRAS: nat, tRCD: nat, tRRD: nat, tRC: nat, tRP: nat, tCCD: nat,
    tRTP: nat, tWTR: nat, tWR: nat, tRTRS: nat, tRFC: nat, tFAW: nat, tCKE: nat, tXP: nat, tCMD: nat)
  {
    function RL(): int { CL + AL }
    function WL(): int { RL() - 1 }
    function Burst(): nat { BL / 2 }
    function ReadToPre(): int { AL + Burst() + Max(tRTP, tCCD) - tCCD }
    function WriteToPre(): int { WL() + Burst() + tWR }
    function ReadToWrite(): int { RL() + Burst() + tRTRS - WL() }
    function ReadAutopre(): int { AL + tRTP + tRP }
    function WriteAutopre(): int { WL() + Burst() + tWR + tRP }
    function WriteToReadSameRank(): int { WL() + Burst() + tWTR }
    function WriteToReadOtherRank(): int { WL() + Burst() + tRTRS - RL() }
    function ColumnGap(): int { Max(tCCD, Burst()) }

    /** No delay is negative, a burst takes time, and write data follows its command. */
    predicate Sane() {
      AL <= tRCD && BL >= 2 && WL() >= 1 && tFAW >= 1
    }
  }

  function Max(a: int, b: int): int {
    if a < b then b else a
  }

  datatype Status = Idle | RowActive | Precharging | Refreshing | PowerDown

  datatype BankState = BankState(
    status: Status, openRow: nat, nextRead: int, nextWrite: int, nextActivate: int, nextPrecharge: int,
    nextPowerUp: int, lastCommand: PacketType, countdown: nat)

  /** All banks start precharged. */
  const FRESH_BANK := BankState(Idle, 0, 0, 0, 0, 0, 0, READ, 0)

  // ---------- the controller's copy ----------

  /** Countdown at the start of a controller cycle. */
  function Tick(p: Timing, b: BankState): BankState
    requires p.Sane()
  {
    if b.countdown == 0 then b
    else if b.countdown > 1 then b.(countdown := b.countdown - 1)
    else match b.lastCommand
      case WRITE_P => b.(status := Precharging, lastCommand := PRECHARGE, countdown := p.tRP)
      case READ_P => b.(status := Precharging, lastCommand := PRECHARGE, countdown := p.tRP)
      case REFRESH => b.(status := Idle, countdown := 0)
      case PRECHARGE => b.(status := Idle, countdown := 0)
      case _ => b.(countdown := 0)
  }

  /** The controller's bank (i, j) after it issued c at cycle t. */
  function Issue(p: Timing, t: int, c: Command, i: nat, j: nat, b: BankState): BankState
    requires p.Sane()
  {
    var target := i == c.rank && j == c.bank;
    match c.kind
    case READ =>
      if i != c.rank then IssueReadElsewhere(p, t, b)
      else
        var b1 := if target
          then b.(nextPrecharge := Max(t + p.ReadToPre(), b.nextPrecharge), lastCommand := READ) else b;
        IssueReadSameRank(p, t, b1)
    case READ_P =>
      if i != c.rank then IssueReadElsewhere(p, t, b)
      else if !target then IssueReadSameRank(p, t, b)
      else
        var b1 := IssueReadSameRank(p, t, b.(nextActivate := Max(t + p.ReadAutopre(), b.nextActivate),
                                             lastCommand := READ_P, countdown := p.ReadToPre()));
        b1.(nextRead := b1.nextActivate, nextWrite := b1.nextActivate)
    case WRITE =>
      if i != c.rank then IssueWriteElsewhere(p, t, b)
      else
        var b1 := if target
          then b.(nextPrecharge := Max(t + p.WriteToPre(), b.nextPrecharge), lastCommand := WRITE) else b;
        IssueWriteSameRank(p, t, b1)
    case WRITE_P =>
      if i != c.rank then IssueWriteElsewhere(p, t, b)
      else if !target then IssueWriteSameRank(p, t, b)
      else
        var b1 := IssueWriteSameRank(p, t, b.(nextActivate := Max(t + p.WriteAutopre(), b.nextActivate),
                                              lastCommand := WRITE_P, countdown := p.WriteToPre()));
        b1.(nextRead := b1.nextActivate, nextWrite := b1.nextActivate)
    case ACTIVATE =>
      if target then
        b.(status := RowActive, lastCommand := ACTIVATE, openRow := c.row,
           nextActivate := Max(t + p.tRC, b.nextActivate),
           nextPrecharge := Max(t + p.tRAS, b.nextPrecharge),
           nextRead := Max(t + (p.tRCD - p.AL), b.nextRead),
           nextWrite := Max(t + (p.tRCD - p.AL), b.nextWrite))
      else if i == c.rank then b.(nextActivate := Max(t + p.tRRD, b.nextActivate))
      else b
    case PRECHARGE =>
      if target then
        b.(status := Precharging, lastCommand := PRECHARGE, countdown := p.tRP,
           nextActivate := Max(t + p.tRP, b.nextActivate))
      else b
    case REFRESH =>
      if i == c.rank then
        b.(status := Refreshing, lastCommand := REFRESH, countdown := p.tRFC, nextActivate := t + p.tRFC)
      else b
    case DATA => b
  }

  function IssueReadElsewhere(p: Timing, t: int, b: BankState): BankState {
    if b.status.RowActive?
    then b.(nextRead := Max(t + p.Burst() + p.tRTRS, b.nextRead), nextWrite := Max(t + p.ReadToWrite(), b.nextWrite))
    else b
  }

  function IssueReadSameRank(p: Timing, t: int, b: BankState): BankState {
    b.(nextRead := Max(t + p.ColumnGap(), b.nextRead), nextWrite := Max(t + p.ReadToWrite(), b.nextWrite))
  }

  function IssueWriteElsewhere(p: Timing, t: int, b: BankState): BankState {
    if b.status.RowActive?
    then b.(nextWrite := Max(t + p.Burst() + p.tRTRS, b.nextWrite),
            nextRead := Max(t + p.WriteToReadOtherRank(), b.nextRead))
    else b
  }

  function IssueWriteSameRank(p: Timing, t: int, b: BankState): BankState {
    b.(nextWrite := Max(t + p.ColumnGap(), b.nextWrite),
       nextRead := Max(t + p.WriteToReadSameRank(), b.nextRead))
  }

  // ---------- the rank's copy ----------

  /** The rank's check of a command for one of its banks, at its own clock. */
  predicate Accepts(t: int, c: Command, b: BankState) {
    match c.kind
    case READ => b.status.RowActive? && t >= b.nextRead && c.row == b.openRow
    case READ_P => b.status.RowActive? && t >= b.nextRead && c.row == b.openRow
    case WRITE => b.status.RowActive? && t >= b.nextWrite && c.row == b.openRow
    case WRITE_P => b.status.RowActive? && t >= b.nextWrite && c.row == b.openRow
    case ACTIVATE => b.status.Idle? && t >= b.nextActivate
    case PRECHARGE => b.status.RowActive? && t >= b.nextPrecharge
    case REFRESH => b.status.Idle?
    case DATA => true
  }

  /** The rank's bank j after it received c at cycle t. */
  function Receive(p: Timing, t: int, c: Command, j: nat, b: BankState): BankState
    requires p.Sane()
  {
    match c.kind
    case READ =>
      var b1 := if j == c.bank then b.(nextPrecharge := Max(b.nextPrecharge, t + p.ReadToPre())) else b;
      ReceiveRead(p, t, b1)
    case READ_P =>
      var b1 := if j == c.bank
        then b.(status := Idle, nextActivate := Max(b.nextActivate, t + p.ReadAutopre())) else b;
      ReceiveRead(p, t, b1)
    case WRITE =>
      var b1 := if j == c.bank then b.(nextPrecharge := Max(b.nextPrecharge, t + p.WriteToPre())) else b;
      ReceiveWrite(p, t, b1)
    case WRITE_P =>
      var b1 := if j == c.bank
        then b.(status := Idle, nextActivate := Max(b.nextActivate, t + p.WriteAutopre())) else b;
      ReceiveWrite(p, t, b1)
    case ACTIVATE =>
      if j == c.bank then
        b.(status := RowActive, nextActivate := t + p.tRC, openRow := c.row,
           nextWrite := t + (p.tRCD - p.AL), nextRead := t + (p.tRCD - p.AL), nextPrecharge := t + p.tRAS)
      else b.(nextActivate := Max(b.nextActivate, t + p.tRRD))
    case PRECHARGE =>
      if j == c.bank then b.(status := Idle, nextActivate := Max(b.nextActivate, t + p.tRP)) else b
    case REFRESH => b.(nextActivate := t + p.tRFC)
    case DATA => b
  }

  function ReceiveRead(p: Timing, t: int, b: BankState): BankState {
    b.(nextRead := Max(b.nextRead, t + p.ColumnGap()), nextWrite := Max(b.nextWrite, t + p.ReadToWrite()))
  }

  function ReceiveWrite(p: Timing, t: int, b: BankState): BankState {
    b.(nextRead := Max(b.nextRead, t + p.WriteToReadSameRank()), nextWrite := Max(b.nextWrite, t + p.ColumnGap()))
  }

  // ---------- when the controller issues ----------

  /** The issue test of the command queue, for the addressed bank. */
  predicate Issuable(t: int, c: Command, b: BankState) {
    match c.kind
    case READ => b.status.RowActive? && t >= b.nextRead && c.row == b.openRow
    case READ_P => b.status.RowActive? && t >= b.nextRead && c.row == b.openRow
    case WRITE => b.status.RowActive? && t >= b.nextWrite && c.row == b.openRow
    case WRITE_P => b.status.RowActive? && t >= b.nextWrite && c.row == b.openRow
    case ACTIVATE => (b.status.Idle? || b.status.Refreshing?) && t >= b.nextActivate
    case PRECHARGE => b.status.RowActive? && t >= b.nextPrecharge
    case REFRESH => !b.status.RowActive? && !b.status.PowerDown? && t >= b.nextActivate
    case DATA => false
  }

  // ---------- how the two copies correspond ----------

  /** The accesses of the closed-page policy. */
  predicate AutoKind(c: Command) {
    c.kind.READ_P? || c.kind.WRITE_P?
  }

  /** The row still counts as open, but its bank is about to precharge by itself. */
  predicate AutoPrecharging(m: BankState) {
    m.status.RowActive? && (m.lastCommand.READ_P? || m.lastCommand.WRITE_P?)
  }

  /** The rank's copy r, once it has received everything issued up to cycle t, is never more
      than the one bus cycle behind the controller's copy m after cycle t, and agrees on what is
      open; a bank that precharges by itself is closed at the rank already. */
  predicate InStep(t: int, m: BankState, r: BankState) {
    && r.nextActivate <= m.nextActivate + 1
    && match m.status
       case Idle => r.status.Idle? && m.countdown == 0
       case Precharging => r.status.Idle? && m.lastCommand.PRECHARGE?
       case Refreshing =>
         r.status.Idle? && m.lastCommand.REFRESH? && (m.countdown >= 1 ==> m.nextActivate >= t + m.countdown)
       case PowerDown => r.status.PowerDown? && m.countdown == 0 && m.nextPowerUp == r.nextPowerUp
       case RowActive =>
         if AutoPrecharging(m) then r.status.Idle? && m.countdown >= 1
         else
           && r.status.RowActive? && r.openRow == m.openRow && m.countdown == 0
           && r.nextRead <= m.nextRead + 1 && r.nextWrite <= m.nextWrite + 1
           && r.nextPrecharge <= m.nextPrecharge + 1
  }

  lemma InStepTick(p: Timing, t: int, m: BankState, r: BankState)
    requires p.Sane() && InStep(t - 1, m, r)
    ensures InStep(t, Tick(p, m), r)
  {
  }

  /** What the controller may issue to a bank that is not about to precharge by itself, the
      rank accepts one cycle later. */
  lemma IssuableIsAccepted(p: Timing, t: int, c: Command, m: BankState, r: BankState)
    requires p.Sane() && InStep(t, m, r) && Issuable(t, c, m) && !AutoPrecharging(m)
    ensures Accepts(t + 1, c, r)
  {
  }

  /** Issuing on one side and receiving on the other keeps the addressed bank in step. */
  lemma InStepTarget(p: Timing, t: int, c: Command, m: BankState, r: BankState)
    requires p.Sane() && InStep(t, m, r) && Issuable(t, c, m) && !AutoPrecharging(m)
    ensures InStep(t, Issue(p, t, c, c.rank, c.bank, m), Receive(p, t + 1, c, c.bank, r))
  {
  }

  /** ... and every other bank of its rank. */
  lemma InStepNeighbour(p: Timing, t: int, c: Command, j: nat, m: BankState, r: BankState)
    requires p.Sane() && InStep(t, m, r) && j != c.bank
    requires c.kind.REFRESH? ==> Issuable(t, c, m)
    ensures InStep(t, Issue(p, t, c, c.rank, j, m), Receive(p, t + 1, c, j, r))
  {
  }

  /** ... and every bank of the other ranks, which receive nothing. */
  lemma InStepElsewhere(p: Timing, t: int, c: Command, i: nat, j: nat, m: BankState, r: BankState)
    requires p.Sane() && InStep(t, m, r) && i != c.rank
    ensures InStep(t, Issue(p, t, c, i, j, m), r)
  {
  }
}
