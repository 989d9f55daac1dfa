/**
 The data side of a memory channel: write data follows its command on the data bus and
 reaches the bank; a read fetches from the bank when its command arrives and returns over
 the rank's own line (MemoryController.cpp, Rank.cpp).
 */
module DataPath {
  import opened RowStore
  import opened Packets
  import opened Countdowns
  import opened BankTiming
  import opened Protocol

  datatype Cell = Cell(rank: nat, bank: nat, row: nat, column: nat)

  type Memory = map<Cell, Payload>

  function CellOf(c: Command): Cell {
    Cell(c.rank, c.bank, c.row, c.column)
  }

  function Fetch(mem: Memory, cell: Cell): Payload {
    if cell in mem then mem[cell] else Tracer
  }

  predicate IsRead(c: Command) { c.kind.READ? || c.kind.READ_P? }

  predicate IsWrite(c: Command) { c.kind.WRITE? || c.kind.WRITE_P? }

  /** A read packet with the data it carries; issuedAt is history. */
  datatype Ticket = Ticket(command: Command, issuedAt: int, data: Payload)

  datatype Slot = Slot(ticket: Ticket, left: nat)

  datatype Line = Empty | Carrying(slot: Slot)

  /** A rank's read returns: packets waiting for the read latency, the packet on the rank's
      line, and, as history, the packets handed to the controller with their cycle. */
  datatype RankIo = RankIo(waiting: seq<Slot>, line: Line, returned: seq<(Ticket, int)>)

  /** A write whose data has not reached its bank; issuedAt is history. */
  datatype Pending = Pending(command: Command, issuedAt: int, left: nat)

  datatype DataBus = Quiet | Transfer(write: Pending)

  datatype Data = Data(mem: Memory, bus: DataBus, writes: seq<Pending>, ranks: seq<RankIo>)

  // ---------- the phases of a cycle ----------

  function Age(waiting: seq<Slot>): (aged: seq<Slot>)
    ensures |aged| == |waiting|
    ensures forall k :: 0 <= k < |waiting| ==> aged[k] == Slot(waiting[k].ticket, Dec(waiting[k].left))
  {
    seq(|waiting|, k requires 0 <= k < |waiting| => Slot(waiting[k].ticket, Dec(waiting[k].left)))
  }

  /** The line counts down and hands its packet over at zero. */
  function LineStep(t: int, line: Line, returned: seq<(Ticket, int)>): (Line, seq<(Ticket, int)>) {
    match line
    case Empty => (Empty, returned)
    case Carrying(slot) =>
      if Dec(slot.left) == 0 then (Empty, returned + [(slot.ticket, t)])
      else (Carrying(Slot(slot.ticket, Dec(slot.left))), returned)
  }

  /** Rank update: a packet that finishes waiting takes the line, whatever is on it. */
  function RankUpdate(p: Timing, t: int, io: RankIo): RankIo {
    var (line, returned) := LineStep(t, io.line, io.returned);
    var waiting := Age(io.waiting);
    if waiting != [] && waiting[0].left == 0
    then RankIo(waiting[1..], Carrying(Slot(waiting[0].ticket, p.Burst())), returned)
    else RankIo(waiting, line, returned)
  }

  function UpdateRanks(p: Timing, t: int, io: Data): Data {
    io.(ranks := seq(|io.ranks|, i requires 0 <= i < |io.ranks| => RankUpdate(p, t, io.ranks[i])))
  }

  /** A read command arriving at its rank fetches its data at once and waits for RL cycles. */
  function Arrival(p: Timing, t: int, io: Data, bus: Bus): Data
    requires p.Sane()
  {
    if bus.Busy? && bus.left == 1 && IsRead(bus.command) && bus.command.rank < |io.ranks| then
      var c := bus.command;
      var r := io.ranks[c.rank];
      var ticket := Ticket(c, t - p.tCMD, Fetch(io.mem, CellOf(c)));
      io.(ranks := io.ranks[c.rank := r.(waiting := r.waiting + [Slot(ticket, p.RL())])])
    else io
  }

  /** The data bus counts down and writes its packet into the bank at zero. */
  function DataDeliver(io: Data): Data {
    match io.bus
    case Quiet => io
    case Transfer(w) =>
      if Dec(w.left) == 0 then io.(bus := Quiet, mem := io.mem[CellOf(w.command) := w.command.data])
      else io.(bus := Transfer(w.(left := Dec(w.left))))
  }

  function AgeWrites(writes: seq<Pending>): (aged: seq<Pending>)
    ensures |aged| == |writes|
    ensures forall k :: 0 <= k < |writes| ==> aged[k] == writes[k].(left := Dec(writes[k].left))
  {
    seq(|writes|, k requires 0 <= k < |writes| => writes[k].(left := Dec(writes[k].left)))
  }

  /** The head of the write queue takes the data bus when its latency is over. */
  function WriteSend(p: Timing, io: Data): Outcome<Data> {
    var writes := AgeWrites(io.writes);
    if writes != [] && writes[0].left == 0 then
      if io.bus.Transfer? then Crashed(DataBusCollision)
      else Running(io.(bus := Transfer(writes[0].(left := p.Burst())), writes := writes[1..]))
    else Running(io.(writes := writes))
  }

  function Accept(p: Timing, t: int, io: Data, pop: Pop): Data
    requires p.Sane()
  {
    if pop.Send? && IsWrite(pop.command)
    then io.(writes := io.writes + [Pending(pop.command, t, p.WL())])
    else io
  }

  // ---------- the reference memory ----------

  /** What a correct memory would hold and return if every command took effect the moment it
      was issued; lastWrite is the latest write command. */
  datatype History = History(golden: Memory, issued: seq<seq<Ticket>>, lastWrite: LastWrite)

  datatype LastWrite = NoWrite | WroteAt(at: int, rank: nat)

  function Record(t: int, h: History, pop: Pop): History {
    if pop.Nothing? then h
    else
      var c := pop.command;
      if IsWrite(c) then h.(golden := h.golden[CellOf(c) := c.data], lastWrite := WroteAt(t, c.rank))
      else if IsRead(c) && c.rank < |h.issued|
      then h.(issued := h.issued[c.rank := h.issued[c.rank] + [Ticket(c, t, Fetch(h.golden, CellOf(c)))]])
      else h
  }

  // ---------- the whole channel ----------

  datatype System = System(ch: Channel, io: Data, h: History)

  /** One cycle of the memory system, in the order of MemorySystem::update. */
  function SystemCycle(p: Timing, policy: Policy, s: System, d: Decision): Outcome<System>
    requires p.Sane()
  {
    var t := s.ch.clock;
    var io1 := UpdateRanks(p, t, s.io);
    var ch1 :- Deliver(p, TickAll(p, s.ch));
    var io2 := DataDeliver(Arrival(p, t, io1, s.ch.bus));
    var io3 :- WriteSend(p, io2);
    var ch2 :- PopPhase(p, policy, ch1, d.pop);
    var ch3 :- PowerFrom(p, ch2, d.power, 0);
    Running(System(ch3.(clock := t + 1), Accept(p, t, io3, d.pop), Record(t, s.h, d.pop)))
  }

  function SystemStart(numRanks: nat, numBanks: nat): System {
    System(Start(numRanks, numBanks),
           Data(map[], Quiet, [], seq(numRanks, _ => RankIo([], Empty, []))),
           History(map[], seq(numRanks, _ => []), NoWrite))
  }

  function SystemRun(p: Timing, policy: Policy, numRanks: nat, numBanks: nat, ds: seq<Decision>): Outcome<System>
    requires p.Sane()
  {
    if ds == [] then Running(SystemStart(numRanks, numBanks))
    else
      var s :- SystemRun(p, policy, numRanks, numBanks, ds[..|ds| - 1]);
      SystemCycle(p, policy, s, ds[|ds| - 1])
  }
}
