/**
 The memory controller from transaction to bus: transactions wait in arrival order, the first
 one whose command queue has room is split into an ACTIVATE and a column access, and every
 cycle the scheduler may take one command out of the queues or make up a PRECHARGE or a
 REFRESH (MemoryController.cpp, CommandQueue.cpp).  Which command is taken is left open here,
 within the order that the queues respect.
 */
module Controller {
  import opened RowStore
  import opened Packets
  import opened BankTiming
  import opened Protocol
  import opened DataPath
  import opened CommandQueues

  datatype Structure = PerRank | PerRankPerBank

  type Queues = seq<seq<seq<Packet>>>

  datatype Shape = Shape(policy: Policy, structure: Structure, numRanks: nat, numBanks: nat,
                         queueDepth: nat, transactionDepth: nat)
  {
    function Lanes(): nat {
      if structure.PerRank? then 1 else numBanks
    }

    function Lane(bank: nat): nat {
      if structure.PerRank? then 0 else bank
    }
  }

  /** The scheduler's choice; i is a position in the queue of a lane of a rank. */
  datatype Choice = Wait | MakeUp(command: Command) | Take(rank: nat, lane: nat, i: nat)

  /** What happens in a cycle: transactions arrive, given as their column accesses; a command
      is chosen; ranks change their power state. */
  datatype Input = Input(arrivals: seq<Packet>, choice: Choice, power: nat -> PowerMove)

  /** The state; arrived and issued are history, issued holding what came out of the queues. */
  datatype Full = Full(sys: System, queues: Queues, waiting: seq<Packet>, arrived: seq<Packet>, issued: seq<Packet>)

  // ---------- choosing a command ----------

  predicate InQueues(queues: Queues, r: nat, x: nat) {
    r < |queues| && x < |queues[r]|
  }

  ghost predicate Legal(g: Shape, queues: Queues, choice: Choice) {
    match choice
    case Wait => true
    case MakeUp(c) => c.kind.PRECHARGE? || c.kind.REFRESH?
    case Take(r, x, i) => InQueues(queues, r, x) && i < |queues[r][x]| && Removable(g.policy, queues[r][x], i)
  }

  function Chosen(queues: Queues, choice: Choice): seq<Packet> {
    if choice.Take? && InQueues(queues, choice.rank, choice.lane) && choice.i < |queues[choice.rank][choice.lane]|
    then [queues[choice.rank][choice.lane][choice.i]] else []
  }

  function PopOf(queues: Queues, choice: Choice): Pop {
    if choice.MakeUp? then Send(choice.command)
    else if Chosen(queues, choice) == [] then Nothing
    else Send(Chosen(queues, choice)[0].command)
  }

  function With(queues: Queues, r: nat, x: nat, q: seq<Packet>): Queues
    requires InQueues(queues, r, x)
  {
    queues[r := queues[r][x := q]]
  }

  function After(policy: Policy, queues: Queues, choice: Choice): Queues {
    if Chosen(queues, choice) == [] then queues
    else With(queues, choice.rank, choice.lane, Taken(policy, queues[choice.rank][choice.lane], choice.i))
  }

  // ---------- scheduling a transaction ----------

  /** The column access of a transaction that the address mapping can produce. */
  predicate ValidArrival(g: Shape, e: Packet) {
    IsColumn(e) && Uses(g.policy, e.command.kind) && e.command.rank < g.numRanks && e.command.bank < g.numBanks
  }

  function ActFor(e: Packet): Packet {
    Packet(e.command.(kind := ACTIVATE, data := Tracer), e.address)
  }

  function QueueOf(g: Shape, queues: Queues, r: nat, b: nat): seq<Packet> {
    if InQueues(queues, r, g.Lane(b)) then queues[r][g.Lane(b)] else []
  }

  /** Room for a pair, computed on unsigned numbers. */
  predicate HasRoom(g: Shape, queues: Queues, e: Packet) {
    var size := |QueueOf(g, queues, e.command.rank, e.command.bank)|;
    size > g.queueDepth || g.queueDepth - size >= 2
  }

  /** The first waiting transaction whose queue has room. */
  function FirstWithRoom(g: Shape, queues: Queues, waiting: seq<Packet>): (i: nat)
    ensures i <= |waiting|
    ensures i < |waiting| ==> HasRoom(g, queues, waiting[i])
    ensures forall j :: 0 <= j < i ==> !HasRoom(g, queues, waiting[j])
  {
    if waiting == [] || HasRoom(g, queues, waiting[0]) then 0 else 1 + FirstWithRoom(g, queues, waiting[1..])
  }

  function Enqueue(g: Shape, queues: Queues, e: Packet): Outcome<Queues> {
    var r, x := e.command.rank, g.Lane(e.command.bank);
    if !InQueues(queues, r, x) then NotAllowed
    else if |queues[r][x]| + 1 > g.queueDepth then Crashed(QueueOverflow)
    else Running(With(queues, r, x, queues[r][x] + [e]))
  }

  function Schedule(g: Shape, queues: Queues, waiting: seq<Packet>): Outcome<(Queues, seq<Packet>)> {
    var i := FirstWithRoom(g, queues, waiting);
    if i == |waiting| then Running((queues, waiting))
    else
      var q1 :- Enqueue(g, queues, ActFor(waiting[i]));
      var q2 :- Enqueue(g, q1, waiting[i]);
      Running((q2, RemoveAt(waiting, i)))
  }

  // ---------- runs ----------

  ghost predicate Admissible(g: Shape, f: Full, input: Input) {
    && |f.waiting| + |input.arrivals| <= g.transactionDepth
    && (forall j :: 0 <= j < |input.arrivals| ==> ValidArrival(g, input.arrivals[j]))
    && Legal(g, f.queues, input.choice)
  }

  ghost function FullCycle(p: Timing, g: Shape, f: Full, input: Input): Outcome<Full>
    requires p.Sane()
  {
    if !Admissible(g, f, input) then NotAllowed
    else
      var sys :- SystemCycle(p, g.policy, f.sys, Decision(PopOf(f.queues, input.choice), input.power));
      var (queues, waiting) :- Schedule(g, After(g.policy, f.queues, input.choice), f.waiting + input.arrivals);
      Running(Full(sys, queues, waiting, f.arrived + input.arrivals, f.issued + Chosen(f.queues, input.choice)))
  }

  function FullStart(g: Shape): Full {
    Full(SystemStart(g.numRanks, g.numBanks), seq(g.numRanks, _ => seq(g.Lanes(), _ => [])), [], [], [])
  }

  ghost function FullRun(p: Timing, g: Shape, ins: seq<Input>): Outcome<Full>
    requires p.Sane()
  {
    if ins == [] then Running(FullStart(g))
    else
      var f :- FullRun(p, g, ins[..|ins| - 1]);
      FullCycle(p, g, f, ins[|ins| - 1])
  }

  /** The decisions that a run presents to the memory channel. */
  ghost function Decisions(p: Timing, g: Shape, ins: seq<Input>): (ds: seq<Decision>)
    requires p.Sane()
    ensures |ds| == |ins|
  {
    if ins == [] then []
    else
      var before, input := ins[..|ins| - 1], ins[|ins| - 1];
      var o := FullRun(p, g, before);
      Decisions(p, g, before)
      + [Decision(if o.Running? then PopOf(o.state.queues, input.choice) else Nothing, input.power)]
  }

  /** The channel does not know about queues: its state is that of the decisions alone. */
  lemma {:induction false} RunIsSystemRun(p: Timing, g: Shape, ins: seq<Input>)
    requires p.Sane()
    ensures var o := FullRun(p, g, ins);
            o.Running? ==> SystemRun(p, g.policy, g.numRanks, g.numBanks, Decisions(p, g, ins)) == Running(o.state.sys)
  {
    if ins != [] {
      var before := ins[..|ins| - 1];
      RunIsSystemRun(p, g, before);
      var ds := Decisions(p, g, ins);
      assert ds[..|ds| - 1] == Decisions(p, g, before);
    }
  }
}
