/**
 The cycle-by-cycle memory system is the same flat memory as the banks alone: what it
 returns for transactions on byte addresses, under any mapping scheme, queueing and
 scheduling, is what Storage.Latest prescribes for them in the order of arrival.
 */
module FlatMemory {
  import opened RowStore
  import opened Packets
  import opened Word
  import opened AddressMapping
  import Storage
  import opened BankTiming
  import opened Protocol
  import opened DataPath
  import opened ReadReturns
  import opened CommandQueues
  import Controller
  import ArrivalOrder
  import PendingReads

  /** The coordinates of an address. */
  function Place(geo: Geometry, scheme: Scheme, address: Word): Coord {
    Decode(geo, scheme, Index(geo, Value(address)))
  }

  function KindOf(policy: Policy, op: Storage.Op): PacketType {
    if op.ReadOp? then (if policy.ClosePage? then READ_P else READ)
    else (if policy.ClosePage? then WRITE_P else WRITE)
  }

  /** The column access a transaction becomes. */
  function Translate(geo: Geometry, scheme: Scheme, policy: Policy, op: Storage.Op): Packet {
    var c := Place(geo, scheme, op.address);
    Packet(Command(KindOf(policy, op), c.rank, c.bank, c.row, c.column, if op.WriteOp? then op.data else Tracer),
           Value(op.address))
  }

  function TranslateAll(geo: Geometry, scheme: Scheme, policy: Policy, ops: seq<Storage.Op>): (ps: seq<Packet>)
    ensures |ps| == |ops|
    ensures forall j :: 0 <= j < |ops| ==> ps[j] == Translate(geo, scheme, policy, ops[j])
  {
    seq(|ops|, j requires 0 <= j < |ops| => Translate(geo, scheme, policy, ops[j]))
  }

  lemma TranslateConcat(geo: Geometry, scheme: Scheme, policy: Policy, a: seq<Storage.Op>, b: seq<Storage.Op>)
    ensures TranslateAll(geo, scheme, policy, a + b)
         == TranslateAll(geo, scheme, policy, a) + TranslateAll(geo, scheme, policy, b)
  {
  }

  /** All transactions belong to this channel. */
  ghost predicate OnChannel(geo: Geometry, scheme: Scheme, chan: nat, ops: seq<Storage.Op>) {
    forall j :: 0 <= j < |ops| ==> Place(geo, scheme, ops[j].address).chan == chan
  }

  /** On one channel, two addresses have the same cell exactly when they are in the same block. */
  lemma SameCell(geo: Geometry, scheme: Scheme, policy: Policy, a: Storage.Op, b: Storage.Op)
    requires Place(geo, scheme, a.address).chan == Place(geo, scheme, b.address).chan
    ensures CellOf(Translate(geo, scheme, policy, a).command) == CellOf(Translate(geo, scheme, policy, b).command)
            <==> Storage.Block(geo, a.address) == Storage.Block(geo, b.address)
  {
    AliasingLow(geo, scheme, Index(geo, Value(a.address)), Index(geo, Value(b.address)));
  }

  /** Transactions become column accesses of their kind. */
  lemma TranslateKind(geo: Geometry, scheme: Scheme, policy: Policy, op: Storage.Op, k: Key)
    ensures var e := Translate(geo, scheme, policy, op);
            && (IsRead(e.command) <==> op.ReadOp?)
            && (IsWrite(e.command) <==> op.WriteOp?)
            && (op.WriteOp? ==> e.command.data == op.data)
            && (Hits(e, k) <==> ArrivalOrder.KeyOf(e.command) == k)
  {
  }

  lemma LatestSnoc(cs: seq<Packet>, e: Packet, cell: Cell)
    ensures ArrivalOrder.Latest(cs + [e], cell)
         == if IsWrite(e.command) && CellOf(e.command) == cell then e.command.data else ArrivalOrder.Latest(cs, cell)
  {
  }

  lemma AnswersSnoc(cs: seq<Packet>, e: Packet)
    ensures ArrivalOrder.Answers(cs + [e])
         == ArrivalOrder.Answers(cs)
            + (if IsRead(e.command) then [(e.command, ArrivalOrder.Latest(cs, CellOf(e.command)))] else [])
  {
  }

  /** One more access, as a row sees it: e is it, block its block. */
  lemma LatestStep(cs: seq<Packet>, e: Packet, c: Command)
    ensures var k := ArrivalOrder.KeyOf(c);
            ArrivalOrder.Latest(cs + (if Hits(e, k) then [e] else []), CellOf(c))
            == if IsWrite(e.command) && CellOf(e.command) == CellOf(c) then e.command.data
               else ArrivalOrder.Latest(cs, CellOf(c))
  {
    LatestSnoc(cs, e, CellOf(c));
    assert cs + [] == cs;
  }

  /** The latest write to a block, seen through the packets of its row. */
  lemma {:induction false} LatestOfBlock(geo: Geometry, scheme: Scheme, policy: Policy, chan: nat,
                                         ops: seq<Storage.Op>, op: Storage.Op)
    requires OnChannel(geo, scheme, chan, ops) && Place(geo, scheme, op.address).chan == chan
    ensures LatestAgrees(geo, scheme, policy, ops, op)
  {
    if ops != [] {
      var before, last := ops[..|ops| - 1], ops[|ops| - 1];
      LatestOfBlock(geo, scheme, policy, chan, before, op);
      SameCell(geo, scheme, policy, last, op);
      LatestOneMore(geo, scheme, policy, ops, op);
    }
  }

  ghost predicate LatestAgrees(geo: Geometry, scheme: Scheme, policy: Policy, ops: seq<Storage.Op>, op: Storage.Op) {
    var c := Translate(geo, scheme, policy, op).command;
    ArrivalOrder.Latest(Select(TranslateAll(geo, scheme, policy, ops), ArrivalOrder.KeyOf(c)), CellOf(c))
    == Storage.Latest(geo, ops, Storage.Block(geo, op.address))
  }

  lemma LatestOneMore(geo: Geometry, scheme: Scheme, policy: Policy, ops: seq<Storage.Op>, op: Storage.Op)
    requires ops != [] && LatestAgrees(geo, scheme, policy, ops[..|ops| - 1], op)
    requires var last := ops[|ops| - 1];
             CellOf(Translate(geo, scheme, policy, last).command) == CellOf(Translate(geo, scheme, policy, op).command)
             <==> Storage.Block(geo, last.address) == Storage.Block(geo, op.address)
    ensures LatestAgrees(geo, scheme, policy, ops, op)
  {
    var before, last := ops[..|ops| - 1], ops[|ops| - 1];
    var c, e := Translate(geo, scheme, policy, op).command, Translate(geo, scheme, policy, last);
    var k := ArrivalOrder.KeyOf(c);
    SelectLast(geo, scheme, policy, ops, k);
    TranslateKind(geo, scheme, policy, last, k);
    LatestStep(Select(TranslateAll(geo, scheme, policy, before), k), e, c);
  }

  lemma SelectLast(geo: Geometry, scheme: Scheme, policy: Policy, ops: seq<Storage.Op>, k: Key)
    requires ops != []
    ensures var e := Translate(geo, scheme, policy, ops[|ops| - 1]);
            Select(TranslateAll(geo, scheme, policy, ops), k)
            == Select(TranslateAll(geo, scheme, policy, ops[..|ops| - 1]), k) + (if Hits(e, k) then [e] else [])
  {
    var before, e := ops[..|ops| - 1], Translate(geo, scheme, policy, ops[|ops| - 1]);
    assert ops == before + [ops[|ops| - 1]];
    TranslateConcat(geo, scheme, policy, before, [ops[|ops| - 1]]);
    assert TranslateAll(geo, scheme, policy, [ops[|ops| - 1]]) == [e];
    SelectConcat(TranslateAll(geo, scheme, policy, before), [e], k);
    SelectOne(e, k);
  }

  /** What a flat memory answers to the reads of a row. */
  function FlatAnswers(geo: Geometry, scheme: Scheme, policy: Policy, ops: seq<Storage.Op>, k: Key): seq<(Command, Payload)> {
    if ops == [] then []
    else
      var before, last := ops[..|ops| - 1], ops[|ops| - 1];
      var c := Translate(geo, scheme, policy, last).command;
      FlatAnswers(geo, scheme, policy, before, k)
      + (if last.ReadOp? && ArrivalOrder.KeyOf(c) == k
         then [(c, Storage.Latest(geo, before, Storage.Block(geo, last.address)))] else [])
  }

  lemma {:induction false} AnswersAreFlat(geo: Geometry, scheme: Scheme, policy: Policy, chan: nat,
                                          ops: seq<Storage.Op>, k: Key)
    requires OnChannel(geo, scheme, chan, ops)
    ensures ArrivalOrder.Answers(Select(TranslateAll(geo, scheme, policy, ops), k)) == FlatAnswers(geo, scheme, policy, ops, k)
  {
    if ops != [] {
      var before, last := ops[..|ops| - 1], ops[|ops| - 1];
      AnswersAreFlat(geo, scheme, policy, chan, before, k);
      LatestOfBlock(geo, scheme, policy, chan, before, last);
      AnswersOneMore(geo, scheme, policy, ops, k);
    }
  }

  /** The sequential memory answers a row as the flat memory does. */
  ghost predicate SameAnswers(geo: Geometry, scheme: Scheme, policy: Policy, ops: seq<Storage.Op>, k: Key) {
    ArrivalOrder.Answers(Select(TranslateAll(geo, scheme, policy, ops), k)) == FlatAnswers(geo, scheme, policy, ops, k)
  }

  lemma AnswersOneMore(geo: Geometry, scheme: Scheme, policy: Policy, ops: seq<Storage.Op>, k: Key)
    requires ops != []
    ensures (LatestAgrees(geo, scheme, policy, ops[..|ops| - 1], ops[|ops| - 1])
             && SameAnswers(geo, scheme, policy, ops[..|ops| - 1], k)) ==> SameAnswers(geo, scheme, policy, ops, k)
  {
    var before, last := ops[..|ops| - 1], ops[|ops| - 1];
    var e := Translate(geo, scheme, policy, last);
    var cs := Select(TranslateAll(geo, scheme, policy, before), k);
    SelectLast(geo, scheme, policy, ops, k);
    TranslateKind(geo, scheme, policy, last, k);
    AnswersSnoc(cs, e);
    assert cs + [] == cs;
  }

  /** In every run of the memory system, whatever arrives when and however it is scheduled: the
      data returned for a row is what the flat memory answers, in arrival order. */
  lemma SystemIsFlatMemory(p: Timing, g: Controller.Shape, geo: Geometry, scheme: Scheme, chan: nat,
                           ins: seq<Controller.Input>, ops: seq<Storage.Op>, k: Key)
    requires p.Sane() && p.tCMD == 1 && k.rank < g.numRanks
    requires OnChannel(geo, scheme, chan, ops) && ArrivalOrder.Arrivals(ins) == TranslateAll(geo, scheme, g.policy, ops)
    ensures var o := Controller.FullRun(p, g, ins);
            o.Running? ==>
              && |o.state.sys.io.ranks| == g.numRanks
              && ArrivalOrder.RowReads(Done(o.state.sys.io.ranks[k.rank].returned), k)
                 <= FlatAnswers(geo, scheme, g.policy, ops, k)
  {
    ArrivalOrder.AnswersInArrivalOrder(p, g, ins, k);
    AnswersAreFlat(geo, scheme, g.policy, chan, ops, k);
  }

  /** Reads of one address become the same access. */
  lemma TranslatedFaithful(geo: Geometry, scheme: Scheme, policy: Policy, ops: seq<Storage.Op>)
    ensures PendingReads.Faithful(TranslateAll(geo, scheme, policy, ops))
  {
  }

  /** So every packet that comes back from a rank finds its pending transaction. */
  lemma NoReadIsLost(p: Timing, g: Controller.Shape, geo: Geometry, scheme: Scheme,
                     ins: seq<Controller.Input>, ops: seq<Storage.Op>)
    requires p.Sane() && p.tCMD == 1 && ArrivalOrder.Arrivals(ins) == TranslateAll(geo, scheme, g.policy, ops)
    ensures Controller.FullRun(p, g, ins).Running? ==> PendingReads.DeskRun(p, g, ins).Running?
  {
    TranslatedFaithful(geo, scheme, g.policy, ops);
    PendingReads.EveryReadIsMatched(p, g, ins);
  }
}
