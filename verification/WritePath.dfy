/**
 The write path of a channel: the data of every issued write reaches its bank in issue
 order, a fixed time after the command, and two writes issued a burst apart never meet on
 the data bus.
 */
module WritePath {
  import opened Packets
  import opened BankTiming
  import opened DataPath

  /** A write command and the cycle of its issue. */
  datatype Sent = Sent(command: Command, at: int)

  function SentOf(writes: seq<Pending>): (ss: seq<Sent>)
    ensures |ss| == |writes|
    ensures forall k :: 0 <= k < |writes| ==> ss[k] == Sent(writes[k].command, writes[k].issuedAt)
  {
    seq(|writes|, k requires 0 <= k < |writes| => Sent(writes[k].command, writes[k].issuedAt))
  }

  function OnDataBus(bus: DataBus): seq<Sent> {
    if bus.Quiet? then [] else [Sent(bus.write.command, bus.write.issuedAt)]
  }

  /** The writes whose data has not reached a bank, oldest first. */
  function Outstanding(io: Data): seq<Sent> {
    OnDataBus(io.bus) + SentOf(io.writes)
  }

  ghost predicate Spaced(ss: seq<Sent>, gap: nat) {
    forall k, l :: 0 <= k < l < |ss| ==> ss[k].at + gap <= ss[l].at
  }

  /** The memory once the outstanding writes have arrived, in order. */
  function Drain(mem: Memory, ss: seq<Sent>): Memory
    decreases |ss|
  {
    if ss == [] then mem
    else Drain(mem[CellOf(ss[0].command) := ss[0].command.data], ss[1..])
  }

  lemma {:induction false} DrainSnoc(mem: Memory, ss: seq<Sent>, w: Sent)
    ensures Drain(mem, ss + [w]) == Drain(mem, ss)[CellOf(w.command) := w.command.data]
    decreases |ss|
  {
    if ss == [] {
      assert ss + [w] == [w];
    } else {
      assert (ss + [w])[1..] == ss[1..] + [w];
      DrainSnoc(mem[CellOf(ss[0].command) := ss[0].command.data], ss[1..], w);
    }
  }

  /** Outstanding writes of other ranks do not change what a cell will hold. */
  lemma {:induction false} DrainElsewhere(mem: Memory, ss: seq<Sent>, cell: Cell)
    requires forall k :: 0 <= k < |ss| ==> ss[k].command.rank != cell.rank
    ensures Fetch(Drain(mem, ss), cell) == Fetch(mem, cell)
    decreases |ss|
  {
    if ss == [] {
    } else {
      assert ss[0].command.rank != cell.rank;
      forall k | 0 <= k < |ss[1..]| ensures ss[1..][k].command.rank != cell.rank {
        assert ss[1..][k] == ss[k + 1];
      }
      DrainElsewhere(mem[CellOf(ss[0].command) := ss[0].command.data], ss[1..], cell);
    }
  }

  // ---------- counters ----------

  ghost predicate QueueOnTime(p: Timing, t: int, writes: seq<Pending>) {
    forall k :: 0 <= k < |writes| ==> writes[k].left == writes[k].issuedAt + p.WL() - t && writes[k].left >= 1
  }

  ghost predicate BusOnTime(p: Timing, t: int, bus: DataBus) {
    bus.Transfer? ==> bus.write.left == bus.write.issuedAt + p.WL() + p.Burst() - t && bus.write.left >= 1
  }

  ghost predicate WritesOnTime(p: Timing, t: int, io: Data) {
    QueueOnTime(p, t, io.writes) && BusOnTime(p, t, io.bus)
  }

  lemma DeliverOnTime(p: Timing, t: int, io: Data)
    requires p.Sane() && BusOnTime(p, t, io.bus)
    ensures var io' := DataDeliver(io);
            && BusOnTime(p, t + 1, io'.bus) && io'.writes == io.writes && io'.ranks == io.ranks
            && (Outstanding(io') == Outstanding(io)
                || (io.bus.Transfer? && Outstanding(io') == Outstanding(io)[1..]
                    && Outstanding(io)[0].at + p.WL() + p.Burst() == t + 1))
            && Drain(io'.mem, Outstanding(io')) == Drain(io.mem, Outstanding(io))
  {
  }

  lemma AgedWrites(p: Timing, t: int, writes: seq<Pending>)
    requires p.Sane() && QueueOnTime(p, t, writes) && Spaced(SentOf(writes), 1)
    ensures var aged := AgeWrites(writes);
            && SentOf(aged) == SentOf(writes)
            && (aged != [] && aged[0].left == 0 ==> QueueOnTime(p, t + 1, aged[1..]))
            && (!(aged != [] && aged[0].left == 0) ==> QueueOnTime(p, t + 1, aged))
  {
  }

  lemma SendOnTime(p: Timing, t: int, io: Data)
    requires p.Sane() && QueueOnTime(p, t, io.writes) && BusOnTime(p, t + 1, io.bus)
    requires Spaced(SentOf(io.writes), 1)
    ensures var o := WriteSend(p, io);
            o.Running? ==>
              && WritesOnTime(p, t + 1, o.state) && o.state.mem == io.mem && o.state.ranks == io.ranks
              && Outstanding(o.state) == Outstanding(io)
  {
    AgedWrites(p, t, io.writes);
    var aged := AgeWrites(io.writes);
    if aged != [] && aged[0].left == 0 && io.bus.Quiet? {
      assert SentOf(aged) == [Sent(aged[0].command, aged[0].issuedAt)] + SentOf(aged[1..]);
      assert [] + SentOf(io.writes) == SentOf(io.writes);
    }
  }

  lemma SpacedParts(io: Data, gap: nat)
    requires Spaced(Outstanding(io), gap)
    ensures Spaced(SentOf(io.writes), gap)
    ensures io.bus.Transfer? ==> forall k :: 0 <= k < |io.writes| ==>
              io.bus.write.issuedAt + gap <= io.writes[k].issuedAt
  {
    var ss, o, ws := Outstanding(io), |OnDataBus(io.bus)|, SentOf(io.writes);
    forall k, l | 0 <= k < l < |ws| ensures ws[k].at + gap <= ws[l].at {
      assert ss[o + k] == ws[k] && ss[o + l] == ws[l];
    }
    if io.bus.Transfer? {
      forall k | 0 <= k < |io.writes| ensures io.bus.write.issuedAt + gap <= io.writes[k].issuedAt {
        assert ss[0].at == io.bus.write.issuedAt && ss[1 + k] == ws[k];
      }
    }
  }

  /** One cycle of the write path keeps the counters on time, delivers at most the oldest
      write, and does not change what the memory will hold. */
  lemma WriteCycle(p: Timing, t: int, io: Data)
    requires p.Sane() && WritesOnTime(p, t, io) && Spaced(Outstanding(io), 1)
    requires WriteSend(p, DataDeliver(io)).Running?
    ensures var io' := WriteSend(p, DataDeliver(io)).state;
            && WritesOnTime(p, t + 1, io') && io'.ranks == io.ranks
            && (Outstanding(io') == Outstanding(io)
                || (Outstanding(io) != [] && Outstanding(io') == Outstanding(io)[1..]
                    && Outstanding(io)[0].at + p.WL() + p.Burst() == t + 1))
            && Drain(io'.mem, Outstanding(io')) == Drain(io.mem, Outstanding(io))
  {
    SpacedParts(io, 1);
    DeliverOnTime(p, t, io);
    SendOnTime(p, t, DataDeliver(io));
  }

  /** After the counters moved, an outstanding write is still before its arrival time. */
  lemma NotYetArrived(p: Timing, t: int, io: Data, k: nat)
    requires p.Sane() && WritesOnTime(p, t, io) && k < |Outstanding(io)|
    ensures Outstanding(io)[k].at + p.WL() + p.Burst() > t
  {
  }
}
