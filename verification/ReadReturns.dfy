/**
 The read-return path of one rank: as long as the reads of a rank are issued at least one
 burst apart, none is lost, none overtakes another, and each reaches the controller a fixed
 time after it was issued.
 */
module ReadReturns {
  import opened BankTiming
  import opened DataPath

  function Tickets(slots: seq<Slot>): (ts: seq<Ticket>)
    ensures |ts| == |slots|
    ensures forall k :: 0 <= k < |slots| ==> ts[k] == slots[k].ticket
  {
    seq(|slots|, k requires 0 <= k < |slots| => slots[k].ticket)
  }

  function OnLine(line: Line): seq<Ticket> {
    if line.Empty? then [] else [line.slot.ticket]
  }

  /** The reads a rank has fetched and not yet handed over, oldest first. */
  function InFlight(io: RankIo): seq<Ticket> {
    OnLine(io.line) + Tickets(io.waiting)
  }

  function Done(returned: seq<(Ticket, int)>): (ts: seq<Ticket>)
    ensures |ts| == |returned|
    ensures forall k :: 0 <= k < |returned| ==> ts[k] == returned[k].0
  {
    seq(|returned|, k requires 0 <= k < |returned| => returned[k].0)
  }

  ghost predicate Apart(ts: seq<Ticket>, gap: nat) {
    forall k, l :: 0 <= k < l < |ts| ==> ts[k].issuedAt + gap <= ts[l].issuedAt
  }

  /** The cycle at which a read starts on its line. */
  function StartsAt(p: Timing, ticket: Ticket): int {
    ticket.issuedAt + 1 + p.RL()
  }

  ghost predicate WaitingOnTime(p: Timing, t: int, waiting: seq<Slot>) {
    forall k :: 0 <= k < |waiting| ==>
      waiting[k].left == StartsAt(p, waiting[k].ticket) - t && waiting[k].left >= 1
  }

  ghost predicate LineOnTime(p: Timing, t: int, line: Line) {
    line.Carrying? ==> line.slot.left == StartsAt(p, line.slot.ticket) + p.Burst() - t && line.slot.left >= 1
  }

  ghost predicate ReturnedOnTime(p: Timing, returned: seq<(Ticket, int)>) {
    forall k :: 0 <= k < |returned| ==> returned[k].1 == StartsAt(p, returned[k].0) + p.Burst()
  }

  /** After cycle t every counter shows the time left until its packet moves on, and every
      packet already returned took exactly the read latency and one burst. */
  ghost predicate OnTime(p: Timing, t: int, io: RankIo) {
    WaitingOnTime(p, t, io.waiting) && LineOnTime(p, t, io.line) && ReturnedOnTime(p, io.returned)
  }

  /** When a read finishes waiting, the line is free. */
  lemma LineIsFree(p: Timing, t: int, io: RankIo)
    requires p.Sane() && OnTime(p, t, io) && Apart(InFlight(io), p.Burst())
    requires io.waiting != [] && io.waiting[0].left == 1
    ensures LineStep(t + 1, io.line, io.returned).0 == Empty
  {
    if io.line.Carrying? {
      var ts := InFlight(io);
      assert ts[0] == io.line.slot.ticket && ts[1] == io.waiting[0].ticket;
    }
  }

  lemma LineStepOnTime(p: Timing, t: int, line: Line, returned: seq<(Ticket, int)>)
    requires p.Sane() && LineOnTime(p, t, line) && ReturnedOnTime(p, returned)
    ensures var (line', returned') := LineStep(t + 1, line, returned);
            && LineOnTime(p, t + 1, line') && ReturnedOnTime(p, returned')
            && Done(returned') + OnLine(line') == Done(returned) + OnLine(line)
  {
  }

  /** Only the head can finish waiting in a cycle. */
  lemma AgedOnTime(p: Timing, t: int, waiting: seq<Slot>)
    requires p.Sane() && WaitingOnTime(p, t, waiting)
    requires forall k, l :: 0 <= k < l < |waiting| ==>
               waiting[k].ticket.issuedAt + p.Burst() <= waiting[l].ticket.issuedAt
    ensures var aged := Age(waiting);
            var rest := if aged != [] && aged[0].left == 0 then aged[1..] else aged;
            WaitingOnTime(p, t + 1, rest)
  {
  }

  /** One rank update loses nothing and keeps the order ... */
  lemma RankUpdateKeeps(p: Timing, t: int, io: RankIo)
    requires p.Sane() && OnTime(p, t, io) && Apart(InFlight(io), p.Burst())
    ensures var io' := RankUpdate(p, t + 1, io);
            Done(io'.returned) + InFlight(io') == Done(io.returned) + InFlight(io)
  {
    var (line, returned) := LineStep(t + 1, io.line, io.returned);
    var aged := Age(io.waiting);
    LineStepOnTime(p, t, io.line, io.returned);
    assert Tickets(aged) == Tickets(io.waiting);
    Reassociate(Done(returned), OnLine(line), Done(io.returned), OnLine(io.line), Tickets(io.waiting));
    if aged != [] && aged[0].left == 0 {
      LineIsFree(p, t, io);
      assert Tickets(aged) == [aged[0].ticket] + Tickets(aged[1..]);
    }
  }

  lemma Reassociate(a: seq<Ticket>, b: seq<Ticket>, a': seq<Ticket>, b': seq<Ticket>, c: seq<Ticket>)
    requires a + b == a' + b'
    ensures a + (b + c) == a' + (b' + c)
    ensures b == [] ==> a + c == a' + (b' + c)
  {
    assert a + (b + c) == (a + b) + c;
    assert a' + (b' + c) == (a' + b') + c;
    assert b == [] ==> a + b == a;
  }

  /** ... and keeps every packet on time. */
  lemma RankUpdateOnTime(p: Timing, t: int, io: RankIo)
    requires p.Sane() && OnTime(p, t, io) && Apart(InFlight(io), p.Burst())
    ensures OnTime(p, t + 1, RankUpdate(p, t + 1, io))
  {
    LineStepOnTime(p, t, io.line, io.returned);
    WaitingApart(io, p.Burst());
    AgedOnTime(p, t, io.waiting);
  }

  lemma WaitingApart(io: RankIo, gap: nat)
    requires Apart(InFlight(io), gap)
    ensures forall k, l :: 0 <= k < l < |io.waiting| ==>
              io.waiting[k].ticket.issuedAt + gap <= io.waiting[l].ticket.issuedAt
  {
    var ts := InFlight(io);
    var o := |OnLine(io.line)|;
    forall k, l | 0 <= k < l < |io.waiting|
      ensures io.waiting[k].ticket.issuedAt + gap <= io.waiting[l].ticket.issuedAt
    {
      assert ts[o + k] == io.waiting[k].ticket && ts[o + l] == io.waiting[l].ticket;
    }
  }
}
