/**
 The controller's desk for returning reads: transactions whose commands were queued wait in
 pendingReadTransactions; a packet that comes back from a rank is matched with the first
 pending transaction of its address, one per cycle, and the simulator aborts if there is none.
 There always is one.
 */
module PendingReads {
  import opened BankTiming
  import opened Protocol
  import opened DataPath
  import opened Coherence
  import opened CommandQueues
  import opened Controller
  import opened QueueOrder
  import opened ArrivalOrder

  // ---------- the packets that come back ----------

  /** The reads issued to rank i, in order. */
  function ReadsTo(issued: seq<Packet>, i: nat): seq<Packet> {
    if issued == [] then []
    else
      var e := issued[|issued| - 1];
      ReadsTo(issued[..|issued| - 1], i) + (if IsRead(e.command) && e.command.rank == i then [e] else [])
  }

  /** The packets that rank i has handed to the controller. */
  function Returned(f: Full, i: nat): seq<Packet> {
    var rs := ReadsTo(f.issued, i);
    if i < |f.sys.io.ranks| && |f.sys.io.ranks[i].returned| <= |rs| then rs[..|f.sys.io.ranks[i].returned|] else rs
  }

  /** ... since an earlier state, for the ranks below n, in the order of their updates. */
  function NewReturns(f: Full, f': Full, n: nat): seq<Packet> {
    Flat(seq(n, i requires 0 <= i < n => NewFrom(f, f', i)))
  }

  function Flat(lists: seq<seq<Packet>>): seq<Packet> {
    if lists == [] then [] else Flat(lists[..|lists| - 1]) + lists[|lists| - 1]
  }

  function NewFrom(f: Full, f': Full, i: nat): seq<Packet> {
    var a, b := Returned(f, i), Returned(f', i);
    if |a| <= |b| then b[|a|..] else []
  }

  // ---------- the desk ----------

  /** Both queues of the desk; a transaction stands for its column access. */
  datatype Desk = Desk(pending: seq<Packet>, returning: seq<Packet>)

  /** The read transaction that is split into commands in this cycle, if any. */
  function Scheduled(g: Shape, queues: Queues, waiting: seq<Packet>): seq<Packet> {
    var i := FirstWithRoom(g, queues, waiting);
    if i < |waiting| && IsRead(waiting[i].command) then [waiting[i]] else []
  }

  /** The first pending transaction with an address. */
  function Match(pending: seq<Packet>, address: int): (m: nat)
    ensures m <= |pending|
    ensures m < |pending| ==> pending[m].address == address
    ensures forall j :: 0 <= j < m ==> pending[j].address != address
  {
    if pending == [] || pending[0].address == address then 0 else 1 + Match(pending[1..], address)
  }

  /** At most one returned packet is matched per cycle. */
  function Handle(d: Desk): Outcome<Desk> {
    if d.returning == [] then Running(d)
    else
      var m := Match(d.pending, d.returning[0].address);
      if m == |d.pending| then Crashed(NoMatchingTransaction)
      else Running(Desk(RemoveAt(d.pending, m), d.returning[1..]))
  }

  /** The desk with this cycle's transaction and packets. */
  function Received(g: Shape, f: Full, f': Full, input: Input, d: Desk): Desk {
    Desk(d.pending + Scheduled(g, After(g.policy, f.queues, input.choice), f.waiting + input.arrivals),
         d.returning + NewReturns(f, f', g.numRanks))
  }

  ghost function DeskRun(p: Timing, g: Shape, ins: seq<Input>): Outcome<Desk>
    requires p.Sane()
  {
    if ins == [] then Running(Desk([], []))
    else
      var before := ins[..|ins| - 1];
      var d :- DeskRun(p, g, before);
      var f, f' := FullRun(p, g, before), FullRun(p, g, ins);
      if f.Running? && f'.Running? then Handle(Received(g, f.state, f'.state, ins[|ins| - 1], d)) else NotAllowed
  }

  // ---------- counting ----------

  function Count(s: seq<Packet>, e: Packet): nat {
    multiset(s)[e]
  }

  lemma CountConcat(a: seq<Packet>, b: seq<Packet>, e: Packet)
    ensures Count(a + b, e) == Count(a, e) + Count(b, e)
  {
  }

  lemma CountRemove(s: seq<Packet>, i: nat, e: Packet)
    requires i < |s|
    ensures Count(s, e) == Count(RemoveAt(s, i), e) + (if s[i] == e then 1 else 0)
  {
    assert s == s[..i] + [s[i]] + s[i + 1..];
  }

  lemma CountMember(s: seq<Packet>, e: Packet)
    ensures Count(s, e) > 0 <==> e in s
  {
  }

  lemma {:induction false} CountSelect(s: seq<Packet>, e: Packet)
    requires IsColumn(e)
    ensures Count(Select(s, KeyOf(e.command)), e) == Count(s, e)
  {
    if s != [] {
      CountSelect(s[1..], e);
      assert s == [s[0]] + s[1..];
      var head := if Hits(s[0], KeyOf(e.command)) then [s[0]] else [];
      CountConcat(head, Select(s[1..], KeyOf(e.command)), e);
    }
  }

  lemma {:induction false} CountReadsTo(issued: seq<Packet>, i: nat, e: Packet)
    ensures Count(ReadsTo(issued, i), e) == if IsRead(e.command) && e.command.rank == i then Count(issued, e) else 0
  {
    if issued != [] {
      CountReadsTo(issued[..|issued| - 1], i, e);
      assert issued == issued[..|issued| - 1] + [issued[|issued| - 1]];
    }
  }

  lemma CountReturned(f: Full, i: nat, e: Packet)
    ensures Count(Returned(f, i), e) <= if IsRead(e.command) && e.command.rank == i then Count(f.issued, e) else 0
  {
    CountReadsTo(f.issued, i, e);
    var rs := ReadsTo(f.issued, i);
    assert rs == Returned(f, i) + rs[|Returned(f, i)|..];
  }

  /** Every access that arrived and is not waiting was scheduled; more than enough for those issued. */
  lemma IssuedCount(g: Shape, f: Full, e: Packet)
    requires IsColumn(e) && BalancedFull(g, f, KeyOf(e.command))
    ensures Count(f.issued, e) + Count(f.waiting, e) <= Count(f.arrived, e)
  {
    CountSelect(f.arrived, e);
    CountSelect(f.issued, e);
    CountSelect(f.waiting, e);
  }

  // ---------- what comes back was issued ----------

  /** The reads sent to a rank and the read packets issued to it are the same commands. */
  ghost predicate SameReads(ts: seq<Ticket>, es: seq<Packet>) {
    |ts| == |es| && forall k :: 0 <= k < |ts| ==> ts[k].command == es[k].command
  }

  lemma {:induction false} IssuedReadsMatch(p: Timing, g: Shape, ins: seq<Input>, i: nat)
    requires p.Sane()
    ensures var o := FullRun(p, g, ins);
            o.Running? ==> SameReads(ReadsOf(Decisions(p, g, ins), i), ReadsTo(o.state.issued, i))
  {
    if ins != [] {
      var before, input := ins[..|ins| - 1], ins[|ins| - 1];
      IssuedReadsMatch(p, g, before, i);
      if FullRun(p, g, ins).Running? {
        MatchStep(FullRun(p, g, before).state, g, input, Decisions(p, g, before), i);
      }
    }
  }

  lemma MatchStep(f: Full, g: Shape, input: Input, ds: seq<Decision>, i: nat)
    requires Legal(g, f.queues, input.choice) && SameReads(ReadsOf(ds, i), ReadsTo(f.issued, i))
    ensures var d := Decision(PopOf(f.queues, input.choice), input.power);
            SameReads(ReadsOf(ds + [d], i), ReadsTo(f.issued + Chosen(f.queues, input.choice), i))
  {
    var all, chosen := ds + [Decision(PopOf(f.queues, input.choice), input.power)], Chosen(f.queues, input.choice);
    assert all[..|ds|] == ds;
    if input.choice.Take? {
      assert (f.issued + chosen)[..|f.issued|] == f.issued;
    } else {
      assert f.issued + chosen == f.issued;
    }
  }

  /** A rank has handed over no more packets than were issued to it. */
  lemma ReturnedBound(p: Timing, g: Shape, ins: seq<Input>, i: nat)
    requires p.Sane() && p.tCMD == 1 && i < g.numRanks
    ensures var o := FullRun(p, g, ins);
            o.Running? ==> |o.state.sys.io.ranks| == g.numRanks
                           && |o.state.sys.io.ranks[i].returned| <= |ReadsTo(o.state.issued, i)|
  {
    ReadsReturnLatestWrite(p, g, ins, i);
    IssuedReadsMatch(p, g, ins, i);
  }

  lemma ReturnsGrow(p: Timing, policy: Policy, s: System, d: Decision)
    requires p.Sane() && SystemCycle(p, policy, s, d).Running?
    ensures var s' := SystemCycle(p, policy, s, d).state;
            && |s'.io.ranks| == |s.io.ranks|
            && forall i :: 0 <= i < |s.io.ranks| ==> |s.io.ranks[i].returned| <= |s'.io.ranks[i].returned|
  {
    var t := s.ch.clock;
    var io2 := Arrival(p, t, UpdateRanks(p, t, s.io), s.ch.bus);
    RanksUntouched(p, io2, WriteSend(p, DataDeliver(io2)).state);
  }

  /** What a rank has handed over only grows. */
  ghost predicate Grows(f: Full, f': Full, i: nat) {
    Returned(f, i) <= Returned(f', i)
  }

  lemma {:induction false} ReadsToPrefix(a: seq<Packet>, b: seq<Packet>, i: nat)
    ensures ReadsTo(a, i) <= ReadsTo(a + b, i)
  {
    if b == [] {
      assert a + b == a;
    } else {
      ReadsToPrefix(a, b[..|b| - 1], i);
      assert (a + b)[..|a + b| - 1] == a + b[..|b| - 1];
    }
  }

  lemma GrowsFrom(f: Full, f': Full, i: nat)
    requires i < |f.sys.io.ranks| && i < |f'.sys.io.ranks|
    requires |f.sys.io.ranks[i].returned| <= |ReadsTo(f.issued, i)| && |f'.sys.io.ranks[i].returned| <= |ReadsTo(f'.issued, i)|
    requires |f.sys.io.ranks[i].returned| <= |f'.sys.io.ranks[i].returned| && ReadsTo(f.issued, i) <= ReadsTo(f'.issued, i)
    ensures Grows(f, f', i)
  {
  }

  lemma ReturnedGrows(p: Timing, g: Shape, ins: seq<Input>, i: nat)
    requires p.Sane() && p.tCMD == 1 && i < g.numRanks && ins != []
    ensures var o := FullRun(p, g, ins);
            o.Running? ==> Grows(FullRun(p, g, ins[..|ins| - 1]).state, o.state, i)
  {
    var before, input := ins[..|ins| - 1], ins[|ins| - 1];
    if FullRun(p, g, ins).Running? {
      var f := FullRun(p, g, before).state;
      ReturnedBound(p, g, before, i);
      ReturnedBound(p, g, ins, i);
      ReturnsGrow(p, g.policy, f.sys, Decision(PopOf(f.queues, input.choice), input.power));
      ReadsToPrefix(f.issued, Chosen(f.queues, input.choice), i);
      GrowsFrom(f, FullRun(p, g, ins).state, i);
    }
  }

  /** A rank hands over only its own reads. */
  lemma OwnReads(f: Full, f': Full, i: nat, e: Packet)
    ensures !(IsRead(e.command) && e.command.rank == i) ==> Count(NewFrom(f, f', i), e) == 0
  {
    var a, b := Returned(f, i), Returned(f', i);
    CountReturned(f', i, e);
    if |a| <= |b| {
      assert b == b[..|a|] + b[|a|..];
      CountConcat(b[..|a|], b[|a|..], e);
    }
  }

  lemma {:induction false} CountFlat(lists: seq<seq<Packet>>, r: nat, e: Packet)
    requires forall i :: 0 <= i < |lists| && i != r ==> Count(lists[i], e) == 0
    ensures Count(Flat(lists), e) == if r < |lists| then Count(lists[r], e) else 0
  {
    if lists != [] {
      var init, last := lists[..|lists| - 1], lists[|lists| - 1];
      CountFlat(init, r, e);
      CountConcat(Flat(init), last, e);
    }
  }

  lemma CountNewReturns(f: Full, f': Full, n: nat, e: Packet)
    ensures Count(NewReturns(f, f', n), e)
         == if IsRead(e.command) && e.command.rank < n then Count(NewFrom(f, f', e.command.rank), e) else 0
  {
    var lists := seq(n, i requires 0 <= i < n => NewFrom(f, f', i));
    var r := if IsRead(e.command) then e.command.rank else n;
    forall i | 0 <= i < n && i != r ensures Count(lists[i], e) == 0 {
      OwnReads(f, f', i, e);
    }
    CountFlat(lists, r, e);
  }

  lemma CountNewFrom(f: Full, f': Full, i: nat, e: Packet)
    requires Grows(f, f', i)
    ensures Count(NewFrom(f, f', i), e) == Count(Returned(f', i), e) - Count(Returned(f, i), e)
  {
    var a, b := Returned(f, i), Returned(f', i);
    assert b == a + b[|a|..];
    CountConcat(a, b[|a|..], e);
  }

  // ---------- the invariant ----------

  /** Pending and handed over, or still waiting to be scheduled: all that arrived, and what is
      being returned twice. */
  ghost predicate Even(g: Shape, f: Full, d: Desk, e: Packet) {
    IsRead(e.command) && e.command.rank < g.numRanks ==>
      Count(d.pending, e) + Count(Returned(f, e.command.rank), e) + Count(f.waiting, e)
      == Count(f.arrived, e) + Count(d.returning, e)
  }

  /** Only reads that arrived are on the desk. */
  ghost predicate Known(g: Shape, f: Full, s: seq<Packet>) {
    forall e :: e in s ==> IsRead(e.command) && e.command.rank < g.numRanks && e in f.arrived
  }

  ghost predicate DeskOk(g: Shape, f: Full, d: Desk) {
    (forall e :: Even(g, f, d, e)) && Known(g, f, d.pending) && Known(g, f, d.returning)
  }

  /** Reads of one address are the same access, as every address mapping has it. */
  ghost predicate Faithful(arrived: seq<Packet>) {
    forall e, e' :: e in arrived && e' in arrived && IsRead(e.command) && IsRead(e'.command) && e.address == e'.address
                    ==> e == e'
  }

  lemma ScheduleCounts(g: Shape, queues: Queues, waiting: seq<Packet>, e: Packet)
    requires Schedule(g, queues, waiting).Running? && IsRead(e.command)
    ensures Count(Scheduled(g, queues, waiting), e) + Count(Schedule(g, queues, waiting).state.1, e) == Count(waiting, e)
  {
    var i := FirstWithRoom(g, queues, waiting);
    if i < |waiting| {
      CountRemove(waiting, i, e);
    }
  }

  lemma ReceivedEven(p: Timing, g: Shape, f: Full, f': Full, input: Input, d: Desk, e: Packet)
    requires p.Sane() && FullCycle(p, g, f, input) == Running(f') && Even(g, f, d, e)
    requires forall i :: 0 <= i < g.numRanks ==> Grows(f, f', i)
    ensures Even(g, f', Received(g, f, f', input, d), e)
  {
    if IsRead(e.command) {
      var queues, w := After(g.policy, f.queues, input.choice), f.waiting + input.arrivals;
      ScheduleCounts(g, queues, w, e);
      CountConcat(f.waiting, input.arrivals, e);
      CountConcat(f.arrived, input.arrivals, e);
      CountConcat(d.pending, Scheduled(g, queues, w), e);
      CountConcat(d.returning, NewReturns(f, f', g.numRanks), e);
      CountNewReturns(f, f', g.numRanks, e);
      if e.command.rank < g.numRanks {
        CountNewFrom(f, f', e.command.rank, e);
      }
    }
  }

  lemma ScheduledKnown(p: Timing, g: Shape, f: Full, f': Full, input: Input)
    requires p.Sane() && FullCycle(p, g, f, input) == Running(f') && AllValid(g, f.waiting)
    requires forall k :: BalancedFull(g, f, k)
    ensures Known(g, f', Scheduled(g, After(g.policy, f.queues, input.choice), f.waiting + input.arrivals))
  {
    var w := f.waiting + input.arrivals;
    var i := FirstWithRoom(g, After(g.policy, f.queues, input.choice), w);
    if i < |w| && IsRead(w[i].command) {
      var e := w[i];
      if i < |f.waiting| {
        assert e in f.waiting;
        IssuedCount(g, f, e);
        assert e in f.arrived;
      } else {
        assert e in input.arrivals;
      }
    }
  }

  lemma ReturnsKnown(g: Shape, f: Full, f': Full, n: nat, e: Packet)
    requires n <= g.numRanks && (forall i :: 0 <= i < n ==> Grows(f, f', i)) && (forall k :: BalancedFull(g, f', k))
    requires e in NewReturns(f, f', n)
    ensures IsRead(e.command) && e.command.rank < g.numRanks && e in f'.arrived
  {
    CountNewReturns(f, f', n, e);
    assert Count(NewReturns(f, f', n), e) > 0;
    CountNewFrom(f, f', e.command.rank, e);
    CountReturned(f', e.command.rank, e);
    IssuedCount(g, f', e);
  }

  lemma ReceivedOk(p: Timing, g: Shape, f: Full, f': Full, input: Input, d: Desk)
    requires p.Sane() && FullInv(p, g, f) && FullInv(p, g, f') && FullCycle(p, g, f, input) == Running(f') && DeskOk(g, f, d)
    requires forall i :: 0 <= i < g.numRanks ==> Grows(f, f', i)
    ensures DeskOk(g, f', Received(g, f, f', input, d))
  {
    forall e ensures Even(g, f', Received(g, f, f', input, d), e) {
      ReceivedEven(p, g, f, f', input, d, e);
    }
    ScheduledKnown(p, g, f, f', input);
    forall e | e in NewReturns(f, f', g.numRanks) ensures IsRead(e.command) && e.command.rank < g.numRanks && e in f'.arrived {
      ReturnsKnown(g, f, f', g.numRanks, e);
    }
  }

  /** Whatever is returned has a pending transaction. */
  lemma FrontIsPending(g: Shape, f: Full, d: Desk)
    requires DeskOk(g, f, d) && d.returning != [] && forall k :: BalancedFull(g, f, k)
    ensures d.returning[0] in d.pending
  {
    var e := d.returning[0];
    assert e in d.returning && Even(g, f, d, e);
    CountReturned(f, e.command.rank, e);
    IssuedCount(g, f, e);
    CountMember(d.returning, e);
    CountMember(d.pending, e);
  }

  /** It is matched, and the desk stays in order. */
  lemma HandleOk(g: Shape, f: Full, d: Desk)
    requires DeskOk(g, f, d) && Faithful(f.arrived) && forall k :: BalancedFull(g, f, k)
    ensures Handle(d).Running? && DeskOk(g, f, Handle(d).state)
    ensures d.returning != [] ==> d.pending[Match(d.pending, d.returning[0].address)] == d.returning[0]
  {
    if d.returning != [] {
      var e := d.returning[0];
      FrontIsPending(g, f, d);
      var m := Match(d.pending, e.address);
      assert m < |d.pending| by {
        var j :| 0 <= j < |d.pending| && d.pending[j] == e;
      }
      assert d.pending[m] in d.pending && e in d.returning;
      var d' := Handle(d).state;
      forall x ensures Even(g, f, d', x) {
        assert Even(g, f, d, x);
        CountRemove(d.pending, m, x);
        CountRemove(d.returning, 0, x);
        assert RemoveAt(d.returning, 0) == d.returning[1..];
      }
    }
  }

  lemma FaithfulPart(ins: seq<Input>)
    requires ins != [] && Faithful(Arrivals(ins))
    ensures Faithful(Arrivals(ins[..|ins| - 1]))
  {
  }

  /** The desk of a run that goes through is in order. */
  ghost predicate Matched(p: Timing, g: Shape, ins: seq<Input>)
    requires p.Sane()
  {
    var o := FullRun(p, g, ins);
    o.Running? ==> DeskRun(p, g, ins).Running? && DeskOk(g, o.state, DeskRun(p, g, ins).state)
  }

  /** In every run, each packet that comes back from a rank is matched with a pending read of the
      same access: the simulator never aborts for want of one. */
  lemma {:induction false} EveryReadIsMatched(p: Timing, g: Shape, ins: seq<Input>)
    requires p.Sane() && p.tCMD == 1 && Faithful(Arrivals(ins))
    ensures Matched(p, g, ins)
  {
    if ins == [] {
      assert DeskOk(g, FullStart(g), Desk([], []));
    } else {
      FaithfulPart(ins);
      EveryReadIsMatched(p, g, ins[..|ins| - 1]);
      MatchedStep(p, g, ins);
    }
  }

  lemma MatchedStep(p: Timing, g: Shape, ins: seq<Input>)
    requires p.Sane() && p.tCMD == 1 && ins != [] && Faithful(Arrivals(ins))
    ensures Matched(p, g, ins[..|ins| - 1]) ==> Matched(p, g, ins)
  {
    var before, input := ins[..|ins| - 1], ins[|ins| - 1];
    if Matched(p, g, before) && FullRun(p, g, ins).Running? {
      var f, f', d := FullRun(p, g, before).state, FullRun(p, g, ins).state, DeskRun(p, g, before).state;
      RunKeepsFull(p, g, before);
      RunKeepsFull(p, g, ins);
      ArrivedIs(p, g, ins);
      forall i | 0 <= i < g.numRanks ensures Grows(f, f', i) {
        ReturnedGrows(p, g, ins, i);
      }
      ReceivedOk(p, g, f, f', input, d);
      HandleOk(g, f', Received(g, f, f', input, d));
    }
  }
}
