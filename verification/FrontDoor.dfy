/**
 The two ways into the memory controller (MemorySystem::addTransaction and update): a
 transaction goes straight into the transaction queue if there is room, and otherwise waits
 outside until an update lets it in.  The way straight in does not look at those that wait, so
 a later transaction may overtake them.
 */
module FrontDoor {
  // ---------- the memory system's part ----------

  /** The transaction queue, and the transactions that wait outside. */
  class Entrance<T> {
    const depth: nat
    var queue: seq<T>
    var pending: seq<T>

    constructor (depth: nat)
      ensures this.depth == depth && queue == [] && pending == []
    {
      this.depth, queue, pending := depth, [], [];
    }

    method WillAcceptTransaction() returns (will: bool)
      ensures will <==> |queue| < depth
    {
      will := |queue| < depth;
    }

    method AddTransaction(t: T)
      modifies this
      ensures (queue, pending) == Added(depth, old(queue), old(pending), t)
    {
      var will := WillAcceptTransaction();
      if will {
        queue := queue + [t];
      } else {
        pending := pending + [t];
      }
    }

    /** The first of those that wait outside comes in; then the controller takes transaction i, if
        there is one. */
    method Update(i: nat)
      modifies this
      ensures (queue, pending) == Updated(depth, old(queue), old(pending), i)
    {
      var will := WillAcceptTransaction();
      if pending != [] && will {
        queue, pending := queue + [pending[0]], pending[1..];
      }
      if i < |queue| {
        queue := RemoveAny(queue, i);
      }
    }
  }

  function RemoveAny<T>(q: seq<T>, i: nat): seq<T>
    requires i < |q|
  {
    q[..i] + q[i + 1..]
  }

  function Added<T>(depth: nat, queue: seq<T>, pending: seq<T>, t: T): (seq<T>, seq<T>) {
    if |queue| < depth then (queue + [t], pending) else (queue, pending + [t])
  }

  function LetIn<T>(depth: nat, queue: seq<T>, pending: seq<T>): (seq<T>, seq<T>) {
    if pending != [] && |queue| < depth then (queue + [pending[0]], pending[1..]) else (queue, pending)
  }

  function Updated<T>(depth: nat, queue: seq<T>, pending: seq<T>, i: nat): (seq<T>, seq<T>) {
    var (q, rest) := LetIn(depth, queue, pending);
    (if i < |q| then RemoveAny(q, i) else q, rest)
  }

  // ---------- runs ----------

  /** A call of addTransaction, or an update in which the controller takes transaction i. */
  datatype Event = Call | Cycle(i: nat)

  /** Transactions are named by their calls, 0, 1, 2, ...; accepted is the order in which they
      entered the transaction queue. */
  datatype State = State(queue: seq<nat>, pending: seq<nat>, accepted: seq<nat>, calls: nat)

  function Step(depth: nat, s: State, e: Event): State {
    match e
    case Call =>
      var (queue, pending) := Added(depth, s.queue, s.pending, s.calls);
      State(queue, pending, if |s.queue| < depth then s.accepted + [s.calls] else s.accepted, s.calls + 1)
    case Cycle(i) =>
      var (queue, pending) := Updated(depth, s.queue, s.pending, i);
      State(queue, pending, if s.pending != [] && |s.queue| < depth then s.accepted + [s.pending[0]] else s.accepted, s.calls)
  }

  function Run(depth: nat, events: seq<Event>): State {
    if events == [] then State([], [], [], 0)
    else Step(depth, Run(depth, events[..|events| - 1]), events[|events| - 1])
  }

  /** The first n calls. */
  function Calls(n: nat): seq<nat> {
    seq(n, i => i)
  }

  /** Every transaction has been accepted or waits outside, once. */
  ghost predicate Complete(accepted: seq<nat>, pending: seq<nat>, calls: nat) {
    multiset(accepted) + multiset(pending) == multiset(Calls(calls)) && |accepted| + |pending| == calls
  }

  /** Those outside stand in the order of their calls. */
  ghost predicate Rising(pending: seq<nat>, calls: nat) {
    && (forall i, j :: 0 <= i < j < |pending| ==> pending[i] < pending[j])
    && (forall i :: 0 <= i < |pending| ==> pending[i] < calls)
  }

  ghost predicate Kept(depth: nat, s: State) {
    Complete(s.accepted, s.pending, s.calls) && Rising(s.pending, s.calls) && |s.queue| <= depth
  }

  lemma CallsMore(n: nat)
    ensures Calls(n + 1) == Calls(n) + [n]
  {
  }

  lemma RisesOn(pending: seq<nat>, calls: nat)
    requires Rising(pending, calls)
    ensures Rising(pending, calls + 1) && Rising(pending + [calls], calls + 1)
    ensures pending != [] ==> Rising(pending[1..], calls)
  {
  }

  lemma CompleteCall(accepted: seq<nat>, pending: seq<nat>, n: nat)
    requires Complete(accepted, pending, n)
    ensures Complete(accepted + [n], pending, n + 1) && Complete(accepted, pending + [n], n + 1)
  {
    CallsMore(n);
  }

  lemma CompleteIn(accepted: seq<nat>, pending: seq<nat>, n: nat)
    requires Complete(accepted, pending, n) && pending != []
    ensures Complete(accepted + [pending[0]], pending[1..], n)
  {
    assert pending == [pending[0]] + pending[1..];
  }

  lemma CallIs(depth: nat, s: State)
    ensures Step(depth, s, Call)
            == if |s.queue| < depth then State(s.queue + [s.calls], s.pending, s.accepted + [s.calls], s.calls + 1)
               else State(s.queue, s.pending + [s.calls], s.accepted, s.calls + 1)
  {
  }

  lemma CallKept(depth: nat, s: State)
    requires Kept(depth, s)
    ensures Kept(depth, Step(depth, s, Call))
  {
    CallIs(depth, s);
    CompleteCall(s.accepted, s.pending, s.calls);
    RisesOn(s.pending, s.calls);
  }

  lemma CycleKept(depth: nat, s: State, i: nat)
    requires Kept(depth, s)
    ensures Kept(depth, Step(depth, s, Cycle(i)))
  {
    RisesOn(s.pending, s.calls);
    if s.pending != [] {
      CompleteIn(s.accepted, s.pending, s.calls);
    }
  }

  /** No transaction is lost, and none is accepted twice. */
  lemma {:induction false} NoneLost(depth: nat, events: seq<Event>)
    ensures Kept(depth, Run(depth, events))
  {
    if events == [] {
      assert Calls(0) == [];
    } else {
      var before := Run(depth, events[..|events| - 1]);
      NoneLost(depth, events[..|events| - 1]);
      match events[|events| - 1]
      case Call => CallKept(depth, before);
      case Cycle(i) => CycleKept(depth, before, i);
    }
  }

  // ---------- the order ----------

  /** This call finds room in the queue while others wait outside. */
  predicate Overtakes(depth: nat, events: seq<Event>, n: nat)
    requires n < |events|
  {
    var s := Run(depth, events[..n]);
    events[n].Call? && |s.queue| < depth && s.pending != []
  }

  ghost predicate NoneOvertakes(depth: nat, events: seq<Event>) {
    forall n: nat :: n < |events| ==> !Overtakes(depth, events, n)
  }

  /** Accepted so far are the first calls, in order. */
  predicate InOrder(s: State) {
    s.accepted + s.pending == Calls(s.calls)
  }

  lemma OvertakesBefore(depth: nat, events: seq<Event>, n: nat)
    requires n < |events| - 1
    ensures Overtakes(depth, events[..|events| - 1], n) <==> Overtakes(depth, events, n)
  {
    assert events[..|events| - 1][..n] == events[..n];
  }

  lemma NoneMore(depth: nat, events: seq<Event>)
    requires events != []
    ensures var n := |events| - 1;
            NoneOvertakes(depth, events) <==> NoneOvertakes(depth, events[..n]) && !Overtakes(depth, events, n)
  {
    var n := |events| - 1;
    forall k: nat | k < n ensures Overtakes(depth, events[..n], k) <==> Overtakes(depth, events, k) {
      OvertakesBefore(depth, events, k);
    }
  }

  /** Once overtaken, always overtaken: an order that is lost is not restored. */
  lemma StepOrder(depth: nat, s: State, e: Event)
    requires Kept(depth, s)
    ensures InOrder(Step(depth, s, e)) <==> InOrder(s) && !(e.Call? && |s.queue| < depth && s.pending != [])
  {
    CallsMore(s.calls);
    var s' := Step(depth, s, e);
    match e
    case Call =>
      if |s.queue| < depth {
        CallOrder(s.accepted, s.pending, s.calls);
      } else {
        assert s'.accepted + s'.pending == s.accepted + s.pending + [s.calls];
        assert InOrder(s') ==> s.accepted + s.pending == (s'.accepted + s'.pending)[..s.calls] == Calls(s.calls);
      }
    case Cycle(i) =>
      if s.pending != [] && |s.queue| < depth {
        assert s.accepted + s.pending == s.accepted + [s.pending[0]] + s.pending[1..];
      }
  }

  /** A call that goes straight in stands before those that wait. */
  lemma CallOrder(accepted: seq<nat>, pending: seq<nat>, n: nat)
    requires |accepted| + |pending| == n
    requires Rising(pending, n)
    ensures accepted + [n] + pending == Calls(n) + [n] <==> accepted + pending == Calls(n) && pending == []
  {
    if pending == [] {
      assert accepted + pending == accepted && accepted + [n] + pending == accepted + [n];
      assert accepted + [n] == Calls(n) + [n] ==> accepted == (accepted + [n])[..n];
    } else {
      assert (accepted + [n] + pending)[n] == pending[|pending| - 1];
    }
  }

  /** Exactly when transactions are accepted in the order of their calls: no call finds room while
      others wait outside. */
  lemma {:induction false} InOrderIff(depth: nat, events: seq<Event>)
    ensures InOrder(Run(depth, events)) <==> NoneOvertakes(depth, events)
  {
    if events == [] {
      assert Calls(0) == [];
    } else {
      var n := |events| - 1;
      InOrderIff(depth, events[..n]);
      NoneLost(depth, events[..n]);
      StepOrder(depth, Run(depth, events[..n]), events[n]);
      NoneMore(depth, events);
    }
  }

  // ---------- a run that overtakes ----------

  function CallsOnly(n: nat): seq<Event> {
    seq(n, _ => Call)
  }

  lemma {:induction false} Filled(depth: nat, n: nat)
    requires n <= depth
    ensures Run(depth, CallsOnly(n)) == State(Calls(n), [], Calls(n), n)
  {
    if n == 0 {
      assert CallsOnly(0) == [] && Calls(0) == [];
    } else {
      Filled(depth, n - 1);
      assert CallsOnly(n)[..n - 1] == CallsOnly(n - 1);
      CallsMore(n - 1);
    }
  }

  /** With any depth: the queue is filled, one more transaction waits outside, the controller makes
      room, and the next goes straight in. */
  lemma SomeoneOvertakes(depth: nat) returns (events: seq<Event>)
    requires depth >= 1
    ensures !InOrder(Run(depth, events))
  {
    Filled(depth, depth);
    var full := CallsOnly(depth);
    var outside, room := full + [Call], full + [Call, Cycle(0)];
    assert outside[..depth] == full && room[..depth + 1] == outside;
    assert Run(depth, outside) == State(Calls(depth), [depth], Calls(depth), depth + 1);
    assert Run(depth, room).pending == [depth] && |Run(depth, room).queue| == depth - 1;
    events := room + [Call];
    assert events[..depth + 2] == room;
    assert Overtakes(depth, events, depth + 2);
    InOrderIff(depth, events);
  }
}
