/**
 The queues between the controller and the banks.  Every transaction enters as a pair, an
 ACTIVATE followed by its column access; the scheduler takes commands out of the middle of
 a queue (CommandQueue.cpp).
 */
module CommandQueues {
  import opened Packets
  import opened Protocol
  import opened DataPath

  /** A queued packet with its physical address. */
  datatype Packet = Packet(command: Command, address: int)

  /** A row of the channel. */
  datatype Key = Key(rank: nat, bank: nat, row: nat)

  predicate IsAct(e: Packet) {
    e.command.kind.ACTIVATE?
  }

  predicate IsColumn(e: Packet) {
    IsRead(e.command) || IsWrite(e.command)
  }

  /** Queues never mix ranks, so banks are compared alone. */
  predicate SameBank(a: Packet, b: Packet) {
    a.command.bank == b.command.bank
  }

  predicate SameRow(a: Packet, b: Packet) {
    SameBank(a, b) && a.command.row == b.command.row
  }

  predicate Hits(e: Packet, k: Key) {
    IsColumn(e) && e.command.rank == k.rank && e.command.bank == k.bank && e.command.row == k.row
  }

  /** The column accesses to a row, in queue order. */
  function Select(q: seq<Packet>, k: Key): seq<Packet> {
    if q == [] then [] else (if Hits(q[0], k) then [q[0]] else []) + Select(q[1..], k)
  }

  // ---------- the shape of a queue ----------

  /** A column access and the ACTIVATE queued for it. */
  predicate IsPair(a: Packet, c: Packet) {
    IsColumn(c) && SameRow(a, c) && a.address == c.address
  }

  predicate PairedAt(q: seq<Packet>, i: nat)
    requires i < |q|
  {
    IsAct(q[i]) ==> i + 1 < |q| && IsPair(q[i], q[i + 1])
  }

  /** Every ACTIVATE still stands directly before its column access. */
  ghost predicate Paired(q: seq<Packet>) {
    forall i :: 0 <= i < |q| ==> PairedAt(q, i)
  }

  /** The ACTIVATE of a column access is still in the queue. */
  predicate HasAct(q: seq<Packet>, i: nat)
    requires i < |q|
  {
    i > 0 && IsAct(q[i - 1])
  }

  // ---------- taking a command ----------

  function RemoveAt(q: seq<Packet>, i: nat): seq<Packet>
    requires i < |q|
  {
    q[..i] + q[i + 1..]
  }

  /** With open pages, a column access takes an ACTIVATE before it along. */
  function Taken(policy: Policy, q: seq<Packet>, i: nat): seq<Packet>
    requires i < |q|
  {
    if policy.OpenPage? && HasAct(q, i) then q[..i - 1] + q[i + 1..] else RemoveAt(q, i)
  }

  /** No earlier column access goes to the same row. */
  ghost predicate FirstOfRow(q: seq<Packet>, i: nat)
    requires i < |q|
  {
    forall j :: 0 <= j < i ==> !(IsColumn(q[j]) && SameRow(q[j], q[i]))
  }

  ghost predicate FirstActOfBank(q: seq<Packet>, i: nat)
    requires i < |q|
  {
    forall j :: 0 <= j < i ==> !(IsAct(q[j]) && SameBank(q[j], q[i]))
  }

  /** The order constraint a policy puts on taking entry i. */
  ghost predicate Removable(policy: Policy, q: seq<Packet>, i: nat)
    requires i < |q|
  {
    if policy.OpenPage? then FirstOfRow(q, i)
    else if IsAct(q[i]) then FirstActOfBank(q, i)
    else !HasAct(q, i)
  }

  // ---------- the order of column accesses ----------

  lemma {:induction false} SelectConcat(a: seq<Packet>, b: seq<Packet>, k: Key)
    ensures Select(a + b, k) == Select(a, k) + Select(b, k)
  {
    if a == [] {
      assert a + b == b;
    } else {
      assert (a + b)[1..] == a[1..] + b;
      SelectConcat(a[1..], b, k);
    }
  }

  lemma {:induction false} SelectNone(q: seq<Packet>, k: Key)
    requires forall j :: 0 <= j < |q| ==> !Hits(q[j], k)
    ensures Select(q, k) == []
  {
    if q != [] {
      SelectNone(q[1..], k);
    }
  }

  lemma SelectOne(e: Packet, k: Key)
    ensures Select([e], k) == if Hits(e, k) then [e] else []
  {
  }

  lemma SelectAround(q: seq<Packet>, i: nat, k: Key)
    requires i < |q|
    ensures Select(q, k) == Select(q[..i], k) + (if Hits(q[i], k) then [q[i]] else []) + Select(q[i + 1..], k)
  {
    assert q == q[..i] + [q[i]] + q[i + 1..];
    SelectConcat(q[..i] + [q[i]], q[i + 1..], k);
    SelectConcat(q[..i], [q[i]], k);
    SelectOne(q[i], k);
  }

  /** Of the accesses to a row, entry i comes first. */
  ghost predicate FirstHit(q: seq<Packet>, i: nat, k: Key)
    requires i < |q|
  {
    forall j :: 0 <= j < i ==> !Hits(q[j], k)
  }

  lemma NoneBefore(q: seq<Packet>, i: nat, k: Key)
    requires i < |q| && FirstHit(q, i, k)
    ensures Select(q[..i], k) == []
  {
    forall j | 0 <= j < i ensures !Hits(q[..i][j], k) {
      assert q[..i][j] == q[j];
    }
    SelectNone(q[..i], k);
  }

  /** Removing what a row does not see, or the first it sees. */
  lemma SelectRemoved(q: seq<Packet>, i: nat, k: Key)
    requires i < |q| && (Hits(q[i], k) ==> FirstHit(q, i, k))
    ensures Select(q, k) == (if Hits(q[i], k) then [q[i]] else []) + Select(RemoveAt(q, i), k)
  {
    var a, b := Select(q[..i], k), Select(q[i + 1..], k);
    SelectAround(q, i, k);
    SelectConcat(q[..i], q[i + 1..], k);
    if Hits(q[i], k) {
      NoneBefore(q, i, k);
      assert a + [q[i]] + b == [q[i]] + (a + b);
    } else {
      assert a + [] + b == [] + (a + b);
    }
  }

  /** Taking a command in order: each row sees its first access go, or nothing. */
  lemma TakenInOrder(policy: Policy, q: seq<Packet>, i: nat, k: Key)
    requires i < |q| && (IsColumn(q[i]) ==> FirstOfRow(q, i))
    ensures Select(q, k) == (if Hits(q[i], k) then [q[i]] else []) + Select(Taken(policy, q, i), k)
  {
    SelectRemoved(q, i, k);
    if policy.OpenPage? && HasAct(q, i) {
      var q' := RemoveAt(q, i);
      assert q'[i - 1] == q[i - 1] && !Hits(q'[i - 1], k);
      SelectRemoved(q', i - 1, k);
      assert RemoveAt(q', i - 1) == Taken(policy, q, i);
    }
  }

  /** Pairs stay together. */
  lemma TakenPaired(policy: Policy, q: seq<Packet>, i: nat)
    requires Paired(q) && i < |q| && (policy.ClosePage? && !IsAct(q[i]) ==> !HasAct(q, i))
    ensures Paired(Taken(policy, q, i))
  {
    var q' := Taken(policy, q, i);
    var gap := |q| - |q'|;
    forall j | 0 <= j < |q'| ensures PairedAt(q', j) {
      if j < i + 1 - gap {
        assert PairedAt(q, j);
      } else {
        assert PairedAt(q, j + gap);
      }
      assert i > 0 ==> PairedAt(q, i - 1);
      assert i > 1 ==> PairedAt(q, i - 2);
    }
  }

  /** The ACTIVATE before an ACTIVATE: there is none. */
  lemma ActStandsAlone(q: seq<Packet>, i: nat)
    requires Paired(q) && i < |q| && IsAct(q[i])
    ensures !HasAct(q, i)
  {
    assert i > 0 ==> PairedAt(q, i - 1);
  }
}
