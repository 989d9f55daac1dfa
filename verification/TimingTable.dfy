/**
 What the controller's timing table does alone.  After an access with automatic precharge the
 table is meant to hold further accesses back until the bank counts as closed.  For writes it
 does.  For reads it does exactly under a condition on the parameters; otherwise only the order
 of the command queues keeps a second read away (QueueOrder.ChoiceHeeds).
 */
module TimingTable {
  import opened RowStore
  import opened Packets
  import opened BankTiming

  /** After a read with automatic precharge, the controller considers the row closed by the time
      its table would allow another access to it. */
  predicate NoEarlyReopen(p: Timing) {
    p.ReadToPre() <= Max(1, p.ReadAutopre())
  }

  /** The controller's bank after k cycles without a command that concerns it. */
  function Ticks(p: Timing, m: BankState, k: nat): BankState
    requires p.Sane()
  {
    if k == 0 then m else Tick(p, Ticks(p, m, k - 1))
  }

  /** Access c is issued at cycle t to an open bank m; access d is tried k cycles later. */
  ghost predicate Slips(p: Timing, t: int, c: Command, m: BankState, d: Command, k: nat)
    requires p.Sane()
  {
    && k >= 1 && Issuable(t, c, m) && !AutoPrecharging(m)
    && var m' := Ticks(p, Issue(p, t, c, c.rank, c.bank, m), k);
       AutoPrecharging(m') && AutoKind(d) && Issuable(t + k, d, m')
  }

  /** The bank stays open, with the same times, until its countdown ends. */
  lemma {:induction false} StaysAuto(p: Timing, m: BankState, k: nat)
    requires p.Sane() && AutoPrecharging(m) && m.countdown >= 1
    ensures k < m.countdown ==> Ticks(p, m, k) == m.(countdown := m.countdown - k)
    ensures k >= m.countdown ==> !AutoPrecharging(Ticks(p, m, k))
  {
    if k > 0 {
      StaysAuto(p, m, k - 1);
    }
  }

  /** No access slips through after a write. */
  lemma WritesAreHeld(p: Timing, t: int, c: Command, m: BankState, d: Command, k: nat)
    requires p.Sane() && c.kind.WRITE_P?
    ensures !Slips(p, t, c, m, d, k)
  {
    if Issuable(t, c, m) {
      StaysAuto(p, Issue(p, t, c, c.rank, c.bank, m), k);
    }
  }

  lemma ReadsAreHeld(p: Timing, t: int, c: Command, m: BankState, d: Command, k: nat)
    requires p.Sane() && c.kind.READ_P? && NoEarlyReopen(p)
    ensures !Slips(p, t, c, m, d, k)
  {
    if Issuable(t, c, m) {
      StaysAuto(p, Issue(p, t, c, c.rank, c.bank, m), k);
    }
  }

  /** Without the condition, a second read one cycle before the bank closes passes the table. */
  lemma SomeReadSlips(p: Timing) returns (t: int, c: Command, m: BankState, d: Command, k: nat)
    requires p.Sane() && !NoEarlyReopen(p)
    ensures c.kind.READ_P? && Slips(p, t, c, m, d, k)
  {
    c := Command(READ_P, 0, 0, 0, 0, Tracer);
    t, d, k := 0, c, p.ReadToPre() - 1;
    m := BankState(RowActive, 0, 0, 0, 0, 0, 0, ACTIVATE, 0);
    StaysAuto(p, Issue(p, t, c, 0, 0, m), k);
  }

  /** Exactly when the table alone holds all accesses back. */
  lemma TableIff(p: Timing)
    requires p.Sane()
    ensures (forall t, c, m, d, k :: AutoKind(c) ==> !Slips(p, t, c, m, d, k)) <==> NoEarlyReopen(p)
  {
    if NoEarlyReopen(p) {
      forall t, c, m, d, k | AutoKind(c) ensures !Slips(p, t, c, m, d, k) {
        if c.kind.READ_P? {
          ReadsAreHeld(p, t, c, m, d, k);
        } else {
          WritesAreHeld(p, t, c, m, d, k);
        }
      }
    } else {
      var t, c, m, d, k := SomeReadSlips(p);
    }
  }
}
