/**
 The sparse row store of one DRAM bank, as values: what a column holds and what a history of
 writes makes of it (Bank.h, Bank.cpp).
 */
module RowStore {

  /** A data buffer.  Tracer is the zeroed buffer starting with 0xDEADBEEF that a read of an
      unwritten row returns; Stored names the buffer a writer handed over. */
  datatype Payload = Tracer | Stored(buffer: nat)

  datatype Entry = Entry(row: nat, data: Payload)

  /** One column's list, head first. */
  type Chain = seq<Entry>

  /** Position of the first entry for a row, or the length of the chain. */
  function Find(chain: Chain, row: nat): (i: nat)
    ensures i <= |chain|
    ensures i < |chain| ==> chain[i].row == row
    ensures forall j :: 0 <= j < i ==> chain[j].row != row
  {
    if chain == [] then 0
    else if chain[0].row == row then 0
    else
      var i := Find(chain[1..], row);
      assert forall j :: 1 <= j < i + 1 ==> chain[j] == chain[1..][j - 1];
      1 + i
  }

  function Lookup(chain: Chain, row: nat): Payload {
    var i := Find(chain, row);
    if i < |chain| then chain[i].data else Tracer
  }

  /** Overwrite in place, or insert at the head. */
  function Put(chain: Chain, row: nat, data: Payload): Chain {
    var i := Find(chain, row);
    if i < |chain| then chain[i := Entry(row, data)] else [Entry(row, data)] + chain
  }

  ghost predicate DistinctRows(chain: Chain) {
    forall i, j :: 0 <= i < j < |chain| ==> chain[i].row != chain[j].row
  }

  function Rows(chain: Chain): (rows: seq<nat>)
    ensures |rows| == |chain|
    ensures forall i :: 0 <= i < |chain| ==> rows[i] == chain[i].row
  {
    seq(|chain|, i requires 0 <= i < |chain| => chain[i].row)
  }

  lemma FindUnique(chain: Chain, row: nat, i: nat)
    requires i < |chain| && chain[i].row == row && DistinctRows(chain)
    ensures Find(chain, row) == i
  {
  }

  /** A write changes what one row reads and nothing else. */
  lemma PutLookup(chain: Chain, row: nat, data: Payload, other: nat)
    requires DistinctRows(chain)
    ensures DistinctRows(Put(chain, row, data))
    ensures Lookup(Put(chain, row, data), other) == if other == row then data else Lookup(chain, other)
  {
    var i, k := Find(chain, row), Find(chain, other);
    var after := Put(chain, row, data);
    if i < |chain| {
      if k < |chain| {
        FindUnique(after, other, k);
      } else {
        assert Find(after, other) == |after|;
      }
    } else {
      if other == row {
        FindUnique(after, row, 0);
      } else if k < |chain| {
        assert after[k + 1] == chain[k];
        FindUnique(after, other, k + 1);
      } else {
        assert forall j :: 0 <= j < |after| ==> after[j].row != other;
      }
    }
  }

  // ---------- whole histories of one column ----------

  /** The chain after a sequence of writes to an initially empty column. */
  function Replay(writes: seq<Entry>): Chain {
    if writes == [] then []
    else
      var last := writes[|writes| - 1];
      Put(Replay(writes[..|writes| - 1]), last.row, last.data)
  }

  /** The rows of a write sequence in reverse order of their first write. */
  function FirstWrites(writes: seq<Entry>): seq<nat> {
    if writes == [] then []
    else
      var before, last := writes[..|writes| - 1], writes[|writes| - 1];
      if last.row in Rows(before) then FirstWrites(before) else [last.row] + FirstWrites(before)
  }

  /** The data of the latest write to a row, or the tracer. */
  function LatestWrite(writes: seq<Entry>, row: nat): Payload {
    if writes == [] then Tracer
    else if writes[|writes| - 1].row == row then writes[|writes| - 1].data
    else LatestWrite(writes[..|writes| - 1], row)
  }

  lemma {:induction false} FirstWritesAreTheRows(writes: seq<Entry>, row: nat)
    ensures row in FirstWrites(writes) <==> row in Rows(writes)
  {
    if writes == [] {
    } else {
      var before, last := writes[..|writes| - 1], writes[|writes| - 1];
      FirstWritesAreTheRows(before, row);
      assert writes == before + [last];
      assert Rows(writes) == Rows(before) + [last.row];
    }
  }

  /** A column holds exactly the rows ever written to it, the most recently introduced first,
      and reads each as its latest write. */
  lemma {:induction false} ReplayHistory(writes: seq<Entry>, row: nat)
    ensures DistinctRows(Replay(writes))
    ensures Rows(Replay(writes)) == FirstWrites(writes)
    ensures Lookup(Replay(writes), row) == LatestWrite(writes, row)
  {
    if writes == [] {
    } else {
      var before, last := writes[..|writes| - 1], writes[|writes| - 1];
      var chain := Replay(before);
      ReplayHistory(before, row);
      PutLookup(chain, last.row, last.data, row);
      var i := Find(chain, last.row);
      FirstWritesAreTheRows(before, last.row);
      if i < |chain| {
        assert Rows(chain)[i] == last.row;
        assert Rows(Put(chain, last.row, last.data)) == Rows(chain);
      } else {
        assert last.row !in Rows(chain);
        assert Rows(Put(chain, last.row, last.data)) == [last.row] + Rows(chain);
      }
    }
  }
}
