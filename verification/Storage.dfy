/**
 All banks of a memory system, addressed through one mapping scheme: whatever the scheme,
 they behave like a single flat memory of transaction-sized blocks.
 */
module Storage {
  import opened MixedRadix
  import opened Word
  import opened AddressMapping
  import opened RowStore
  import opened Packets
  import B = Bank

  datatype Op = ReadOp(address: Word) | WriteOp(address: Word, data: Payload)

  /** The block an address belongs to: its transaction number modulo the capacity. */
  function Block(g: Geometry, address: Word): nat {
    Low(Index(g, Value(address)), g.IndexBits())
  }

  // ---------- the flat memory ----------

  /** The data of the latest write to a block in a run, or the tracer. */
  function Latest(g: Geometry, ops: seq<Op>, block: nat): Payload {
    if ops == [] then Tracer
    else
      var last := ops[|ops| - 1];
      if last.WriteOp? && Block(g, last.address) == block then last.data
      else Latest(g, ops[..|ops| - 1], block)
  }

  /** What the reads of a run must return, in order. */
  function Expected(g: Geometry, ops: seq<Op>): seq<Payload> {
    if ops == [] then []
    else
      var before, last := ops[..|ops| - 1], ops[|ops| - 1];
      Expected(g, before) + (if last.ReadOp? then [Latest(g, before, Block(g, last.address))] else [])
  }

  // ---------- the position of a bank ----------

  function BankWidths(g: Geometry): seq<nat> {
    [g.bankBits, g.rankBits, g.chanBits]
  }

  function BankDigits(c: Coord): seq<nat> {
    [c.bank, c.rank, c.chan]
  }

  function NumBanks(g: Geometry): nat {
    Pow2(Total(BankWidths(g)))
  }

  /** The bank of a coordinate tuple, banks of a rank adjacent, ranks of a channel adjacent. */
  function BankIndex(g: Geometry, c: Coord): nat {
    Join(BankDigits(c), BankWidths(g))
  }

  lemma BankDigitsInRange(g: Geometry, c: Coord)
    requires g.Contains(c)
    ensures InRange(BankDigits(c), BankWidths(g))
  {
    assert c.Get(ChanField) < Pow2(g.Width(ChanField)) && c.Get(RankField) < Pow2(g.Width(RankField));
    assert c.Get(BankField) < Pow2(g.Width(BankField));
  }

  lemma BankIndexInjective(g: Geometry, c: Coord, d: Coord)
    requires g.Contains(c) && g.Contains(d)
    ensures BankIndex(g, c) < NumBanks(g)
    ensures BankIndex(g, c) == BankIndex(g, d) ==> c.bank == d.bank && c.rank == d.rank && c.chan == d.chan
  {
    BankDigitsInRange(g, c);
    BankDigitsInRange(g, d);
    SplitJoin(BankDigits(c), BankWidths(g));
    SplitJoin(BankDigits(d), BankWidths(g));
    if BankIndex(g, c) == BankIndex(g, d) {
      var x, y := BankDigits(c), BankDigits(d);
      assert x == y;
      assert x[0] == y[0] && x[1] == y[1] && x[2] == y[2];
    }
  }

  lemma {:induction false} Pow2Monotone(a: nat, b: nat)
    requires a <= b
    ensures Pow2(a) <= Pow2(b)
    decreases b
  {
    if a == b {
    } else {
      Pow2Monotone(a, b - 1);
    }
  }

  /** Every mapped column passes the bank's bounds check. */
  lemma ColumnInBounds(g: Geometry, c: Coord)
    requires g.Valid() && g.Contains(c)
    ensures c.column < Pow2(g.colBits)
  {
    assert c.Get(ColumnField) < Pow2(g.Width(ColumnField));
    Pow2Monotone(g.Width(ColumnField), g.colBits);
  }

  /** The contents of every column of every bank. */
  type Store = seq<seq<Chain>>

  ghost predicate Shaped(g: Geometry, store: Store) {
    && |store| == NumBanks(g)
    && (forall k :: 0 <= k < |store| ==> |store[k]| == Pow2(g.colBits))
    && (forall k, c :: 0 <= k < |store| && 0 <= c < |store[k]| ==> DistinctRows(store[k][c]))
  }

  ghost function PutCell(store: Store, k: nat, column: nat, row: nat, data: Payload): Store
    requires k < |store| && column < |store[k]|
  {
    store[k := store[k][column := Put(store[k][column], row, data)]]
  }

  lemma CellAfterPut(g: Geometry, store: Store, k: nat, column: nat, row: nat, data: Payload,
                     k': nat, column': nat, row': nat)
    requires Shaped(g, store)
    requires k < |store| && column < |store[k]| && k' < |store| && column' < |store[k']|
    ensures Shaped(g, PutCell(store, k, column, row, data))
    ensures Lookup(PutCell(store, k, column, row, data)[k'][column'], row')
            == if k == k' && column == column' && row == row' then data else Lookup(store[k'][column'], row')
  {
    PutLookup(store[k][column], row, data, row');
  }

  /** What a read of transaction number n returns. */
  ghost function View(g: Geometry, scheme: Scheme, store: Store, n: nat): Payload
    requires g.Valid() && Shaped(g, store)
  {
    var c := Decode(g, scheme, n);
    DecodeInBounds(g, scheme, n);
    Lookup(store[BankIndex(g, c)][c.column], c.row)
  }

  lemma DecodeInBounds(g: Geometry, scheme: Scheme, n: nat)
    requires g.Valid()
    ensures BankIndex(g, Decode(g, scheme, n)) < NumBanks(g)
    ensures Decode(g, scheme, n).column < Pow2(g.colBits)
  {
    var c := Decode(g, scheme, n);
    DecodeInRange(g, scheme, n);
    BankIndexInjective(g, c, c);
    ColumnInBounds(g, c);
  }

  /** Two transactions use the same cell of the same bank exactly when they are one block. */
  lemma SameCell(g: Geometry, scheme: Scheme, m: nat, n: nat)
    ensures var c, d := Decode(g, scheme, m), Decode(g, scheme, n);
            BankIndex(g, c) == BankIndex(g, d) && c.column == d.column && c.row == d.row
            <==> Low(m, g.IndexBits()) == Low(n, g.IndexBits())
  {
    var c, d := Decode(g, scheme, m), Decode(g, scheme, n);
    DecodeInRange(g, scheme, m);
    DecodeInRange(g, scheme, n);
    BankIndexInjective(g, c, d);
    assert BankIndex(g, c) == BankIndex(g, d) && c.column == d.column && c.row == d.row <==> c == d;
    AliasingLow(g, scheme, m, n);
  }

  /** Writing transaction m changes the view of its block and of no other. */
  lemma ViewAfterPut(g: Geometry, scheme: Scheme, store: Store, m: nat, data: Payload, n: nat)
    requires g.Valid() && Shaped(g, store)
    ensures var c := Decode(g, scheme, m); var k := BankIndex(g, c);
            k < |store| && c.column < |store[k]| && Shaped(g, PutCell(store, k, c.column, c.row, data))
    ensures var c := Decode(g, scheme, m);
            View(g, scheme, PutCell(store, BankIndex(g, c), c.column, c.row, data), n)
            == if Low(n, g.IndexBits()) == Low(m, g.IndexBits()) then data else View(g, scheme, store, n)
  {
    var c, d := Decode(g, scheme, m), Decode(g, scheme, n);
    DecodeInBounds(g, scheme, m);
    DecodeInBounds(g, scheme, n);
    CellAfterPut(g, store, BankIndex(g, c), c.column, c.row, data, BankIndex(g, d), d.column, d.row);
    SameCell(g, scheme, m, n);
  }

  /** Every block of the store reads as its latest write in the run. */
  ghost predicate Reflects(g: Geometry, scheme: Scheme, store: Store, ops: seq<Op>)
    requires g.Valid()
  {
    && Shaped(g, store)
    && forall n: nat :: View(g, scheme, store, n) == Latest(g, ops, Low(n, g.IndexBits()))
  }

  lemma ReflectsWrite(g: Geometry, scheme: Scheme, store: Store, ops: seq<Op>, address: Word, data: Payload)
    requires g.Valid() && Reflects(g, scheme, store, ops)
    ensures var c := Decode(g, scheme, Index(g, Value(address)));
            && BankIndex(g, c) < |store| && c.column < |store[BankIndex(g, c)]|
            && Reflects(g, scheme, PutCell(store, BankIndex(g, c), c.column, c.row, data),
                        ops + [WriteOp(address, data)])
  {
    var m := Index(g, Value(address));
    var c := Decode(g, scheme, m);
    var ops' := ops + [WriteOp(address, data)];
    assert ops'[..|ops|] == ops;
    ViewAfterPut(g, scheme, store, m, data, 0);
    var after := PutCell(store, BankIndex(g, c), c.column, c.row, data);
    forall n: nat ensures View(g, scheme, after, n) == Latest(g, ops', Low(n, g.IndexBits())) {
      ViewAfterPut(g, scheme, store, m, data, n);
    }
  }

  lemma ReflectsRead(g: Geometry, scheme: Scheme, store: Store, ops: seq<Op>, address: Word)
    requires g.Valid() && Reflects(g, scheme, store, ops)
    ensures Reflects(g, scheme, store, ops + [ReadOp(address)])
    ensures View(g, scheme, store, Index(g, Value(address))) == Latest(g, ops, Block(g, address))
  {
  }

  lemma ExpectedRead(g: Geometry, ops: seq<Op>, address: Word)
    ensures Expected(g, ops + [ReadOp(address)]) == Expected(g, ops) + [Latest(g, ops, Block(g, address))]
  {
  }

  lemma ExpectedWrite(g: Geometry, ops: seq<Op>, address: Word, data: Payload)
    ensures Expected(g, ops + [WriteOp(address, data)]) == Expected(g, ops)
  {
  }

  ghost function EmptyStore(g: Geometry): Store {
    seq(NumBanks(g), _ => seq(Pow2(g.colBits), _ => []))
  }

  lemma EmptyView(g: Geometry, scheme: Scheme, n: nat)
    requires g.Valid()
    ensures Shaped(g, EmptyStore(g))
    ensures View(g, scheme, EmptyStore(g), n) == Tracer
  {
    DecodeInBounds(g, scheme, n);
  }

  lemma ReflectsNothing(g: Geometry, scheme: Scheme)
    requires g.Valid()
    ensures Reflects(g, scheme, EmptyStore(g), [])
  {
    forall n: nat ensures View(g, scheme, EmptyStore(g), n) == Tracer {
      EmptyView(g, scheme, n);
    }
  }

  ghost predicate Separate(b: B.Bank, d: B.Bank)
    reads b, d
  {
    b != d && b.nodes !! d.nodes
  }

  /** The banks are separate objects with separate nodes, and hold the store. */
  ghost predicate Represents(banks: seq<B.Bank>, nodes: set<B.RowNode>, store: Store)
    reads banks, nodes
  {
    && |banks| == |store|
    && (forall k :: 0 <= k < |banks| ==>
          banks[k].nodes <= nodes && banks[k].Valid() && banks[k].columns == store[k])
    && (forall j, k :: 0 <= j < |banks| && 0 <= k < |banks| && j != k ==> Separate(banks[j], banks[k]))
  }

  /** The banks of all channels and ranks behind one mapping scheme. */
  class Storage {
    const g: Geometry
    const scheme: Scheme
    const banks: seq<B.Bank>
    ghost var nodes: set<B.RowNode>
    ghost var store: Store
    /** The accesses made so far. */
    ghost var history: seq<Op>

    ghost predicate Valid()
      reads this, banks, nodes
    {
      && g.Valid() && Represents(banks, nodes, store)
      && Reflects(g, scheme, store, history)
    }

    constructor (g: Geometry, scheme: Scheme)
      requires g.Valid()
      ensures Valid() && this.g == g && this.scheme == scheme && fresh(banks) && nodes == {}
      ensures history == []
    {
      this.g, this.scheme := g, scheme;
      var bs := NewBanks(NumBanks(g), Pow2(g.colBits));
      banks := bs;
      nodes, store, history := {}, EmptyStore(g), [];
      ReflectsNothing(g, scheme);
    }

    /** The bank of an address and its coordinates in it. */
    method Locate(address: Word) returns (k: nat, c: Coord)
      requires g.Valid()
      ensures c == Decode(g, scheme, Index(g, Value(address))) && k == BankIndex(g, c)
      ensures k < NumBanks(g) && c.column < Pow2(g.colBits)
    {
      var misaligned;
      misaligned, c := Map(g, scheme, address);
      k := BankIndex(g, c);
      DecodeInBounds(g, scheme, Index(g, Value(address)));
    }

    /** Returns the data of the latest write to the address's block, or the tracer. */
    method Read(address: Word) returns (data: Payload)
      requires Valid()
      modifies this`history
      ensures Valid() && history == old(history) + [ReadOp(address)]
      ensures data == Latest(g, old(history), Block(g, address))
    {
      var k, c := Locate(address);
      data := GetAt(k, c.column, c.row);
      ReflectsRead(g, scheme, store, history, address);
      history := history + [ReadOp(address)];
    }

    method Write(address: Word, data: Payload)
      requires Valid()
      modifies this`nodes, this`store, this`history, banks, nodes
      ensures Valid() && fresh(nodes - old(nodes)) && history == old(history) + [WriteOp(address, data)]
    {
      var k, c := Locate(address);
      ReflectsWrite(g, scheme, store, history, address, data);
      PutAt(k, c.column, c.row, data);
      history := history + [WriteOp(address, data)];
    }

    method GetAt(k: nat, column: nat, row: nat) returns (data: Payload)
      requires Represents(banks, nodes, store) && k < |store| && column < |store[k]|
      ensures data == Lookup(store[k][column], row)
    {
      var busPacket := new B.BusPacket(READ, column, row, Tracer);
      banks[k].Read(busPacket);
      data := busPacket.data;
    }

    method PutAt(k: nat, column: nat, row: nat, data: Payload)
      requires Represents(banks, nodes, store) && k < |store| && column < |store[k]|
      modifies this`nodes, this`store, banks, nodes
      ensures Represents(banks, nodes, store) && fresh(nodes - old(nodes))
      ensures store == PutCell(old(store), k, column, row, data)
    {
      var busPacket := new B.BusPacket(DATA, column, row, data);
      ghost var nodes' := BankWrite(banks, k, busPacket, nodes, store);
      nodes, store := nodes', PutCell(store, k, column, row, data);
    }
  }

  method NewBanks(count: nat, numCols: nat) returns (banks: seq<B.Bank>)
    ensures fresh(banks)
    ensures Represents(banks, {}, seq(count, _ => seq(numCols, _ => [])))
  {
    banks := [];
    while |banks| < count
      invariant |banks| <= count && fresh(banks)
      invariant forall k :: 0 <= k < |banks| ==> banks[k].Valid() && banks[k].nodes == {}
      invariant forall k :: 0 <= k < |banks| ==> banks[k].columns == seq(numCols, _ => [])
      invariant forall j, k :: 0 <= j < |banks| && 0 <= k < |banks| && j != k ==> Separate(banks[j], banks[k])
    {
      var b := new B.Bank(numCols);
      banks := banks + [b];
    }
  }

  /** A write to one bank updates one cell of the store the banks hold. */
  method BankWrite(banks: seq<B.Bank>, k: nat, busPacket: B.BusPacket, ghost nodes: set<B.RowNode>, ghost store: Store)
    returns (ghost nodes': set<B.RowNode>)
    requires Represents(banks, nodes, store) && k < |store| && busPacket.column < |store[k]|
    modifies banks[k], banks[k].nodes
    ensures fresh(nodes' - nodes)
    ensures Represents(banks, nodes', PutCell(store, k, busPacket.column, busPacket.row, busPacket.data))
  {
    assert forall j :: 0 <= j < |banks| && j != k ==> Separate(banks[j], banks[k]);
    WriteBeside(banks, k, busPacket);
    nodes' := nodes + banks[k].nodes;
    forall i, j | 0 <= i < |banks| && 0 <= j < |banks| && i != j ensures Separate(banks[i], banks[j]) {
      assert old(Separate(banks[i], banks[j]));
    }
  }

  /** Writing one of several separate banks leaves the others as they were. */
  method WriteBeside(banks: seq<B.Bank>, k: nat, busPacket: B.BusPacket)
    requires k < |banks| && banks[k].Valid() && busPacket.column < |banks[k].columns|
    requires forall j :: 0 <= j < |banks| && j != k ==>
               banks[j] != banks[k] && banks[j].Valid() && banks[j].nodes !! banks[k].nodes
    modifies banks[k], banks[k].nodes
    ensures banks[k].Valid() && fresh(banks[k].nodes - old(banks[k].nodes))
    ensures banks[k].columns == old(banks[k].columns)[busPacket.column :=
              Put(old(banks[k].columns)[busPacket.column], busPacket.row, busPacket.data)]
    ensures forall j :: 0 <= j < |banks| && j != k ==>
              banks[j].Valid() && banks[j].nodes !! banks[k].nodes
              && banks[j].columns == old(banks[j].columns) && banks[j].nodes == old(banks[j].nodes)
  {
    var ok := banks[k].Write(busPacket);
  }

  /** Every run: the reads return what a flat memory of blocks would return. */
  method Run(g: Geometry, scheme: Scheme, ops: seq<Op>) returns (outputs: seq<Payload>)
    requires g.Valid()
    ensures outputs == Expected(g, ops)
  {
    var memory := new Storage(g, scheme);
    outputs := [];
    for i := 0 to |ops|
      invariant memory.Valid() && memory.g == g && memory.history == ops[..i]
      invariant fresh(memory) && fresh(memory.banks) && fresh(memory.nodes)
      invariant outputs == Expected(g, ops[..i])
    {
      assert ops[..i + 1] == ops[..i] + [ops[i]];
      match ops[i] {
        case ReadOp(address) =>
          var data := memory.Read(address);
          outputs := outputs + [data];
          ExpectedRead(g, ops[..i], address);
        case WriteOp(address, data) =>
          memory.Write(address, data);
          ExpectedWrite(g, ops[..i], address, data);
      }
    }
    assert ops[..|ops|] == ops;
  }
}
