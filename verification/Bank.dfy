/** One DRAM bank: a vector of list heads, one per column, and nodes keyed by row (Bank.cpp, Bank.h). */
module Bank {
  import opened RowStore
  import opened Packets

  class BusPacket {
    var busPacketType: PacketType
    const column: nat
    const row: nat
    var data: Payload

    constructor (kind: PacketType, column: nat, row: nat, data: Payload)
      ensures this.busPacketType == kind && this.column == column && this.row == row && this.data == data
    {
      this.busPacketType, this.column, this.row, this.data := kind, column, row, data;
    }
  }

  /** A list node.  The code writes row and next only when it creates the node. */
  class RowNode {
    const row: nat
    var data: Payload
    const next: RowNode?
    /** The column whose list the node was inserted into. */
    ghost const home: nat

    constructor (row: nat, data: Payload, next: RowNode?, ghost home: nat)
      ensures this.row == row && this.data == data && this.next == next && this.home == home
    {
      this.row, this.data, this.next, this.home := row, data, next, home;
    }
  }

  /** The nodes reached from head are exactly chain, in order, and the list then ends. */
  ghost predicate Linked(head: RowNode?, chain: seq<RowNode>) {
    && head == (if chain == [] then null else chain[0])
    && (forall i :: 0 <= i < |chain| - 1 ==> chain[i].next == chain[i + 1])
    && (chain != [] ==> chain[|chain| - 1].next == null)
  }

  /** The list from head ends, holds each row at most once, and belongs to column c alone. */
  ghost predicate ValidChain(head: RowNode?, chain: seq<RowNode>, c: nat) {
    && Linked(head, chain)
    && (forall i :: 0 <= i < |chain| ==> chain[i].home == c)
    && (forall i, j :: 0 <= i < j < |chain| ==> chain[i].row != chain[j].row)
  }

  ghost predicate Within(chain: seq<RowNode>, nodes: set<RowNode>) {
    forall i :: 0 <= i < |chain| ==> chain[i] in nodes
  }

  /** The nodes of the list carry these rows and data. */
  ghost predicate Matches(chain: seq<RowNode>, entries: Chain)
    reads chain
  {
    |entries| == |chain| && forall i :: 0 <= i < |chain| ==> entries[i] == Entry(chain[i].row, chain[i].data)
  }

  ghost predicate IsSuffix(older: seq<RowNode>, newer: seq<RowNode>) {
    |older| <= |newer| && newer[|newer| - |older|..] == older
  }

  lemma ExtendChain(node: RowNode, chain: seq<RowNode>, c: nat)
    requires ValidChain(node.next, chain, c) && node.home == c
    requires forall i :: 0 <= i < |chain| ==> chain[i].row != node.row
    ensures ValidChain(node, [node] + chain, c)
  {
    var longer := [node] + chain;
    forall i | 0 <= i < |longer| - 1 ensures longer[i].next == longer[i + 1] {
      assert longer[i + 1] == chain[i];
      if i > 0 {
        assert longer[i] == chain[i - 1];
      }
    }
  }

  class Bank {
    var rowEntries: seq<RowNode?>
    /** The nodes of each column's list, the set of all nodes, and the lists as values. */
    ghost var chains: seq<seq<RowNode>>
    ghost var nodes: set<RowNode>
    ghost var columns: seq<Chain>

    /** Every list ends, holds each row at most once, shares no node with another list, and
        has the recorded contents. */
    ghost predicate Valid()
      reads this, nodes
    {
      && |chains| == |rowEntries| == |columns|
      && (forall c :: 0 <= c < |chains| ==> ValidChain(rowEntries[c], chains[c], c))
      && (forall c :: 0 <= c < |chains| ==> Within(chains[c], nodes) && Matches(chains[c], columns[c]))
    }

    constructor (numCols: nat)
      ensures Valid() && nodes == {}
      ensures columns == seq(numCols, _ => [])
    {
      rowEntries := seq(numCols, _ => null);
      chains, nodes, columns := seq(numCols, _ => []), {}, seq(numCols, _ => []);
    }

    static method SearchForRow(row: nat, head: RowNode?, ghost chain: seq<RowNode>, ghost entries: Chain)
      returns (found: RowNode?)
      requires Linked(head, chain) && Matches(chain, entries)
      ensures found == null <==> Find(entries, row) == |chain|
      ensures found != null ==> found == chain[Find(entries, row)]
    {
      found := head;
      ghost var k := 0;
      while found != null
        invariant k <= |chain| && forall i :: 0 <= i < k ==> entries[i].row != row
        invariant found == if k < |chain| then chain[k] else null
        decreases |chain| - k
      {
        if found.row == row {
          return;
        }
        found := found.next;
        k := k + 1;
      }
    }

    /** Looks the row up in its column; the packet becomes a data packet. */
    method Read(busPacket: BusPacket)
      requires Valid() && busPacket.column < |rowEntries|
      modifies busPacket
      ensures busPacket.busPacketType == DATA
      ensures busPacket.data == Lookup(columns[busPacket.column], busPacket.row)
    {
      var column := busPacket.column;
      var foundNode := SearchForRow(busPacket.row, rowEntries[column], chains[column], columns[column]);
      if foundNode == null {
        busPacket.data := Tracer;
      } else {
        busPacket.data := foundNode.data;
      }
      busPacket.busPacketType := DATA;
    }

    /** Overwrites the row's node or inserts a new head; false is the out-of-bounds exit. */
    method Write(busPacket: BusPacket) returns (ok: bool)
      requires Valid()
      modifies this, nodes
      ensures Valid() && fresh(nodes - old(nodes))
      ensures ok <==> busPacket.column < |old(columns)|
      ensures !ok ==> columns == old(columns) && chains == old(chains)
      ensures ok ==> columns == old(columns)[busPacket.column :=
                       Put(old(columns)[busPacket.column], busPacket.row, busPacket.data)]
      ensures ok ==> |chains| == old(|chains|)
      ensures forall c :: ok && 0 <= c < |chains| ==> IsSuffix(old(chains)[c], chains[c])
    {
      var column := busPacket.column;
      ok := column < |rowEntries|;
      if ok {
        var foundNode := SearchForRow(busPacket.row, rowEntries[column], chains[column], columns[column]);
        if foundNode == null {
          InsertAtHead(column, busPacket.row, busPacket.data);
        } else {
          Overwrite(column, busPacket.row, foundNode, busPacket.data);
        }
      }
    }

    method InsertAtHead(column: nat, row: nat, data: Payload)
      requires Valid() && column < |rowEntries|
      requires Find(columns[column], row) == |columns[column]|
      modifies this
      ensures Valid() && fresh(nodes - old(nodes))
      ensures columns == old(columns)[column := Put(old(columns)[column], row, data)]
      ensures |chains| == old(|chains|) && IsSuffix(old(chains)[column], chains[column])
      ensures forall c :: 0 <= c < |chains| && c != column ==> chains[c] == old(chains)[c]
    {
      ghost var chain := chains[column];
      var newRowNode := new RowNode(row, data, rowEntries[column], column);
      assert forall i :: 0 <= i < |chain| ==> columns[column][i].row == chain[i].row;
      ExtendChain(newRowNode, chain, column);
      rowEntries := rowEntries[column := newRowNode];
      chains, nodes := chains[column := [newRowNode] + chain], nodes + {newRowNode};
      columns := columns[column := Put(columns[column], row, data)];
      assert chains[column][1..] == chain;
      forall c | 0 <= c < |chains|
        ensures ValidChain(rowEntries[c], chains[c], c)
        ensures Within(chains[c], nodes) && Matches(chains[c], columns[c])
      {
        if c != column {
          assert old(Within(chains[c], nodes) && Matches(chains[c], columns[c]));
          assert chains[c] == old(chains)[c] && rowEntries[c] == old(rowEntries)[c];
        } else {
          assert old(Within(chain, nodes) && Matches(chain, columns[c]));
          assert chains[c] == [newRowNode] + chain && rowEntries[c] == newRowNode;
        }
      }
    }

    method Overwrite(column: nat, row: nat, node: RowNode, data: Payload)
      requires Valid() && column < |rowEntries|
      requires Find(columns[column], row) < |columns[column]|
      requires node == chains[column][Find(columns[column], row)]
      modifies this`columns, node
      ensures Valid()
      ensures columns == old(columns)[column := Put(old(columns)[column], row, data)]
    {
      node.data := data;
      columns := columns[column := Put(columns[column], row, data)];
      forall c | 0 <= c < |chains| ensures Matches(chains[c], columns[c]) {
        assert old(Matches(chains[c], columns[c]));
        assert ValidChain(rowEntries[c], chains[c], c) && ValidChain(rowEntries[column], chains[column], column);
      }
    }
  }

  /** Lists of different columns share no node. */
  lemma ColumnsDisjoint(b: Bank, c: nat, d: nat, i: nat, j: nat)
    requires b.Valid() && c < |b.chains| && d < |b.chains| && i < |b.chains[c]| && j < |b.chains[d]|
    requires b.chains[c][i] == b.chains[d][j]
    ensures c == d && i == j
  {
    assert ValidChain(b.rowEntries[c], b.chains[c], c) && ValidChain(b.rowEntries[d], b.chains[d], d);
  }
}
