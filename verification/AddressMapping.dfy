/**
 DRAMSim2's physical address decoding (AddressMapping.cpp): seven schemes, each a fixed
 order of field extractions by shift, shift-back and xor, after the byte offset and the
 low column bits have been shifted off.
 */
module AddressMapping {
  import opened MixedRadix
  import opened Word

  datatype Field = ChanField | RankField | BankField | RowField | ColumnField

  datatype Scheme = Scheme1 | Scheme2 | Scheme3 | Scheme4 | Scheme5 | Scheme6 | Scheme7

  datatype Coord = Coord(chan: nat, rank: nat, bank: nat, row: nat, column: nat) {
    function Get(f: Field): nat {
      match f
      case ChanField => chan
      case RankField => rank
      case BankField => bank
      case RowField => row
      case ColumnField => column
    }
  }

  /** The configured bit widths; colBits is the full column width, colLow bits of which
      are covered by one burst. */
  datatype Geometry = Geometry(
    chanBits: nat, rankBits: nat, bankBits: nat, rowBits: nat, colBits: nat,
    byteOffsetBits: nat, colLowBits: nat, transactionSize: nat)
  {
    ghost predicate Valid() {
      && chanBits <= 32 && rankBits <= 32 && bankBits <= 32 && rowBits <= 32 && colBits <= 32
      && colLowBits <= colBits
      && LowBits() + IndexBits() <= 64
      && transactionSize == Pow2(LowBits())
    }

    function LowBits(): nat {
      byteOffsetBits + colLowBits
    }

    function Width(f: Field): nat {
      match f
      case ChanField => chanBits
      case RankField => rankBits
      case BankField => bankBits
      case RowField => rowBits
      case ColumnField => if colLowBits <= colBits then colBits - colLowBits else 0
    }

    /** Number of address bits above the discarded ones that reach some field. */
    function IndexBits(): nat {
      Width(ChanField) + Width(RankField) + Width(BankField) + Width(RowField) + Width(ColumnField)
    }

    ghost predicate Contains(c: Coord) {
      forall f :: c.Get(f) < Pow2(Width(f))
    }
  }

  /** The fields of a scheme in extraction order, lowest address bits first. */
  function Order(s: Scheme): (o: seq<Field>)
    ensures |o| == 5
    ensures ChanField in o && RankField in o && BankField in o && RowField in o && ColumnField in o
    ensures o[0] != o[1] && o[0] != o[2] && o[0] != o[3] && o[0] != o[4] && o[1] != o[2]
    ensures o[1] != o[3] && o[1] != o[4] && o[2] != o[3] && o[2] != o[4] && o[3] != o[4]
  {
    var o := match s
      case Scheme1 => [BankField, ColumnField, RowField, RankField, ChanField]
      case Scheme2 => [RankField, BankField, ColumnField, RowField, ChanField]
      case Scheme3 => [RowField, ColumnField, BankField, RankField, ChanField]
      case Scheme4 => [ColumnField, RowField, BankField, RankField, ChanField]
      case Scheme5 => [BankField, RankField, ColumnField, RowField, ChanField]
      case Scheme6 => [ColumnField, RankField, BankField, RowField, ChanField]
      case Scheme7 => [ChanField, BankField, RankField, ColumnField, RowField];
    assert o[0] in o && o[1] in o && o[2] in o && o[3] in o && o[4] in o;
    o
  }

  function Widths(g: Geometry, fields: seq<Field>): (ws: seq<nat>)
    ensures |ws| == |fields|
    ensures forall i :: 0 <= i < |ws| ==> ws[i] == g.Width(fields[i])
  {
    seq(|fields|, i requires 0 <= i < |fields| => g.Width(fields[i]))
  }

  function Digits(c: Coord, fields: seq<Field>): (ds: seq<nat>)
    ensures |ds| == |fields|
    ensures forall i :: 0 <= i < |ds| ==> ds[i] == c.Get(fields[i])
  {
    seq(|fields|, i requires 0 <= i < |fields| => c.Get(fields[i]))
  }

  function Position(s: Scheme, f: Field): (p: nat)
    ensures p < 5 && Order(s)[p] == f
  {
    var o := Order(s);
    assert f.ChanField? || f.RankField? || f.BankField? || f.RowField? || f.ColumnField?;
    if o[0] == f then 0 else if o[1] == f then 1 else if o[2] == f then 2 else if o[3] == f then 3 else 4
  }

  // ---------- reference decoding and encoding ----------

  /** The coordinates of transaction number n: its mixed-radix digits in the scheme's order. */
  function Decode(g: Geometry, s: Scheme, n: nat): Coord {
    var ds := Split(n, Widths(g, Order(s)));
    Coord(ds[Position(s, ChanField)], ds[Position(s, RankField)], ds[Position(s, BankField)],
          ds[Position(s, RowField)], ds[Position(s, ColumnField)])
  }

  /** The transaction number that has the given coordinates. */
  function Encode(g: Geometry, s: Scheme, c: Coord): nat {
    Join(Digits(c, Order(s)), Widths(g, Order(s)))
  }

  /** The byte address of a coordinate tuple: its transaction number with zero low bits. */
  function Recompose(g: Geometry, s: Scheme, c: Coord): nat {
    Shl(Encode(g, s, c), g.LowBits())
  }

  /** The transaction number of a byte address. */
  function Index(g: Geometry, address: nat): nat {
    Shr(address, g.LowBits())
  }

  // ---------- the decoder ----------

  /** One extraction: shift the field out, shift back, xor with the original. */
  method TakeField(physicalAddress: Word, width: nat) returns (rest: Word, field: nat)
    requires width <= 32
    ensures Value(rest) == Shr(Value(physicalAddress), width)
    ensures field == Low(Value(physicalAddress), width)
  {
    var tempA := physicalAddress;
    rest := ShiftRight(physicalAddress, width);
    var tempB := ShiftLeft(rest, width);
    field := ToUnsigned(Xor(tempA, tempB));
    ShiftRightValue(physicalAddress, width);
    XorOfShiftBackUnsigned(physicalAddress, width);
  }

  /** Five extractions in a row, in the given field order. */
  method TakeFields(g: Geometry, address: Word, fields: seq<Field>)
    returns (ds: seq<nat>)
    requires g.Valid() && |fields| == 5
    ensures ds == Split(Value(address), Widths(g, fields))
  {
    var physicalAddress := address;
    var d0, d1, d2, d3, d4;
    physicalAddress, d0 := TakeField(physicalAddress, g.Width(fields[0]));
    physicalAddress, d1 := TakeField(physicalAddress, g.Width(fields[1]));
    physicalAddress, d2 := TakeField(physicalAddress, g.Width(fields[2]));
    physicalAddress, d3 := TakeField(physicalAddress, g.Width(fields[3]));
    physicalAddress, d4 := TakeField(physicalAddress, g.Width(fields[4]));
    SplitFive(Value(address), Widths(g, fields));
    ds := [d0, d1, d2, d3, d4];
  }

  /** The alignment warning: the address has a bit below the transaction size. */
  method IsMisaligned(g: Geometry, address: Word) returns (misaligned: bool)
    requires g.Valid()
    ensures misaligned <==> Low(Value(address), g.LowBits()) != 0
  {
    var transactionMask := ToWord(g.transactionSize - 1);
    misaligned := And(address, transactionMask) != Zeros(64);
    AndOfMask(address, g.LowBits());
  }

  method Map(g: Geometry, scheme: Scheme, address: Word) returns (misaligned: bool, c: Coord)
    requires g.Valid()
    ensures misaligned <==> Low(Value(address), g.LowBits()) != 0
    ensures c == Decode(g, scheme, Index(g, Value(address)))
  {
    misaligned := IsMisaligned(g, address);
    var afterOffset := ShiftRight(address, g.byteOffsetBits);
    var physicalAddress := ShiftRight(afterOffset, g.colLowBits);
    ShiftRightValue(address, g.byteOffsetBits);
    ShiftRightValue(afterOffset, g.colLowBits);
    ShrShr(Value(address), g.byteOffsetBits, g.colLowBits);

    c := MapIndex(g, scheme, physicalAddress);
  }

  /** The seven branches, on the address without its discarded low bits. */
  method MapIndex(g: Geometry, scheme: Scheme, physicalAddress: Word) returns (c: Coord)
    requires g.Valid()
    ensures c == Decode(g, scheme, Value(physicalAddress))
  {
    match scheme {
      case Scheme1 =>
        var d := TakeFields(g, physicalAddress, [BankField, ColumnField, RowField, RankField, ChanField]);
        c := Coord(d[4], d[3], d[0], d[2], d[1]);
        Placed(g, scheme, Value(physicalAddress), d, c);
      case Scheme2 =>
        var d := TakeFields(g, physicalAddress, [RankField, BankField, ColumnField, RowField, ChanField]);
        c := Coord(d[4], d[0], d[1], d[3], d[2]);
        Placed(g, scheme, Value(physicalAddress), d, c);
      case Scheme3 =>
        var d := TakeFields(g, physicalAddress, [RowField, ColumnField, BankField, RankField, ChanField]);
        c := Coord(d[4], d[3], d[2], d[0], d[1]);
        Placed(g, scheme, Value(physicalAddress), d, c);
      case Scheme4 =>
        var d := TakeFields(g, physicalAddress, [ColumnField, RowField, BankField, RankField, ChanField]);
        c := Coord(d[4], d[3], d[2], d[1], d[0]);
        Placed(g, scheme, Value(physicalAddress), d, c);
      case Scheme5 =>
        var d := TakeFields(g, physicalAddress, [BankField, RankField, ColumnField, RowField, ChanField]);
        c := Coord(d[4], d[1], d[0], d[3], d[2]);
        Placed(g, scheme, Value(physicalAddress), d, c);
      case Scheme6 =>
        var d := TakeFields(g, physicalAddress, [ColumnField, RankField, BankField, RowField, ChanField]);
        c := Coord(d[4], d[1], d[2], d[3], d[0]);
        Placed(g, scheme, Value(physicalAddress), d, c);
      case Scheme7 =>
        var d := TakeFields(g, physicalAddress, [ChanField, BankField, RankField, ColumnField, RowField]);
        c := Coord(d[0], d[2], d[1], d[4], d[3]);
        Placed(g, scheme, Value(physicalAddress), d, c);
    }
  }

  lemma Placed(g: Geometry, s: Scheme, n: nat, d: seq<nat>, c: Coord)
    requires d == Split(n, Widths(g, Order(s)))
    requires d[0] == c.Get(Order(s)[0]) && d[1] == c.Get(Order(s)[1]) && d[2] == c.Get(Order(s)[2])
    requires d[3] == c.Get(Order(s)[3]) && d[4] == c.Get(Order(s)[4])
    ensures c == Decode(g, s, n)
  {
  }

  lemma SplitFive(n: nat, ws: seq<nat>)
    requires |ws| == 5
    ensures var n1 := Shr(n, ws[0]);
            var n2 := Shr(n1, ws[1]);
            var n3 := Shr(n2, ws[2]);
            var n4 := Shr(n3, ws[3]);
            Split(n, ws) == [Low(n, ws[0]), Low(n1, ws[1]), Low(n2, ws[2]), Low(n3, ws[3]), Low(n4, ws[4])]
  {
    var n1 := Shr(n, ws[0]);
    var n2 := Shr(n1, ws[1]);
    var n3 := Shr(n2, ws[2]);
    var n4 := Shr(n3, ws[3]);
    var w1, w2, w3, w4 := ws[1..], ws[2..], ws[3..], ws[4..];
    assert w1[1..] == w2 && w2[1..] == w3 && w3[1..] == w4 && w4[1..] == [];
    assert Split(n, ws) == [Low(n, ws[0])] + Split(n1, w1);
    assert Split(n1, w1) == [Low(n1, ws[1])] + Split(n2, w2);
    assert Split(n2, w2) == [Low(n2, ws[2])] + Split(n3, w3);
    assert Split(n3, w3) == [Low(n3, ws[3])] + Split(n4, w4);
    assert Split(n4, w4) == [Low(n4, ws[4])];
  }

  // ---------- what the decoding means ----------

  lemma OrderTotals(g: Geometry, s: Scheme)
    ensures Total(Widths(g, Order(s))) == g.IndexBits()
  {
    var ws := Widths(g, Order(s));
    var w1, w2, w3, w4, w5 := ws[1..], ws[2..], ws[3..], ws[4..], ws[5..];
    assert w1[1..] == w2 && w2[1..] == w3 && w3[1..] == w4 && w4[1..] == w5 == [];
    assert Total(w4) == ws[4];
    assert Total(w3) == ws[3] + ws[4];
    assert Total(w2) == ws[2] + ws[3] + ws[4];
    assert Total(ws) == ws[0] + ws[1] + ws[2] + ws[3] + ws[4];
  }

  lemma DecodeDigits(g: Geometry, s: Scheme, n: nat)
    ensures Digits(Decode(g, s, n), Order(s)) == Split(n, Widths(g, Order(s)))
  {
    var ds := Split(n, Widths(g, Order(s)));
    var c := Decode(g, s, n);
    forall i | 0 <= i < 5 ensures c.Get(Order(s)[i]) == ds[i] {
      assert Position(s, Order(s)[i]) == i;
    }
  }

  lemma DigitsDetermine(s: Scheme, c: Coord, d: Coord)
    requires Digits(c, Order(s)) == Digits(d, Order(s))
    ensures c == d
  {
  }

  lemma DecodeGet(g: Geometry, s: Scheme, n: nat, f: Field)
    ensures Decode(g, s, n).Get(f) == Split(n, Widths(g, Order(s)))[Position(s, f)]
  {
  }

  /** Every decoded field is below two to its width, so storing it into an unsigned loses nothing. */
  lemma DecodeInRange(g: Geometry, s: Scheme, n: nat)
    ensures g.Contains(Decode(g, s, n))
  {
    var ws := Widths(g, Order(s));
    SplitInRange(n, ws);
    forall f: Field ensures Decode(g, s, n).Get(f) < Pow2(g.Width(f)) {
      DecodeGet(g, s, n, f);
    }
  }

  lemma AliasingLow(g: Geometry, s: Scheme, m: nat, n: nat)
    ensures Decode(g, s, m) == Decode(g, s, n) <==> Low(m, g.IndexBits()) == Low(n, g.IndexBits())
  {
    SplitCongruent(m, n, Widths(g, Order(s)));
    OrderTotals(g, s);
    DecodeDigits(g, s, m);
    DecodeDigits(g, s, n);
  }

  /** Two transactions share their coordinates exactly when they are congruent modulo the capacity. */
  lemma Aliasing(g: Geometry, s: Scheme, m: nat, n: nat)
    ensures Decode(g, s, m) == Decode(g, s, n) <==> m % Pow2(g.IndexBits()) == n % Pow2(g.IndexBits())
  {
    AliasingLow(g, s, m, n);
    ShrLowAreDivMod(m, g.IndexBits());
    ShrLowAreDivMod(n, g.IndexBits());
  }

  /** Encoding what was decoded gives the transaction back, up to the capacity. */
  lemma EncodeDecode(g: Geometry, s: Scheme, n: nat)
    ensures Encode(g, s, Decode(g, s, n)) == n % Pow2(g.IndexBits())
  {
    DecodeDigits(g, s, n);
    JoinSplit(n, Widths(g, Order(s)));
    OrderTotals(g, s);
    ShrLowAreDivMod(n, g.IndexBits());
  }

  /** Every coordinate tuple in range is the image of its encoding, which is within the capacity. */
  lemma DecodeEncode(g: Geometry, s: Scheme, c: Coord)
    requires g.Contains(c)
    ensures Encode(g, s, c) < Pow2(g.IndexBits())
    ensures Decode(g, s, Encode(g, s, c)) == c
  {
    var ws, ds := Widths(g, Order(s)), Digits(c, Order(s));
    assert InRange(ds, ws);
    SplitJoin(ds, ws);
    OrderTotals(g, s);
    DecodeDigits(g, s, Encode(g, s, c));
    DigitsDetermine(s, c, Decode(g, s, Encode(g, s, c)));
  }

  /** Recomposing an in-range address clears its low bits, and changes it exactly when the
      decoder's misalignment warning fires. */
  lemma RecomposeMap(g: Geometry, s: Scheme, address: nat)
    requires address < Pow2(g.LowBits() + g.IndexBits())
    ensures Recompose(g, s, Decode(g, s, Index(g, address))) == address - Low(address, g.LowBits())
    ensures Recompose(g, s, Decode(g, s, Index(g, address))) != address <==> Low(address, g.LowBits()) != 0
  {
    IndexInRange(g, address);
    EncodeInRange(g, s, Index(g, address));
    Recombine(address, g.LowBits());
  }

  lemma IndexInRange(g: Geometry, address: nat)
    ensures address < Pow2(g.LowBits() + g.IndexBits()) <==> Index(g, address) < Pow2(g.IndexBits())
  {
    var n := Index(g, address);
    Recombine(address, g.LowBits());
    Pow2Add(g.LowBits(), g.IndexBits());
    if n >= Pow2(g.IndexBits()) {
      ShlMonotone(Pow2(g.IndexBits()), n, g.LowBits());
    } else {
      ShlMonotone(n, Pow2(g.IndexBits()), g.LowBits());
    }
  }

  /** Every in-range coordinate tuple comes from exactly one aligned in-range address. */
  lemma UniqueAlignedAddress(g: Geometry, s: Scheme, c: Coord, address: nat)
    requires g.Contains(c)
    ensures address < Pow2(g.LowBits() + g.IndexBits()) && Low(address, g.LowBits()) == 0
            && Decode(g, s, Index(g, address)) == c
            <==> address == Recompose(g, s, c)
  {
    var e := Encode(g, s, c);
    DecodeEncode(g, s, c);
    Unplace(0, e, g.LowBits());
    Pow2Add(g.LowBits(), g.IndexBits());
    ShlMonotone(e, Pow2(g.IndexBits()), g.LowBits());
    if address < Pow2(g.LowBits() + g.IndexBits()) {
      RecomposeMap(g, s, address);
    }
  }

  // ---------- comparing schemes ----------

  /** The transaction that scheme t stores where scheme s stores transaction n. */
  function Remap(g: Geometry, s: Scheme, t: Scheme, n: nat): nat {
    Encode(g, t, Decode(g, s, n))
  }

  /** Decoding with one scheme and encoding with another permutes the in-range transactions:
      it stays in range and is undone by the swapped pair. */
  lemma RemapIsPermutation(g: Geometry, s: Scheme, t: Scheme, n: nat)
    requires n < Pow2(g.IndexBits())
    ensures Remap(g, s, t, n) < Pow2(g.IndexBits())
    ensures Remap(g, t, s, Remap(g, s, t, n)) == n
  {
    var c := Decode(g, s, n);
    DecodeInRange(g, s, n);
    DecodeEncode(g, t, c);
    assert Decode(g, t, Remap(g, s, t, n)) == c;
    EncodeInRange(g, s, n);
  }

  lemma EncodeInRange(g: Geometry, s: Scheme, n: nat)
    requires n < Pow2(g.IndexBits())
    ensures Encode(g, s, Decode(g, s, n)) == n
  {
    DecodeDigits(g, s, n);
    JoinSplit(n, Widths(g, Order(s)));
    OrderTotals(g, s);
    LowSmall(n, g.IndexBits());
  }

  lemma DecodeScheme7(g: Geometry, n: nat)
    ensures var ds := Split(n, Widths(g, Order(Scheme7)));
            Decode(g, Scheme7, n) == Coord(ds[0], ds[2], ds[1], ds[4], ds[3])
  {
  }

  lemma DecodeScheme5(g: Geometry, n: nat)
    ensures var ds := Split(n, Widths(g, Order(Scheme5)));
            Decode(g, Scheme5, n) == Coord(ds[4], ds[1], ds[0], ds[3], ds[2])
  {
  }

  lemma SharedFields(g: Geometry, n: nat)
    ensures var shared := Split(Shr(n, g.chanBits), Widths(g, [BankField, RankField, ColumnField, RowField]));
            && Split(n, Widths(g, Order(Scheme7))) == [Low(n, g.chanBits)] + shared
            && Split(Shr(n, g.chanBits), Widths(g, Order(Scheme5)))[..4] == shared
  {
    var us := Widths(g, [BankField, RankField, ColumnField, RowField]);
    assert Widths(g, Order(Scheme7)) == [g.chanBits] + us;
    assert ([g.chanBits] + us)[1..] == us;
    assert Widths(g, Order(Scheme5)) == us + [g.chanBits];
    SplitConcat(Shr(n, g.chanBits), us, [g.chanBits]);
  }

  /** Scheme7 is Scheme5 on the transaction with its channel bits removed from the bottom. */
  lemma Scheme7FollowsScheme5(g: Geometry, n: nat)
    ensures Decode(g, Scheme7, n) == Decode(g, Scheme5, Shr(n, g.chanBits)).(chan := Low(n, g.chanBits))
  {
    SharedFields(g, n);
    var ds7, ds5 := Split(n, Widths(g, Order(Scheme7))), Split(Shr(n, g.chanBits), Widths(g, Order(Scheme5)));
    assert ds7[1] == ds5[..4][0] && ds7[2] == ds5[..4][1] && ds7[3] == ds5[..4][2] && ds7[4] == ds5[..4][3];
    DecodeScheme7(g, n);
    DecodeScheme5(g, Shr(n, g.chanBits));
  }

  /** With a single channel the two schemes are the same mapping. */
  lemma Scheme7IsScheme5(g: Geometry, n: nat)
    requires g.chanBits == 0
    ensures Decode(g, Scheme7, n) == Decode(g, Scheme5, n)
  {
    Scheme7FollowsScheme5(g, n);
    SingleChannel(g, n);
  }

  lemma SingleChannel(g: Geometry, n: nat)
    requires g.chanBits == 0
    ensures Decode(g, Scheme5, n).chan == 0
  {
    DecodeInRange(g, Scheme5, n);
    assert Decode(g, Scheme5, n).Get(ChanField) < Pow2(g.Width(ChanField));
  }

  // ---------- interleaving ----------

  /** Total width of the first k fields of a scheme. */
  function PrefixBits(g: Geometry, s: Scheme, k: nat): nat
    requires k <= 5
  {
    Total(Widths(g, Order(s)[..k]))
  }

  /** The transaction of a window of 2^W consecutive ones that visits a given combination of
      the first k fields, W being their total width. */
  function Visit(g: Geometry, s: Scheme, k: nat, start: nat, c: Coord): (n: nat)
    requires k <= 5 && g.Contains(c)
  {
    var ds, ws := Digits(c, Order(s)[..k]), Widths(g, Order(s)[..k]);
    assert InRange(ds, ws);
    SplitJoin(ds, ws);
    InWindow(start, PrefixBits(g, s, k), Join(ds, ws))
  }

  lemma SplitAtField(g: Geometry, s: Scheme, k: nat, n: nat)
    requires k <= 5
    ensures Split(n, Widths(g, Order(s)))
         == Split(n, Widths(g, Order(s)[..k])) + Split(Shr(n, PrefixBits(g, s, k)), Widths(g, Order(s)[k..]))
  {
    var o := Order(s);
    assert Widths(g, o) == Widths(g, o[..k]) + Widths(g, o[k..]);
    SplitConcat(n, Widths(g, o[..k]), Widths(g, o[k..]));
  }

  lemma PrefixDigits(g: Geometry, s: Scheme, k: nat, n: nat)
    requires k <= 5
    ensures Digits(Decode(g, s, n), Order(s)[..k]) == Split(n, Widths(g, Order(s)[..k]))
  {
    SplitAtField(g, s, k, n);
    DecodeDigits(g, s, n);
    assert Digits(Decode(g, s, n), Order(s))[..k] == Digits(Decode(g, s, n), Order(s)[..k]);
  }

  lemma SuffixDigits(g: Geometry, s: Scheme, k: nat, n: nat)
    requires k <= 5
    ensures Digits(Decode(g, s, n), Order(s)[k..])
         == Split(Shr(n, PrefixBits(g, s, k)), Widths(g, Order(s)[k..]))
  {
    SplitAtField(g, s, k, n);
    DecodeDigits(g, s, n);
    assert Digits(Decode(g, s, n), Order(s))[k..] == Digits(Decode(g, s, n), Order(s)[k..]);
  }

  /** Any 2^W consecutive transactions visit each combination of the first k fields exactly once. */
  lemma Interleaving(g: Geometry, s: Scheme, k: nat, start: nat, c: Coord, n: nat)
    requires k <= 5 && g.Contains(c)
    requires start <= n < start + Pow2(PrefixBits(g, s, k))
    ensures start <= Visit(g, s, k, start, c) < start + Pow2(PrefixBits(g, s, k))
    ensures Digits(Decode(g, s, n), Order(s)[..k]) == Digits(c, Order(s)[..k])
            <==> n == Visit(g, s, k, start, c)
  {
    var ds, ws, w := Digits(c, Order(s)[..k]), Widths(g, Order(s)[..k]), PrefixBits(g, s, k);
    var v := Visit(g, s, k, start, c);
    assert InRange(ds, ws);
    SplitJoin(ds, ws);
    LowSmall(Join(ds, ws), w);
    SplitCongruent(v, Join(ds, ws), ws);
    PrefixDigits(g, s, k, v);
    PrefixDigits(g, s, k, n);
    if Split(n, ws) == ds {
      SplitCongruent(n, v, ws);
      WindowUnique(start, w, n, v);
    }
  }

  /** In a window aligned to 2^W, all fields above the first k keep one value. */
  lemma AlignedWindowLocality(g: Geometry, s: Scheme, k: nat, start: nat, n: nat)
    requires k <= 5 && start % Pow2(PrefixBits(g, s, k)) == 0
    requires start <= n < start + Pow2(PrefixBits(g, s, k))
    ensures forall i :: k <= i < 5 ==>
              Decode(g, s, n).Get(Order(s)[i]) == Decode(g, s, start).Get(Order(s)[i])
  {
    ShrLowAreDivMod(start, PrefixBits(g, s, k));
    WindowAligned(start, PrefixBits(g, s, k), n);
    SuffixDigits(g, s, k, n);
    SuffixDigits(g, s, k, start);
    var a, b := Digits(Decode(g, s, n), Order(s)[k..]), Digits(Decode(g, s, start), Order(s)[k..]);
    forall i | k <= i < 5
      ensures Decode(g, s, n).Get(Order(s)[i]) == Decode(g, s, start).Get(Order(s)[i])
    {
      assert Order(s)[k..][i - k] == Order(s)[i];
      assert a[i - k] == b[i - k];
    }
  }
}
