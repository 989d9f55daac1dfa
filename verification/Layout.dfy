/**
 The positional layout of a processor description.  The components of a system are read by
 position: all cores first, then the directories, caches and networks of each class, then
 the four controllers.  A class declared homogeneous has one component; otherwise it has as
 many as its declared number.  Counters are 32-bit unsigned.
 */
module Layout {

  const WORD: int := 0x1_0000_0000
  const HALF: int := 0x8000_0000

  function U32(x: int): int {
    x % WORD
  }

  /** The signed reading of an unsigned counter. */
  function Signed(u: int): int {
    if u < HALF then u else u - WORD
  }

  datatype Kind = Core | L1Directory | L2Directory | L2 | L3 | NoC | Mc | Niu | Pcie | Flash

  datatype Component = Component(name: string, id: string)

  /** A declared class: its homogeneity flag and its number of instances. */
  datatype Class = Class(homogeneous: int, number: int)

  datatype Config = Config(cores: Class, l1dirs: Class, l2dirs: Class, l2s: Class, l3s: Class, nocs: Class)

  /** Instance `slot` of class `kind` is filled from component number `child`. */
  datatype Reading = Reading(kind: Kind, slot: nat, child: int)

  predicate OccursAt(s: string, part: string, i: int) {
    0 <= i <= |s| - |part| && s[i..i + |part|] == part
  }

  predicate Contains(s: string, part: string) {
    exists i | 0 <= i <= |s| :: OccursAt(s, part, i)
  }

  /** The attribute test each class applies to a component. */
  predicate Fits(kind: Kind, c: Component) {
    match kind
    case Core => Contains(c.name, "core")
    case L1Directory => Contains(c.id, "L1Directory")
    case L2Directory => Contains(c.id, "L2Directory")
    case L2 => Contains(c.name, "L2")
    case L3 => Contains(c.name, "L3")
    case NoC => Contains(c.name, "noc")
    case Mc => Contains(c.id, "system.mc")
    case Niu => Contains(c.id, "system.niu")
    case Pcie => Contains(c.id, "system.pcie")
    case Flash => Contains(c.id, "system.flashc")
  }

  /** Positions outside the list are empty, except that negative ones mean the last. */
  predicate Present(cs: seq<Component>, j: int) {
    j < |cs| && cs != []
  }

  function Child(cs: seq<Component>, j: int): Component
    requires Present(cs, j)
  {
    if j < 0 then cs[|cs| - 1] else cs[j]
  }

  // ---------- what the layout promises ----------

  /** Components of a class, read as 32-bit arithmetic has it. */
  function Entries(c: Class): nat {
    if c.homogeneous == 1 then 1 else U32(c.number)
  }

  /** The core counter starts one lower and its loop runs once more. */
  function CoreEntries(c: Class): nat {
    if c.homogeneous == 1 then 1 else U32(c.number - 1) + 1
  }

  /** Slots 0 to n-1 of a class, from consecutive components. */
  function Block(kind: Kind, first: int, n: nat): (b: seq<Reading>)
    ensures |b| == n
    ensures forall i :: 0 <= i < n ==> b[i] == Reading(kind, i, first + i)
  {
    seq(n, i requires 0 <= i < n => Reading(kind, i, first + i))
  }

  /** Components first to first+n-1 exist and pass the test of the class. */
  ghost predicate Filled(cs: seq<Component>, kind: Kind, first: nat, n: nat) {
    first + n <= |cs| && forall i: nat :: first <= i < first + n ==> Fits(kind, cs[i])
  }

  // ---------- the reading loops ----------

  method ReadCores(cs: seq<Component>, c: Class) returns (ok: bool, order: int, readings: seq<Reading>)
    requires 0 < |cs| < HALF
    ensures ok <==> Filled(cs, Core, 0, CoreEntries(c))
    ensures ok ==> order == CoreEntries(c) - 1 && readings == Block(Core, 0, CoreEntries(c))
  {
    readings := [];
    order := if c.homogeneous == 1 then 0 else U32(c.number - 1);
    var i := 0;
    while i <= order
      invariant 0 <= i <= order + 1 && i <= |cs|
      invariant Filled(cs, Core, 0, i) && readings == Block(Core, 0, i)
    {
      if !Present(cs, Signed(i)) || !Fits(Core, Child(cs, Signed(i))) {
        return false, order, readings;
      }
      readings := readings + [Reading(Core, i, i)];
      i := i + 1;
    }
    ok := true;
  }

  /** The counter moved past a class. */
  function Past(c: Class, order0: int): int {
    if c.homogeneous == 1 then U32(order0 + 1) else U32(order0 + c.number)
  }

  /** The difference of the counters is the number of components, even around 2^32. */
  lemma PastIs(c: Class, order0: nat)
    requires order0 < WORD
    ensures U32(Past(c, order0) - order0) == Entries(c)
    ensures Past(c, order0) == U32(order0 + Entries(c))
  {
  }

  /** The directories and caches: every component read must pass the test. */
  method ReadClass(cs: seq<Component>, kind: Kind, c: Class, order0: nat)
    returns (ok: bool, order: int, readings: seq<Reading>)
    requires order0 < |cs| < HALF
    ensures ok <==> Filled(cs, kind, order0 + 1, Entries(c))
    ensures ok ==> order == order0 + Entries(c) && readings == Block(kind, order0 + 1, Entries(c))
  {
    var w := Signed(U32(order0 + 1));
    order := Past(c, order0);
    PastIs(c, order0);
    ok, readings := ClassLoop(cs, kind, w, U32(order - order0));
  }

  method ClassLoop(cs: seq<Component>, kind: Kind, first: nat, count: nat)
    returns (ok: bool, readings: seq<Reading>)
    requires first <= |cs|
    ensures ok <==> Filled(cs, kind, first, count)
    ensures ok ==> readings == Block(kind, first, count)
  {
    var w, i := first, 0;
    readings := [];
    while i < count
      invariant 0 <= i <= count && w == first + i <= |cs|
      invariant Filled(cs, kind, first, i) && readings == Block(kind, first, i)
    {
      if !Present(cs, w) || !Fits(kind, Child(cs, w)) {
        return false, readings;
      }
      readings := readings + [Reading(kind, i, w)];
      w := w + 1;
      i := i + 1;
    }
    ok := true;
  }

  /** The loop over the networks got past the first p of n and then met components of another
      name for the rest of its passes, or got past all of them. */
  ghost predicate Passes(cs: seq<Component>, first: nat, n: nat, p: nat) {
    && p <= n
    && Filled(cs, NoC, first, p)
    && (p < n ==> first + p < |cs| && !Fits(NoC, cs[first + p]))
  }

  /** Every remaining component is a network, and there are fewer than n. */
  ghost predicate RunsOut(cs: seq<Component>, first: nat, n: nat) {
    first <= |cs| < first + n && Filled(cs, NoC, first, |cs| - first)
  }

  /** The networks: a component of another name is not read and the position stays, without
      an error. */
  method ReadNoCs(cs: seq<Component>, c: Class, order0: nat)
    returns (ok: bool, order: int, readings: seq<Reading>, ghost p: nat)
    requires order0 < |cs| < HALF
    ensures order == U32(order0 + Entries(c))
    ensures ok ==> Passes(cs, order0 + 1, Entries(c), p) && readings == Block(NoC, order0 + 1, p)
    ensures !ok ==> RunsOut(cs, order0 + 1, Entries(c))
  {
    var w := Signed(U32(order0 + 1));
    order := Past(c, order0);
    PastIs(c, order0);
    ok, readings, p := NoCLoop(cs, w, U32(order - order0));
  }

  method NoCLoop(cs: seq<Component>, first: nat, count: nat)
    returns (ok: bool, readings: seq<Reading>, ghost p: nat)
    requires first <= |cs|
    ensures ok ==> Passes(cs, first, count, p) && readings == Block(NoC, first, p)
    ensures !ok ==> RunsOut(cs, first, count)
  {
    var w, i := first, 0;
    p := 0;
    readings := [];
    while i < count
      invariant 0 <= p <= i <= count && w == first + p
      invariant Filled(cs, NoC, first, p) && readings == Block(NoC, first, p)
      invariant p < i ==> w < |cs| && !Fits(NoC, cs[w])
    {
      if !Present(cs, w) {
        return false, readings, p;
      }
      if Fits(NoC, Child(cs, w)) {
        readings := readings + [Reading(NoC, i, w)];
        w := w + 1;
        p := p + 1;
      }
      i := i + 1;
    }
    ok := true;
  }

  /** Where the next controller is looked for. */
  function Advance(order: int): int {
    if order > 0 then U32(order + 1) else order
  }

  method ReadController(cs: seq<Component>, kind: Kind, order0: int)
    returns (ok: bool, order: int, reading: Reading)
    ensures order == Advance(order0)
    ensures ok <==> Present(cs, Signed(order)) && Fits(kind, Child(cs, Signed(order)))
    ensures reading == Reading(kind, 0, Signed(order))
  {
    order := order0;
    if order > 0 {
      order := U32(order + 1);
    }
    reading := Reading(kind, 0, Signed(order));
    ok := Present(cs, Signed(order)) && Fits(kind, Child(cs, Signed(order)));
  }

  // ---------- the whole description ----------

  /** How many components of each class are read. */
  datatype Counts = Counts(cores: nat, l1dirs: nat, l2dirs: nat, l2s: nat, l3s: nat, nocs: nat)

  function Counted(g: Config): Counts {
    Counts(CoreEntries(g.cores), Entries(g.l1dirs), Entries(g.l2dirs), Entries(g.l2s), Entries(g.l3s), Entries(g.nocs))
  }

  function Count(n: Counts, kind: Kind): nat {
    match kind
    case Core => n.cores
    case L1Directory => n.l1dirs
    case L2Directory => n.l2dirs
    case L2 => n.l2s
    case L3 => n.l3s
    case NoC => n.nocs
    case _ => 1
  }

  /** Components of the classes before this one. */
  function Before(n: Counts, kind: Kind): nat {
    match kind
    case Core => 0
    case L1Directory => n.cores
    case L2Directory => n.cores + n.l1dirs
    case L2 => n.cores + n.l1dirs + n.l2dirs
    case L3 => n.cores + n.l1dirs + n.l2dirs + n.l2s
    case NoC => n.cores + n.l1dirs + n.l2dirs + n.l2s + n.l3s
    case Mc => n.cores + n.l1dirs + n.l2dirs + n.l2s + n.l3s + n.nocs
    case Niu => Total(n) + 1
    case Pcie => Total(n) + 2
    case Flash => Total(n) + 3
  }

  function Total(n: Counts): nat {
    n.cores + n.l1dirs + n.l2dirs + n.l2s + n.l3s + n.nocs
  }

  ghost predicate ClassFilled(cs: seq<Component>, n: Counts, kind: Kind) {
    Filled(cs, kind, Before(n, kind), Count(n, kind))
  }

  ghost predicate CachesFilled(cs: seq<Component>, n: Counts) {
    && ClassFilled(cs, n, Core)
    && ClassFilled(cs, n, L1Directory)
    && ClassFilled(cs, n, L2Directory)
    && ClassFilled(cs, n, L2)
    && ClassFilled(cs, n, L3)
  }

  function ClassBlock(n: Counts, kind: Kind): seq<Reading> {
    Block(kind, Before(n, kind), Count(n, kind))
  }

  function CacheReadings(n: Counts): (r: seq<Reading>)
    ensures |r| == Before(n, NoC)
  {
    ClassBlock(n, Core) + ClassBlock(n, L1Directory) + ClassBlock(n, L2Directory) + ClassBlock(n, L2) + ClassBlock(n, L3)
  }

  /** The counter when the networks are done. */
  function Order(n: Counts): int {
    U32(Total(n) - 1)
  }

  predicate ControllerFits(cs: seq<Component>, kind: Kind, order: int) {
    Present(cs, Signed(order)) && Fits(kind, Child(cs, Signed(order)))
  }

  predicate ControllersFit(cs: seq<Component>, o: int) {
    && ControllerFits(cs, Mc, Advance(o))
    && ControllerFits(cs, Niu, Advance(Advance(o)))
    && ControllerFits(cs, Pcie, Advance(Advance(Advance(o))))
    && ControllerFits(cs, Flash, Advance(Advance(Advance(Advance(o)))))
  }

  function Controllers(o: int): (r: seq<Reading>)
    ensures |r| == 4
  {
    [Reading(Mc, 0, Signed(Advance(o))),
     Reading(Niu, 0, Signed(Advance(Advance(o)))),
     Reading(Pcie, 0, Signed(Advance(Advance(Advance(o))))),
     Reading(Flash, 0, Signed(Advance(Advance(Advance(Advance(o))))))]
  }

  /** The description is accepted, and p networks are read. */
  ghost predicate Accepts(cs: seq<Component>, n: Counts, p: nat) {
    && CachesFilled(cs, n)
    && Passes(cs, Before(n, NoC), Count(n, NoC), p)
    && ControllersFit(cs, Order(n))
  }

  function Readings(n: Counts, p: nat): (r: seq<Reading>)
    ensures |r| == Before(n, NoC) + p + 4
  {
    CacheReadings(n) + (Block(NoC, Before(n, NoC), p) + Controllers(Order(n)))
  }

  method ReadCaches(cs: seq<Component>, g: Config) returns (ok: bool, order: int, readings: seq<Reading>)
    requires 0 < |cs| < HALF
    ensures ok <==> CachesFilled(cs, Counted(g))
    ensures ok ==> 0 <= order == Before(Counted(g), NoC) - 1 < |cs| && readings == CacheReadings(Counted(g))
  {
    ok, order, readings := ReadCores(cs, g.cores);
    if !ok { return; }
    var more;
    ok, order, more := ReadClass(cs, L1Directory, g.l1dirs, order);
    if !ok { return; }
    readings := readings + more;
    ok, order, more := ReadClass(cs, L2Directory, g.l2dirs, order);
    if !ok { return; }
    readings := readings + more;
    ok, order, more := ReadClass(cs, L2, g.l2s, order);
    if !ok { return; }
    readings := readings + more;
    ok, order, more := ReadClass(cs, L3, g.l3s, order);
    if !ok { return; }
    readings := readings + more;
  }

  method ReadControllers(cs: seq<Component>, order0: int) returns (ok: bool, readings: seq<Reading>)
    ensures ok <==> ControllersFit(cs, order0)
    ensures ok ==> readings == Controllers(order0)
  {
    var order, r;
    ok, order, r := ReadController(cs, Mc, order0);
    readings := [r];
    if !ok { return; }
    ok, order, r := ReadController(cs, Niu, order);
    readings := readings + [r];
    if !ok { return; }
    ok, order, r := ReadController(cs, Pcie, order);
    readings := readings + [r];
    if !ok { return; }
    ok, order, r := ReadController(cs, Flash, order);
    readings := readings + [r];
  }

  /** The description is refused with an error. */
  ghost predicate Refuses(cs: seq<Component>, n: Counts) {
    !CachesFilled(cs, n) || RunsOut(cs, Before(n, NoC), n.nocs) || !ControllersFit(cs, Order(n))
  }

  lemma RefusesMeans(cs: seq<Component>, n: Counts, p: nat)
    requires Refuses(cs, n)
    ensures !Accepts(cs, n, p)
  {
  }

  method ReadRest(cs: seq<Component>, g: Config, order0: nat)
    returns (ok: bool, readings: seq<Reading>, ghost p: nat)
    requires order0 < |cs| < HALF && order0 == Before(Counted(g), NoC) - 1
    ensures ok ==> Passes(cs, Before(Counted(g), NoC), Counted(g).nocs, p) && ControllersFit(cs, Order(Counted(g)))
    ensures ok ==> readings == Block(NoC, Before(Counted(g), NoC), p) + Controllers(Order(Counted(g)))
    ensures !ok ==> RunsOut(cs, Before(Counted(g), NoC), Counted(g).nocs) || !ControllersFit(cs, Order(Counted(g)))
  {
    var order, more;
    OrderIs(g, order0);
    ok, order, readings, p := ReadNoCs(cs, g.nocs, order0);
    if ok {
      ok, more := ReadControllers(cs, order);
      readings := readings + more;
    }
  }

  /** Reads a whole description; without components nothing is read. */
  method Parse(cs: seq<Component>, g: Config) returns (ok: bool, readings: seq<Reading>, ghost p: nat)
    requires |cs| < HALF
    ensures cs == [] ==> ok && readings == []
    ensures cs != [] && ok ==> Accepts(cs, Counted(g), p) && readings == Readings(Counted(g), p)
    ensures !ok ==> Refuses(cs, Counted(g))
  {
    p := 0;
    if |cs| == 0 { return true, [], p; }
    var order, more;
    ok, order, readings := ReadCaches(cs, g);
    if ok {
      ok, more, p := ReadRest(cs, g, order);
      readings := readings + more;
    }
  }

  lemma OrderIs(g: Config, order: int)
    requires order == Before(Counted(g), NoC) - 1
    ensures U32(order + Entries(g.nocs)) == Order(Counted(g)) && Entries(g.nocs) == Counted(g).nocs
  {
  }

  // ---------- what positional reading gives ----------

  /** The cache classes are always read in order. */
  lemma CachesInOrder(n: Counts, k: nat)
    requires k < Before(n, NoC)
    ensures CacheReadings(n)[k].child == k
  {
  }

  /** The counters that occur: at least one core, and every other class below 2^32. */
  ghost predicate Possible(n: Counts) {
    n.cores >= 1 && n.nocs < WORD
  }

  /** What acceptance says about positions alone. */
  ghost predicate Room(size: nat, n: Counts, p: nat) {
    && size < HALF && Possible(n)
    && p <= n.nocs && Before(n, NoC) + p <= size
    && (p < n.nocs ==> Before(n, NoC) + p < size)
    && (forall i :: 0 <= i < 4 ==> Controllers(Order(n))[i].child < size)
  }

  lemma AcceptsRoom(cs: seq<Component>, n: Counts, p: nat)
    requires |cs| < HALF && Possible(n) && Accepts(cs, n, p)
    ensures Room(|cs|, n, p)
  {
  }

  lemma AdvanceFour(o: int, size: nat)
    requires 1 <= o < size < HALF
    requires forall i :: 0 <= i < 4 ==> Controllers(o)[i].child < size
    ensures o + 5 <= size
    ensures forall i :: 0 <= i < 4 ==> Controllers(o)[i].child == o + 1 + i
  {
    assert Controllers(o)[0].child == o + 1;
    assert Controllers(o)[1].child == o + 2;
    assert Controllers(o)[2].child == o + 3;
    assert Controllers(o)[3].child == o + 4;
  }

  /** Without wrap-around and past position 0, the controllers follow the networks. */
  lemma ControllersFollow(size: nat, n: Counts)
    requires Room(size, n, n.nocs) && Total(n) >= 2
    ensures Total(n) + 4 <= size
    ensures forall i :: 0 <= i < 4 ==> Controllers(Order(n))[i].child == Total(n) + i
  {
    assert Order(n) == Total(n) - 1;
    AdvanceFour(Order(n), size);
  }

  /** When a network is passed over, the controllers do not follow what was read. */
  lemma ControllersAstray(size: nat, n: Counts, p: nat)
    requires Room(size, n, p) && (p < n.nocs || Total(n) < 2)
    ensures Controllers(Order(n))[0].child != Before(n, NoC) + p
  {
    var b := Before(n, NoC);
    if p < n.nocs {
      SameResidue(b, n.nocs, p);
    }
  }

  lemma SameResidue(b: nat, n: nat, p: nat)
    requires p < n < WORD && 1 <= b && b + p < HALF
    ensures Signed(Advance(U32(b + n - 1))) != b + p
  {
  }

  lemma InOrder(size: nat, n: Counts, k: nat)
    requires Room(size, n, n.nocs) && Total(n) >= 2 && k < Total(n) + 4
    ensures Readings(n, n.nocs)[k].child == k
  {
    var b, r := Before(n, NoC), Readings(n, n.nocs);
    ControllersFollow(size, n);
    if k < b {
      CachesInOrder(n, k);
    } else if k >= b + n.nocs {
      assert r[k] == Controllers(Order(n))[k - b - n.nocs];
    }
  }

  /** Exactly when every component read is the next one: no network is passed over, and at
      least two components come before the controllers. */
  lemma InOrderIff(cs: seq<Component>, n: Counts, p: nat)
    requires |cs| < HALF && Possible(n) && Accepts(cs, n, p)
    ensures (forall k :: 0 <= k < |Readings(n, p)| ==> Readings(n, p)[k].child == k)
            <==> p == n.nocs && Total(n) >= 2
  {
    var r, b := Readings(n, p), Before(n, NoC);
    AcceptsRoom(cs, n, p);
    if p == n.nocs && Total(n) >= 2 {
      forall k | 0 <= k < |r| ensures r[k].child == k {
        InOrder(|cs|, n, k);
      }
    } else {
      ControllersAstray(|cs|, n, p);
      assert r[b + p] == Controllers(Order(n))[0];
    }
  }

  lemma InBlock(n: Counts, p: nat, kind: Kind, i: nat)
    requires i < if kind.NoC? then p else Count(n, kind)
    requires !kind.Mc? && !kind.Niu? && !kind.Pcie? && !kind.Flash?
    ensures Before(n, kind) + i < Before(n, NoC) + p
    ensures Readings(n, p)[Before(n, kind) + i] == Reading(kind, i, Before(n, kind) + i)
  {
  }

  lemma InstanceIn(size: nat, n: Counts, kind: Kind, i: nat)
    requires Room(size, n, n.nocs) && Total(n) >= 2 && i < Count(n, kind)
    ensures Before(n, kind) + i < Total(n) + 4 <= size
    ensures Readings(n, n.nocs)[Before(n, kind) + i] == Reading(kind, i, Before(n, kind) + i)
  {
    ControllersFollow(size, n);
    if kind.Mc? || kind.Niu? || kind.Pcie? || kind.Flash? {
      ControllerAt(n, Before(n, kind) - Total(n));
    } else {
      InBlock(n, n.nocs, kind, i);
    }
  }

  /** The i-th instance of a class is read from the component at the number of earlier
      components plus i. */
  lemma InstanceAt(cs: seq<Component>, n: Counts, kind: Kind, i: nat)
    requires |cs| < HALF && Possible(n) && Accepts(cs, n, n.nocs) && Total(n) >= 2 && i < Count(n, kind)
    ensures Before(n, kind) + i < Total(n) + 4 <= |cs|
    ensures Readings(n, n.nocs)[Before(n, kind) + i] == Reading(kind, i, Before(n, kind) + i)
  {
    AcceptsRoom(cs, n, n.nocs);
    InstanceIn(|cs|, n, kind, i);
  }

  lemma ControllerAt(n: Counts, j: nat)
    requires j < 4
    ensures Readings(n, n.nocs)[Total(n) + j] == Controllers(Order(n))[j]
  {
  }

  lemma ControllersFillPlaces(cs: seq<Component>, n: Counts)
    requires Total(n) + 4 <= |cs|
    requires forall i :: 0 <= i < 4 ==> Controllers(Order(n))[i].child == Total(n) + i
    ensures ControllersFit(cs, Order(n)) <==>
              ClassFilled(cs, n, Mc) && ClassFilled(cs, n, Niu) && ClassFilled(cs, n, Pcie) && ClassFilled(cs, n, Flash)
  {
    var o, t := Order(n), Total(n);
    assert Controllers(o)[0].child == t && Controllers(o)[1].child == t + 1;
    assert Controllers(o)[2].child == t + 2 && Controllers(o)[3].child == t + 3;
    assert ControllerFits(cs, Mc, Advance(o)) <==> Fits(Mc, cs[t]);
    assert ControllerFits(cs, Niu, Advance(Advance(o))) <==> Fits(Niu, cs[t + 1]);
    assert ControllerFits(cs, Pcie, Advance(Advance(Advance(o)))) <==> Fits(Pcie, cs[t + 2]);
    assert ControllerFits(cs, Flash, Advance(Advance(Advance(Advance(o))))) <==> Fits(Flash, cs[t + 3]);
  }

  lemma AdvanceOnce(o: int)
    requires 1 <= o < HALF
    ensures Advance(o) == o + 1
  {
  }

  lemma ControllersInRange(size: nat, n: Counts)
    requires Possible(n) && Total(n) >= 2 && Total(n) + 4 <= size < HALF
    ensures Room(size, n, n.nocs)
  {
    var o := Order(n);
    assert o == Total(n) - 1;
    AdvanceOnce(o);
    AdvanceOnce(o + 1);
    AdvanceOnce(o + 2);
    AdvanceOnce(o + 3);
  }

  /** A description is accepted with all its networks read exactly when the components of every
      class stand in their places. */
  lemma AcceptsIff(cs: seq<Component>, n: Counts)
    requires |cs| < HALF && Possible(n) && Total(n) >= 2
    ensures Accepts(cs, n, n.nocs) <==> forall kind :: ClassFilled(cs, n, kind)
  {
    if Accepts(cs, n, n.nocs) {
      AcceptsRoom(cs, n, n.nocs);
      ControllersFollow(|cs|, n);
      ControllersFillPlaces(cs, n);
    } else if forall kind :: ClassFilled(cs, n, kind) {
      assert ClassFilled(cs, n, Core) && ClassFilled(cs, n, L1Directory) && ClassFilled(cs, n, L2Directory);
      assert ClassFilled(cs, n, L2) && ClassFilled(cs, n, L3) && ClassFilled(cs, n, NoC);
      assert ClassFilled(cs, n, Mc) && ClassFilled(cs, n, Niu) && ClassFilled(cs, n, Pcie) && ClassFilled(cs, n, Flash);
      ControllersInRange(|cs|, n);
      ControllersFollow(|cs|, n);
      ControllersFillPlaces(cs, n);
    }
  }

  /** Slots of each class in the parser's tables. */
  const TABLE: nat := 64

  ghost predicate SlotsFit(rs: seq<Reading>) {
    forall k :: 0 <= k < |rs| ==> rs[k].slot < TABLE
  }

  lemma BlockFits(kind: Kind, first: int, n: nat)
    ensures SlotsFit(Block(kind, first, n)) <==> n <= TABLE
  {
    if n > TABLE {
      assert Block(kind, first, n)[TABLE].slot == TABLE;
    }
  }

  lemma ConcatFits(a: seq<Reading>, b: seq<Reading>)
    ensures SlotsFit(a + b) <==> SlotsFit(a) && SlotsFit(b)
  {
    forall k | 0 <= k < |a + b| ensures (a + b)[k] == if k < |a| then a[k] else b[k - |a|] {
    }
    if SlotsFit(a + b) {
      forall k | 0 <= k < |a| ensures a[k].slot < TABLE {
        assert (a + b)[k] == a[k];
      }
      forall k | 0 <= k < |b| ensures b[k].slot < TABLE {
        assert (a + b)[|a| + k] == b[k];
      }
    }
  }

  lemma ClassFits(n: Counts, kind: Kind)
    ensures SlotsFit(ClassBlock(n, kind)) <==> Count(n, kind) <= TABLE
  {
    BlockFits(kind, Before(n, kind), Count(n, kind));
  }

  lemma CachesFit(n: Counts)
    ensures SlotsFit(CacheReadings(n)) <==>
              n.cores <= TABLE && n.l1dirs <= TABLE && n.l2dirs <= TABLE && n.l2s <= TABLE && n.l3s <= TABLE
  {
    var a, b, c, d, e := ClassBlock(n, Core), ClassBlock(n, L1Directory), ClassBlock(n, L2Directory), ClassBlock(n, L2), ClassBlock(n, L3);
    ClassFits(n, Core);
    ClassFits(n, L1Directory);
    ClassFits(n, L2Directory);
    ClassFits(n, L2);
    ClassFits(n, L3);
    ConcatFits(a, b);
    ConcatFits(a + b, c);
    ConcatFits(a + b + c, d);
    ConcatFits(a + b + c + d, e);
  }

  /** Exactly when an accepted description stays within the parser's tables: no class that is read
      has more than 64 components. */
  lemma TablesSuffice(n: Counts, p: nat)
    ensures SlotsFit(Readings(n, p)) <==>
              n.cores <= TABLE && n.l1dirs <= TABLE && n.l2dirs <= TABLE && n.l2s <= TABLE && n.l3s <= TABLE && p <= TABLE
  {
    CachesFit(n);
    BlockFits(NoC, Before(n, NoC), p);
    ConcatFits(Block(NoC, Before(n, NoC), p), Controllers(Order(n)));
    ConcatFits(CacheReadings(n), Block(NoC, Before(n, NoC), p) + Controllers(Order(n)));
    assert SlotsFit(Controllers(Order(n)));
  }

  // ---------- the instances a processor builds ----------

  /** Instances built of a class: here any flag but zero means homogeneous. */
  function Instances(c: Class): int {
    if c.homogeneous != 0 then (if c.number == 0 then 0 else 1) else c.number
  }

  function ClassOf(g: Config, kind: Kind): Class
    requires kind.Core? || kind.L1Directory? || kind.L2Directory? || kind.L2? || kind.L3? || kind.NoC?
  {
    match kind
    case Core => g.cores
    case L1Directory => g.l1dirs
    case L2Directory => g.l2dirs
    case L2 => g.l2s
    case L3 => g.l3s
    case NoC => g.nocs
  }

  predicate Int32(x: int) {
    -HALF <= x < HALF
  }

  lemma CountedPossible(g: Config)
    ensures Possible(Counted(g))
  {
  }

  /** Cores are read once more than their counter says, the other classes as often. */
  lemma InstancesCounted(g: Config, kind: Kind, i: nat)
    requires kind.Core? || kind.L1Directory? || kind.L2Directory? || kind.L2? || kind.L3? || kind.NoC?
    requires Int32(ClassOf(g, kind).number) && i < Instances(ClassOf(g, kind))
    ensures i < Count(Counted(g), kind)
  {
  }

  ghost predicate IsRead(rs: seq<Reading>, kind: Kind, slot: nat) {
    exists k :: 0 <= k < |rs| && rs[k].kind == kind && rs[k].slot == slot
  }

  lemma NetworksRead(n: Counts, p: nat, i: nat)
    requires IsRead(Readings(n, p), NoC, i)
    ensures i < p
  {
  }

  /** For every flag and number, negative ones and zero cores included: an instance that the
      processor builds has been read, unless it is a network that was passed over. */
  lemma InstancesAreRead(cs: seq<Component>, g: Config, p: nat, kind: Kind, i: nat)
    requires |cs| < HALF && Accepts(cs, Counted(g), p)
    requires kind.Core? || kind.L1Directory? || kind.L2Directory? || kind.L2? || kind.L3? || kind.NoC?
    requires Int32(ClassOf(g, kind).number) && i < Instances(ClassOf(g, kind))
    ensures IsRead(Readings(Counted(g), p), kind, i) <==> (kind.NoC? ==> i < p)
  {
    InstancesCounted(g, kind, i);
    if kind.NoC? ==> i < p {
      InBlock(Counted(g), p, kind, i);
    } else if IsRead(Readings(Counted(g), p), kind, i) {
      NetworksRead(Counted(g), p, i);
    }
  }

  /** A processor with private second-level caches is built only with equal counts, and then
      the cache of every core has been read. */
  lemma PrivateCachesAreRead(cs: seq<Component>, g: Config, p: nat, i: nat)
    requires |cs| < HALF && Accepts(cs, Counted(g), p)
    requires Int32(g.l2s.number) && Instances(g.cores) == Instances(g.l2s) && i < Instances(g.cores)
    ensures IsRead(Readings(Counted(g), p), L2, i)
  {
    InstancesAreRead(cs, g, p, L2, i);
  }
}
