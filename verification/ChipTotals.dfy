/**
 How a processor adds up its parts.  Every class of components has a total of area, peak
 power and runtime power, and the chip has a running total of its own.  A homogeneous class
 is one instance scaled by its number; a heterogeneous one is the sum of its instances.
 Quantities are real numbers.
 */
module ChipTotals {

  // ---------- quantities ----------

  /** The power of one kind of operation; reads, writes and searches are added up alike, and
      so are the variants of leakage. */
  datatype Power = Power(dynamic: real, leakage: real, gateLeakage: real, shortCircuit: real)

  datatype Totals = Totals(area: real, power: Power, rtPower: Power)

  /** The four factors a power is multiplied with. */
  datatype Factors = Factors(f0: real, f1: real, f2: real, f3: real)

  const NO_POWER := Power(0.0, 0.0, 0.0, 0.0)
  const NOTHING := Totals(0.0, NO_POWER, NO_POWER)

  function Add(x: Power, y: Power): Power {
    Power(x.dynamic + y.dynamic, x.leakage + y.leakage, x.gateLeakage + y.gateLeakage, x.shortCircuit + y.shortCircuit)
  }

  function Times(x: Power, y: Factors): Power {
    Power(x.dynamic * y.f0, x.leakage * y.f1, x.gateLeakage * y.f2, x.shortCircuit * y.f3)
  }

  function Plus(x: Totals, y: Totals): Totals {
    Totals(x.area + y.area, Add(x.power, y.power), Add(x.rtPower, y.rtPower))
  }

  lemma PlusAssoc(x: Totals, y: Totals, z: Totals)
    ensures Plus(Plus(x, y), z) == Plus(x, Plus(y, z))
  {
  }

  lemma PlusZero(x: Totals)
    ensures Plus(NOTHING, x) == x == Plus(x, NOTHING)
  {
  }

  // ---------- instances and classes ----------

  /** A built instance; rate is the inverse of its execution time. */
  datatype Unit = Unit(area: real, power: Power, clockRate: real, rtPower: Power, rate: real)

  function One(u: Unit): Totals {
    Totals(u.area, Times(u.power, Factors(u.clockRate, 1.0, 1.0, 1.0)), Times(u.rtPower, Factors(u.rate, 1.0, 1.0, 1.0)))
  }

  /** One instance standing for n; runtime dynamic power is already aggregated. */
  function Scaled(u: Unit, n: int): Totals {
    var r := n as real;
    Totals(u.area * r, Peak(u.power, u.clockRate, r), Runtime(u.rtPower, u.rate, r))
  }

  function Peak(p: Power, clockRate: real, r: real): Power {
    Times(p, Factors(clockRate * r, r, r, r))
  }

  function Runtime(p: Power, rate: real, r: real): Power {
    Times(p, Factors(rate, r, r, r))
  }

  /** An instance as the heterogeneous first-level directories enter the chip total. */
  function Raw(u: Unit): Totals {
    Totals(u.area, u.power, u.rtPower)
  }

  datatype Class = Class(homogeneous: bool, number: int, units: nat -> Unit)
  {
    /** Instances built. */
    function Built(): int {
      if homogeneous then (if number == 0 then 0 else 1) else number
    }
  }

  function Sum(units: nat -> Unit, n: nat): Totals {
    if n == 0 then NOTHING else Plus(Sum(units, n - 1), One(units(n - 1)))
  }

  function RawSum(units: nat -> Unit, n: nat): Totals {
    if n == 0 then NOTHING else Plus(RawSum(units, n - 1), Raw(units(n - 1)))
  }

  function Positive(n: int): nat {
    if n < 0 then 0 else n
  }

  function ClassTotals(c: Class): Totals {
    if c.homogeneous then (if c.number == 0 then NOTHING else Scaled(c.units(0), c.number))
    else Sum(c.units, Positive(c.number))
  }

  /** What the first-level directories add to the chip. */
  function RawTotals(c: Class): Totals {
    if c.homogeneous then ClassTotals(c) else RawSum(c.units, Positive(c.number))
  }

  /** Adds a class: its own total, and the chip's. */
  method AddClass(c: Class, chip0: Totals) returns (class': Totals, chip: Totals)
    ensures class' == ClassTotals(c)
    ensures chip == Plus(chip0, class')
  {
    class', chip := NOTHING, chip0;
    PlusZero(chip0);
    var i := 0;
    while i < c.Built()
      invariant 0 <= i && (i <= c.Built() || i == 0)
      invariant c.homogeneous ==> class' == if i == 0 then NOTHING else Scaled(c.units(0), c.number)
      invariant !c.homogeneous ==> class' == Sum(c.units, i)
      invariant chip == Plus(chip0, class')
    {
      var u := c.units(i);
      if c.homogeneous {
        PlusZero(Scaled(u, c.number));
        class' := Plus(class', Scaled(u, c.number));
        chip := Plus(chip, class');
      } else {
        PlusAssoc(chip0, class', One(u));
        class' := Plus(class', One(u));
        chip := Plus(chip, One(u));
      }
      i := i + 1;
    }
  }

  /** The cores come first. */
  method AddCores(c: Class) returns (class': Totals, chip: Totals)
    ensures class' == chip == ClassTotals(c)
  {
    class', chip := AddClass(c, NOTHING);
    PlusZero(class');
  }

  /** Private second-level caches are part of their cores. */
  method AddL2s(isPrivate: bool, c: Class, chip0: Totals) returns (class': Totals, chip: Totals)
    ensures class' == if isPrivate then NOTHING else ClassTotals(c)
    ensures chip == Plus(chip0, class')
  {
    class', chip := NOTHING, chip0;
    if isPrivate {
      PlusZero(chip0);
    } else {
      class', chip := AddClass(c, chip0);
    }
  }

  /** The first-level directories: heterogeneous instances enter the chip total unscaled. */
  method AddL1Directories(c: Class, chip0: Totals) returns (class': Totals, chip: Totals)
    ensures class' == ClassTotals(c)
    ensures chip == Plus(chip0, RawTotals(c))
  {
    class', chip := NOTHING, chip0;
    PlusZero(chip0);
    var i := 0;
    while i < c.Built()
      invariant 0 <= i && (i <= c.Built() || i == 0)
      invariant c.homogeneous ==> class' == if i == 0 then NOTHING else Scaled(c.units(0), c.number)
      invariant !c.homogeneous ==> class' == Sum(c.units, i)
      invariant chip == Plus(chip0, if c.homogeneous then class' else RawSum(c.units, i))
    {
      var u := c.units(i);
      if c.homogeneous {
        PlusZero(Scaled(u, c.number));
        class' := Plus(class', Scaled(u, c.number));
        chip := Plus(chip, class');
      } else {
        PlusAssoc(chip0, RawSum(c.units, i), Raw(u));
        class' := Plus(class', One(u));
        chip := Plus(chip, Raw(u));
      }
      i := i + 1;
    }
  }

  // ---------- controllers and networks ----------

  /** Controllers of one kind, with the factors of their dynamic power. */
  function Controlled(u: Unit, n: int, peak: real, runtime: real): Totals {
    var r := n as real;
    Totals(u.area * r, Times(u.power, Factors(peak, r, r, r)), Times(u.rtPower, Factors(runtime, r, r, r)))
  }

  datatype Controller = Controller(number: int, channels: int, unit: Unit)

  function McTotals(c: Controller): Totals {
    if c.number > 0 && c.channels > 0
    then Controlled(c.unit, c.number, c.number as real * c.unit.clockRate, c.unit.rate)
    else NOTHING
  }

  function FlashTotals(c: Controller): Totals {
    if c.number > 0 then Controlled(c.unit, c.number, c.number as real, c.number as real) else NOTHING
  }

  function NiuTotals(c: Controller): Totals {
    if c.number > 0
    then Controlled(c.unit, c.number, c.number as real * c.unit.clockRate, c.number as real * c.unit.clockRate)
    else NOTHING
  }

  function PcieTotals(c: Controller): Totals {
    if c.number > 0 && c.channels > 0
    then Controlled(c.unit, c.number, c.number as real * c.unit.clockRate, c.number as real * c.unit.clockRate)
    else NOTHING
  }

  /** The networks.  The area of a bus and of a global link depends on the chip's area when it
      is laid out; the power is known once all areas are, so it depends on the chip's area
      before the networks. */
  datatype Network = Network(homogeneous: bool, number: int,
                             isRouter: nat -> bool, routerArea: nat -> real, busArea: (nat, real) -> real,
                             hasLink: nat -> bool, linkArea: (nat, real) -> real,
                             unit: (nat, real) -> Unit)
  {
    function Copies(): real {
      if homogeneous then number as real else 1.0
    }

    /** The instances' powers, once the areas are known. */
    function Powers(area: real): Class {
      Class(homogeneous, number, (i: nat) => unit(i, area).(area := 0.0))
    }
  }

  /** Area of the first n networks, laid out one after the other from a chip of area a. */
  function NetworkArea(c: Network, a: real, n: nat): real {
    if n == 0 then 0.0
    else
      var s := NetworkArea(c, a, n - 1);
      s + (if c.isRouter(n - 1) then c.routerArea(n - 1) else c.busArea(n - 1, a + s)) * c.Copies()
  }

  function LinksArea(c: Network, a: real, n: nat): real {
    if n == 0 then 0.0
    else
      var s := LinksArea(c, a, n - 1);
      if c.hasLink(n - 1) && c.isRouter(n - 1) then s + c.linkArea(n - 1, a + s) * c.Copies() else s
  }

  function NetworkTotals(c: Network, a: real): Totals {
    var n := Positive(c.Powers(a).Built());
    var routers := NetworkArea(c, a, n);
    var power := ClassTotals(c.Powers(a));
    Totals(routers + LinksArea(c, a + routers, n), power.power, power.rtPower)
  }

  /** The three passes over the networks: areas, global links, powers. */
  method AddNetworks(c: Network, chip0: Totals) returns (noc: Totals, chip: Totals)
    ensures noc == NetworkTotals(c, chip0.area)
    ensures chip == Plus(chip0, noc)
  {
    var powers := c.Powers(chip0.area);
    var n := powers.Built();
    var routers, area := NetworkAreas(c, chip0.area, n);
    var links, area' := NetworkLinks(c, area, n);
    var power;
    power, chip := AddClass(powers, chip0);
    noc := Totals(routers + links, power.power, power.rtPower);
    chip := chip.(area := area');
  }

  method NetworkAreas(c: Network, chipArea: real, n: int) returns (nocArea: real, area: real)
    requires c.homogeneous ==> n <= 1
    ensures nocArea == NetworkArea(c, chipArea, Positive(n)) && area == chipArea + nocArea
  {
    nocArea, area := 0.0, chipArea;
    var i := 0;
    while i < n
      invariant 0 <= i <= Positive(n)
      invariant nocArea == NetworkArea(c, chipArea, i) && area == chipArea + nocArea
    {
      var a := if c.isRouter(i) then c.routerArea(i) else c.busArea(i, area);
      if c.homogeneous {
        nocArea := nocArea + a * c.number as real;
        area := area + nocArea;
      } else {
        nocArea := nocArea + a;
        area := area + a;
      }
      i := i + 1;
    }
  }

  method NetworkLinks(c: Network, chipArea: real, n: int) returns (linksArea: real, area: real)
    ensures linksArea == LinksArea(c, chipArea, Positive(n)) && area == chipArea + linksArea
  {
    linksArea, area := 0.0, chipArea;
    var i := 0;
    while i < n
      invariant 0 <= i <= Positive(n)
      invariant linksArea == LinksArea(c, chipArea, i) && area == chipArea + linksArea
    {
      if c.hasLink(i) && c.isRouter(i) {
        var a := c.linkArea(i, area);
        if c.homogeneous {
          linksArea, area := linksArea + a * c.number as real, area + a * c.number as real;
        } else {
          linksArea, area := linksArea + a, area + a;
        }
      }
      i := i + 1;
    }
  }

  // ---------- the chip ----------

  datatype Chip = Chip(privateL2: bool, cores: Class, l2s: Class, l3s: Class, l1dirs: Class, l2dirs: Class,
                       mc: Controller, flash: Controller, niu: Controller, pcie: Controller, nocs: Network)
  {
    function L2Totals(): Totals {
      if privateL2 then NOTHING else ClassTotals(l2s)
    }

    /** The chip's total before its networks. */
    function CachesSum(): Totals {
      Plus(Plus(Plus(Plus(ClassTotals(cores), L2Totals()), ClassTotals(l3s)), RawTotals(l1dirs)), ClassTotals(l2dirs))
    }

    function ControllersSum(): Totals {
      Plus(Plus(Plus(McTotals(mc), FlashTotals(flash)), NiuTotals(niu)), PcieTotals(pcie))
    }

    function BeforeNetworks(): Totals {
      Plus(CachesSum(), ControllersSum())
    }

    function NoCTotals(): Totals {
      NetworkTotals(nocs, BeforeNetworks().area)
    }

    function ChipSum(): Totals {
      Plus(BeforeNetworks(), NoCTotals())
    }

    /** The sum of all class totals. */
    function ClassesSum(): Totals {
      Plus(Plus(Plus(Plus(Plus(Plus(ClassTotals(cores), L2Totals()), ClassTotals(l3s)), ClassTotals(l1dirs)),
                     ClassTotals(l2dirs)), ControllersSum()), NoCTotals())
    }
  }

  class Processor {
    var chip: Totals
    var core: Totals
    var l2: Totals
    var l3: Totals
    var l1dir: Totals
    var l2dir: Totals
    var mcs: Totals
    var flashcontrollers: Totals
    var nius: Totals
    var pcies: Totals
    var noc: Totals

    constructor ()
      ensures chip == NOTHING && core == NOTHING && l2 == NOTHING && l3 == NOTHING && l1dir == NOTHING
      ensures l2dir == NOTHING && mcs == NOTHING && flashcontrollers == NOTHING && nius == NOTHING
      ensures pcies == NOTHING && noc == NOTHING
    {
      chip, core, l2, l3, l1dir := NOTHING, NOTHING, NOTHING, NOTHING, NOTHING;
      l2dir, mcs, flashcontrollers, nius, pcies, noc := NOTHING, NOTHING, NOTHING, NOTHING, NOTHING, NOTHING;
    }

    method AddCaches(g: Chip)
      modifies this`chip, this`core, this`l2, this`l3, this`l1dir, this`l2dir
      ensures core == ClassTotals(g.cores) && l2 == g.L2Totals() && l3 == ClassTotals(g.l3s)
      ensures l1dir == ClassTotals(g.l1dirs) && l2dir == ClassTotals(g.l2dirs)
      ensures chip == g.CachesSum()
    {
      AddCoresAndCaches(g);
      AddDirectories(g);
    }

    method AddCoresAndCaches(g: Chip)
      modifies this`chip, this`core, this`l2, this`l3
      ensures core == ClassTotals(g.cores) && l2 == g.L2Totals() && l3 == ClassTotals(g.l3s)
      ensures chip == Plus(Plus(ClassTotals(g.cores), g.L2Totals()), ClassTotals(g.l3s))
    {
      core, chip := AddCores(g.cores);
      l2, chip := AddL2s(g.privateL2, g.l2s, chip);
      l3, chip := AddClass(g.l3s, chip);
    }

    method AddDirectories(g: Chip)
      modifies this`chip, this`l1dir, this`l2dir
      ensures l1dir == ClassTotals(g.l1dirs) && l2dir == ClassTotals(g.l2dirs)
      ensures chip == Plus(Plus(old(chip), RawTotals(g.l1dirs)), ClassTotals(g.l2dirs))
    {
      l1dir, chip := AddL1Directories(g.l1dirs, chip);
      l2dir, chip := AddClass(g.l2dirs, chip);
    }

    method AddControllers(g: Chip)
      requires mcs == NOTHING && flashcontrollers == NOTHING && nius == NOTHING && pcies == NOTHING
      modifies this`chip, this`mcs, this`flashcontrollers, this`nius, this`pcies
      ensures mcs == McTotals(g.mc) && flashcontrollers == FlashTotals(g.flash)
      ensures nius == NiuTotals(g.niu) && pcies == PcieTotals(g.pcie)
      ensures chip == Plus(old(chip), g.ControllersSum())
    {
      PlusZero(McTotals(g.mc));
      PlusZero(FlashTotals(g.flash));
      PlusZero(NiuTotals(g.niu));
      PlusZero(PcieTotals(g.pcie));
      ghost var start := chip;
      if g.mc.number > 0 && g.mc.channels > 0 {
        mcs := Plus(mcs, McTotals(g.mc));
        chip := Plus(chip, mcs);
      } else {
        PlusZero(chip);
      }
      ghost var c1 := mcs;
      PlusAssoc(start, c1, FlashTotals(g.flash));
      PlusZero(chip);
      if g.flash.number > 0 {
        flashcontrollers := Plus(flashcontrollers, FlashTotals(g.flash));
        chip := Plus(chip, flashcontrollers);
      }
      ghost var c2 := Plus(c1, flashcontrollers);
      PlusAssoc(start, c2, NiuTotals(g.niu));
      PlusZero(chip);
      if g.niu.number > 0 {
        nius := Plus(nius, NiuTotals(g.niu));
        chip := Plus(chip, nius);
      }
      ghost var c3 := Plus(c2, nius);
      PlusAssoc(start, c3, PcieTotals(g.pcie));
      PlusZero(chip);
      if g.pcie.number > 0 && g.pcie.channels > 0 {
        pcies := Plus(pcies, PcieTotals(g.pcie));
        chip := Plus(chip, pcies);
      }
    }

    /** Builds the processor, unless private second-level caches and cores do not match. */
    method Build(g: Chip) returns (ok: bool)
      requires mcs == NOTHING && flashcontrollers == NOTHING && nius == NOTHING && pcies == NOTHING
      modifies this
      ensures ok <==> (g.privateL2 ==> g.cores.Built() == g.l2s.Built())
      ensures ok ==> core == ClassTotals(g.cores) && l2 == g.L2Totals() && l3 == ClassTotals(g.l3s)
      ensures ok ==> l1dir == ClassTotals(g.l1dirs) && l2dir == ClassTotals(g.l2dirs)
      ensures ok ==> mcs == McTotals(g.mc) && flashcontrollers == FlashTotals(g.flash)
      ensures ok ==> nius == NiuTotals(g.niu) && pcies == PcieTotals(g.pcie) && noc == g.NoCTotals()
      ensures ok ==> chip == g.ChipSum()
    {
      if g.privateL2 && g.cores.Built() != g.l2s.Built() {
        return false;
      }
      AddCaches(g);
      AddControllers(g);
      noc, chip := AddNetworks(g.nocs, chip);
      ok := true;
    }
  }

  // ---------- conservation ----------

  lemma {:induction false} RawSumIs(units: nat -> Unit, n: nat)
    ensures RawSum(units, n).area == Sum(units, n).area
    ensures RawSum(units, n).power.leakage == Sum(units, n).power.leakage
    ensures RawSum(units, n).power.gateLeakage == Sum(units, n).power.gateLeakage
    ensures RawSum(units, n).power.shortCircuit == Sum(units, n).power.shortCircuit
  {
    if n > 0 {
      RawSumIs(units, n - 1);
      assert One(units(n - 1)).power.leakage == Raw(units(n - 1)).power.leakage;
    }
  }

  lemma CacheArea(a: Totals, b: Totals, c: Totals, d: Totals, d': Totals, e: Totals, f: Totals, g: Totals)
    requires d.area == d'.area
    ensures Plus(Plus(Plus(Plus(Plus(Plus(a, b), c), d), e), f), g).area
         == Plus(Plus(Plus(Plus(Plus(Plus(a, b), c), d'), e), f), g).area
  {
  }

  /** The chip's area is the sum of the areas of all classes. */
  lemma AreaConserved(g: Chip)
    ensures g.ChipSum().area == g.ClassesSum().area
  {
    var l := g.l1dirs;
    assert RawTotals(l).area == ClassTotals(l).area by {
      RawSumIs(l.units, Positive(l.number));
    }
    CacheArea(ClassTotals(g.cores), g.L2Totals(), ClassTotals(g.l3s), RawTotals(l), ClassTotals(l),
              ClassTotals(g.l2dirs), g.ControllersSum(), g.NoCTotals());
  }

  lemma CachePower(a: Totals, b: Totals, c: Totals, d: Totals, d': Totals, e: Totals, f: Totals, g: Totals)
    ensures (Plus(Plus(Plus(Plus(Plus(Plus(a, b), c), d), e), f), g).power
             == Plus(Plus(Plus(Plus(Plus(Plus(a, b), c), d'), e), f), g).power) <==> d.power == d'.power
  {
  }

  /** Dynamic power of the first n instances, once at their clock rates and once without. */
  function Clocked(units: nat -> Unit, n: nat): real {
    if n == 0 then 0.0 else Clocked(units, n - 1) + units(n - 1).power.dynamic * units(n - 1).clockRate
  }

  function Unclocked(units: nat -> Unit, n: nat): real {
    if n == 0 then 0.0 else Unclocked(units, n - 1) + units(n - 1).power.dynamic
  }

  lemma {:induction false} DynamicSums(units: nat -> Unit, n: nat)
    ensures Sum(units, n).power.dynamic == Clocked(units, n)
    ensures RawSum(units, n).power.dynamic == Unclocked(units, n)
  {
    if n > 0 {
      DynamicSums(units, n - 1);
    }
  }

  lemma L1PowerIff(l: Class)
    ensures RawTotals(l).power == ClassTotals(l).power <==>
              l.homogeneous || Clocked(l.units, Positive(l.number)) == Unclocked(l.units, Positive(l.number))
  {
    if !l.homogeneous {
      RawSumIs(l.units, Positive(l.number));
      DynamicSums(l.units, Positive(l.number));
    }
  }

  /** The chip's peak power is the sum over all classes exactly when the first-level directories
      are homogeneous or clock rates make no difference to their total dynamic power. */
  lemma PowerConservedIff(g: Chip)
    ensures g.ChipSum().power == g.ClassesSum().power <==>
              var l := g.l1dirs;
              l.homogeneous || Clocked(l.units, Positive(l.number)) == Unclocked(l.units, Positive(l.number))
  {
    var l := g.l1dirs;
    L1PowerIff(l);
    CachePower(ClassTotals(g.cores), g.L2Totals(), ClassTotals(g.l3s), RawTotals(l), ClassTotals(l),
               ClassTotals(g.l2dirs), g.ControllersSum(), g.NoCTotals());
  }

  /** A single directory at another clock rate breaks it. */
  lemma PowerNotConserved(g: Chip, u: Unit)
    requires u.clockRate != 1.0 && u.power.dynamic != 0.0 && g.l1dirs == Class(false, 1, _ => u)
    ensures g.ChipSum().power != g.ClassesSum().power
  {
    PowerConservedIff(g);
    OneClocked(g.l1dirs.units, u);
  }

  lemma OneClocked(units: nat -> Unit, u: Unit)
    requires units(0) == u && u.clockRate != 1.0 && u.power.dynamic != 0.0
    ensures Clocked(units, 1) != Unclocked(units, 1)
  {
  }

  // ---------- homogeneous and heterogeneous descriptions ----------

  /** Instance u stands for n instances like v: the same hardware, with the runtime dynamic
      power of all of them together. */
  predicate Stands(u: Unit, n: int, v: Unit) {
    && u.area == v.area && u.power == v.power && u.clockRate == v.clockRate && u.rate == v.rate
    && u.rtPower == Together(v.rtPower, n as real)
  }

  function Together(p: Power, r: real): Power {
    p.(dynamic := p.dynamic * r)
  }

  lemma Distribute(x: real, r: real, r': real)
    requires r' == r + 1.0
    ensures x * r' == x * r + x * 1.0
  {
  }

  lemma PeakStep(p: Power, c: real, r: real, r': real)
    requires r' == r + 1.0
    ensures Add(Peak(p, c, r), Times(p, Factors(c, 1.0, 1.0, 1.0))) == Peak(p, c, r')
  {
  }

  lemma RuntimeStep(p: Power, c: real, r: real, r': real)
    requires r' == r + 1.0
    ensures Add(Runtime(Together(p, r), c, r), Times(p, Factors(c, 1.0, 1.0, 1.0))) == Runtime(Together(p, r'), c, r')
  {
  }

  /** The totals of r instances like v. */
  function Many(v: Unit, r: real): Totals {
    Totals(v.area * r, Peak(v.power, v.clockRate, r), Runtime(Together(v.rtPower, r), v.rate, r))
  }

  lemma PlusIs(x: Totals, y: Totals, z: Totals)
    requires x.area + y.area == z.area && Add(x.power, y.power) == z.power && Add(x.rtPower, y.rtPower) == z.rtPower
    ensures Plus(x, y) == z
  {
  }

  /** One more instance. */
  lemma ManyStep(v: Unit, r: real, r': real)
    requires r' == r + 1.0
    ensures Plus(Many(v, r), One(v)) == Many(v, r')
  {
    Distribute(v.area, r, r');
    PeakStep(v.power, v.clockRate, r, r');
    RuntimeStep(v.rtPower, v.rate, r, r');
    PlusIs(Many(v, r), One(v), Many(v, r'));
  }

  lemma {:induction false} SumOfSame(units: nat -> Unit, n: nat, v: Unit)
    requires forall i: nat :: i < n ==> units(i) == v
    ensures Sum(units, n) == Many(v, n as real)
  {
    if n == 0 {
      assert v.power.dynamic * (v.clockRate * 0.0) == 0.0;
    } else {
      SumOfSame(units, n - 1, v);
      ManyStep(v, (n - 1) as real, n as real);
    }
  }

  /** d lists the instances that c represents by one, or is c itself. */
  ghost predicate Interchangeable(c: Class, d: Class) {
    c == d || (c.homogeneous && !d.homogeneous && c.number == d.number >= 0
               && exists v :: Stands(c.units(0), c.number, v) && forall i: nat :: i < c.number ==> d.units(i) == v)
  }

  lemma StandsForMany(u: Unit, n: int, v: Unit)
    requires Stands(u, n, v)
    ensures Scaled(u, n) == Many(v, n as real)
  {
  }

  /** One representative of N instances, or the N instances: the class totals agree. */
  lemma SameClassTotals(c: Class, d: Class)
    requires Interchangeable(c, d)
    ensures ClassTotals(c) == ClassTotals(d)
  {
    if c != d {
      var v :| Stands(c.units(0), c.number, v) && forall i: nat :: i < c.number ==> d.units(i) == v;
      if c.number > 0 {
        SumOfSame(d.units, c.number, v);
        StandsForMany(c.units(0), c.number, v);
      }
    }
  }

  /** Either way of describing cores, second- and third-level caches and second-level
      directories gives the same chip: area, peak and runtime power, networks included. */
  lemma SameChip(g: Chip, h: Chip)
    requires Interchangeable(g.cores, h.cores) && Interchangeable(g.l2s, h.l2s)
    requires Interchangeable(g.l3s, h.l3s) && Interchangeable(g.l2dirs, h.l2dirs)
    requires h == g.(cores := h.cores, l2s := h.l2s, l3s := h.l3s, l2dirs := h.l2dirs)
    ensures g.ChipSum() == h.ChipSum()
  {
    SameClassTotals(g.cores, h.cores);
    SameClassTotals(g.l2s, h.l2s);
    SameClassTotals(g.l3s, h.l3s);
    SameClassTotals(g.l2dirs, h.l2dirs);
    assert g.L2Totals() == h.L2Totals();
    assert g.CachesSum() == h.CachesSum();
    assert g.ControllersSum() == h.ControllersSum();
  }

  /** First-level directories agree as a class; in the chip total they agree exactly when the
      listed instances' dynamic power does not depend on their clock rates. */
  lemma SameL1Directories(c: Class, d: Class)
    requires Interchangeable(c, d) && c != d
    ensures RawTotals(c).power == RawTotals(d).power <==>
              Clocked(d.units, Positive(d.number)) == Unclocked(d.units, Positive(d.number))
  {
    SameClassTotals(c, d);
    L1PowerIff(d);
  }
}
