/** The clock tree as RCC_CFGR shows it, and what each write of the boot code does to it. */
module ClockTree {
  import opened Bits

  const HSI_VALUE: nat := 8_000_000
  const HSE_VALUE: nat := 8_000_000

  const SW: bv32 := 0x0000_0003
  const SW_PLL: bv32 := 0x0000_0002
  const SWS: bv32 := 0x0000_000C
  const SWS_PLL: bv32 := 0x0000_0008
  const HPRE: bv32 := 0x0000_00F0
  const PPRE1: bv32 := 0x0000_0700
  const PPRE1_DIV2: bv32 := 0x0000_0400
  const PLL: bv32 := 0x003F_0000       // PLLSRC, PLLXTPRE and PLLMULL
  const PLLSRC: bv32 := 0x0001_0000
  const PLLXTPRE: bv32 := 0x0002_0000
  const PLLMULL: bv32 := 0x003C_0000
  const HSE_TIMES_9: bv32 := 0x001D_0000
  const REST: bv32 := 0xF880_0000      // the bits that are none of SystemInit's

  // The bits SystemInit's two masks clear.
  const SWITCH_AND_PRESCALERS: bv32 := 0x0700_FFFF
  const PLL_AND_USB: bv32 := 0x007F_0000

  /** The fields the boot code is about, and the bits that are none of its business. */
  datatype Fields = Fields(sw: bv32, sws: bv32, hpre: bv32, ppre1: bv32, pll: bv32, rest: bv32)

  function Decode(c: bv32): Fields {
    Fields(Part(c, SW), Part(c, SWS), Part(c, HPRE), Part(c, PPRE1), Part(c, PLL), Part(c, REST))
  }

  /** What software wrote: all but the read-only SWS. */
  function Image(f: Fields): Fields { f.(sws := 0) }

  // ----- Frequencies -----

  /** The AHB divisor for each code of the prescaler field. */
  function AhbDivisor(hpre: bv32): nat {
    if hpre == 0x80 then 2
    else if hpre == 0x90 then 4
    else if hpre == 0xA0 then 8
    else if hpre == 0xB0 then 16
    else if hpre == 0xC0 then 64
    else if hpre == 0xD0 then 128
    else if hpre == 0xE0 then 256
    else if hpre == 0xF0 then 512
    else 1
  }

  function Apb1Divisor(ppre: bv32): nat {
    if ppre == 0x400 then 2
    else if ppre == 0x500 then 4
    else if ppre == 0x600 then 8
    else if ppre == 0x700 then 16
    else 1
  }

  lemma AhbDivisorPositive(hpre: bv32) ensures AhbDivisor(hpre) > 0 {}

  lemma Apb1DivisorPositive(ppre: bv32) ensures Apb1Divisor(ppre) > 0 {}

  function Multiplier(pllmull: bv32): nat { (pllmull >> 18) as nat + 2 }

  function Factor(c: bv32): nat { Multiplier(Part(c, PLLMULL)) }
  predicate FromHsi(c: bv32) { Part(c, PLLSRC) == 0 }
  predicate Halved(c: bv32) { Part(c, PLLXTPRE) != 0 }

  function PllInput(pll: bv32): nat {
    if FromHsi(pll) then HSI_VALUE / 2 else if Halved(pll) then HSE_VALUE / 2 else HSE_VALUE
  }

  function SysClk(f: Fields): nat {
    if f.sws == 0x04 then HSE_VALUE
    else if f.sws == SWS_PLL then PllInput(f.pll) * Factor(f.pll)
    else HSI_VALUE
  }

  function CoreClock(f: Fields): nat { Divided(SysClk(f), f.hpre) }

  function Divided(clock: nat, hpre: bv32): nat {
    AhbDivisorPositive(hpre);
    clock / AhbDivisor(hpre)
  }

  function Pclk1(f: Fields): nat {
    Apb1DivisorPositive(f.ppre1);
    CoreClock(f) / Apb1Divisor(f.ppre1)
  }

  /** The factor of each of the sixteen codes; no other bit of CFGR matters. */
  lemma FactorsInNumbers()
    ensures Factor(0x0000_0000) == 2
    ensures Factor(0x0004_0000) == 3
    ensures Factor(0x0008_0000) == 4
    ensures Factor(0x000C_0000) == 5
    ensures Factor(0x0010_0000) == 6
    ensures Factor(0x0014_0000) == 7
    ensures Factor(0x0018_0000) == 8
    ensures Factor(0x001C_0000) == 9
    ensures Factor(0x0020_0000) == 10
    ensures Factor(0x0024_0000) == 11
    ensures Factor(0x0028_0000) == 12
    ensures Factor(0x002C_0000) == 13
    ensures Factor(0x0030_0000) == 14
    ensures Factor(0x0034_0000) == 15
    ensures Factor(0x0038_0000) == 16
    ensures Factor(0x003C_0000) == 17
  {
  }

  /** The APB1 divisor doubles from code to code, once the top bit of the field is set. */
  lemma Apb1InNumbers(ppre: bv32)
    requires Part(ppre, 0x700) == ppre
    ensures ppre < 0x400 ==> Apb1Divisor(ppre) == 1
    ensures Apb1Divisor(0x400) == 2
    ensures ppre > 0x400 ==> Apb1Divisor(ppre) == 2 * Apb1Divisor(ppre - 0x100)
  {
  }

  lemma FactorOfCode(c: bv32) ensures Factor(c) == Factor(c & 0x003C_0000) {}

  /** PLLSRC, bit 16, chooses half of HSI; PLLXTPRE, bit 17, halves HSE. */
  lemma PllInputInNumbers(c: bv32)
    ensures PllInput(c)
         == if c & 0x0001_0000 == 0 then 4_000_000 else if c & 0x0002_0000 != 0 then 4_000_000 else 8_000_000
  {
  }

  /** The fields of CFGR. */
  lemma FieldsInNumbers(c: bv32)
    ensures Decode(c) == Fields(c & 0x3, c & 0xC, c & 0xF0, c & 0x700, c & 0x003F_0000, c & 0xF880_0000)
  {
  }

  lemma SourcesInNumbers(f: Fields)
    ensures f.sws == 0x4 ==> SysClk(f) == 8_000_000
    ensures f.sws == 0x8 ==> SysClk(f) == PllInput(f.pll) * Factor(f.pll)
    ensures f.sws != 0x4 && f.sws != 0x8 ==> SysClk(f) == 8_000_000
  {
    hide PllInput, Factor;
  }

  lemma Times9() ensures PllInput(HSE_TIMES_9) == HSE_VALUE && Factor(HSE_TIMES_9) == 9 {}

  /** PLL on nine times HSE: what is left of 72 MHz is up to the AHB prescaler. */
  lemma OnPll(f: Fields)
    requires f.sws == SWS_PLL && f.pll == HSE_TIMES_9
    ensures SysClk(f) == 72_000_000
  {
    hide Factor, PllInput;
    Times9();
  }

  lemma OnHsi(f: Fields) requires f.sws == 0 ensures SysClk(f) == HSI_VALUE {}

  lemma Codes() ensures AhbDivisor(0) == 1 && AhbDivisor(0x80) == 2 && Apb1Divisor(PPRE1_DIV2) == 2 {}

  predicate TopBit(hpre: bv32) { Part(hpre, 0x80) != 0 }

  lemma UndividedCode(hpre: bv32)
    requires Within(hpre, HPRE)
    ensures AhbDivisor(hpre) == 1 <==> !TopBit(hpre)
  {
  }

  lemma HpreIsWithin(c: bv32) ensures Within(Part(c, HPRE), HPRE) {}

  /** On the PLL at nine times HSE the core runs at 72 MHz exactly if the top bit of the AHB prescaler is clear. */
  lemma LeftOverPrescaler(c: bv32)
    requires Decode(c).sws == SWS_PLL && Decode(c).pll == HSE_TIMES_9
    ensures CoreClock(Decode(c)) == 72_000_000 <==> !TopBit(Decode(c).hpre)
  {
    hide Part, Within, AhbDivisor, SysClk, TopBit;
    OnPll(Decode(c));
    HpreIsWithin(c);
    UndividedCode(Part(c, HPRE));
    AhbDivisorPositive(Part(c, HPRE));
    Undivided(Part(c, HPRE));
  }

  lemma Undivided(hpre: bv32) ensures 72_000_000 / AhbDivisor(hpre) == 72_000_000 <==> AhbDivisor(hpre) == 1 {}

  // ----- The calculator's table -----

  const AHB_PRESC_TABLE: seq<nat> := [0, 0, 0, 0, 0, 0, 0, 0, 1, 2, 3, 4, 6, 7, 8, 9]

  function Pow2(n: nat): (p: nat)
    ensures p > 0
  {
    if n == 0 then 1 else 2 * Pow2(n - 1)
  }

  function Index(hpre: bv32): nat { (hpre >> 4) as nat }

  lemma IndexInTable(c: bv32) ensures Index(Part(c, HPRE)) < |AHB_PRESC_TABLE| {}

  lemma TableEntry(hpre: bv32)
    requires Within(hpre, HPRE) && Index(hpre) < |AHB_PRESC_TABLE|
    ensures Pow2(AHB_PRESC_TABLE[Index(hpre)]) == AhbDivisor(hpre)
  {
  }

  function ShiftedRight(x: int, n: nat): int { x / Pow2(n) }

  /** Shifting by the table's entry divides by the divisor of the code. */
  lemma TableDivides(c: bv32, clock: nat)
    requires Index(Part(c, HPRE)) < |AHB_PRESC_TABLE|
    ensures ShiftedRight(clock, AHB_PRESC_TABLE[Index(Part(c, HPRE))]) == Divided(clock, Part(c, HPRE))
  {
    hide Part, Within, Index, Pow2, AhbDivisor;
    HpreIsWithin(c);
    TableEntry(Part(c, HPRE));
  }

  /** The PLL fields of CFGR can be read off its PLL part. */
  lemma PllParts(c: bv32, pll: bv32)
    requires Decode(c).pll == pll
    ensures Factor(c) == Factor(pll) && FromHsi(c) == FromHsi(pll) && Halved(c) == Halved(pll)
  {
    hide Part, Within, Multiplier;
    PllPartsWithin();
    PartOfPart(c, PLL, PLLSRC);
    PartOfPart(c, PLL, PLLXTPRE);
    PartOfPart(c, PLL, PLLMULL);
  }

  lemma PllPartsWithin() ensures Within(PLLSRC, PLL) && Within(PLLXTPRE, PLL) && Within(PLLMULL, PLL) {}

  // ----- The hardware: SWS takes over what SW asks for -----

  function Asked(sw: bv32): bv32 { sw << 2 }

  function Moved(f: Fields, follow: bool): Fields { if follow then f.(sws := Asked(f.sw)) else f }

  /** Only the hardware changed the register. */
  predicate Kept(before: Fields, after: Fields) {
    Image(after) == Image(before) && (before.sws == Asked(before.sw) ==> after == before)
  }

  lemma KeptTwice(f: Fields, g: Fields, h: Fields)
    requires Kept(f, g) && Kept(g, h)
    ensures Kept(f, h)
  {
    hide Asked;
  }

  lemma KeptSelf(f: Fields) ensures Kept(f, f) {}

  lemma KeptImage(f: Fields, g: Fields) requires Kept(f, g) ensures Image(f) == Image(g) {}

  lemma AskedForPll() ensures Asked(SW_PLL) == SWS_PLL {}

  lemma AskedForHsi() ensures Asked(0) == 0 {}

  lemma AskedOnlyForPll(c: bv32) ensures Asked(Part(c, SW)) == SWS_PLL ==> Part(c, SW) == SW_PLL {}

  /** A write to CFGR leaves SWS alone. */
  function Stored(v: bv32, c: bv32): bv32 { Replace(v, SWS, Part(c, SWS)) }

  function Followed(c: bv32): bv32 { Replace(c, SWS, Asked(Part(c, SW))) }

  lemma PartFits(c: bv32, mask: bv32) ensures Within(Part(c, mask), mask) {}

  lemma AskedFits(c: bv32) ensures Within(Asked(Part(c, SW)), SWS) {}

  lemma StatusReplaced(c: bv32, sws: bv32)
    requires Within(sws, SWS)
    ensures Decode(Replace(c, SWS, sws)) == Decode(c).(sws := sws)
  {
    hide Part, Within, Disjoint, Replace;
    StatusApart();
    ReplaceOwn(c, SWS, sws);
    ReplaceOther(c, SWS, sws, SW);
    ReplaceOther(c, SWS, sws, HPRE);
    ReplaceOther(c, SWS, sws, PPRE1);
    ReplaceOther(c, SWS, sws, PLL);
    ReplaceOther(c, SWS, sws, REST);
  }

  lemma StoredFields(v: bv32, c: bv32)
    ensures Decode(Stored(v, c)) == Decode(v).(sws := Decode(c).sws)
  {
    hide Part, Within, Replace;
    PartFits(c, SWS);
    StatusReplaced(v, Part(c, SWS));
  }

  lemma FollowedFields(c: bv32)
    ensures Decode(Followed(c)) == Moved(Decode(c), true)
  {
    hide Part, Within, Replace, Asked;
    AskedFits(c);
    StatusReplaced(c, Asked(Part(c, SW)));
  }

  // ----- The writes -----

  lemma StatusApart()
    ensures Disjoint(SWS, SW) && Disjoint(SWS, HPRE) && Disjoint(SWS, PPRE1)
    ensures Disjoint(SWS, PLL) && Disjoint(SWS, REST)
  {
  }

  /** Which fields some bits have nothing to do with. */
  predicate Off(bits: bv32, sw: bool, hpre: bool, ppre1: bool, pll: bool) {
    && (sw ==> Disjoint(bits, SW)) && (hpre ==> Disjoint(bits, HPRE))
    && (ppre1 ==> Disjoint(bits, PPRE1)) && (pll ==> Disjoint(bits, PLL)) && Disjoint(bits, REST)
  }

  lemma BitsOff()
    ensures Off(SW, false, true, true, true) && Off(SW_PLL, false, true, true, true)
    ensures Off(PLL, true, true, true, false) && Off(HSE_TIMES_9, true, true, true, false)
    ensures Off(PPRE1_DIV2, true, true, false, true)
    ensures Off(SWITCH_AND_PRESCALERS, false, false, false, true) && Off(PLL_AND_USB, true, true, true, false)
  {
  }

  lemma OrOff(c: bv32, bits: bv32, sw: bool, hpre: bool, ppre1: bool, pll: bool)
    requires Off(bits, sw, hpre, ppre1, pll)
    ensures var f, g := Decode(Or(c, bits)), Decode(c);
      && (sw ==> f.sw == g.sw) && (hpre ==> f.hpre == g.hpre) && (ppre1 ==> f.ppre1 == g.ppre1)
      && (pll ==> f.pll == g.pll) && f.rest == g.rest
  {
    hide Part, Or, Disjoint;
    if sw { OrDisjoint(c, bits, SW); }
    if hpre { OrDisjoint(c, bits, HPRE); }
    if ppre1 { OrDisjoint(c, bits, PPRE1); }
    if pll { OrDisjoint(c, bits, PLL); }
    OrDisjoint(c, bits, REST);
  }

  lemma WithoutOff(c: bv32, bits: bv32, sw: bool, hpre: bool, ppre1: bool, pll: bool)
    requires Off(bits, sw, hpre, ppre1, pll)
    ensures var f, g := Decode(Without(c, bits)), Decode(c);
      && (sw ==> f.sw == g.sw) && (hpre ==> f.hpre == g.hpre) && (ppre1 ==> f.ppre1 == g.ppre1)
      && (pll ==> f.pll == g.pll) && f.rest == g.rest
  {
    hide Part, Without, Disjoint;
    if sw { WithoutDisjoint(c, bits, SW); }
    if hpre { WithoutDisjoint(c, bits, HPRE); }
    if ppre1 { WithoutDisjoint(c, bits, PPRE1); }
    if pll { WithoutDisjoint(c, bits, PLL); }
    WithoutDisjoint(c, bits, REST);
  }

  lemma PllSet(c: bv32) requires Part(c, PLL) == 0 ensures Part(Or(c, HSE_TIMES_9), PLL) == HSE_TIMES_9 {}

  lemma SwSet(c: bv32) requires Part(c, SW) == 0 ensures Part(Or(c, SW_PLL), SW) == SW_PLL {}

  lemma Ppre1Set(c: bv32) ensures Part(Or(c, PPRE1_DIV2), PPRE1) == Or(Part(c, PPRE1), PPRE1_DIV2) {}

  lemma SwCleared(c: bv32) ensures Part(Without(c, SWITCH_AND_PRESCALERS), SW) == 0 {}

  lemma HpreCleared(c: bv32) ensures Part(Without(c, SWITCH_AND_PRESCALERS), HPRE) == 0 {}

  lemma Ppre1Cleared(c: bv32) ensures Part(Without(c, SWITCH_AND_PRESCALERS), PPRE1) == 0 {}

  lemma PllCleared(c: bv32) ensures Part(Without(c, PLL_AND_USB), PLL) == 0 {}

  lemma OrDiv2(c: bv32)
    ensures Image(Decode(Or(c, PPRE1_DIV2))) == Image(Decode(c)).(ppre1 := Or(Decode(c).ppre1, PPRE1_DIV2))
  {
    hide Part, Or, Off;
    BitsOff();
    OrOff(c, PPRE1_DIV2, true, true, false, true);
    Ppre1Set(c);
  }

  lemma ClearPll(c: bv32)
    ensures Image(Decode(Without(c, PLL))) == Image(Decode(c)).(pll := 0)
  {
    hide Part, Without, Off;
    BitsOff();
    WithoutOff(c, PLL, true, true, true, false);
    PartOfRemoved(c, PLL);
  }

  lemma OrTimes9(c: bv32)
    requires Decode(c).pll == 0
    ensures Image(Decode(Or(c, HSE_TIMES_9))) == Image(Decode(c)).(pll := HSE_TIMES_9)
  {
    hide Part, Or, Off;
    BitsOff();
    OrOff(c, HSE_TIMES_9, true, true, true, false);
    PllSet(c);
  }

  lemma ClearSw(c: bv32)
    ensures Image(Decode(Without(c, SW))) == Image(Decode(c)).(sw := 0)
  {
    hide Part, Without, Off;
    BitsOff();
    WithoutOff(c, SW, false, true, true, true);
    PartOfRemoved(c, SW);
  }

  lemma OrSwPll(c: bv32)
    requires Decode(c).sw == 0
    ensures Image(Decode(Or(c, SW_PLL))) == Image(Decode(c)).(sw := SW_PLL)
  {
    hide Part, Or, Off;
    BitsOff();
    OrOff(c, SW_PLL, false, true, true, true);
    SwSet(c);
  }

  lemma ClearSelection(c: bv32)
    ensures Image(Decode(Without(c, SWITCH_AND_PRESCALERS))) == Image(Decode(c)).(sw := 0, hpre := 0, ppre1 := 0)
  {
    hide Part, Without, Off;
    BitsOff();
    WithoutOff(c, SWITCH_AND_PRESCALERS, false, false, false, true);
    SwCleared(c);
    HpreCleared(c);
    Ppre1Cleared(c);
  }

  lemma ClearPllAndUsb(c: bv32)
    ensures Image(Decode(Without(c, PLL_AND_USB))) == Image(Decode(c)).(pll := 0)
  {
    hide Part, Without, Off;
    BitsOff();
    WithoutOff(c, PLL_AND_USB, true, true, true, false);
    PllCleared(c);
  }
}
