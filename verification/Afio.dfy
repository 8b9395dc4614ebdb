/** Alternate-function remapping (MAPR) and the choice of port for each external interrupt line (EXTICR). */
module Afio {
  import opened Bits
  import opened Nibbles

  // ----- Remap codes: the field's bits and where they are -----

  const NUMBITS: bv32 := 0x0010_0000
  const LOCATION: bv32 := 0x0020_0000
  const SWJ_MASK: bv32 := 0x0F00_0000

  /** The codes of the header that live in MAPR, without the three for the debug port. */
  predicate IsPeripheral(c: bv32) {
    || c == 0x0000_0001 || c == 0x0000_0002 || c == 0x0000_0004 || c == 0x0000_0008  // SPI1 I2C1 USART1 USART2
    || c == 0x0014_0010 || c == 0x0014_0030                                          // USART3 partial, full
    || c == 0x0016_0040 || c == 0x0016_00C0                                          // TIM1 partial, full
    || c == 0x0018_0100 || c == 0x0018_0200 || c == 0x0018_0300                      // TIM2 partial 1, 2, full
    || c == 0x001A_0800 || c == 0x001A_0C00                                          // TIM3 partial, full
    || c == 0x0000_1000 || c == 0x001D_4000 || c == 0x001D_6000 || c == 0x0000_8000  // TIM4 CAN1 1, 2 PD01
    || c == 0x0020_0001 || c == 0x0020_0002 || c == 0x0020_0004                      // TIM5CH4 ADC1 ADC1
    || c == 0x0020_0008 || c == 0x0020_0010 || c == 0x0020_0020 || c == 0x0020_0040  // ADC2 ADC2 ETH CAN2
    || c == 0x0020_1100 || c == 0x0020_2000 || c == 0x0020_4000                      // SPI3 TIM2ITR1 PTP_PPS
  }

  /** The codes of the debug port: full without NJTRST, JTAG off, all off. */
  predicate IsDebug(c: bv32) { c == 0x0030_0100 || c == 0x0030_0200 || c == 0x0030_0400 }

  function Pos(c: bv32): bv32 { (c & 0x000F_0000) >> 16 }
  function Lsb(c: bv32): bv32 { c & 0xFFFF }
  function CodeBits(c: bv32): bv32 { if c >> 21 == 0 then Lsb(c) else Lsb(c) << 16 }
  function TwoBits(c: bv32): bv32 { 3 << Pos(c) }
  predicate HasNumbits(c: bv32) { c & NUMBITS == NUMBITS }
  predicate HasBoth(c: bv32) { c & (LOCATION | NUMBITS) == LOCATION | NUMBITS }

  /** What the driver clears before it sets the code's bits. */
  function Cleared(c: bv32): bv32 {
    if HasBoth(c) then SWJ_MASK else if HasNumbits(c) then TwoBits(c) else CodeBits(c)
  }

  /** The peripheral's field in MAPR. */
  function Field(c: bv32): bv32 { Without(Cleared(c), SWJ_MASK) }
  function Value(c: bv32): bv32 { Without(CodeBits(c), SWJ_MASK) }

  /** The twenty-one peripheral fields. */
  predicate IsField(m: bv32) {
    || m == 0x0000_0001 || m == 0x0000_0002 || m == 0x0000_0004 || m == 0x0000_0008 || m == 0x0000_0030
    || m == 0x0000_00C0 || m == 0x0000_0300 || m == 0x0000_0C00 || m == 0x0000_1000 || m == 0x0000_6000
    || m == 0x0000_8000 || m == 0x0001_0000 || m == 0x0002_0000 || m == 0x0004_0000 || m == 0x0008_0000
    || m == 0x0010_0000 || m == 0x0020_0000 || m == 0x0040_0000 || m == 0x1000_0000 || m == 0x2000_0000
    || m == 0x4000_0000
  }

  lemma FieldIsField(c: bv32) requires IsPeripheral(c) ensures IsField(Field(c)) {}

  lemma FieldsDisjoint(m: bv32, n: bv32) requires IsField(m) && IsField(n) && m != n ensures Disjoint(m, n) {}

  /** Two codes have the same field or fields with no bit in common. */
  lemma FieldsApart(c: bv32, d: bv32)
    requires IsPeripheral(c) && IsPeripheral(d) && Field(c) != Field(d)
    ensures Disjoint(Field(c), Field(d))
  {
    hide IsPeripheral, IsField, Field, Disjoint;
    FieldIsField(c);
    FieldIsField(d);
    FieldsDisjoint(Field(c), Field(d));
  }

  // ----- Every code in numbers: the field it is about, and the value it sets there -----

  lemma CodesInNumbers1()
    ensures Field(0x0000_0001) == 0x0000_0001 && Value(0x0000_0001) == 0x0000_0001  // SPI1
    ensures Field(0x0000_0002) == 0x0000_0002 && Value(0x0000_0002) == 0x0000_0002  // I2C1
    ensures Field(0x0000_0004) == 0x0000_0004 && Value(0x0000_0004) == 0x0000_0004  // USART1
    ensures Field(0x0000_0008) == 0x0000_0008 && Value(0x0000_0008) == 0x0000_0008  // USART2
    ensures Field(0x0014_0010) == 0x0000_0030 && Value(0x0014_0010) == 0x0000_0010  // USART3 partial
    ensures Field(0x0014_0030) == 0x0000_0030 && Value(0x0014_0030) == 0x0000_0030  // USART3 full
    ensures Field(0x0016_0040) == 0x0000_00C0 && Value(0x0016_0040) == 0x0000_0040  // TIM1 partial
    ensures Field(0x0016_00C0) == 0x0000_00C0 && Value(0x0016_00C0) == 0x0000_00C0  // TIM1 full
    ensures Field(0x0018_0100) == 0x0000_0300 && Value(0x0018_0100) == 0x0000_0100  // TIM2 partial 1
    ensures IsPeripheral(0x0000_0001) && IsPeripheral(0x0000_0002) && IsPeripheral(0x0000_0004)
    ensures IsPeripheral(0x0000_0008) && IsPeripheral(0x0014_0010) && IsPeripheral(0x0014_0030)
    ensures IsPeripheral(0x0016_0040) && IsPeripheral(0x0016_00C0) && IsPeripheral(0x0018_0100)
  {
  }

  lemma CodesInNumbers2()
    ensures Field(0x0018_0200) == 0x0000_0300 && Value(0x0018_0200) == 0x0000_0200  // TIM2 partial 2
    ensures Field(0x0018_0300) == 0x0000_0300 && Value(0x0018_0300) == 0x0000_0300  // TIM2 full
    ensures Field(0x001A_0800) == 0x0000_0C00 && Value(0x001A_0800) == 0x0000_0800  // TIM3 partial
    ensures Field(0x001A_0C00) == 0x0000_0C00 && Value(0x001A_0C00) == 0x0000_0C00  // TIM3 full
    ensures Field(0x0000_1000) == 0x0000_1000 && Value(0x0000_1000) == 0x0000_1000  // TIM4
    ensures Field(0x001D_4000) == 0x0000_6000 && Value(0x001D_4000) == 0x0000_4000  // CAN1 1
    ensures Field(0x001D_6000) == 0x0000_6000 && Value(0x001D_6000) == 0x0000_6000  // CAN1 2
    ensures Field(0x0000_8000) == 0x0000_8000 && Value(0x0000_8000) == 0x0000_8000  // PD01
    ensures Field(0x0020_0001) == 0x0001_0000 && Value(0x0020_0001) == 0x0001_0000  // TIM5CH4
    ensures IsPeripheral(0x0018_0200) && IsPeripheral(0x0018_0300) && IsPeripheral(0x001A_0800)
    ensures IsPeripheral(0x001A_0C00) && IsPeripheral(0x0000_1000) && IsPeripheral(0x001D_4000)
    ensures IsPeripheral(0x001D_6000) && IsPeripheral(0x0000_8000) && IsPeripheral(0x0020_0001)
  {
  }

  lemma CodesInNumbers3()
    ensures Field(0x0020_0002) == 0x0002_0000 && Value(0x0020_0002) == 0x0002_0000  // ADC1 ETRGINJ
    ensures Field(0x0020_0004) == 0x0004_0000 && Value(0x0020_0004) == 0x0004_0000  // ADC1 ETRGREG
    ensures Field(0x0020_0008) == 0x0008_0000 && Value(0x0020_0008) == 0x0008_0000  // ADC2 ETRGINJ
    ensures Field(0x0020_0010) == 0x0010_0000 && Value(0x0020_0010) == 0x0010_0000  // ADC2 ETRGREG
    ensures Field(0x0020_0020) == 0x0020_0000 && Value(0x0020_0020) == 0x0020_0000  // ETH
    ensures Field(0x0020_0040) == 0x0040_0000 && Value(0x0020_0040) == 0x0040_0000  // CAN2
    ensures Field(0x0020_1100) == 0x1000_0000 && Value(0x0020_1100) == 0x1000_0000  // SPI3
    ensures Field(0x0020_2000) == 0x2000_0000 && Value(0x0020_2000) == 0x2000_0000  // TIM2ITR1
    ensures Field(0x0020_4000) == 0x4000_0000 && Value(0x0020_4000) == 0x4000_0000  // PTP_PPS
    ensures IsPeripheral(0x0020_0002) && IsPeripheral(0x0020_0004) && IsPeripheral(0x0020_0008)
    ensures IsPeripheral(0x0020_0010) && IsPeripheral(0x0020_0020) && IsPeripheral(0x0020_0040)
    ensures IsPeripheral(0x0020_1100) && IsPeripheral(0x0020_2000) && IsPeripheral(0x0020_4000)
  {
  }

  lemma DebugCodesInNumbers()
    ensures CodeBits(0x0030_0100) == 0x0100_0000  // full SWJ without NJTRST
    ensures CodeBits(0x0030_0200) == 0x0200_0000  // JTAG off
    ensures CodeBits(0x0030_0400) == 0x0400_0000  // all off
  {
  }

  // ----- What the driver computes, apart from what bits 27:24 read back as -----

  /** A read of MAPR: bits 27:24 read back as anything. */
  function ReadBack(mapr: bv32, noise: bv32): bv32 { Replace(mapr, SWJ_MASK, Part(noise, SWJ_MASK)) }

  function Peripheral(r: bv32, c: bv32, on: bool): bv32 {
    var cleared := Or(Without(r, Cleared(c)), SWJ_MASK);
    if on then Or(cleared, CodeBits(c)) else cleared
  }

  function Debug(r: bv32, c: bv32, on: bool): bv32 {
    var cleared := Without(r, SWJ_MASK);
    if on then Or(cleared, CodeBits(c)) else cleared
  }

  lemma ReadBackSplit(mapr: bv32, noise: bv32)
    ensures ReadBack(mapr, noise) == Or(Without(mapr, SWJ_MASK), Part(noise, SWJ_MASK))
  {
  }

  lemma WithoutOfOr(a: bv32, b: bv32, c: bv32) ensures Without(Or(a, b), c) == Or(Without(a, c), Without(b, c)) {}

  lemma PartAbsorbed(a: bv32, b: bv32, mask: bv32) ensures Or(Or(a, Part(b, mask)), mask) == Or(a, mask) {}

  lemma Overwritten(a: bv32, c: bv32, mask: bv32)
    ensures Or(Without(Without(a, mask), c), mask) == Or(Without(a, c), mask)
  {
  }

  lemma NoiseInMask(noise: bv32, c: bv32, mask: bv32)
    ensures Without(Part(noise, mask), c) == Part(Without(noise, c), mask)
  {
  }

  lemma NoiseUnderOnes(mapr: bv32, noise: bv32, c: bv32)
    ensures Or(Without(ReadBack(mapr, noise), c), SWJ_MASK) == Or(Without(mapr, c), SWJ_MASK)
  {
    hide Or, Without, Part, ReadBack;
    var rest, junk := Without(mapr, SWJ_MASK), Part(noise, SWJ_MASK);
    ReadBackSplit(mapr, noise);
    WithoutOfOr(rest, junk, c);
    NoiseInMask(noise, c, SWJ_MASK);
    PartAbsorbed(Without(rest, c), Without(noise, c), SWJ_MASK);
    Overwritten(mapr, c, SWJ_MASK);
  }

  lemma NoiseCleared(mapr: bv32, noise: bv32)
    ensures Without(ReadBack(mapr, noise), SWJ_MASK) == Without(mapr, SWJ_MASK)
  {
  }

  /** What is written does not depend on what bits 27:24 read back as. */
  lemma NoiseIsIgnored(mapr: bv32, noise: bv32, c: bv32, on: bool)
    ensures Peripheral(ReadBack(mapr, noise), c, on) == Peripheral(mapr, c, on)
    ensures Debug(ReadBack(mapr, noise), c, on) == Debug(mapr, c, on)
  {
    hide Or, Without, ReadBack, Cleared, CodeBits;
    NoiseUnderOnes(mapr, noise, Cleared(c));
    NoiseCleared(mapr, noise);
  }

  lemma OwnFieldOn(r: bv32, cleared: bv32, bits: bv32)
    requires Within(bits, cleared)
    ensures Part(Or(Or(Without(r, cleared), SWJ_MASK), bits), Without(cleared, SWJ_MASK)) == Without(bits, SWJ_MASK)
  {
  }

  lemma OwnFieldOff(r: bv32, cleared: bv32)
    ensures Part(Or(Without(r, cleared), SWJ_MASK), Without(cleared, SWJ_MASK)) == 0
  {
  }

  lemma OtherField(r: bv32, cleared: bv32, mask: bv32)
    requires Disjoint(cleared, mask) && Disjoint(SWJ_MASK, mask)
    ensures Part(Or(Without(r, cleared), SWJ_MASK), mask) == Part(r, mask)
  {
  }

  lemma AllOnes(r: bv32) ensures Part(Or(r, SWJ_MASK), SWJ_MASK) == SWJ_MASK {}

  lemma StillOnes(r: bv32, bits: bv32)
    requires Part(r, SWJ_MASK) == SWJ_MASK
    ensures Part(Or(r, bits), SWJ_MASK) == SWJ_MASK
  {
  }

  lemma BitsCleared(c: bv32) requires IsPeripheral(c) ensures Within(CodeBits(c), Cleared(c)) {}

  lemma FieldOffDebug(c: bv32) requires IsPeripheral(c) ensures Disjoint(SWJ_MASK, Field(c)) {}

  lemma UnionDisjoint(a: bv32, s: bv32, mask: bv32)
    requires Disjoint(Without(a, s), mask) && Disjoint(s, mask)
    ensures Disjoint(a, mask)
  {
  }

  lemma InnerDisjoint(inner: bv32, outer: bv32, mask: bv32)
    requires Within(inner, outer) && Disjoint(outer, mask)
    ensures Disjoint(inner, mask)
  {
  }

  /** A peripheral's code decides its own field ... */
  lemma OwnField(r: bv32, c: bv32, on: bool)
    requires IsPeripheral(c)
    ensures Part(Peripheral(r, c, on), Field(c)) == if on then Value(c) else 0
  {
    hide IsPeripheral, Or, Without, Part, Within, Cleared, CodeBits;
    BitsCleared(c);
    OwnFieldOn(r, Cleared(c), CodeBits(c));
    OwnFieldOff(r, Cleared(c));
  }

  /** ... leaves every other one alone ... */
  lemma OtherFields(r: bv32, c: bv32, on: bool, mask: bv32)
    requires IsPeripheral(c) && Disjoint(Field(c), mask) && Disjoint(SWJ_MASK, mask)
    ensures Part(Peripheral(r, c, on), mask) == Part(r, mask)
  {
    hide IsPeripheral, Or, Without, Part, Within, Disjoint, Cleared, CodeBits;
    UnionDisjoint(Cleared(c), SWJ_MASK, mask);
    OtherField(r, Cleared(c), mask);
    BitsCleared(c);
    InnerDisjoint(CodeBits(c), Cleared(c), mask);
    OrDisjoint(Or(Without(r, Cleared(c)), SWJ_MASK), CodeBits(c), mask);
  }

  /** ... and writes ones to the debug-port bits. */
  lemma DebugBitsAllOnes(r: bv32, c: bv32, on: bool)
    ensures Part(Peripheral(r, c, on), SWJ_MASK) == SWJ_MASK
  {
    hide Or, Without, Part, Cleared, CodeBits;
    AllOnes(Without(r, Cleared(c)));
    StillOnes(Or(Without(r, Cleared(c)), SWJ_MASK), CodeBits(c));
  }

  lemma DebugBits(c: bv32) requires IsDebug(c) ensures Within(CodeBits(c), SWJ_MASK) {}

  /** A debug-port code touches nothing outside bits 27:24. */
  lemma DebugKeepsFields(r: bv32, c: bv32, on: bool, mask: bv32)
    requires IsDebug(c) && Disjoint(SWJ_MASK, mask)
    ensures Part(Debug(r, c, on), mask) == Part(r, mask)
    ensures Part(Without(r, SWJ_MASK), mask) == Part(r, mask)
  {
    hide IsDebug, Or, Without, Part, Within, Disjoint, CodeBits;
    DebugBits(c);
    WithoutDisjoint(r, SWJ_MASK, mask);
    InnerDisjoint(CodeBits(c), SWJ_MASK, mask);
    OrDisjoint(Without(r, SWJ_MASK), CodeBits(c), mask);
  }

  // ----- The debug port -----

  function Setting(v: bv32): bv32 { v & 0x0700_0000 }

  /** The port takes the settings 0, 1, 2 and 4; any other one has no effect. */
  function InForce(swj: bv32, v: bv32): bv32 {
    var s := Setting(v);
    if s == 0 || s == 0x0100_0000 || s == 0x0200_0000 || s == 0x0400_0000 then s else swj
  }

  lemma OnesHaveNoEffect(swj: bv32, v: bv32) requires Part(v, SWJ_MASK) == SWJ_MASK ensures InForce(swj, v) == swj {}

  lemma ZerosReset(swj: bv32, r: bv32) ensures InForce(swj, Without(r, SWJ_MASK)) == 0 {}

  lemma DebugInForce(swj: bv32, r: bv32, c: bv32)
    requires IsDebug(c)
    ensures InForce(swj, Or(Without(r, SWJ_MASK), CodeBits(c))) == CodeBits(c)
  {
  }

  // ----- EXTICR: four bits a line -----

  function Word(pin: bv32): (w: nat)
    requires pin < 16
    ensures w < 4
  {
    (pin >> 2) as int
  }

  function Place(pin: bv32): bv32 { pin & 0x03 }

  lemma WordFits(pin: bv32) requires pin < 16 ensures (pin >> 2) as nat == Word(pin) {}

  lemma PlaceFits(pin: bv32) ensures Place(pin) < 8 {}

  lemma LinesApart(pin: bv32, q: bv32)
    requires pin < 16 && q < 16 && pin != q && Word(pin) == Word(q)
    ensures Place(pin) != Place(q)
  {
    assert ((pin >> 2) as int) as bv32 == pin >> 2;
    assert ((q >> 2) as int) as bv32 == q >> 2;
    SameWord(pin, q);
  }

  lemma SameWord(pin: bv32, q: bv32)
    requires pin != q && pin >> 2 == q >> 2
    ensures Place(pin) != Place(q)
  {
  }

  // ----- Calls and histories -----

  datatype Call = Remap(code: bv32, on: bool) | ExtiLine(port: bv32, pin: bv32) {
    predicate Legal() {
      match this
      case Remap(code, _) => IsPeripheral(code) || IsDebug(code)
      case ExtiLine(port, pin) => port <= 6 && pin < 16
    }
  }

  /** A field is what the last code for it asked for, or zero after that code was disabled. */
  function LastField(calls: seq<Call>, field: bv32, before: bv32): bv32 {
    if calls == [] then before
    else
      var last := calls[|calls| - 1];
      if last.Remap? && IsPeripheral(last.code) && Field(last.code) == field
      then if last.on then Value(last.code) else 0
      else LastField(calls[..|calls| - 1], field, before)
  }

  function LastDebug(calls: seq<Call>, before: bv32): bv32 {
    if calls == [] then before
    else
      var last := calls[|calls| - 1];
      if last.Remap? && IsDebug(last.code)
      then if last.on then CodeBits(last.code) else 0
      else LastDebug(calls[..|calls| - 1], before)
  }

  function LastPort(calls: seq<Call>, pin: bv32, before: bv32): bv32 {
    if calls == [] then before
    else
      var last := calls[|calls| - 1];
      if last.ExtiLine? && last.pin == pin then last.port
      else LastPort(calls[..|calls| - 1], pin, before)
  }

  /** The last call for a field decides it. */
  lemma {:induction false} LastRemapDecides(calls: seq<Call>, i: nat, before: bv32)
    requires i < |calls| && calls[i].Remap? && IsPeripheral(calls[i].code)
    requires forall j | i < j < |calls| && calls[j].Remap? && IsPeripheral(calls[j].code) ::
      Field(calls[j].code) != Field(calls[i].code)
    ensures LastField(calls, Field(calls[i].code), before) == if calls[i].on then Value(calls[i].code) else 0
  {
    hide IsPeripheral, Field, Value;
    if i == |calls| - 1 {
    } else {
      LastRemapDecides(calls[..|calls| - 1], i, before);
    }
  }

  /** The last call for the debug port decides it. */
  lemma {:induction false} LastDebugDecides(calls: seq<Call>, i: nat, before: bv32)
    requires i < |calls| && calls[i].Remap? && IsDebug(calls[i].code)
    requires forall j | i < j < |calls| && calls[j].Remap? :: !IsDebug(calls[j].code)
    ensures LastDebug(calls, before) == if calls[i].on then CodeBits(calls[i].code) else 0
  {
    hide IsDebug, CodeBits;
    if i == |calls| - 1 {
    } else {
      LastDebugDecides(calls[..|calls| - 1], i, before);
    }
  }

  /** The last call for an interrupt line decides its port. */
  lemma {:induction false} LastPortDecides(calls: seq<Call>, i: nat, before: bv32)
    requires i < |calls| && calls[i].ExtiLine?
    requires forall j | i < j < |calls| && calls[j].ExtiLine? :: calls[j].pin != calls[i].pin
    ensures LastPort(calls, calls[i].pin, before) == calls[i].port
  {
    if i == |calls| - 1 {
    } else {
      LastPortDecides(calls[..|calls| - 1], i, before);
    }
  }

  class AfioPort {
    var MAPR: bv32              // the value last written
    var swj: bv32               // the debug-port setting in force
    var EXTICR: seq<bv32>       // four words
    const noise: nat -> bv32    // what bits 27:24 read back as, read by read
    var sampled: nat            // how many reads of MAPR were made

    ghost predicate Valid()
      reads this`EXTICR
    {
      |EXTICR| == 4
    }

    /** After a reset nothing is remapped, and every line takes port A. */
    constructor (noise: nat -> bv32)
      ensures Valid() && MAPR == 0 && swj == 0 && sampled == 0 && EXTICR == [0, 0, 0, 0] && this.noise == noise
    {
      MAPR, swj, EXTICR, sampled, this.noise := 0, 0, [0, 0, 0, 0], 0, noise;
    }

    function FieldOf(code: bv32): bv32
      reads this`MAPR
    {
      Part(MAPR, Field(code))
    }

    function PortOf(pin: bv32): bv32
      requires Valid() && pin < 16
      reads this`EXTICR
    {
      PlaceFits(pin);
      Nibble(EXTICR[Word(pin)], Place(pin))
    }

    /** The port of a line, by bit positions: word pin / 4, and there the four bits from bit 4 (pin % 4) on. */
    lemma PortInShifts(pin: bv32)
      requires Valid() && pin < 16
      ensures (pin >> 2) as nat < 4 && pin & 3 < 8
      ensures PortOf(pin) == FourBitsAt(EXTICR[(pin >> 2) as nat], pin & 3)
    {
      hide Nibble, FourBitsAt;
      PlaceFits(pin);
      WordFits(pin);
      NibbleIsFourBits(EXTICR[Word(pin)], Place(pin));
    }

    method ReadMAPR() returns (v: bv32)
      modifies this`sampled
      ensures v == ReadBack(MAPR, noise(old(sampled)))
    {
      v := ReadBack(MAPR, noise(sampled));
      sampled := sampled + 1;
    }

    method WriteMAPR(v: bv32)
      modifies this`MAPR, this`swj
      ensures MAPR == v && swj == InForce(old(swj), v)
    {
      swj := InForce(swj, v);
      MAPR := v;
    }

    /** GPIO_PinRemapConfig. A peripheral code (SPI3 included) leaves the debug-port setting in force. The value
        written to MAPR is the same whatever bits 27:24 read back as. */
    method PinRemapConfig(code: bv32, on: bool)
      requires IsPeripheral(code) || IsDebug(code)
      modifies this`MAPR, this`swj, this`sampled
      ensures IsPeripheral(code) ==> MAPR == Peripheral(old(MAPR), code, on) && swj == old(swj)
      ensures IsDebug(code) ==> MAPR == Debug(old(MAPR), code, on) && swj == if on then CodeBits(code) else 0
      ensures forall d: bv32 | IsPeripheral(d) ::
        FieldOf(d)
        == if IsPeripheral(code) && Field(d) == Field(code) then (if on then Value(code) else 0) else old(FieldOf(d))
    {
      hide IsPeripheral, IsDebug, HasBoth, HasNumbits, Or, Without, Part, Field, Value;
      hide ReadBack, CodeBits, TwoBits, InForce, Disjoint;
      KindOfCode(code);
      var tmpreg := ReadMAPR();
      NoiseIsIgnored(MAPR, noise(old(sampled)), code, on);
      if HasBoth(code) {
        tmpreg := Without(tmpreg, SWJ_MASK);
        var v := ReadMAPR();
        WriteMAPR(Without(v, SWJ_MASK));
        DebugInForce(swj, ReadBack(old(MAPR), noise(old(sampled))), code);
        ZerosReset(swj, ReadBack(old(MAPR), noise(old(sampled))));
      } else {
        tmpreg := Without(tmpreg, if HasNumbits(code) then TwoBits(code) else CodeBits(code));
        tmpreg := Or(tmpreg, SWJ_MASK);
        DebugBitsAllOnes(old(MAPR), code, on);
        OnesHaveNoEffect(swj, Peripheral(old(MAPR), code, on));
      }
      if on {
        tmpreg := Or(tmpreg, CodeBits(code));
      }
      WriteMAPR(tmpreg);
      forall d: bv32 | IsPeripheral(d)
        ensures FieldOf(d)
          == if IsPeripheral(code) && Field(d) == Field(code) then (if on then Value(code) else 0) else old(FieldOf(d))
      {
        FieldOffDebug(d);
        if IsDebug(code) {
          DebugKeepsFields(old(MAPR), code, on, Field(d));
        } else if Field(d) == Field(code) {
          OwnField(old(MAPR), code, on);
        } else {
          FieldsApart(code, d);
          OtherFields(old(MAPR), code, on, Field(d));
        }
      }
    }

    /** GPIO_EXTILineConfig: the line named gets the port named; every other line keeps its own. */
    method EXTILineConfig(port: bv32, pin: bv32)
      requires Valid() && port <= 6 && pin < 16
      modifies this`EXTICR
      ensures Valid()
      ensures forall q: bv32 | q < 16 :: PortOf(q) == if q == pin then port else old(PortOf(q))
    {
      hide Nibble, SetNibble, Place, Word;
      PlaceFits(pin);
      ghost var before := EXTICR;
      forall q: bv32 | q < 16
        ensures Place(q) < 8
        ensures q != pin && Word(q) == Word(pin) ==> Place(q) != Place(pin)
        ensures Nibble(SetNibble(before[Word(pin)], Place(pin), port), Place(q))
             == if Place(q) == Place(pin) then port else Nibble(before[Word(pin)], Place(q))
      {
        PlaceFits(q);
        if q != pin && Word(q) == Word(pin) { LinesApart(pin, q); }
        SetNibbleOnly(before[Word(pin)], Place(pin), port, Place(q));
      }
      EXTICR := EXTICR[Word(pin) := SetNibble(EXTICR[Word(pin)], Place(pin), port)];
    }

    /** Any history of calls: every field, the debug port and every line are as their last calls asked. */
    method Replay(calls: seq<Call>)
      requires Valid() && forall c | c in calls :: c.Legal()
      modifies this
      ensures Valid()
      ensures forall d: bv32 | IsPeripheral(d) :: FieldOf(d) == LastField(calls, Field(d), old(FieldOf(d)))
      ensures swj == LastDebug(calls, old(swj))
      ensures forall q: bv32 | q < 16 :: PortOf(q) == LastPort(calls, q, old(PortOf(q)))
    {
      hide IsPeripheral, IsDebug, Field, Value, CodeBits, PortOf, FieldOf, Peripheral, Debug;
      for i := 0 to |calls|
        invariant Valid()
        invariant forall d: bv32 | IsPeripheral(d) :: FieldOf(d) == LastField(calls[..i], Field(d), old(FieldOf(d)))
        invariant swj == LastDebug(calls[..i], old(swj))
        invariant forall q: bv32 | q < 16 :: PortOf(q) == LastPort(calls[..i], q, old(PortOf(q)))
      {
        assert calls[i] in calls && calls[..i + 1][..i] == calls[..i];
        match calls[i] {
          case Remap(code, on) =>
            KindOfCode(code);
            PinRemapConfig(code, on);
          case ExtiLine(port, pin) => EXTILineConfig(port, pin);
        }
      }
      assert calls[..|calls|] == calls;
    }
  }

  lemma KindOfCode(c: bv32)
    requires IsPeripheral(c) || IsDebug(c)
    ensures IsDebug(c) == HasBoth(c)
    ensures IsPeripheral(c) == !IsDebug(c)
  {
  }
}
