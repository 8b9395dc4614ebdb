/** Pin configuration: sixteen 4-bit fields in CRL and CRH, and an output bit a pin. */
module Gpio {
  import opened Bits
  import opened BitSets
  import opened Nibbles

  const PINS: bv32 := 16

  // ----- Modes and speeds -----

  const MODE_AIN: bv32 := 0x00
  const MODE_IN_FLOATING: bv32 := 0x04
  const MODE_IPD: bv32 := 0x28
  const MODE_IPU: bv32 := 0x48
  const MODE_OUT_OD: bv32 := 0x14
  const MODE_OUT_PP: bv32 := 0x10
  const MODE_AF_OD: bv32 := 0x1C
  const MODE_AF_PP: bv32 := 0x18

  predicate IsMode(mode: bv32) {
    || mode == MODE_AIN || mode == MODE_IN_FLOATING || mode == MODE_IPD || mode == MODE_IPU
    || mode == MODE_OUT_OD || mode == MODE_OUT_PP || mode == MODE_AF_OD || mode == MODE_AF_PP
  }

  predicate IsOutput(mode: bv32) { mode & 0x10 != 0 }

  /** The 4-bit configuration GPIO_Init computes first. */
  function CurrentMode(mode: bv32, speed: bv32): bv32 {
    if IsOutput(mode) then (mode & 0x0F) | speed else mode & 0x0F
  }

  lemma CurrentModeFits(mode: bv32, speed: bv32)
    requires speed <= 3
    ensures CurrentMode(mode, speed) < 16
  {
  }

  /** The 4-bit configuration of every mode, in numbers. */
  lemma ModesInNumbers(speed: bv32)
    requires speed <= 3
    ensures IsMode(0x00) && IsMode(0x04) && IsMode(0x28) && IsMode(0x48)
    ensures IsMode(0x10) && IsMode(0x14) && IsMode(0x18) && IsMode(0x1C)
    ensures CurrentMode(0x00, speed) == 0x0 && CurrentMode(0x04, speed) == 0x4  // AIN, floating
    ensures CurrentMode(0x28, speed) == 0x8 && CurrentMode(0x48, speed) == 0x8  // IPD, IPU
    ensures CurrentMode(0x10, speed) == 0x0 + speed && CurrentMode(0x14, speed) == 0x4 + speed  // OUT PP, OD
    ensures CurrentMode(0x18, speed) == 0x8 + speed && CurrentMode(0x1C, speed) == 0xC + speed  // AF PP, OD
  {
  }

  /** Only pull-down and pull-up inputs drive the output bit, to zero and to one. */
  lemma PullsInNumbers(mode: bv32, out: bool)
    ensures Pulled(0x28, out) == false && Pulled(0x48, out) == true
    ensures mode != 0x28 && mode != 0x48 ==> Pulled(mode, out) == out
  {
  }

  // ----- One output bit a pin -----

  /** What the port does on a write to BSRR or BRR, whose low halves set and clear output bits. */
  function SetOdr(odr: bv32, mask: bv32): bv32 { Or(odr, Part(mask, 0xFFFF)) }
  function ResetOdr(odr: bv32, mask: bv32): bv32 { Without(odr, Part(mask, 0xFFFF)) }

  lemma PinIsLow(mask: bv32, p: bv32) requires p < PINS ensures Has(Part(mask, 0xFFFF), p) == Has(mask, p) {}

  lemma SetOdrPin(odr: bv32, mask: bv32, p: bv32)
    requires p < PINS
    ensures Has(SetOdr(odr, mask), p) == (Has(mask, p) || Has(odr, p))
  {
    hide Has, Part, Or;
    HasOr(odr, Part(mask, 0xFFFF), p);
    PinIsLow(mask, p);
  }

  lemma ResetOdrPin(odr: bv32, mask: bv32, p: bv32)
    requires p < PINS
    ensures Has(ResetOdr(odr, mask), p) == (Has(odr, p) && !Has(mask, p))
  {
    hide Has, Part, Without;
    HasWithout(odr, Part(mask, 0xFFFF), p);
    PinIsLow(mask, p);
  }

  const HIGH_ODR: bv32 := 0xFFFF_0000

  lemma SetKeepsHigh(odr: bv32, mask: bv32) ensures Part(SetOdr(odr, mask), HIGH_ODR) == Part(odr, HIGH_ODR) {}

  lemma ResetKeepsHigh(odr: bv32, mask: bv32) ensures Part(ResetOdr(odr, mask), HIGH_ODR) == Part(odr, HIGH_ODR) {}

  lemma NoLowPin(pins: bv32, p: bv32) requires p < 8 && pins & 0x00FF == 0 ensures !Has(pins, p) {}

  lemma NoHighPin(pins: bv32, p: bv32) requires 8 <= p < PINS && pins <= 0x00FF ensures !Has(pins, p) {}

  // ----- One pin -----

  datatype Pin = Pin(config: bv32, out: bool)

  datatype Call =
    | Init(pins: bv32, mode: bv32, speed: bv32)
    | SetBits(pins: bv32)
    | ResetBits(pins: bv32)
    | WriteBit(pins: bv32, value: bool)
    | Write(pins: bv32)
  {
    predicate Legal() {
      pins <= 0xFFFF && (Init? ==> IsMode(mode) && speed <= 3)
    }
  }

  /** What a pull-up or pull-down input does to its output bit. */
  function Pulled(mode: bv32, out: bool): bool {
    if mode == MODE_IPD then false else if mode == MODE_IPU then true else out
  }

  /** What one call does to pin p. */
  function Step(s: Pin, p: bv32, call: Call): Pin
    requires p < PINS
  {
    match call
    case Init(pins, mode, speed) =>
      if Has(pins, p) then Pin(CurrentMode(mode, speed), Pulled(mode, s.out)) else s
    case SetBits(pins) => if Has(pins, p) then s.(out := true) else s
    case ResetBits(pins) => if Has(pins, p) then s.(out := false) else s
    case WriteBit(pins, value) => if Has(pins, p) then s.(out := value) else s
    case Write(pins) => s.(out := Has(pins, p))
  }

  function Steps(s: Pin, p: bv32, calls: seq<Call>): Pin
    requires p < PINS
  {
    if calls == [] then s else Step(Steps(s, p, calls[..|calls| - 1]), p, calls[|calls| - 1])
  }

  class GpioPort {
    var CRL: bv32
    var CRH: bv32
    var ODR: bv32

    function State(p: bv32): Pin
      requires p < PINS
      reads this
    {
      Pin(if p < 8 then Nibble(CRL, p) else Nibble(CRH, p - 8), Has(ODR, p))
    }

    method WriteBSRR(mask: bv32)
      modifies this`ODR
      ensures forall p: bv32 | p < PINS :: Has(ODR, p) == (Has(mask, p) || Has(old(ODR), p))
      ensures Part(ODR, HIGH_ODR) == Part(old(ODR), HIGH_ODR)
    {
      hide Has, SetOdr, Part;
      forall p: bv32 | p < PINS { SetOdrPin(ODR, mask, p); }
      SetKeepsHigh(ODR, mask);
      ODR := SetOdr(ODR, mask);
    }

    method WriteBRR(mask: bv32)
      modifies this`ODR
      ensures forall p: bv32 | p < PINS :: Has(ODR, p) == (!Has(mask, p) && Has(old(ODR), p))
      ensures Part(ODR, HIGH_ODR) == Part(old(ODR), HIGH_ODR)
    {
      hide Has, ResetOdr, Part;
      forall p: bv32 | p < PINS { ResetOdrPin(ODR, mask, p); }
      ResetKeepsHigh(ODR, mask);
      ODR := ResetOdr(ODR, mask);
    }

    /** Drives the output bit of one pull-up or pull-down input. */
    method Pull(p: bv32, mode: bv32)
      requires p < PINS
      modifies this`ODR
      ensures forall q: bv32 | q < PINS ::
        Has(ODR, q) == if q == p then Pulled(mode, Has(old(ODR), q)) else Has(old(ODR), q)
      ensures Part(ODR, HIGH_ODR) == Part(old(ODR), HIGH_ODR)
    {
      hide Has, Part, Bit;
      forall q: bv32 | q < PINS ensures Has(Bit(p), q) == (p == q) { HasBit(p, q); }
      if mode == MODE_IPD {
        WriteBRR(Bit(p));
      } else if mode == MODE_IPU {
        WriteBSRR(Bit(p));
      }
    }

    /** The CRL loop of GPIO_Init: pins 0 to 7. */
    method InitLow(pins: bv32, mode: bv32, currentmode: bv32)
      requires currentmode < 16
      modifies this`CRL, this`ODR
      ensures forall p: bv32 | p < 8 :: Nibble(CRL, p) == if Has(pins, p) then currentmode else Nibble(old(CRL), p)
      ensures forall p: bv32 | p < PINS ::
        Has(ODR, p) == if p < 8 && Has(pins, p) then Pulled(mode, Has(old(ODR), p)) else Has(old(ODR), p)
      ensures Part(ODR, HIGH_ODR) == Part(old(ODR), HIGH_ODR)
    {
      hide Has, Part, Bit, Nibble, SetNibble, Pulled;
      var tmpreg := CRL;
      var pinpos: bv32 := 0;
      while pinpos < 8
        invariant pinpos <= 8 && CRL == old(CRL)
        invariant forall p: bv32 | p < 8 ::
          Nibble(tmpreg, p) == if p < pinpos && Has(pins, p) then currentmode else Nibble(old(CRL), p)
        invariant forall p: bv32 | p < PINS ::
          Has(ODR, p) == if p < pinpos && Has(pins, p) then Pulled(mode, Has(old(ODR), p)) else Has(old(ODR), p)
        invariant Part(ODR, HIGH_ODR) == Part(old(ODR), HIGH_ODR)
        decreases 8 - pinpos
      {
        if Has(pins, pinpos) {
          SetNibbleAll(tmpreg, pinpos, currentmode);
          tmpreg := SetNibble(tmpreg, pinpos, currentmode);
          Pull(pinpos, mode);
        }
        pinpos := pinpos + 1;
      }
      CRL := tmpreg;
    }

    /** The CRH loop of GPIO_Init: pins 8 to 15. */
    method InitHigh(pins: bv32, mode: bv32, currentmode: bv32)
      requires currentmode < 16
      modifies this`CRH, this`ODR
      ensures forall i: bv32 | i < 8 :: Nibble(CRH, i) == if Has(pins, i + 8) then currentmode else Nibble(old(CRH), i)
      ensures forall p: bv32 | p < PINS ::
        Has(ODR, p) == if 8 <= p && Has(pins, p) then Pulled(mode, Has(old(ODR), p)) else Has(old(ODR), p)
      ensures Part(ODR, HIGH_ODR) == Part(old(ODR), HIGH_ODR)
    {
      hide Has, Part, Bit, Nibble, SetNibble, Pulled;
      var tmpreg := CRH;
      var pinpos: bv32 := 0;
      while pinpos < 8
        invariant pinpos <= 8 && CRH == old(CRH)
        invariant forall i: bv32 | i < 8 ::
          Nibble(tmpreg, i) == if i < pinpos && Has(pins, i + 8) then currentmode else Nibble(old(CRH), i)
        invariant forall p: bv32 | p < PINS ::
          Has(ODR, p) ==
          if 8 <= p < pinpos + 8 && Has(pins, p) then Pulled(mode, Has(old(ODR), p)) else Has(old(ODR), p)
        invariant Part(ODR, HIGH_ODR) == Part(old(ODR), HIGH_ODR)
        decreases 8 - pinpos
      {
        if Has(pins, pinpos + 8) {
          SetNibbleAll(tmpreg, pinpos, currentmode);
          tmpreg := SetNibble(tmpreg, pinpos, currentmode);
          Pull(pinpos + 8, mode);
        }
        pinpos := pinpos + 1;
      }
      CRH := tmpreg;
    }

    /** The state of a pin, by bit positions: pins 0 to 7 in CRL and 8 to 15 in CRH, four bits each from the right. */
    lemma StateInShifts(p: bv32)
      requires p < PINS
      ensures State(p).config == if p < 8 then FourBitsAt(CRL, p) else FourBitsAt(CRH, p - 8)
      ensures State(p).out == InMask(ODR, p)
    {
      hide Nibble, FourBitsAt, Has, InMask;
      if p < 8 { NibbleIsFourBits(CRL, p); } else { NibbleIsFourBits(CRH, p - 8); }
      HasIsInMask(ODR, p);
    }

    /** GPIO_Init: every pin the mask covers is configured as asked, every other pin is as it was. The last three
        clauses say it by bit positions. */
    method Init(pins: bv32, mode: bv32, speed: bv32)
      requires Call.Init(pins, mode, speed).Legal()
      modifies this
      ensures forall p: bv32 | p < PINS :: State(p) == Step(old(State(p)), p, Call.Init(pins, mode, speed))
      ensures Part(ODR, HIGH_ODR) == Part(old(ODR), HIGH_ODR)
      ensures forall i: bv32 | i < 8 ::
        FourBitsAt(CRL, i) == if InMask(pins, i) then CurrentMode(mode, speed) else FourBitsAt(old(CRL), i)
      ensures forall i: bv32 | i < 8 ::
        FourBitsAt(CRH, i) == if InMask(pins, i + 8) then CurrentMode(mode, speed) else FourBitsAt(old(CRH), i)
      ensures forall p: bv32 | p < PINS ::
        InMask(ODR, p) == if InMask(pins, p) then Pulled(mode, InMask(old(ODR), p)) else InMask(old(ODR), p)
    {
      hide InMask, FourBitsAt, Nibble, Has, Part, State, Pulled, CurrentMode, Call.Legal;
      ghost var crl, crh, odr := CRL, CRH, ODR;
      Configure(pins, mode, speed);
      forall i: bv32 | i < 8
        ensures FourBitsAt(CRL, i) == if InMask(pins, i) then CurrentMode(mode, speed) else FourBitsAt(crl, i)
        ensures FourBitsAt(CRH, i) == if InMask(pins, i + 8) then CurrentMode(mode, speed) else FourBitsAt(crh, i)
      {
        NibbleIsFourBits(crl, i);
        NibbleIsFourBits(CRL, i);
        NibbleIsFourBits(crh, i);
        NibbleIsFourBits(CRH, i);
        HasIsInMask(pins, i);
        HasIsInMask(pins, i + 8);
      }
      forall p: bv32 | p < PINS
        ensures InMask(ODR, p) == if InMask(pins, p) then Pulled(mode, InMask(odr, p)) else InMask(odr, p)
      {
        HasIsInMask(odr, p);
        HasIsInMask(ODR, p);
        HasIsInMask(pins, p);
      }
    }

    /** The two loops of GPIO_Init. */
    method Configure(pins: bv32, mode: bv32, speed: bv32)
      requires Call.Init(pins, mode, speed).Legal()
      modifies this
      ensures forall p: bv32 | p < PINS :: State(p) == Step(old(State(p)), p, Call.Init(pins, mode, speed))
      ensures Part(ODR, HIGH_ODR) == Part(old(ODR), HIGH_ODR)
      ensures forall i: bv32 | i < 8 ::
        Nibble(CRL, i) == if Has(pins, i) then CurrentMode(mode, speed) else Nibble(old(CRL), i)
      ensures forall i: bv32 | i < 8 ::
        Nibble(CRH, i) == if Has(pins, i + 8) then CurrentMode(mode, speed) else Nibble(old(CRH), i)
      ensures forall p: bv32 | p < PINS ::
        Has(ODR, p) == if Has(pins, p) then Pulled(mode, Has(old(ODR), p)) else Has(old(ODR), p)
    {
      hide Has, Part, Nibble, Pulled, CurrentMode, IsMode;
      CurrentModeFits(mode, speed);
      var currentmode := CurrentMode(mode, speed);
      if HasLow(pins) {
        InitLow(pins, mode, currentmode);
      } else {
        forall p: bv32 | p < 8 { NoLowPin(pins, p); }
      }
      if pins > 0x00FF {
        InitHigh(pins, mode, currentmode);
      } else {
        forall p: bv32 | 8 <= p < PINS { NoHighPin(pins, p); }
      }
      forall p: bv32 | p < PINS ensures State(p) == Step(old(State(p)), p, Call.Init(pins, mode, speed)) {
        if 8 <= p {
          PlusMinus(p);
        }
      }
    }

    /** Any one call. */
    method Do(call: Call)
      requires call.Legal()
      modifies this
      ensures forall p: bv32 | p < PINS :: State(p) == Step(old(State(p)), p, call)
      ensures Part(ODR, HIGH_ODR) == if call.Write? then 0 else Part(old(ODR), HIGH_ODR)
    {
      hide Has, Part, Nibble, Pulled, CurrentMode, IsMode;
      match call {
        case Init(pins, mode, speed) => Init(pins, mode, speed);
        case SetBits(pins) => WriteBSRR(pins);
        case ResetBits(pins) => WriteBRR(pins);
        case WriteBit(pins, value) =>
          if value {
            WriteBSRR(pins);
          } else {
            WriteBRR(pins);
          }
        case Write(pins) =>
          NoHighPart(pins);
          ODR := pins;
      }
    }

    /** Any history of calls: every pin is where its own sequence of steps leads. */
    method Replay(calls: seq<Call>)
      requires forall c | c in calls :: c.Legal()
      modifies this
      ensures forall p: bv32 | p < PINS :: State(p) == Steps(old(State(p)), p, calls)
    {
      hide Step, State, Part, Call.Legal;
      for i := 0 to |calls|
        invariant forall p: bv32 | p < PINS :: State(p) == Steps(old(State(p)), p, calls[..i])
      {
        assert calls[i] in calls && calls[..i + 1][..i] == calls[..i];
        Do(calls[i]);
      }
      assert calls[..|calls|] == calls;
    }
  }

  predicate HasLow(pins: bv32) { pins & 0x00FF != 0 }

  lemma PlusMinus(p: bv32) requires 8 <= p < PINS ensures (p - 8) + 8 == p {}

  lemma NoHighPart(pins: bv32) requires pins <= 0xFFFF ensures Part(pins, HIGH_ODR) == 0 {}

  // ----- Histories -----

  /** The last GPIO_Init that covers a pin decides its configuration. */
  lemma {:induction false} LastInitDecides(s: Pin, p: bv32, calls: seq<Call>, i: nat)
    requires p < PINS && i < |calls| && calls[i].Init? && Has(calls[i].pins, p)
    requires forall j | i < j < |calls| && calls[j].Init? :: !Has(calls[j].pins, p)
    ensures Steps(s, p, calls).config == CurrentMode(calls[i].mode, calls[i].speed)
  {
    hide Has, CurrentMode, Pulled;
    if i == |calls| - 1 {
    } else {
      LastInitDecides(s, p, calls[..|calls| - 1], i);
    }
  }

  /** Whether a call drives the output bit of pin p, and which way. */
  predicate Drives(call: Call, p: bv32)
    requires p < PINS
  {
    call.Write? || (Has(call.pins, p) && (call.Init? ==> call.mode == MODE_IPD || call.mode == MODE_IPU))
  }

  predicate DrivenHigh(call: Call, p: bv32)
    requires p < PINS
  {
    match call
    case Init(_, mode, _) => mode == MODE_IPU
    case SetBits(_) => true
    case ResetBits(_) => false
    case WriteBit(_, value) => value
    case Write(pins) => Has(pins, p)
  }

  /** The last call that drives a pin's output bit decides it. */
  lemma {:induction false} LastDriverDecides(s: Pin, p: bv32, calls: seq<Call>, i: nat)
    requires p < PINS && i < |calls| && Drives(calls[i], p)
    requires forall j | i < j < |calls| :: !Drives(calls[j], p)
    ensures Steps(s, p, calls).out == DrivenHigh(calls[i], p)
  {
    hide Has, CurrentMode;
    if i == |calls| - 1 {
    } else {
      assert !Drives(calls[|calls| - 1], p);
      LastDriverDecides(s, p, calls[..|calls| - 1], i);
    }
  }

  /** A pin no call covers stays as it is. */
  lemma {:induction false} UncoveredPinKept(s: Pin, p: bv32, calls: seq<Call>)
    requires p < PINS && forall c | c in calls :: !c.Write? && !Has(c.pins, p)
    ensures Steps(s, p, calls) == s
  {
    hide Has, CurrentMode, Pulled;
    if calls == [] {
    } else {
      assert calls[|calls| - 1] in calls;
      UncoveredPinKept(s, p, calls[..|calls| - 1]);
    }
  }

  // ----- Algebra of calls -----

  lemma DisjointMasks(a: bv32, b: bv32, p: bv32)
    requires p < PINS && Disjoint(a, b)
    ensures !Has(a, p) || !Has(b, p)
  {
  }

  lemma SamePart(r: bv32, s: bv32, p: bv32)
    requires p < PINS && Has(r, p) == Has(s, p)
    ensures Part(r, Bit(p)) == Part(s, Bit(p))
  {
    hide Part, Bit;
    BitOrNothing(r, p);
    BitOrNothing(s, p);
  }

  lemma SixteenParts(r: bv32, s: bv32)
    requires Part(r, Bit(0)) == Part(s, Bit(0))
    requires Part(r, Bit(1)) == Part(s, Bit(1))
    requires Part(r, Bit(2)) == Part(s, Bit(2))
    requires Part(r, Bit(3)) == Part(s, Bit(3))
    requires Part(r, Bit(4)) == Part(s, Bit(4))
    requires Part(r, Bit(5)) == Part(s, Bit(5))
    requires Part(r, Bit(6)) == Part(s, Bit(6))
    requires Part(r, Bit(7)) == Part(s, Bit(7))
    requires Part(r, Bit(8)) == Part(s, Bit(8))
    requires Part(r, Bit(9)) == Part(s, Bit(9))
    requires Part(r, Bit(10)) == Part(s, Bit(10))
    requires Part(r, Bit(11)) == Part(s, Bit(11))
    requires Part(r, Bit(12)) == Part(s, Bit(12))
    requires Part(r, Bit(13)) == Part(s, Bit(13))
    requires Part(r, Bit(14)) == Part(s, Bit(14))
    requires Part(r, Bit(15)) == Part(s, Bit(15))
    requires Part(r, HIGH_ODR) == Part(s, HIGH_ODR)
    ensures r == s
  {
  }

  /** An output register is its sixteen bits and the reserved half. */
  lemma BitsDetermine(r: bv32, s: bv32)
    requires forall p: bv32 | p < PINS :: Has(r, p) == Has(s, p)
    requires Part(r, HIGH_ODR) == Part(s, HIGH_ODR)
    ensures r == s
  {
    hide Has, Part, Bit;
    SamePart(r, s, 0);
    SamePart(r, s, 1);
    SamePart(r, s, 2);
    SamePart(r, s, 3);
    SamePart(r, s, 4);
    SamePart(r, s, 5);
    SamePart(r, s, 6);
    SamePart(r, s, 7);
    SamePart(r, s, 8);
    SamePart(r, s, 9);
    SamePart(r, s, 10);
    SamePart(r, s, 11);
    SamePart(r, s, 12);
    SamePart(r, s, 13);
    SamePart(r, s, 14);
    SamePart(r, s, 15);
    SixteenParts(r, s);
  }

  /** Two ports whose pins agree have the same registers. */
  lemma PinsDetermine(a: GpioPort, b: GpioPort)
    requires forall p: bv32 | p < PINS :: a.State(p) == b.State(p)
    requires Part(a.ODR, HIGH_ODR) == Part(b.ODR, HIGH_ODR)
    ensures a.CRL == b.CRL && a.CRH == b.CRH && a.ODR == b.ODR
  {
    hide Has, Nibble, Part;
    forall p: bv32 | p < PINS ensures Has(a.ODR, p) == Has(b.ODR, p) {
      assert a.State(p) == b.State(p);
    }
    BitsDetermine(a.ODR, b.ODR);
    forall i: bv32 | i < 8 ensures Nibble(a.CRL, i) == Nibble(b.CRL, i) {
      assert a.State(i) == b.State(i);
    }
    NibblesDetermine(a.CRL, b.CRL);
    forall i: bv32 | i < 8 ensures Nibble(a.CRH, i) == Nibble(b.CRH, i) {
      HighPin(i);
      assert a.State(i + 8) == b.State(i + 8);
    }
    NibblesDetermine(a.CRH, b.CRH);
  }

  lemma HighPin(i: bv32) requires i < 8 ensures 8 <= i + 8 < PINS && (i + 8) - 8 == i {}

  /** Calls on disjoint masks do the same to every pin in either order. */
  lemma DisjointCallsCommute(s: Pin, p: bv32, a: Call, b: Call)
    requires p < PINS && !a.Write? && !b.Write? && Disjoint(a.pins, b.pins)
    ensures Step(Step(s, p, a), p, b) == Step(Step(s, p, b), p, a)
  {
    hide Has, CurrentMode, Pulled;
    DisjointMasks(a.pins, b.pins, p);
  }

  /** The same in registers: two equal ports given two calls on disjoint masks, in either order, end up equal. */
  method CommuteOnRegisters(x: GpioPort, y: GpioPort, a: Call, b: Call)
    requires x != y && x.CRL == y.CRL && x.CRH == y.CRH && x.ODR == y.ODR
    requires a.Legal() && b.Legal() && !a.Write? && !b.Write? && Disjoint(a.pins, b.pins)
    modifies x, y
    ensures x.CRL == y.CRL && x.CRH == y.CRH && x.ODR == y.ODR
  {
    hide Step, Part, Disjoint, Has, Nibble;
    assert forall p: bv32 | p < PINS :: x.State(p) == y.State(p);
    x.Do(a);
    x.Do(b);
    y.Do(b);
    y.Do(a);
    forall p: bv32 | p < PINS ensures x.State(p) == y.State(p) {
      DisjointCallsCommute(old(x.State(p)), p, a, b);
    }
    PinsDetermine(x, y);
  }

  /** One GPIO_Init for two masks does to every pin what two calls do, one for each. */
  lemma UnionIsBoth(s: Pin, p: bv32, a: bv32, b: bv32, mode: bv32, speed: bv32)
    requires p < PINS
    ensures Step(s, p, Init(Or(a, b), mode, speed)) == Step(Step(s, p, Init(a, mode, speed)), p, Init(b, mode, speed))
  {
    hide Has, CurrentMode, Or;
    HasOr(a, b, p);
  }

  lemma UnionFits(a: bv32, b: bv32) requires a <= 0xFFFF && b <= 0xFFFF ensures Or(a, b) <= 0xFFFF {}

  /** The same in registers: of two equal ports one is given the union, the other both masks, and they end up equal. */
  method UnionOnRegisters(x: GpioPort, y: GpioPort, a: bv32, b: bv32, mode: bv32, speed: bv32)
    requires x != y && x.CRL == y.CRL && x.CRH == y.CRH && x.ODR == y.ODR
    requires Call.Init(a, mode, speed).Legal() && Call.Init(b, mode, speed).Legal()
    modifies x, y
    ensures x.CRL == y.CRL && x.CRH == y.CRH && x.ODR == y.ODR
  {
    hide Step, Part, Has, Nibble, Or, IsMode;
    UnionFits(a, b);
    assert forall p: bv32 | p < PINS :: x.State(p) == y.State(p);
    x.Init(Or(a, b), mode, speed);
    y.Init(a, mode, speed);
    y.Init(b, mode, speed);
    forall p: bv32 | p < PINS ensures x.State(p) == y.State(p) {
      UnionIsBoth(old(x.State(p)), p, a, b, mode, speed);
    }
    PinsDetermine(x, y);
  }

  /** The CRH loop does to CRH and the high output bits, on mask m << 8, what the CRL loop does to CRL and the low
      output bits on m. */
  method LoopsAgree(low: GpioPort, high: GpioPort, m: bv32, mode: bv32, currentmode: bv32)
    requires low != high && m <= 0xFF && currentmode < 16 && low.CRL == high.CRH
    requires forall i: bv32 | i < 8 :: Has(low.ODR, i) == Has(high.ODR, i + 8)
    modifies low, high
    ensures low.CRL == high.CRH && low.CRH == old(low.CRH) && high.CRL == old(high.CRL)
    ensures forall i: bv32 | i < 8 :: Has(low.ODR, i) == Has(high.ODR, i + 8)
  {
    hide Has, Part, Nibble, Pulled;
    low.InitLow(m, mode, currentmode);
    high.InitHigh(m << 8, mode, currentmode);
    forall i: bv32 | i < 8
      ensures Nibble(low.CRL, i) == Nibble(high.CRH, i)
      ensures Has(low.ODR, i) == Has(high.ODR, i + 8)
    {
      HighPin(i);
      ShiftedMask(m, i);
    }
    NibblesDetermine(low.CRL, high.CRH);
  }

  lemma ShiftedMask(pins: bv32, p: bv32)
    requires p < 8 && pins <= 0xFF
    ensures Has(pins << 8, p + 8) == Has(pins, p)
  {
  }

  // ----- Reading a configuration back -----

  /** The mode a pin is in. Pull-up and pull-down share a configuration and differ in the output bit. */
  function ModeOf(s: Pin): bv32 {
    if s.config & 0x3 != 0 then 0x10 | (s.config & 0xC)
    else if s.config == 0x8 then (if s.out then MODE_IPU else MODE_IPD)
    else s.config
  }

  function SpeedOf(s: Pin): bv32 { s.config & 0x3 }

  /** Mode and speed can be read back after GPIO_Init from the pin's configuration and output bit. */
  lemma ModeRecovered(s: Pin, p: bv32, pins: bv32, mode: bv32, speed: bv32)
    requires p < PINS && Has(pins, p) && IsMode(mode) && 1 <= speed <= 3
    ensures ModeOf(Step(s, p, Init(pins, mode, speed))) == mode
    ensures IsOutput(mode) ==> SpeedOf(Step(s, p, Init(pins, mode, speed))) == speed
  {
    hide Has, ModeOf, SpeedOf, CurrentMode, IsOutput, IsMode;
    ModeDecoded(mode, speed, s.out);
    SpeedDecoded(mode, speed, s.out);
  }

  lemma ModeDecoded(mode: bv32, speed: bv32, out: bool)
    requires IsMode(mode) && 1 <= speed <= 3
    ensures ModeOf(Pin(CurrentMode(mode, speed), Pulled(mode, out))) == mode
  {
  }

  lemma SpeedDecoded(mode: bv32, speed: bv32, out: bool)
    requires IsMode(mode) && 1 <= speed <= 3
    ensures IsOutput(mode) ==> SpeedOf(Pin(CurrentMode(mode, speed), Pulled(mode, out))) == speed
  {
  }

  /** On an input with a pull resistor GPIO_SetBits and GPIO_ResetBits choose its direction, whatever GPIO_Init asked
      for. */
  lemma WritesTurnPulls(s: Pin, p: bv32, pins: bv32, mode: bv32, speed: bv32)
    requires p < PINS && Has(pins, p) && (mode == MODE_IPU || mode == MODE_IPD)
    ensures ModeOf(Step(Step(s, p, Init(pins, mode, speed)), p, SetBits(pins))) == MODE_IPU
    ensures ModeOf(Step(Step(s, p, Init(pins, mode, speed)), p, ResetBits(pins))) == MODE_IPD
  {
    hide Has, CurrentMode, Pulled;
    PullConfig(mode, speed);
  }

  lemma PullConfig(mode: bv32, speed: bv32)
    requires mode == MODE_IPU || mode == MODE_IPD
    ensures CurrentMode(mode, speed) == 0x8
  {
  }

  /** With speed zero an output mode cannot be told from an input: reading the mode back works exactly for a
      nonzero speed. */
  lemma ZeroSpeedLosesMode(mode: bv32, speed: bv32, out: bool)
    requires IsMode(mode) && IsOutput(mode) && speed <= 3
    ensures ModeOf(Pin(CurrentMode(mode, speed), Pulled(mode, out))) == mode <==> speed != 0
  {
  }
}
