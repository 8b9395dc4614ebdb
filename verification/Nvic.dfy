/** Interrupt priorities: the CMSIS encoder, the library's own encoder in NVIC_Init, and the priority registers. */
module Nvic {
  import opened Bits
  import opened BitSets

  // ----- CMSIS: priority <-> (preemption, sub), for any number of implemented bits -----

  predicate Width(n: bv32) { n <= 8 }

  predicate Widths(p: bv32, s: bv32) { p <= 8 && s <= 8 && p + s <= 8 }

  /** Bits of preemption priority, with `bits` implemented. */
  function PreemptBits(group: bv32, bits: bv32): bv32 {
    var g := group & 0x07;
    if 7 - g > bits then bits else 7 - g
  }

  function SubBits(group: bv32, bits: bv32): bv32 {
    var g := group & 0x07;
    if g + bits < 7 then 0 else g - 7 + bits
  }

  /** The preemption bits are as many as are implemented and the group leaves. */
  lemma PreemptBitsLargest(group: bv32, bits: bv32, p: bv32)
    requires group < 8 && Width(bits) && p <= 8
    ensures p <= PreemptBits(group, bits) <==> p == 0 || (p <= bits && p + group <= 7)
  {
  }

  lemma WidthsAddUp(group: bv32, bits: bv32)
    requires Width(bits)
    ensures Sum(PreemptBits(group, bits), SubBits(group, bits)) == bits
  {
  }

  lemma WidthsBounded(group: bv32, bits: bv32)
    requires Width(bits)
    ensures Widths(PreemptBits(group, bits), SubBits(group, bits))
  {
  }

  function Sum(p: bv32, s: bv32): bv32 { p + s }

  /** x without the bits from n on: modulo two to the n. */
  function Cut(x: bv32, n: bv32): bv32
    requires Width(n)
  {
    x & ((1 << n) - 1)
  }

  lemma CutInNumbers(x: bv32)
    ensures Cut(x, 0) == 0 && Cut(x, 1) == x & 0x01 && Cut(x, 2) == x & 0x03
    ensures Cut(x, 3) == x & 0x07 && Cut(x, 4) == x & 0x0F && Cut(x, 5) == x & 0x1F
    ensures Cut(x, 6) == x & 0x3F && Cut(x, 7) == x & 0x7F && Cut(x, 8) == x & 0xFF
  {
  }

  function Join(preempt: bv32, sub: bv32, p: bv32, s: bv32): bv32
    requires Widths(p, s)
  {
    (Cut(preempt, p) << s) | Cut(sub, s)
  }

  function High(priority: bv32, p: bv32, s: bv32): bv32
    requires Widths(p, s)
  {
    Cut(priority >> s, p)
  }

  function EncodePriority(group: bv32, preempt: bv32, sub: bv32, bits: bv32): bv32
    requires Width(bits)
  {
    WidthsBounded(group, bits);
    Join(preempt, sub, PreemptBits(group, bits), SubBits(group, bits))
  }

  function DecodePriority(priority: bv32, group: bv32, bits: bv32): (bv32, bv32)
    requires Width(bits)
  {
    WidthsBounded(group, bits);
    (High(priority, PreemptBits(group, bits), SubBits(group, bits)), Cut(priority, SubBits(group, bits)))
  }

  lemma WidthsEach(p: bv32, s: bv32) requires Widths(p, s) ensures Width(p) && Width(s) {}

  lemma HighOfJoin(preempt: bv32, sub: bv32, p: bv32, s: bv32)
    requires Widths(p, s) && Width(p)
    ensures High(Join(preempt, sub, p, s), p, s) == Cut(preempt, p)
  {
  }

  lemma LowOfJoin(preempt: bv32, sub: bv32, p: bv32, s: bv32)
    requires Widths(p, s) && Width(s)
    ensures Cut(Join(preempt, sub, p, s), s) == Cut(sub, s)
  {
  }

  lemma JoinOfParts(priority: bv32, p: bv32, s: bv32)
    requires Widths(p, s) && Width(s) && Width(Sum(p, s))
    ensures Join(High(priority, p, s), Cut(priority, s), p, s) == Cut(priority, Sum(p, s))
  {
  }

  predicate Less(a: bv32, b: bv32) { a < b }

  predicate Before(p1: bv32, s1: bv32, p2: bv32, s2: bv32) { Less(p1, p2) || (p1 == p2 && Less(s1, s2)) }

  predicate FitIn(preempt: bv32, sub: bv32, p: bv32, s: bv32)
    requires Widths(p, s)
  {
    Cut(preempt, p) == preempt && Cut(sub, s) == sub
  }

  lemma JoinOrder(p1: bv32, s1: bv32, p2: bv32, s2: bv32, p: bv32, s: bv32)
    requires Widths(p, s) && FitIn(p1, s1, p, s) && FitIn(p2, s2, p, s)
    requires Before(p1, s1, p2, s2)
    ensures Less(Join(p1, s1, p, s), Join(p2, s2, p, s))
  {
  }

  lemma GroupWidths(group: bv32, bits: bv32)
    requires Width(bits)
    ensures Width(PreemptBits(group, bits)) && Width(SubBits(group, bits))
  {
    hide *;
    WidthsBounded(group, bits);
    WidthsEach(PreemptBits(group, bits), SubBits(group, bits));
  }

  /** Both values, each cut to the width the group gives it. */
  function CutBoth(group: bv32, preempt: bv32, sub: bv32, bits: bv32): (bv32, bv32)
    requires Width(bits)
  {
    GroupWidths(group, bits);
    (Cut(preempt, PreemptBits(group, bits)), Cut(sub, SubBits(group, bits)))
  }

  /** Decoding an encoded priority gives both values back, each cut to its width. */
  lemma DecodeOfEncode(group: bv32, preempt: bv32, sub: bv32, bits: bv32)
    requires Width(bits)
    ensures DecodePriority(EncodePriority(group, preempt, sub, bits), group, bits) == CutBoth(group, preempt, sub, bits)
  {
    hide PreemptBits, SubBits, Join, High, Cut, Width, Widths;
    WidthsBounded(group, bits);
    GroupWidths(group, bits);
    HighOfJoin(preempt, sub, PreemptBits(group, bits), SubBits(group, bits));
    LowOfJoin(preempt, sub, PreemptBits(group, bits), SubBits(group, bits));
  }

  /** Encoding a decoded priority gives the priority back, cut to the implemented bits. */
  lemma EncodeOfDecode(group: bv32, priority: bv32, bits: bv32)
    requires Width(bits)
    ensures var (preempt, sub) := DecodePriority(priority, group, bits);
      EncodePriority(group, preempt, sub, bits) == Cut(priority, bits)
  {
    hide PreemptBits, SubBits, Join, High, Cut, Width, Widths, Sum;
    WidthsBounded(group, bits);
    GroupWidths(group, bits);
    WidthsAddUp(group, bits);
    JoinOfParts(priority, PreemptBits(group, bits), SubBits(group, bits));
  }

  /** Neither value is wider than the group allows. */
  predicate InRange(group: bv32, preempt: bv32, sub: bv32, bits: bv32)
    requires Width(bits)
  {
    WidthsBounded(group, bits);
    FitIn(preempt, sub, PreemptBits(group, bits), SubBits(group, bits))
  }

  /** On values in range the encoding keeps the order: preemption priority first, then sub priority. */
  lemma EncodingKeepsOrder(group: bv32, p1: bv32, s1: bv32, p2: bv32, s2: bv32, bits: bv32)
    requires Width(bits) && InRange(group, p1, s1, bits) && InRange(group, p2, s2, bits)
    ensures Less(EncodePriority(group, p1, s1, bits), EncodePriority(group, p2, s2, bits)) == Before(p1, s1, p2, s2)
  {
    hide PreemptBits, SubBits, Join, Cut, Width, Widths, FitIn, Less, Before;
    WidthsBounded(group, bits);
    if Before(p1, s1, p2, s2) {
      JoinOrder(p1, s1, p2, s2, PreemptBits(group, bits), SubBits(group, bits));
    } else if Before(p2, s2, p1, s1) {
      JoinOrder(p2, s2, p1, s1, PreemptBits(group, bits), SubBits(group, bits));
    } else {
      BeforeTotal(p1, s1, p2, s2, PreemptBits(group, bits), SubBits(group, bits));
    }
    LessOneWay(EncodePriority(group, p1, s1, bits), EncodePriority(group, p2, s2, bits));
  }

  lemma BeforeTotal(p1: bv32, s1: bv32, p2: bv32, s2: bv32, p: bv32, s: bv32)
    requires Widths(p, s) && FitIn(p1, s1, p, s) && FitIn(p2, s2, p, s)
    requires !Before(p1, s1, p2, s2) && !Before(p2, s2, p1, s1)
    ensures p1 == p2 && s1 == s2
  {
    hide Less, Widths, Cut;
    WidthsEach(p, s);
    CutBelow(p1, p);
    CutBelow(s1, s);
    CutBelow(p2, p);
    CutBelow(s2, s);
    LessTotal(p1, p2);
    LessTotal(s1, s2);
  }

  lemma CutBelow(x: bv32, n: bv32) requires Width(n) ensures Less(Cut(x, n), 256) {}

  lemma LessTotal(a: bv32, b: bv32) requires Less(a, 256) && Less(b, 256) ensures Less(a, b) || Less(b, a) || a == b {}

  lemma LessOneWay(a: bv32, b: bv32) ensures !(Less(a, b) && Less(b, a)) {}

  // ----- The library's encoder -----

  const PRIO_BITS: bv32 := 4

  function Group(aircr: bv32): bv32 { (aircr & 0x700) >> 8 }

  /** What NVIC_Init asks of its caller: both priorities below 16, and one of the five groups of the library. */
  predicate Encodable(aircr: bv32, preempt: bv32, sub: bv32) { Group(aircr) >= 3 && preempt < 16 && sub < 16 }

  /** The byte NVIC_Init stores. The preemption value is not masked: what is too wide falls off the byte.
      Below group 3 the shift amount would be negative, which C leaves undefined. */
  function InitByte(aircr: bv32, preempt: bv32, sub: bv32): bv8
    requires Encodable(aircr, preempt, sub)
  {
    var tmppriority := (0x700 - (aircr & 0x700)) >> 8;
    var tmppre := 4 - tmppriority;
    var tmpsub := (0x0F as bv32) >> tmppriority;
    ((((preempt << tmppre) | (sub & tmpsub)) << 4) & 0xFF) as bv8
  }

  /** The byte NVIC_SetPriority stores. */
  function PriorityByte(priority: bv32): bv8 { ((priority << (8 - PRIO_BITS)) & 0xFF) as bv8 }

  function ByteToPriority(b: bv8): bv32 { (b as bv32) >> (8 - PRIO_BITS) }

  /** The two encoders store the same byte, in range or not. */
  lemma EncodersAgree(aircr: bv32, preempt: bv32, sub: bv32)
    requires Encodable(aircr, preempt, sub)
    ensures InitByte(aircr, preempt, sub) == PriorityByte(EncodePriority(Group(aircr), preempt, sub, PRIO_BITS))
  {
  }

  /** The byte in numbers: the low four bits of the priority above four zeros. */
  lemma ByteInNumbers(priority: bv32) ensures PriorityByte(priority) as bv32 == (priority & 0xF) * 16 {}

  lemma ByteRoundTrip(priority: bv32) ensures ByteToPriority(PriorityByte(priority)) == priority & 0xF {}

  predicate InNibble(a: bv32) { a < 16 }

  predicate LessByte(a: bv8, b: bv8) { a < b }

  lemma ByteOrder(a: bv32, b: bv32)
    requires InNibble(a) && InNibble(b)
    ensures LessByte(PriorityByte(a), PriorityByte(b)) == Less(a, b)
  {
  }

  lemma EncodedFits(group: bv32, preempt: bv32, sub: bv32)
    ensures InNibble(EncodePriority(group, preempt, sub, PRIO_BITS))
  {
  }

  /** What NVIC_Init stores orders interrupts by preemption priority first and sub priority second. */
  lemma StoredOrder(aircr: bv32, p1: bv32, s1: bv32, p2: bv32, s2: bv32)
    requires Encodable(aircr, p1, s1) && Encodable(aircr, p2, s2)
    requires InRange(Group(aircr), p1, s1, PRIO_BITS) && InRange(Group(aircr), p2, s2, PRIO_BITS)
    ensures LessByte(InitByte(aircr, p1, s1), InitByte(aircr, p2, s2)) == Before(p1, s1, p2, s2)
  {
    hide InitByte, PriorityByte, EncodePriority, InRange, Group, Before, Encodable, InNibble, LessByte, Less;
    EncodersAgree(aircr, p1, s1);
    EncodersAgree(aircr, p2, s2);
    EncodedFits(Group(aircr), p1, s1);
    EncodedFits(Group(aircr), p2, s2);
    ByteOrder(EncodePriority(Group(aircr), p1, s1, PRIO_BITS), EncodePriority(Group(aircr), p2, s2, PRIO_BITS));
    EncodingKeepsOrder(Group(aircr), p1, s1, p2, s2, PRIO_BITS);
  }

  // ----- Enable bits -----

  /** The bit of an interrupt in its word of ISER and ICER. */
  function Line(irq: nat): (n: bv32)
    ensures n < 32
  {
    Wide(FiveBits(irq % 32))
  }

  function FiveBits(x: nat): bv5
    requires x < 32
  {
    x as bv5
  }

  function Wide(n: bv5): (w: bv32)
    ensures w < 32
  {
    n as bv32
  }

  function Number(n: bv5): nat { n as nat }

  lemma FiveBitsBack(x: nat) requires x < 32 ensures Number(FiveBits(x)) == x {}

  lemma WideKeeps(m: bv5, n: bv5) requires Wide(m) == Wide(n) ensures m == n {}

  lemma LinesApart(irq: nat, q: nat)
    requires irq / 32 == q / 32 && irq != q
    ensures Line(irq) != Line(q)
  {
    hide FiveBits, Number, Wide;
    FiveBitsBack(irq % 32);
    FiveBitsBack(q % 32);
    if Line(irq) == Line(q) { WideKeeps(FiveBits(irq % 32), FiveBits(q % 32)); }
  }

  predicate IsSet(word: bv32, irq: nat) { Has(word, Line(irq)) }

  /** Which bit that is: bit irq % 32, counted from the right. */
  lemma IsSetInShifts(word: bv32, irq: nat)
    ensures IsSet(word, irq) <==> ShiftedOne(word, irq % 32)
  {
    hide Has, InMask, Wide, FiveBits, ShiftedOne;
    HasIsInMask(word, Line(irq));
    ShiftsAgree(word, irq % 32);
  }

  predicate ShiftedOne(word: bv32, n: nat)
    requires n < 32
  {
    (word >> n) & 1 == 1
  }

  lemma ShiftsAgree(word: bv32, n: nat)
    requires n < 32
    ensures InMask(word, Wide(FiveBits(n))) == ShiftedOne(word, n)
  {
  }

  function SetLine(word: bv32, irq: nat, on: bool): bv32 { Switch(word, Line(irq), on) }

  lemma SetLineOnly(word: bv32, irq: nat, on: bool, q: nat)
    requires irq / 32 == q / 32
    ensures IsSet(SetLine(word, irq, on), q) == if q == irq then on else IsSet(word, q)
  {
    hide Has, Switch, Line;
    SwitchOnly(word, Line(irq), on, Line(q));
    if q != irq { LinesApart(irq, q); }
  }

  lemma NothingSet()
    ensures forall q: nat :: !IsSet(0, q)
  {
    hide Has, Line;
    forall q: nat ensures !IsSet(0, q) { HasZero(Line(q)); }
  }

  class NvicPort {
    var AIRCR: bv32
    var IP: seq<bv8>        // a priority byte for each device interrupt
    var SHP: seq<bv8>       // and for each core interrupt that has one
    var enabled: seq<bv32>  // what ISER and ICER set and clear

    ghost predicate Valid()
      reads this`IP, this`SHP, this`enabled
    {
      |IP| == 240 && |SHP| == 12 && |enabled| == 8
    }

    /** After a reset: every priority is zero and every interrupt is off. */
    constructor ()
      ensures Valid() && AIRCR == 0xFA05_0000
      ensures forall q: nat | q < 240 :: !Enabled(q)
      ensures forall q | -12 <= q < 240 :: Byte(q) == 0
    {
      hide IsSet;
      NothingSet();
      AIRCR, IP, SHP := 0xFA05_0000, seq(240, i => 0), seq(12, i => 0);
      enabled := seq(8, i => 0);
    }

    predicate Enabled(irq: nat)
      requires Valid() && irq < 240
      reads this`IP, this`SHP, this`enabled
    {
      IsSet(enabled[irq / 32], irq)
    }

    /** Which bit that is: bit irq % 32 of word irq / 32. */
    lemma EnabledInShifts(irq: nat)
      requires Valid() && irq < 240
      ensures Enabled(irq) <==> ShiftedOne(enabled[irq / 32], irq % 32)
    {
      hide IsSet, ShiftedOne;
      IsSetInShifts(enabled[irq / 32], irq);
    }

    /** The byte that decides the priority of an interrupt; core interrupts have negative numbers. */
    function Byte(irqn: int): bv8
      requires Valid() && -12 <= irqn < 240
      reads this`IP, this`SHP, this`enabled
    {
      if irqn < 0 then SHP[irqn + 12] else IP[irqn]
    }

    /** What a one written to ISER or ICER does: that interrupt and no other is switched. */
    method SwitchIRQ(irq: nat, on: bool)
      requires Valid() && irq < 240
      modifies this`enabled
      ensures Valid() && forall q: nat | q < 240 :: Enabled(q) == if q == irq then on else old(Enabled(q))
    {
      hide IsSet, SetLine;
      ghost var w := enabled[irq / 32];
      forall q: nat | q < 240 && q / 32 == irq / 32
        ensures IsSet(SetLine(w, irq, on), q) == if q == irq then on else IsSet(w, q)
      {
        SetLineOnly(w, irq, on, q);
      }
      enabled := enabled[irq / 32 := SetLine(enabled[irq / 32], irq, on)];
    }

    /** NVIC_EnableIRQ. */
    method EnableIRQ(irq: nat)
      requires Valid() && irq < 240
      modifies this`enabled
      ensures Valid() && forall q: nat | q < 240 :: Enabled(q) == (q == irq || old(Enabled(q)))
    {
      hide IsSet;
      SwitchIRQ(irq, true);
    }

    /** NVIC_DisableIRQ. */
    method DisableIRQ(irq: nat)
      requires Valid() && irq < 240
      modifies this`enabled
      ensures Valid() && forall q: nat | q < 240 :: Enabled(q) == (q != irq && old(Enabled(q)))
    {
      hide IsSet;
      SwitchIRQ(irq, false);
    }

    /** NVIC_SetPriority: only that interrupt's byte changes. */
    method SetPriority(irqn: int, priority: bv32)
      requires Valid() && -12 <= irqn < 240
      modifies this`IP, this`SHP
      ensures Valid() && Byte(irqn) == PriorityByte(priority)
      ensures if irqn < 0 then SHP[irqn + 12] == PriorityByte(priority) && IP == old(IP)
              else IP[irqn] == PriorityByte(priority) && SHP == old(SHP)
      ensures forall q | -12 <= q < 240 && q != irqn :: Byte(q) == old(Byte(q))
    {
      hide PriorityByte;
      if irqn < 0 {
        SHP := SHP[irqn % 16 - 4 := PriorityByte(priority)];
      } else {
        IP := IP[irqn := PriorityByte(priority)];
      }
    }

    /** NVIC_GetPriority. */
    method GetPriority(irqn: int) returns (priority: bv32)
      requires Valid() && -12 <= irqn < 240
      ensures priority == ByteToPriority(Byte(irqn))
      ensures priority == ByteToPriority(if irqn < 0 then SHP[irqn + 12] else IP[irqn])
    {
      hide ByteToPriority;
      priority := ByteToPriority(if irqn < 0 then SHP[irqn % 16 - 4] else IP[irqn]);
    }

    /** NVIC_PriorityGroupConfig: the argument is the group in place, with the write key added. */
    method PriorityGroupConfig(group: bv32)
      requires 3 <= group <= 7
      modifies this`AIRCR
      ensures Group(AIRCR) == group
    {
      GroupWritten(group);
      AIRCR := 0x05FA_0000 | (group << 8);
    }

    /** NVIC_Init: enabling sets the priority and enables; disabling only disables. */
    method Init(irq: nat, preempt: bv32, sub: bv32, on: bool)
      requires Valid() && irq < 240 && (on ==> Encodable(AIRCR, preempt, sub))
      modifies this`IP, this`enabled
      ensures Valid()
      ensures Byte(irq)
           == if on then PriorityByte(EncodePriority(Group(AIRCR), preempt, sub, PRIO_BITS)) else old(Byte(irq))
      ensures forall q | -12 <= q < 240 && q != irq :: Byte(q) == old(Byte(q))
      ensures forall q: nat | q < 240 :: Enabled(q) == if q == irq then on else old(Enabled(q))
    {
      hide InitByte, PriorityByte, EncodePriority, Group, IsSet, Encodable;
      if on {
        EncodersAgree(AIRCR, preempt, sub);
        IP := IP[irq := InitByte(AIRCR, preempt, sub)];
        EnableIRQ(irq);
      } else {
        DisableIRQ(irq);
      }
    }
  }

  lemma GroupWritten(group: bv32) requires GroupOk(group) ensures Group(0x05FA_0000 | (group << 8)) == group {}

  /** The group, preemption and sub priority as the library's callers may give them. */
  predicate Request(group: bv32, preempt: bv32, sub: bv32) { 3 <= group <= 7 && preempt < 16 && sub < 16 }

  lemma RequestEncodable(aircr: bv32, preempt: bv32, sub: bv32)
    requires Request(Group(aircr), preempt, sub)
    ensures Encodable(aircr, preempt, sub)
  {
  }

  /** From NVIC_PriorityGroupConfig to NVIC_GetPriority: what NVIC_Init was given comes back, cut to the widths of the
      group. */
  method PrioritySurvives(nvic: NvicPort, group: bv32, irq: nat, preempt: bv32, sub: bv32) returns (back: (bv32, bv32))
    requires nvic.Valid() && irq < 240 && Request(group, preempt, sub)
    modifies nvic
    ensures nvic.Valid() && nvic.Enabled(irq)
    ensures back == CutBoth(group, preempt, sub, PRIO_BITS)
  {
    hide InitByte, PriorityByte, ByteToPriority, EncodePriority, DecodePriority, CutBoth;
    hide Group, IsSet, InNibble, Encodable, Request, Width;
    RequestGroup(group, preempt, sub);
    nvic.PriorityGroupConfig(group);
    RequestEncodable(nvic.AIRCR, preempt, sub);
    nvic.Init(irq, preempt, sub, true);
    var priority := nvic.GetPriority(irq);
    FourBits();
    EncodedFits(group, preempt, sub);
    ByteKeepsNibble(EncodePriority(group, preempt, sub, PRIO_BITS));
    DecodeOfEncode(group, preempt, sub, PRIO_BITS);
    back := DecodePriority(priority, group, PRIO_BITS);
  }

  lemma FourBits() ensures Width(PRIO_BITS) {}

  lemma RequestGroup(group: bv32, preempt: bv32, sub: bv32)
    requires Request(group, preempt, sub)
    ensures GroupOk(group)
  {
  }

  predicate GroupOk(group: bv32) { 3 <= group <= 7 }

  lemma ByteKeepsNibble(a: bv32) requires InNibble(a) ensures ByteToPriority(PriorityByte(a)) == a {}

  // ----- Any number of NVIC_Init calls -----

  datatype Call = Call(irq: nat, preempt: bv32, sub: bv32, on: bool)

  /** The last call for an interrupt, or the last that enables it; -1 if there is none. */
  function Last(calls: seq<Call>, irq: nat, enabling: bool): (i: int)
    ensures -1 <= i < |calls|
    ensures i >= 0 ==> calls[i].irq == irq && (enabling ==> calls[i].on)
    ensures forall j | i < j < |calls| :: calls[j].irq == irq ==> enabling && !calls[j].on
  {
    if calls == [] then -1
    else
      var n := |calls| - 1;
      if calls[n].irq == irq && (enabling ==> calls[n].on) then n else Last(calls[..n], irq, enabling)
  }

  /** What the last enabling call for an interrupt leaves in its priority byte. */
  function LastByte(calls: seq<Call>, irq: nat, before: bv8, group: bv32): bv8 {
    FourBits();
    var i := Last(calls, irq, true);
    if i < 0 then before else PriorityByte(EncodePriority(group, calls[i].preempt, calls[i].sub, PRIO_BITS))
  }

  function LastState(calls: seq<Call>, irq: nat, before: bool): bool {
    var i := Last(calls, irq, false);
    if i < 0 then before else calls[i].on
  }

  lemma LastSteps(calls: seq<Call>, n: nat, irq: nat, enabling: bool)
    requires n < |calls|
    ensures Last(calls[..n + 1], irq, enabling)
         == if calls[n].irq == irq && (enabling ==> calls[n].on) then n else Last(calls[..n], irq, enabling)
  {
    assert calls[..n + 1][..n] == calls[..n];
  }

  lemma LastByteSteps(calls: seq<Call>, n: nat, irq: nat, before: bv8, group: bv32)
    requires n < |calls|
    ensures LastByte(calls[..n + 1], irq, before, group)
         == if calls[n].irq == irq && calls[n].on
            then PriorityByte(EncodePriority(group, calls[n].preempt, calls[n].sub, PRIO_BITS))
            else LastByte(calls[..n], irq, before, group)
  {
    hide PriorityByte, EncodePriority, Width, Last;
    FourBits();
    LastSteps(calls, n, irq, true);
  }

  lemma LastStateSteps(calls: seq<Call>, n: nat, irq: nat, before: bool)
    requires n < |calls|
    ensures LastState(calls[..n + 1], irq, before)
         == if calls[n].irq == irq then calls[n].on else LastState(calls[..n], irq, before)
  {
    hide Last;
    LastSteps(calls, n, irq, false);
  }

  lemma NoCalls(irq: nat, byte: bv8, group: bv32, on: bool)
    ensures LastByte([], irq, byte, group) == byte && LastState([], irq, on) == on
  {
    hide PriorityByte, EncodePriority, Width;
    FourBits();
  }

  predicate AllEncodable(aircr: bv32, calls: seq<Call>) {
    forall i | 0 <= i < |calls| ::
      calls[i].irq < 240 && (calls[i].on ==> Encodable(aircr, calls[i].preempt, calls[i].sub))
  }

  /** Each interrupt is left as the last call for it says, with the priority of the last call that enabled it. */
  method InitAll(nvic: NvicPort, calls: seq<Call>)
    requires nvic.Valid() && AllEncodable(nvic.AIRCR, calls)
    modifies nvic`IP, nvic`enabled
    ensures nvic.Valid()
    ensures forall q: nat | q < 240 :: nvic.Byte(q) == LastByte(calls, q, old(nvic.Byte(q)), Group(nvic.AIRCR))
    ensures forall q: nat | q < 240 :: nvic.Enabled(q) == LastState(calls, q, old(nvic.Enabled(q)))
    ensures forall q: int | -12 <= q < 0 :: nvic.Byte(q) == old(nvic.Byte(q))
  {
    hide PriorityByte, EncodePriority, Encodable, Group, IsSet, LastByte, LastState, Width;
    forall q: nat | q < 240
      ensures nvic.Byte(q) == LastByte([], q, nvic.Byte(q), Group(nvic.AIRCR))
      ensures nvic.Enabled(q) == LastState([], q, nvic.Enabled(q))
    {
      NoCalls(q, nvic.Byte(q), Group(nvic.AIRCR), nvic.Enabled(q));
    }
    assert calls[..0] == [];
    for n := 0 to |calls|
      invariant nvic.Valid()
      invariant forall q: nat | q < 240 :: nvic.Byte(q) == LastByte(calls[..n], q, old(nvic.Byte(q)), Group(nvic.AIRCR))
      invariant forall q: nat | q < 240 :: nvic.Enabled(q) == LastState(calls[..n], q, old(nvic.Enabled(q)))
      invariant forall q: int | -12 <= q < 0 :: nvic.Byte(q) == old(nvic.Byte(q))
    {
      var call := calls[n];
      nvic.Init(call.irq, call.preempt, call.sub, call.on);
      forall q: nat | q < 240
        ensures nvic.Byte(q) == LastByte(calls[..n + 1], q, old(nvic.Byte(q)), Group(nvic.AIRCR))
        ensures nvic.Enabled(q) == LastState(calls[..n + 1], q, old(nvic.Enabled(q)))
      {
        LastByteSteps(calls, n, q, old(nvic.Byte(q)), Group(nvic.AIRCR));
        LastStateSteps(calls, n, q, old(nvic.Enabled(q)));
      }
    }
    assert calls[..|calls|] == calls;
  }

  /** The point of all this: after any calls, of two interrupts both given a priority in range, the stored bytes put the
      one with the smaller preemption priority first, and among equals the one with the smaller sub priority. */
  lemma OrderAfterCalls(calls: seq<Call>, aircr: bv32, q: nat, r: nat, byteQ: bv8, byteR: bv8)
    requires AllEncodable(aircr, calls)
    requires Last(calls, q, true) >= 0 && Last(calls, r, true) >= 0
    requires var c, d := calls[Last(calls, q, true)], calls[Last(calls, r, true)];
      InRange(Group(aircr), c.preempt, c.sub, PRIO_BITS) && InRange(Group(aircr), d.preempt, d.sub, PRIO_BITS)
    ensures var c, d := calls[Last(calls, q, true)], calls[Last(calls, r, true)];
      LessByte(LastByte(calls, q, byteQ, Group(aircr)), LastByte(calls, r, byteR, Group(aircr)))
      == Before(c.preempt, c.sub, d.preempt, d.sub)
  {
    hide PriorityByte, EncodePriority, InitByte, InRange, LessByte, Before, Encodable, Group, Width, Last;
    FourBits();
    var c, d := calls[Last(calls, q, true)], calls[Last(calls, r, true)];
    EncodersAgree(aircr, c.preempt, c.sub);
    EncodersAgree(aircr, d.preempt, d.sub);
    StoredOrder(aircr, c.preempt, c.sub, d.preempt, d.sub);
  }
}
