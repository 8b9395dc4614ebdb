/** The conversion sequencer: ranks, sample times, injected slots, lengths and control bits packed into seven registers.

    An observable is one thing the registers say. Every call is described by the observables it names and the value
    it gives each; a history then says of each observable what the last call that named it said. */
module Adc {
  import opened Bits
  import opened Wrappers

  // ----- Uniform fields -----

  function Five(r: bv32, k: bv32): bv32
    requires k < 6
  {
    (r >> (5 * k)) & 0x1F
  }

  /** `tmpreg1 &= ~(0x1F << 5k); tmpreg1 |= v << 5k`. The place may run past the last whole field. */
  function SetFive(r: bv32, k: bv32, v: bv32): bv32
    requires k < 7
  {
    (r & !((0x1F as bv32) << (5 * k))) | (v << (5 * k))
  }

  lemma SetFiveOnly(r: bv32, k: bv32, v: bv32, j: bv32)
    requires k < 6 && j < 6 && v < 32
    ensures Five(SetFive(r, k, v), j) == if k == j then v else Five(r, j)
  {
  }

  function Three(r: bv32, k: bv32): bv32
    requires k < 10
  {
    (r >> (3 * k)) & 0x07
  }

  function SetThree(r: bv32, k: bv32, v: bv32): bv32
    requires k < 10
  {
    (r & !((0x07 as bv32) << (3 * k))) | (v << (3 * k))
  }

  lemma SetThreeOnly(r: bv32, k: bv32, v: bv32, j: bv32)
    requires k < 10 && j < 10 && v < 8
    ensures Three(SetThree(r, k, v), j) == if k == j then v else Three(r, j)
  {
  }

  // ----- The lengths that share a register with ranks and slots -----

  function RegularL(sqr1: bv32): bv32 { (sqr1 >> 20) & 0xF }
  function SetRegularL(sqr1: bv32, n: bv32): bv32 { (sqr1 & 0xFF0F_FFFF) | ((n - 1) << 20) }
  function InjectedL(jsqr: bv32): bv32 { (jsqr & 0x0030_0000) >> 20 }
  function SetInjectedL(jsqr: bv32, n: bv32): bv32 { (jsqr & 0xFFCF_FFFF) | ((n - 1) << 20) }

  lemma RegularLSet(sqr1: bv32, n: bv32) requires 1 <= n <= 16 ensures RegularL(SetRegularL(sqr1, n)) == n - 1 {}

  lemma RegularLKeepsRanks(sqr1: bv32, n: bv32, k: bv32)
    requires 1 <= n <= 16 && k < 4
    ensures Five(SetRegularL(sqr1, n), k) == Five(sqr1, k)
  {
  }

  lemma RankKeepsRegularL(sqr1: bv32, k: bv32, v: bv32)
    requires k < 4 && v < 32
    ensures RegularL(SetFive(sqr1, k, v)) == RegularL(sqr1)
  {
  }

  lemma InjectedLSet(jsqr: bv32, n: bv32) requires 1 <= n <= 4 ensures InjectedL(SetInjectedL(jsqr, n)) == n - 1 {}

  lemma InjectedLKeepsSlots(jsqr: bv32, n: bv32, k: bv32)
    requires 1 <= n <= 4 && k < 4
    ensures Five(SetInjectedL(jsqr, n), k) == Five(jsqr, k)
  {
  }

  /** A slot past the fourth overlaps the length field if it is the fifth, and unused bits otherwise. */
  lemma SlotAndLength(jsqr: bv32, slot: bv32, v: bv32)
    requires slot < 7 && v < 32
    ensures InjectedL(SetFive(jsqr, slot, v)) == if slot == 4 then v & 0x3 else InjectedL(jsqr)
  {
  }

  lemma HighSlotKeepsSlots(jsqr: bv32, slot: bv32, v: bv32, k: bv32)
    requires 4 <= slot < 7 && v < 32 && k < 4
    ensures Five(SetFive(jsqr, slot, v), k) == Five(jsqr, k)
  {
  }

  // ----- CR1: control fields at fixed places -----

  datatype Field =
    | WatchdogChannel | EndInterrupt | WatchdogInterrupt | InjectedInterrupt | Scan
    | AutoInjected | DiscMode | InjectedDiscMode | DiscCount | DualMode | WatchdogMode
    | OtherBits  // what no call modelled here is about

  function Mask(f: Field): bv32 {
    match f
    case WatchdogChannel => 0x0000_001F
    case EndInterrupt => 0x0000_0020
    case WatchdogInterrupt => 0x0000_0040
    case InjectedInterrupt => 0x0000_0080
    case Scan => 0x0000_0100
    case AutoInjected => 0x0000_0400
    case DiscMode => 0x0000_0800
    case InjectedDiscMode => 0x0000_1000
    case DiscCount => 0x0000_E000
    case DualMode => 0x000F_0000
    case WatchdogMode => 0x00C0_0200
    case OtherBits => 0xFF30_0000
  }

  lemma MasksApart(f: Field, g: Field) requires f != g ensures Disjoint(Mask(f), Mask(g)) {}

  function SetField(cr1: bv32, f: Field, v: bv32): bv32 { Replace(cr1, Mask(f), v) }

  lemma SetFieldOnly(cr1: bv32, f: Field, v: bv32, g: Field)
    requires Within(v, Mask(f))
    ensures Part(SetField(cr1, f, v), Mask(g)) == if f == g then v else Part(cr1, Mask(g))
  {
    hide Replace, Part, Within, Disjoint, Mask;
    if f == g {
      ReplaceOwn(cr1, Mask(f), v);
    } else {
      MasksApart(f, g);
      ReplaceOther(cr1, Mask(f), v, Mask(g));
    }
  }

  function Flag(f: Field, on: bool): bv32 { if on then Mask(f) else 0 }

  lemma FlagFits(f: Field, on: bool) ensures Within(Flag(f, on), Mask(f)) {}

  /** ADC_Init writes dual mode and scan in one step. */
  function SetModeAndScan(cr1: bv32, mode: bv32, scan: bool): bv32 {
    (cr1 & 0xFFF0_FEFF) | (mode | (if scan then 0x100 else 0))
  }

  lemma ModeThenScan(cr1: bv32, mode: bv32, scan: bool)
    requires Within(mode, 0x000F_0000)
    ensures SetModeAndScan(cr1, mode, scan) == SetField(SetField(cr1, DualMode, mode), Scan, Flag(Scan, scan))
  {
  }

  // ADC_ITConfig sets or clears up to three bits in one step.

  predicate IsInterrupt(f: Field) { f.EndInterrupt? || f.WatchdogInterrupt? || f.InjectedInterrupt? }
  predicate IsIt(it: bv32) { it & 0xF81F == 0 && it != 0 }
  function ItMask(it: bv32): bv32 { it & 0xFF }
  function SetInterrupts(cr1: bv32, it: bv32, on: bool): bv32 {
    if on then Or(cr1, ItMask(it)) else Without(cr1, ItMask(it))
  }

  predicate Selects(it: bv32, f: Field) { IsInterrupt(f) && Part(it, Mask(f)) != 0 }

  lemma OneBit(r: bv32, f: Field)
    requires IsInterrupt(f)
    ensures Part(r, Mask(f)) == 0 || Part(r, Mask(f)) == Mask(f)
  {
  }

  lemma ItSelected(it: bv32, f: Field) requires IsInterrupt(f) ensures Part(ItMask(it), Mask(f)) == Part(it, Mask(f)) {}

  lemma ItElsewhere(it: bv32, f: Field) requires !IsInterrupt(f) && IsIt(it) ensures Part(ItMask(it), Mask(f)) == 0 {}

  lemma InterruptsOnly(cr1: bv32, it: bv32, on: bool, f: Field)
    requires IsIt(it)
    ensures Part(SetInterrupts(cr1, it, on), Mask(f)) == if Selects(it, f) then Flag(f, on) else Part(cr1, Mask(f))
  {
    hide Part, Or, Without, Mask, IsIt, ItMask;
    PartOfOr(cr1, ItMask(it), Mask(f));
    PartOfWithout(cr1, ItMask(it), Mask(f));
    OrZero(Part(cr1, Mask(f)));
    WithoutZero(Part(cr1, Mask(f)));
    if IsInterrupt(f) {
      OneBit(cr1, f);
      OneBit(it, f);
      ItSelected(it, f);
      ZeroOr(Mask(f));
      OrSelf(Mask(f));
      ZeroWithout(Mask(f));
      WithoutSelf(Mask(f));
    } else {
      ItElsewhere(it, f);
    }
  }

  // ----- CR2: what ADC_Init sets there -----

  function SetCr2(cr2: bv32, align: bv32, trigger: bv32, cont: bool): bv32 {
    (cr2 & 0xFFF1_F7FD) | (align | trigger | (if cont then 0x2 else 0))
  }

  lemma ContinuousSet(cr2: bv32, align: bv32, trigger: bv32, cont: bool)
    requires Within(align, 0x800) && Within(trigger, 0x000E_0000)
    ensures Part(SetCr2(cr2, align, trigger, cont), 0x2) == if cont then 0x2 else 0
  {
  }

  lemma AlignSet(cr2: bv32, align: bv32, trigger: bv32, cont: bool)
    requires Within(align, 0x800) && Within(trigger, 0x000E_0000)
    ensures Part(SetCr2(cr2, align, trigger, cont), 0x800) == align
  {
  }

  lemma TriggerSet(cr2: bv32, align: bv32, trigger: bv32, cont: bool)
    requires Within(align, 0x800) && Within(trigger, 0x000E_0000)
    ensures Part(SetCr2(cr2, align, trigger, cont), 0x000E_0000) == trigger
  {
  }

  lemma OthersKept(cr2: bv32, align: bv32, trigger: bv32, cont: bool)
    requires Within(align, 0x800) && Within(trigger, 0x000E_0000)
    ensures Part(SetCr2(cr2, align, trigger, cont), 0xFFF1_F7FD) == Part(cr2, 0xFFF1_F7FD)
  {
  }

  // ----- Registers and what they say -----

  datatype Image = Image(CR1: bv32, CR2: bv32, SMPR1: bv32, SMPR2: bv32, SQR1: bv32, SQR2: bv32, SQR3: bv32, JSQR: bv32)

  datatype Observable =
    | Rank(rank: bv32)           // 1 to 16: the channel converted at that rank
    | SampleTime(channel: bv32)  // 0 to 17
    | RegularLength              // less one
    | Slot(slot: bv32)           // 0 to 3: the channel in that injected slot
    | InjectedLength             // less one
    | Control(field: Field)
    | Continuous
    | Alignment
    | Trigger
    | OtherControl2              // the bits of CR2 that ADC_Init does not set
  {
    predicate Legal() {
      match this
      case Rank(k) => 1 <= k <= 16
      case SampleTime(c) => c <= 17
      case Slot(s) => s < 4
      case _ => true
    }
  }

  function RankIn(sqr1: bv32, sqr2: bv32, sqr3: bv32, k: bv32): bv32
    requires 1 <= k <= 16
  {
    if k < 7 then Five(sqr3, k - 1) else if k < 13 then Five(sqr2, k - 7) else Five(sqr1, k - 13)
  }

  function TimeIn(smpr1: bv32, smpr2: bv32, c: bv32): bv32
    requires c <= 17
  {
    if c > 9 then Three(smpr1, c - 10) else Three(smpr2, c)
  }

  function Read(m: Image, o: Observable): bv32
    requires o.Legal()
  {
    match o
    case Rank(k) => RankIn(m.SQR1, m.SQR2, m.SQR3, k)
    case SampleTime(c) => TimeIn(m.SMPR1, m.SMPR2, c)
    case RegularLength => RegularL(m.SQR1)
    case Slot(s) => Five(m.JSQR, s)
    case InjectedLength => InjectedL(m.JSQR)
    case Control(f) => Part(m.CR1, Mask(f))
    case Continuous => Part(m.CR2, 0x2)
    case Alignment => Part(m.CR2, 0x800)
    case Trigger => Part(m.CR2, 0x000E_0000)
    case OtherControl2 => Part(m.CR2, 0xFFF1_F7FD)
  }

  /** Which bits of which register each rank is in. */
  lemma RanksInNumbers1(m: Image)
    ensures Read(m, Rank(1)) == (m.SQR3 >> 0) & 0x1F
    ensures Read(m, Rank(2)) == (m.SQR3 >> 5) & 0x1F
    ensures Read(m, Rank(3)) == (m.SQR3 >> 10) & 0x1F
    ensures Read(m, Rank(4)) == (m.SQR3 >> 15) & 0x1F
    ensures Read(m, Rank(5)) == (m.SQR3 >> 20) & 0x1F
    ensures Read(m, Rank(6)) == (m.SQR3 >> 25) & 0x1F
  {
  }

  lemma RanksInNumbers2(m: Image)
    ensures Read(m, Rank(7)) == (m.SQR2 >> 0) & 0x1F
    ensures Read(m, Rank(8)) == (m.SQR2 >> 5) & 0x1F
    ensures Read(m, Rank(9)) == (m.SQR2 >> 10) & 0x1F
    ensures Read(m, Rank(10)) == (m.SQR2 >> 15) & 0x1F
    ensures Read(m, Rank(11)) == (m.SQR2 >> 20) & 0x1F
    ensures Read(m, Rank(12)) == (m.SQR2 >> 25) & 0x1F
  {
  }

  lemma RanksInNumbers3(m: Image)
    ensures Read(m, Rank(13)) == (m.SQR1 >> 0) & 0x1F
    ensures Read(m, Rank(14)) == (m.SQR1 >> 5) & 0x1F
    ensures Read(m, Rank(15)) == (m.SQR1 >> 10) & 0x1F
    ensures Read(m, Rank(16)) == (m.SQR1 >> 15) & 0x1F
  {
  }

  /** And each sample time. */
  lemma TimesInNumbers1(m: Image)
    ensures Read(m, SampleTime(0)) == (m.SMPR2 >> 0) & 0x07
    ensures Read(m, SampleTime(1)) == (m.SMPR2 >> 3) & 0x07
    ensures Read(m, SampleTime(2)) == (m.SMPR2 >> 6) & 0x07
    ensures Read(m, SampleTime(3)) == (m.SMPR2 >> 9) & 0x07
    ensures Read(m, SampleTime(4)) == (m.SMPR2 >> 12) & 0x07
    ensures Read(m, SampleTime(5)) == (m.SMPR2 >> 15) & 0x07
    ensures Read(m, SampleTime(6)) == (m.SMPR2 >> 18) & 0x07
    ensures Read(m, SampleTime(7)) == (m.SMPR2 >> 21) & 0x07
    ensures Read(m, SampleTime(8)) == (m.SMPR2 >> 24) & 0x07
    ensures Read(m, SampleTime(9)) == (m.SMPR2 >> 27) & 0x07
  {
  }

  lemma TimesInNumbers2(m: Image)
    ensures Read(m, SampleTime(10)) == (m.SMPR1 >> 0) & 0x07
    ensures Read(m, SampleTime(11)) == (m.SMPR1 >> 3) & 0x07
    ensures Read(m, SampleTime(12)) == (m.SMPR1 >> 6) & 0x07
    ensures Read(m, SampleTime(13)) == (m.SMPR1 >> 9) & 0x07
    ensures Read(m, SampleTime(14)) == (m.SMPR1 >> 12) & 0x07
    ensures Read(m, SampleTime(15)) == (m.SMPR1 >> 15) & 0x07
    ensures Read(m, SampleTime(16)) == (m.SMPR1 >> 18) & 0x07
    ensures Read(m, SampleTime(17)) == (m.SMPR1 >> 21) & 0x07
  {
  }

  /** The injected slots and the two lengths less one. */
  lemma SlotsInNumbers(m: Image)
    ensures Read(m, Slot(0)) == m.JSQR & 0x1F
    ensures Read(m, Slot(1)) == (m.JSQR >> 5) & 0x1F
    ensures Read(m, Slot(2)) == (m.JSQR >> 10) & 0x1F
    ensures Read(m, Slot(3)) == (m.JSQR >> 15) & 0x1F
    ensures Read(m, InjectedLength) == (m.JSQR >> 20) & 0x3
    ensures Read(m, RegularLength) == (m.SQR1 >> 20) & 0xF
  {
  }

  /** The control fields. */
  lemma ControlsInNumbers(m: Image)
    ensures Read(m, Control(WatchdogChannel)) == Part(m.CR1, 0x0000_001F)
    ensures Read(m, Control(EndInterrupt)) == Part(m.CR1, 0x0000_0020)
    ensures Read(m, Control(WatchdogInterrupt)) == Part(m.CR1, 0x0000_0040)
    ensures Read(m, Control(InjectedInterrupt)) == Part(m.CR1, 0x0000_0080)
    ensures Read(m, Control(Scan)) == Part(m.CR1, 0x0000_0100)
    ensures Read(m, Control(AutoInjected)) == Part(m.CR1, 0x0000_0400)
    ensures Read(m, Control(DiscMode)) == Part(m.CR1, 0x0000_0800)
    ensures Read(m, Control(InjectedDiscMode)) == Part(m.CR1, 0x0000_1000)
    ensures Read(m, Control(DiscCount)) == Part(m.CR1, 0x0000_E000)
    ensures Read(m, Control(DualMode)) == Part(m.CR1, 0x000F_0000)
    ensures Read(m, Control(WatchdogMode)) == Part(m.CR1, 0x00C0_0200)
  {
    hide Part;
  }

  lemma Controls2InNumbers(m: Image)
    ensures Read(m, Continuous) == Part(m.CR2, 0x0000_0002)
    ensures Read(m, Alignment) == Part(m.CR2, 0x0000_0800)
    ensures Read(m, Trigger) == Part(m.CR2, 0x000E_0000)
  {
    hide Part;
  }

  /** A flag that is set is all its bits. */
  lemma FlagsInNumbers(on: bool)
    ensures Flag(Scan, on) == if on then 0x0100 else 0
    ensures Flag(AutoInjected, on) == if on then 0x0400 else 0
    ensures Flag(DiscMode, on) == if on then 0x0800 else 0
    ensures Flag(InjectedDiscMode, on) == if on then 0x1000 else 0
    ensures Flag(EndInterrupt, on) == if on then 0x0020 else 0
    ensures Flag(WatchdogInterrupt, on) == if on then 0x0040 else 0
    ensures Flag(InjectedInterrupt, on) == if on then 0x0080 else 0
  {
  }

  /** ADC_ITConfig selects an interrupt by its bit in the low byte of its argument, and nothing else. */
  lemma SelectionInNumbers(it: bv32, f: Field)
    ensures f == EndInterrupt ==> Selects(it, f) == (it & 0x20 != 0)
    ensures f == WatchdogInterrupt ==> Selects(it, f) == (it & 0x40 != 0)
    ensures f == InjectedInterrupt ==> Selects(it, f) == (it & 0x80 != 0)
    ensures f != EndInterrupt && f != WatchdogInterrupt && f != InjectedInterrupt ==> !Selects(it, f)
  {
  }

  // ----- Calls: what each one names, and the value it gives -----

  datatype Call =
    | Init(mode: bv32, scan: bool, cont: bool, trigger: bv32, align: bv32, length: bv32)
    | RegularChannel(channel: bv32, rank: bv32, time: bv32)
    | InjectedChannel(channel: bv32, rank: bv32, time: bv32)
    | InjectedSequencerLength(length: bv32)
    | DiscModeChannelCount(count: bv32)
    | SetFlag(field: Field, on: bool)  // DiscModeCmd, AutoInjectedConvCmd, InjectedDiscModeCmd
    | AnalogWatchdog(mode: bv32)
    | AnalogWatchdogChannel(channel: bv32)
    | ITConfig(it: bv32, on: bool)
  {
    predicate Legal() {
      match this
      case Init(mode, _, _, trigger, align, length) =>
        Within(mode, 0x000F_0000) && Within(trigger, 0x000E_0000) && Within(align, 0x800) && 1 <= length <= 16
      case RegularChannel(channel, rank, time) => channel <= 17 && 1 <= rank <= 16 && time <= 7
      case InjectedChannel(channel, rank, time) => channel <= 17 && 1 <= rank <= 4 && time <= 7
      case InjectedSequencerLength(length) => 1 <= length <= 4
      case DiscModeChannelCount(count) => 1 <= count <= 8
      case SetFlag(field, _) => field == DiscMode || field == AutoInjected || field == InjectedDiscMode
      case AnalogWatchdog(mode) => Within(mode, 0x00C0_0200)
      case AnalogWatchdogChannel(channel) => channel <= 17
      case ITConfig(it, _) => IsIt(it)
    }
  }

  /** The slot an injected rank has when the injected length less one is jl. */
  function SlotOf(rank: bv32, jl: bv32): bv32 { (rank + 3) - (jl + 1) }

  /** The value a call gives an observable, if it names it; jl is the injected length less one at the time. */
  function Effect(c: Call, jl: bv32, o: Observable): Option<bv32> {
    match c
    case Init(mode, scan, cont, trigger, align, length) =>
      (match o
       case RegularLength => Some(length - 1)
       case Control(DualMode) => Some(mode)
       case Control(Scan) => Some(Flag(Scan, scan))
       case Continuous => Some(if cont then 0x2 else 0)
       case Alignment => Some(align)
       case Trigger => Some(trigger)
       case _ => None)
    case RegularChannel(channel, rank, time) =>
      if o == Rank(rank) then Some(channel) else if o == SampleTime(channel) then Some(time) else None
    case InjectedChannel(channel, rank, time) =>
      if o == SampleTime(channel) then Some(time)
      else if o == Slot(SlotOf(rank, jl)) then Some(channel)
      else if o == InjectedLength && SlotOf(rank, jl) == 4 then Some(channel & 0x3)
      else None
    case InjectedSequencerLength(length) => if o == InjectedLength then Some(length - 1) else None
    case DiscModeChannelCount(count) => if o == Control(DiscCount) then Some((count - 1) << 13) else None
    case SetFlag(field, on) => if o == Control(field) then Some(Flag(field, on)) else None
    case AnalogWatchdog(mode) => if o == Control(WatchdogMode) then Some(mode) else None
    case AnalogWatchdogChannel(channel) => if o == Control(WatchdogChannel) then Some(channel) else None
    case ITConfig(it, on) => if o.Control? && Selects(it, o.field) then Some(Flag(o.field, on)) else None
  }

  function Override(e: Option<bv32>, before: bv32): bv32 {
    match e
    case Some(v) => v
    case None => before
  }

  /** What a call says of every observable. */
  ghost predicate Obeys(before: Image, call: Call, after: Image) {
    forall o: Observable | o.Legal() ::
      Read(after, o) == Override(Effect(call, InjectedL(before.JSQR), o), Read(before, o))
  }

  /** The call names one control field and nothing else. */
  ghost predicate ControlsOnly(call: Call, f: Field, v: bv32) {
    forall jl: bv32, o: Observable :: Effect(call, jl, o) == if o == Control(f) then Some(v) else None
  }

  // ----- Register updates, one observable at a time -----

  function WithTime(m: Image, c: bv32, time: bv32): Image
    requires c <= 17
  {
    if c > 9 then m.(SMPR1 := SetThree(m.SMPR1, c - 10, time)) else m.(SMPR2 := SetThree(m.SMPR2, c, time))
  }

  lemma TimeOnly(m: Image, c: bv32, time: bv32, o: Observable)
    requires c <= 17 && time <= 7 && o.Legal()
    ensures Read(WithTime(m, c, time), o) == if o == SampleTime(c) then time else Read(m, o)
  {
    hide RankIn, Three, SetThree, Five, RegularL, InjectedL, Part;
    if o.SampleTime? {
      if c > 9 && o.channel > 9 {
        SetThreeOnly(m.SMPR1, c - 10, time, o.channel - 10);
      } else if c <= 9 && o.channel <= 9 {
        SetThreeOnly(m.SMPR2, c, time, o.channel);
      }
    }
  }

  function WithRank(m: Image, k: bv32, c: bv32): Image
    requires 1 <= k <= 16
  {
    if k < 7 then m.(SQR3 := SetFive(m.SQR3, k - 1, c))
    else if k < 13 then m.(SQR2 := SetFive(m.SQR2, k - 7, c))
    else m.(SQR1 := SetFive(m.SQR1, k - 13, c))
  }

  lemma RankOnly(m: Image, k: bv32, c: bv32, o: Observable)
    requires 1 <= k <= 16 && c <= 17 && o.Legal()
    ensures Read(WithRank(m, k, c), o) == if o == Rank(k) then c else Read(m, o)
  {
    hide TimeIn, Three, Five, SetFive, RegularL, InjectedL, Part;
    if o.Rank? {
      if k < 7 && o.rank < 7 {
        SetFiveOnly(m.SQR3, k - 1, c, o.rank - 1);
      } else if 7 <= k < 13 && 7 <= o.rank < 13 {
        SetFiveOnly(m.SQR2, k - 7, c, o.rank - 7);
      } else if 13 <= k && 13 <= o.rank {
        SetFiveOnly(m.SQR1, k - 13, c, o.rank - 13);
      }
    } else if o.RegularLength? && 13 <= k {
      RankKeepsRegularL(m.SQR1, k - 13, c);
    }
  }

  lemma RegularLengthOnly(m: Image, n: bv32, o: Observable)
    requires 1 <= n <= 16 && o.Legal()
    ensures Read(m.(SQR1 := SetRegularL(m.SQR1, n)), o) == if o == RegularLength then n - 1 else Read(m, o)
  {
    hide TimeIn, Three, Five, RegularL, InjectedL, Part, SetRegularL;
    RegularLSet(m.SQR1, n);
    if o.Rank? && 13 <= o.rank {
      RegularLKeepsRanks(m.SQR1, n, o.rank - 13);
    }
  }

  lemma InjectedLengthOnly(m: Image, n: bv32, o: Observable)
    requires 1 <= n <= 4 && o.Legal()
    ensures Read(m.(JSQR := SetInjectedL(m.JSQR, n)), o) == if o == InjectedLength then n - 1 else Read(m, o)
  {
    hide RankIn, TimeIn, Three, Five, RegularL, InjectedL, Part, SetInjectedL, Mask;
    var m' := m.(JSQR := SetInjectedL(m.JSQR, n));
    match o
    case InjectedLength => InjectedLSet(m.JSQR, n);
    case Slot(slot) => InjectedLKeepsSlots(m.JSQR, n, slot);
    case _ => assert Read(m', o) == Read(m, o);
  }

  lemma SlotOnly(m: Image, slot: bv32, c: bv32, o: Observable)
    requires slot < 7 && c <= 17 && o.Legal()
    ensures Read(m.(JSQR := SetFive(m.JSQR, slot, c)), o) ==
      if o == Slot(slot) then c else if o == InjectedLength && slot == 4 then c & 0x3 else Read(m, o)
  {
    hide RankIn, TimeIn, Three, Five, SetFive, RegularL, InjectedL, Part, Mask;
    var m' := m.(JSQR := SetFive(m.JSQR, slot, c));
    match o
    case Slot(k) =>
      if slot < 4 {
        SetFiveOnly(m.JSQR, slot, c, k);
      } else {
        HighSlotKeepsSlots(m.JSQR, slot, c, k);
      }
    case InjectedLength => SlotAndLength(m.JSQR, slot, c);
    case _ => assert Read(m', o) == Read(m, o);
  }

  lemma FieldOnly(m: Image, f: Field, v: bv32, o: Observable)
    requires Within(v, Mask(f)) && o.Legal()
    ensures Read(m.(CR1 := SetField(m.CR1, f, v)), o) == if o == Control(f) then v else Read(m, o)
  {
    hide RankIn, TimeIn, Three, Five, RegularL, InjectedL, Part, SetField, Mask, Within;
    if o.Control? {
      SetFieldOnly(m.CR1, f, v, o.field);
    }
  }

  lemma Cr2Only(m: Image, align: bv32, trigger: bv32, cont: bool, o: Observable)
    requires Within(align, 0x800) && Within(trigger, 0x000E_0000) && o.Legal()
    ensures Read(m.(CR2 := SetCr2(m.CR2, align, trigger, cont)), o) ==
      match o
      case Continuous => if cont then 0x2 else 0
      case Alignment => align
      case Trigger => trigger
      case _ => Read(m, o)
  {
    hide RankIn, TimeIn, Three, Five, RegularL, InjectedL, Part, SetCr2, Mask, Within;
    var m' := m.(CR2 := SetCr2(m.CR2, align, trigger, cont));
    match o
    case Continuous => ContinuousSet(m.CR2, align, trigger, cont);
    case Alignment => AlignSet(m.CR2, align, trigger, cont);
    case Trigger => TriggerSet(m.CR2, align, trigger, cont);
    case OtherControl2 => OthersKept(m.CR2, align, trigger, cont);
    case _ => assert Read(m', o) == Read(m, o);
  }

  lemma InterruptFieldsOnly(m: Image, it: bv32, on: bool, o: Observable)
    requires IsIt(it) && o.Legal()
    ensures Read(m.(CR1 := SetInterrupts(m.CR1, it, on)), o)
         == if o.Control? && Selects(it, o.field) then Flag(o.field, on) else Read(m, o)
  {
    hide RankIn, TimeIn, Three, Five, RegularL, InjectedL, Part, SetInterrupts, Mask, IsIt, Selects, Flag;
    if o.Control? {
      InterruptsOnly(m.CR1, it, on, o.field);
    }
  }

  lemma CountFits(n: bv32) requires 1 <= n <= 8 ensures Within((n - 1) << 13, Mask(DiscCount)) {}

  lemma ChannelFits(c: bv32) requires c <= 17 ensures Within(c, Mask(WatchdogChannel)) {}

  lemma ModeFits(mode: bv32) requires Within(mode, 0x00C0_0200) ensures Within(mode, Mask(WatchdogMode)) {}

  lemma DualFits(mode: bv32) requires Within(mode, 0x000F_0000) ensures Within(mode, Mask(DualMode)) {}

  lemma SlotBound(rank: bv32, jl: bv32) requires 1 <= rank <= 4 && jl < 4 ensures SlotOf(rank, jl) < 7 {}

  lemma LengthBound(jsqr: bv32) ensures InjectedL(jsqr) < 4 {}

  lemma CountControls(n: bv32) ensures ControlsOnly(DiscModeChannelCount(n), DiscCount, (n - 1) << 13) {}

  lemma FlagControls(f: Field, on: bool) ensures ControlsOnly(SetFlag(f, on), f, Flag(f, on)) {}

  lemma WatchdogControls(mode: bv32) ensures ControlsOnly(AnalogWatchdog(mode), WatchdogMode, mode) {}

  lemma ChannelControls(c: bv32) ensures ControlsOnly(AnalogWatchdogChannel(c), WatchdogChannel, c) {}

  lemma InitObeys(m: Image, mode: bv32, scan: bool, cont: bool, trigger: bv32, align: bv32, length: bv32)
    requires Call.Init(mode, scan, cont, trigger, align, length).Legal()
    ensures Obeys(m, Call.Init(mode, scan, cont, trigger, align, length),
                  m.(CR1 := SetField(SetField(m.CR1, DualMode, mode), Scan, Flag(Scan, scan)),
                     CR2 := SetCr2(m.CR2, align, trigger, cont), SQR1 := SetRegularL(m.SQR1, length)))
  {
    hide Read, InjectedL, SetCr2, SetField, SetRegularL, Flag, Within, Effect;
    forall o: Observable | o.Legal() {
      InitSays(m, mode, scan, cont, trigger, align, length, o);
    }
  }

  lemma InitSays(m: Image, mode: bv32, scan: bool, cont: bool, trigger: bv32, align: bv32, length: bv32, o: Observable)
    requires Call.Init(mode, scan, cont, trigger, align, length).Legal() && o.Legal()
    ensures Read(m.(CR1 := SetField(SetField(m.CR1, DualMode, mode), Scan, Flag(Scan, scan)),
                    CR2 := SetCr2(m.CR2, align, trigger, cont), SQR1 := SetRegularL(m.SQR1, length)), o)
         == Override(Effect(Call.Init(mode, scan, cont, trigger, align, length), InjectedL(m.JSQR), o), Read(m, o))
  {
    hide Read, InjectedL, SetCr2, SetField, SetRegularL, Mask, Within, Flag;
    DualFits(mode);
    FlagFits(Scan, scan);
    var m1 := m.(CR1 := SetField(m.CR1, DualMode, mode));
    var m2 := m1.(CR1 := SetField(m1.CR1, Scan, Flag(Scan, scan)));
    var m3 := m2.(CR2 := SetCr2(m.CR2, align, trigger, cont));
    FieldOnly(m, DualMode, mode, o);
    FieldOnly(m1, Scan, Flag(Scan, scan), o);
    Cr2Only(m2, align, trigger, cont, o);
    RegularLengthOnly(m3, length, o);
  }

  lemma RegularObeys(m: Image, channel: bv32, rank: bv32, time: bv32)
    requires Call.RegularChannel(channel, rank, time).Legal()
    ensures Obeys(m, Call.RegularChannel(channel, rank, time), WithRank(WithTime(m, channel, time), rank, channel))
  {
    hide Read, WithTime, WithRank, InjectedL;
    forall o: Observable | o.Legal()
      ensures Read(WithRank(WithTime(m, channel, time), rank, channel), o)
           == Override(Effect(Call.RegularChannel(channel, rank, time), InjectedL(m.JSQR), o), Read(m, o))
    {
      TimeOnly(m, channel, time, o);
      RankOnly(WithTime(m, channel, time), rank, channel, o);
    }
  }

  lemma InjectedObeys(m: Image, channel: bv32, rank: bv32, time: bv32)
    requires Call.InjectedChannel(channel, rank, time).Legal()
    ensures SlotOf(rank, InjectedL(m.JSQR)) < 7
    ensures Obeys(m, Call.InjectedChannel(channel, rank, time),
                  WithTime(m, channel, time).(JSQR := SetFive(m.JSQR, SlotOf(rank, InjectedL(m.JSQR)), channel)))
  {
    hide Read, WithTime, SetFive, InjectedL, SlotOf;
    var jl := InjectedL(m.JSQR);
    LengthBound(m.JSQR);
    SlotBound(rank, jl);
    var m1 := WithTime(m, channel, time);
    assert m1.JSQR == m.JSQR by { TimeKeepsSlots(m, channel, time); }
    forall o: Observable | o.Legal()
      ensures Read(m1.(JSQR := SetFive(m.JSQR, SlotOf(rank, jl), channel)), o)
           == Override(Effect(Call.InjectedChannel(channel, rank, time), jl, o), Read(m, o))
    {
      TimeOnly(m, channel, time, o);
      SlotOnly(m1, SlotOf(rank, jl), channel, o);
    }
  }

  lemma TimeKeepsSlots(m: Image, c: bv32, time: bv32)
    requires c <= 17
    ensures WithTime(m, c, time).JSQR == m.JSQR
  {
    hide SetThree;
  }

  class AdcPort {
    var CR1: bv32
    var CR2: bv32
    var SMPR1: bv32
    var SMPR2: bv32
    var SQR1: bv32
    var SQR2: bv32
    var SQR3: bv32
    var JSQR: bv32

    function Registers(): Image
      reads this
    {
      Image(CR1, CR2, SMPR1, SMPR2, SQR1, SQR2, SQR3, JSQR)
    }

    /** ADC_Init: mode, scan, alignment, trigger, continuous mode and regular length; nothing else. */
    method Init(mode: bv32, scan: bool, cont: bool, trigger: bv32, align: bv32, length: bv32)
      requires Call.Init(mode, scan, cont, trigger, align, length).Legal()
      modifies this`CR1, this`CR2, this`SQR1
      ensures Obeys(old(Registers()), Call.Init(mode, scan, cont, trigger, align, length), Registers())
    {
      hide Obeys, SetCr2, SetModeAndScan, SetField, SetRegularL, Flag;
      InitObeys(Registers(), mode, scan, cont, trigger, align, length);
      ModeThenScan(CR1, mode, scan);
      CR1 := SetModeAndScan(CR1, mode, scan);
      CR2 := SetCr2(CR2, align, trigger, cont);
      SQR1 := SetRegularL(SQR1, length);
    }

    method SetSampleTime(channel: bv32, time: bv32)
      requires channel <= 17 && time <= 7
      modifies this`SMPR1, this`SMPR2
      ensures Registers() == WithTime(old(Registers()), channel, time)
    {
      hide SetThree;
      if channel > 9 {
        SMPR1 := SetThree(SMPR1, channel - 10, time);
      } else {
        SMPR2 := SetThree(SMPR2, channel, time);
      }
    }

    /** ADC_RegularChannelConfig: one rank and one sample time. */
    method RegularChannelConfig(channel: bv32, rank: bv32, time: bv32)
      requires Call.RegularChannel(channel, rank, time).Legal()
      modifies this`SMPR1, this`SMPR2, this`SQR1, this`SQR2, this`SQR3
      ensures Obeys(old(Registers()), Call.RegularChannel(channel, rank, time), Registers())
    {
      hide Obeys, SetFive, WithTime;
      RegularObeys(Registers(), channel, rank, time);
      SetSampleTime(channel, time);
      if rank < 7 {
        SQR3 := SetFive(SQR3, rank - 1, channel);
      } else if rank < 13 {
        SQR2 := SetFive(SQR2, rank - 7, channel);
      } else {
        SQR1 := SetFive(SQR1, rank - 13, channel);
      }
    }

    /** ADC_InjectedChannelConfig: one sample time and the slot the rank has under the length in force. */
    method InjectedChannelConfig(channel: bv32, rank: bv32, time: bv32)
      requires Call.InjectedChannel(channel, rank, time).Legal()
      modifies this`SMPR1, this`SMPR2, this`JSQR
      ensures Obeys(old(Registers()), Call.InjectedChannel(channel, rank, time), Registers())
    {
      hide Obeys, SetFive, WithTime, InjectedL, SlotOf;
      InjectedObeys(Registers(), channel, rank, time);
      SetSampleTime(channel, time);
      var jl := InjectedL(JSQR);
      LengthBound(JSQR);
      SlotBound(rank, jl);
      JSQR := SetFive(JSQR, SlotOf(rank, jl), channel);
    }

    /** ADC_InjectedSequencerLengthConfig. */
    method InjectedSequencerLengthConfig(length: bv32)
      requires 1 <= length <= 4
      modifies this`JSQR
      ensures Obeys(old(Registers()), Call.InjectedSequencerLength(length), Registers())
    {
      hide Read, SetInjectedL, InjectedL;
      var m0 := Registers();
      JSQR := SetInjectedL(JSQR, length);
      forall o: Observable | o.Legal() { InjectedLengthOnly(m0, length, o); }
    }

    /** The read-modify-write that the setters of one control field of CR1 share. */
    method SetControl(ghost call: Call, f: Field, v: bv32)
      requires Within(v, Mask(f)) && ControlsOnly(call, f, v)
      modifies this`CR1
      ensures Obeys(old(Registers()), call, Registers())
    {
      hide Read, SetField, Mask, Within, Effect, InjectedL;
      var m0 := Registers();
      CR1 := SetField(CR1, f, v);
      forall o: Observable | o.Legal()
        ensures Read(Registers(), o) == Override(Effect(call, InjectedL(m0.JSQR), o), Read(m0, o))
      {
        FieldOnly(m0, f, v, o);
      }
    }

    /** ADC_ITConfig. */
    method ITConfig(it: bv32, on: bool)
      requires IsIt(it)
      modifies this`CR1
      ensures Obeys(old(Registers()), Call.ITConfig(it, on), Registers())
    {
      hide Read, SetInterrupts, InjectedL, IsIt, Selects, Flag;
      var m0 := Registers();
      CR1 := SetInterrupts(CR1, it, on);
      forall o: Observable | o.Legal() { InterruptFieldsOnly(m0, it, on, o); }
    }

    /** Any one call gives every observable it names its value, and leaves every other one alone. */
    method Do(call: Call)
      requires call.Legal()
      modifies this
      ensures Obeys(old(Registers()), call, Registers())
    {
      hide Flag, Mask, Within, Obeys, ControlsOnly, IsIt;
      match call {
        case Init(mode, scan, cont, trigger, align, length) => Init(mode, scan, cont, trigger, align, length);
        case RegularChannel(channel, rank, time) => RegularChannelConfig(channel, rank, time);
        case InjectedChannel(channel, rank, time) => InjectedChannelConfig(channel, rank, time);
        case InjectedSequencerLength(length) => InjectedSequencerLengthConfig(length);
        case DiscModeChannelCount(count) =>
          CountFits(count);
          CountControls(count);
          SetControl(call, DiscCount, (count - 1) << 13);
        case SetFlag(field, on) =>
          FlagFits(field, on);
          FlagControls(field, on);
          SetControl(call, field, Flag(field, on));
        case AnalogWatchdog(mode) =>
          ModeFits(mode);
          WatchdogControls(mode);
          SetControl(call, WatchdogMode, mode);
        case AnalogWatchdogChannel(channel) =>
          ChannelFits(channel);
          ChannelControls(channel);
          SetControl(call, WatchdogChannel, channel);
        case ITConfig(it, on) => ITConfig(it, on);
      }
    }

    /** Any history of calls: every observable is what the last call that named it said. */
    method Replay(calls: seq<Call>)
      requires forall c | c in calls :: c.Legal()
      modifies this
      ensures forall o: Observable | o.Legal() ::
        Read(Registers(), o) == LastSaid(calls, InjectedL(old(JSQR)), o, Read(old(Registers()), o))
    {
      hide Read, InjectedL, Effect;
      assert Read(Registers(), InjectedLength) == InjectedL(JSQR) by { ReadInjectedLength(Registers()); }
      for i := 0 to |calls|
        invariant InjectedL(JSQR) == LengthAfter(calls[..i], InjectedL(old(JSQR)))
        invariant forall o: Observable | o.Legal() ::
          Read(Registers(), o) == LastSaid(calls[..i], InjectedL(old(JSQR)), o, Read(old(Registers()), o))
      {
        assert calls[i] in calls && calls[..i + 1][..i] == calls[..i];
        ReadInjectedLength(Registers());
        Do(calls[i]);
        ReadInjectedLength(Registers());
        assert Observable.InjectedLength.Legal();
      }
      assert calls[..|calls|] == calls;
    }
  }

  lemma ReadInjectedLength(m: Image) ensures Read(m, InjectedLength) == InjectedL(m.JSQR) {}

  // ----- Histories -----

  /** The injected length, less one, after some calls. */
  function LengthAfter(calls: seq<Call>, jl: bv32): bv32 {
    if calls == [] then jl
    else
      var before := LengthAfter(calls[..|calls| - 1], jl);
      Override(Effect(calls[|calls| - 1], before, InjectedLength), before)
  }

  function LastSaid(calls: seq<Call>, jl: bv32, o: Observable, before: bv32): bv32 {
    if calls == [] then before
    else
      var prefix := calls[..|calls| - 1];
      Override(Effect(calls[|calls| - 1], LengthAfter(prefix, jl), o), LastSaid(prefix, jl, o, before))
  }

  ghost predicate Names(calls: seq<Call>, i: nat, jl: bv32, o: Observable)
    requires i < |calls|
  {
    Effect(calls[i], LengthAfter(calls[..i], jl), o).Some?
  }

  /** The last call that names an observable decides it. */
  lemma {:induction false} LastCallDecides(calls: seq<Call>, jl: bv32, o: Observable, before: bv32, i: nat)
    requires i < |calls| && Names(calls, i, jl, o)
    requires forall j | i < j < |calls| :: !Names(calls, j, jl, o)
    ensures LastSaid(calls, jl, o, before) == Effect(calls[i], LengthAfter(calls[..i], jl), o).value
  {
    hide Effect;
    var n := |calls| - 1;
    if i == n {
    } else {
      assert !Names(calls, n, jl, o);
      var prefix := calls[..n];
      assert forall j | 0 <= j < n :: prefix[..j] == calls[..j];
      assert forall j | 0 <= j < n :: Names(prefix, j, jl, o) == Names(calls, j, jl, o);
      LastCallDecides(prefix, jl, o, before, i);
    }
  }

  /** An observable no call names keeps what it said. */
  lemma {:induction false} UnnamedKept(calls: seq<Call>, jl: bv32, o: Observable, before: bv32)
    requires forall j | 0 <= j < |calls| :: !Names(calls, j, jl, o)
    ensures LastSaid(calls, jl, o, before) == before
  {
    hide Effect;
    var n := |calls| - 1;
    if calls == [] {
    } else {
      assert !Names(calls, n, jl, o);
      var prefix := calls[..n];
      assert forall j | 0 <= j < n :: prefix[..j] == calls[..j];
      assert forall j | 0 <= j < n :: Names(prefix, j, jl, o) == Names(calls, j, jl, o);
      UnnamedKept(prefix, jl, o, before);
    }
  }

  // ----- Injected ranks -----

  /** Under length L, rank r has slot (r - 1) + (4 - L), and different ranks have different slots. */
  lemma RankHasSlot(rank: bv32, length: bv32)
    requires 1 <= rank <= length <= 4
    ensures SlotOf(rank, length - 1) == (rank - 1) + (4 - length) < 4
  {
  }

  lemma SlotsApart(r: bv32, q: bv32, jl: bv32)
    requires r != q && r <= 4 && q <= 4 && jl < 4
    ensures SlotOf(r, jl) != SlotOf(q, jl)
  {
  }

  /** A call for a rank keeps the length in the same register exactly if the rank is not the one just past the
      length, or its channel happens to have the length in its two low bits. */
  lemma RankKeepsLength(channel: bv32, rank: bv32, time: bv32, jl: bv32)
    requires 1 <= rank <= 4 && jl < 4
    ensures Override(Effect(InjectedChannel(channel, rank, time), jl, InjectedLength), jl) == jl
       <==> rank != jl + 2 || channel & 0x3 == jl
  {
    PastLength(rank, jl);
  }

  lemma PastLength(rank: bv32, jl: bv32)
    requires 1 <= rank <= 4 && jl < 4
    ensures SlotOf(rank, jl) == 4 <==> rank == jl + 2
  {
  }

  /** A history whose injected ranks stay within the length, and that never sets the length, keeps it. */
  lemma {:induction false} LengthKept(calls: seq<Call>, jl: bv32)
    requires jl < 4
    requires forall c | c in calls :: !c.InjectedSequencerLength? && (c.InjectedChannel? ==> 1 <= c.rank <= jl + 1)
    ensures LengthAfter(calls, jl) == jl
  {
    hide SlotOf, Selects, Flag;
    if calls == [] {
    } else {
      var last := calls[|calls| - 1];
      assert last in calls;
      LengthKept(calls[..|calls| - 1], jl);
      if last.InjectedChannel? {
        PastLength(last.rank, jl);
        WithinLength(last.rank, jl);
      }
    }
  }

  lemma WithinLength(rank: bv32, jl: bv32)
    requires 1 <= rank <= jl + 1 && jl < 4
    ensures rank != jl + 2 && rank <= 4
  {
  }

  lemma SlotAfterChannel(m: Image, m1: Image, channel: bv32, rank: bv32, time: bv32, slot: bv32)
    requires slot < 4 && Obeys(m, Call.InjectedChannel(channel, rank, time), m1)
    ensures Read(m1, Slot(slot)) == if slot == SlotOf(rank, InjectedL(m.JSQR)) then channel else Read(m, Slot(slot))
  {
    hide Read, InjectedL, SlotOf;
    assert Slot(slot).Legal();
  }

  lemma SlotAfterLength(m1: Image, m2: Image, length: bv32, slot: bv32)
    requires slot < 4 && Obeys(m1, Call.InjectedSequencerLength(length), m2)
    ensures Read(m2, Slot(slot)) == Read(m1, Slot(slot))
  {
    hide Read, InjectedL;
    assert Slot(slot).Legal();
  }

  lemma LengthAfterLength(m1: Image, m2: Image, length: bv32)
    requires Obeys(m1, Call.InjectedSequencerLength(length), m2)
    ensures InjectedL(m2.JSQR) == length - 1
  {
    hide Read, InjectedL;
    ReadInjectedLength(m2);
    assert Observable.InjectedLength.Legal();
  }

  /** A channel is given a rank within the length, and then the length is changed: the channel moves by the change of
      length, and every other rank has what was in its slot before. So it keeps its rank exactly if the length stays. */
  lemma ChannelMovesWithLength(m: Image, m1: Image, m2: Image, channel: bv32, rank: bv32, time: bv32,
                               length: bv32, q: bv32)
    requires 1 <= rank <= InjectedL(m.JSQR) + 1 && 1 <= q <= length <= 4
    requires Obeys(m, Call.InjectedChannel(channel, rank, time), m1)
    requires Obeys(m1, Call.InjectedSequencerLength(length), m2)
    ensures InjectedL(m2.JSQR) == length - 1 && SlotOf(q, length - 1) < 4
    ensures Read(m2, Slot(SlotOf(q, InjectedL(m2.JSQR))))
         == if q + InjectedL(m.JSQR) + 1 == rank + length then channel else Read(m, Slot(SlotOf(q, length - 1)))
  {
    hide Read, InjectedL, SlotOf, Obeys;
    LengthBound(m.JSQR);
    RankHasSlot(q, length);
    SameSlot(rank, InjectedL(m.JSQR), q, length);
    SlotAfterChannel(m, m1, channel, rank, time, SlotOf(q, length - 1));
    SlotAfterLength(m1, m2, length, SlotOf(q, length - 1));
    LengthAfterLength(m1, m2, length);
  }

  lemma SameSlot(rank: bv32, jl: bv32, q: bv32, length: bv32)
    requires 1 <= rank <= jl + 1 && jl < 4 && 1 <= q <= length <= 4
    ensures SlotOf(rank, jl) == SlotOf(q, length - 1) <==> q + jl + 1 == rank + length
  {
  }
}
