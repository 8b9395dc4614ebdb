/** Mode changes of the CAN cell: requests in MCR, acknowledged some time later in MSR.

    MSR is read-only to the driver and changes under it, so it is a stream: read number i returns msr(i). The stream
    is arbitrary, and every result below holds for every stream. */
module CanMode {
  import opened Bits
  import opened Polling
  import opened Wrappers

  const INRQ: bv32 := 0x0001
  const SLEEP: bv32 := 0x0002
  const TXFP: bv32 := 0x0004
  const RFLM: bv32 := 0x0008
  const NART: bv32 := 0x0010
  const AWUM: bv32 := 0x0020
  const ABOM: bv32 := 0x0040
  const TTCM: bv32 := 0x0080
  const INAK: bv32 := 0x0001
  const SLAK: bv32 := 0x0002
  const MODE_MASK: bv32 := 0x0003
  const OPTIONS: bv32 := 0xFFFF_FFFC  // every bit that is not a request
  const REST: bv32 := 0xFFFF_FF00     // and none of the six options either
  const TIMEOUT: nat := 0xFFFF

  // ----- Registers -----

  function Requests(mcr: bv32): bv32 { mcr & (INRQ | SLEEP) }
  function Options(mcr: bv32): bv32 { Part(mcr, OPTIONS) }

  function SetOption(mcr: bv32, bit: bv32, on: bool): bv32 { if on then Or(mcr, bit) else Without(mcr, bit) }

  lemma RequestNotBoth(mcr: bv32) ensures Requests(Without(mcr, SLEEP)) != INRQ | SLEEP {}

  lemma LeaveInit(mcr: bv32) requires Requests(mcr) == INRQ ensures Requests(Without(mcr, INRQ)) == 0 {}

  lemma LeaveBoth(mcr: bv32) ensures Requests(Without(mcr, SLEEP | INRQ)) == 0 {}

  lemma SwitchToInit(mcr: bv32) ensures Requests(Or(Without(mcr, SLEEP), INRQ)) == INRQ {}

  lemma SwitchToSleep(mcr: bv32) ensures Requests(Or(Without(mcr, INRQ), SLEEP)) == SLEEP {}

  lemma OptionsAfterSet(mcr: bv32, bits: bv32)
    requires bits & 0xFFFF_FFFC == 0
    ensures Options(Or(mcr, bits)) == Options(mcr)
  {
  }

  lemma OptionsAfterClear(mcr: bv32, bits: bv32)
    requires bits & 0xFFFF_FFFC == 0
    ensures Options(Without(mcr, bits)) == Options(mcr)
  {
  }

  lemma OptionsAfterSwitch(mcr: bv32, off: bv32, on: bv32)
    requires (off | on) & 0xFFFF_FFFC == 0
    ensures Options(Or(Without(mcr, off), on)) == Options(mcr)
  {
  }

  lemma OptionKeepsRequests(mcr: bv32, bit: bv32, on: bool)
    requires bit & (INRQ | SLEEP) == 0
    ensures Requests(SetOption(mcr, bit, on)) == Requests(mcr)
  {
  }

  predicate Exclusive(mcr: bv32) { Requests(mcr) != INRQ | SLEEP }

  datatype Status = Failed | Success
  datatype Mode = Initialization | Normal | Sleep

  /** The configuration structure of CAN_Init. */
  datatype Init = Init(prescaler: bv32, mode: bv32, sjw: bv32, bs1: bv32, bs2: bv32,
                       ttcm: bool, abom: bool, awum: bool, nart: bool, rflm: bool, txfp: bool)
  {
    predicate Legal() {
      1 <= prescaler <= 1024 && mode <= 3 && sjw <= 3 && bs1 <= 15 && bs2 <= 7
    }
  }

  function BitTiming(c: Init): bv32 {
    (c.mode << 30) | (c.sjw << 24) | (c.bs1 << 16) | (c.bs2 << 20) | (c.prescaler - 1)
  }

  // The fields of BTR where the reference manual puts them.
  function BtrMode(btr: bv32): bv32 { btr >> 30 }
  function BtrSjw(btr: bv32): bv32 { (btr >> 24) & 0x3 }
  function BtrTs2(btr: bv32): bv32 { (btr >> 20) & 0x7 }
  function BtrTs1(btr: bv32): bv32 { (btr >> 16) & 0xF }
  function BtrBrp(btr: bv32): bv32 { btr & 0x3FF }

  const BTR_RESERVED: bv32 := 0x3C80_FC00  // every bit of no field

  lemma NothingReserved(c: Init) requires c.Legal() ensures Part(BitTiming(c), BTR_RESERVED) == 0 {}

  lemma ModeField(c: Init) requires c.Legal() ensures BtrMode(BitTiming(c)) == c.mode {}

  lemma SjwField(c: Init) requires c.Legal() ensures BtrSjw(BitTiming(c)) == c.sjw {}

  lemma Ts2Field(c: Init) requires c.Legal() ensures BtrTs2(BitTiming(c)) == c.bs2 {}

  lemma Ts1Field(c: Init) requires c.Legal() ensures BtrTs1(BitTiming(c)) == c.bs1 {}

  lemma BrpField(c: Init) requires c.Legal() ensures BtrBrp(BitTiming(c)) == c.prescaler - 1 {}

  ghost predicate TimingIs(btr: bv32, c: Init) {
    && BtrMode(btr) == c.mode && BtrSjw(btr) == c.sjw && BtrTs1(btr) == c.bs1 && BtrTs2(btr) == c.bs2
    && BtrBrp(btr) == c.prescaler - 1 && Part(btr, BTR_RESERVED) == 0
  }

  /** Bit timing is decoded uniquely: two legal configurations with the same BTR have the same timing. */
  lemma TimingUnique(c: Init, d: Init)
    requires c.Legal() && d.Legal() && BitTiming(c) == BitTiming(d)
    ensures TimingIs(BitTiming(c), c)
    ensures c.mode == d.mode && c.sjw == d.sjw && c.bs1 == d.bs1 && c.bs2 == d.bs2 && c.prescaler == d.prescaler
  {
    hide BitTiming, BtrMode, BtrSjw, BtrTs1, BtrTs2, BtrBrp, Part;
    NothingReserved(c);
    ModeField(c); ModeField(d);
    SjwField(c); SjwField(d);
    Ts1Field(c); Ts1Field(d);
    Ts2Field(c); Ts2Field(d);
    BrpField(c); BrpField(d);
    MinusOne(c.prescaler, d.prescaler);
  }

  lemma MinusOne(a: bv32, b: bv32) requires a - 1 == b - 1 ensures a == b {}

  /** MCR after the six option branches. */
  function WithOptions(mcr: bv32, c: Init): bv32 {
    var m1 := SetOption(mcr, TTCM, c.ttcm);
    var m2 := SetOption(m1, ABOM, c.abom);
    var m3 := SetOption(m2, AWUM, c.awum);
    var m4 := SetOption(m3, NART, c.nart);
    var m5 := SetOption(m4, RFLM, c.rflm);
    SetOption(m5, TXFP, c.txfp)
  }

  predicate HasBits(mcr: bv32, bit: bv32) { Part(mcr, bit) == bit }

  /** The bits of MCR that are neither a request nor one of the six options. */
  function Rest(mcr: bv32): bv32 { Part(mcr, REST) }

  lemma OptionKeepsRest(mcr: bv32, bit: bv32, on: bool)
    requires bit & REST == 0
    ensures Rest(SetOption(mcr, bit, on)) == Rest(mcr)
  {
  }

  lemma RestAfterOptions(mcr: bv32, c: Init)
    ensures Rest(WithOptions(mcr, c)) == Rest(mcr)
  {
    hide Rest, SetOption;
    var m1 := SetOption(mcr, TTCM, c.ttcm);
    var m2 := SetOption(m1, ABOM, c.abom);
    var m3 := SetOption(m2, AWUM, c.awum);
    var m4 := SetOption(m3, NART, c.nart);
    OptionKeepsRest(mcr, TTCM, c.ttcm);
    OptionKeepsRest(m1, ABOM, c.abom);
    OptionKeepsRest(m2, AWUM, c.awum);
    OptionKeepsRest(m3, NART, c.nart);
    OptionKeepsRest(m4, RFLM, c.rflm);
    OptionKeepsRest(SetOption(m4, RFLM, c.rflm), TXFP, c.txfp);
  }

  lemma RestIsInner() ensures Within(REST, OPTIONS) {}

  lemma BitIsInner(bit: bv32) requires bit & (INRQ | SLEEP) == 0 ensures Within(bit, OPTIONS) {}

  /** Values that agree outside the requests agree in the rest, and bit by bit. */
  lemma SameOptions(mcr: bv32, mcr': bv32)
    requires Options(mcr) == Options(mcr')
    ensures Rest(mcr) == Rest(mcr')
  {
    hide Part, Within;
    RestIsInner();
    PartOfPart(mcr, OPTIONS, REST);
    PartOfPart(mcr', OPTIONS, REST);
  }

  lemma SameBit(mcr: bv32, mcr': bv32, bit: bv32)
    requires Options(mcr) == Options(mcr') && bit & (INRQ | SLEEP) == 0
    ensures HasBits(mcr, bit) == HasBits(mcr', bit)
  {
    hide Part, Within;
    BitIsInner(bit);
    PartOfPart(mcr, OPTIONS, bit);
    PartOfPart(mcr', OPTIONS, bit);
  }

  lemma HasTtcm(mcr: bv32, c: Init) ensures HasBits(WithOptions(mcr, c), TTCM) == c.ttcm {}

  lemma HasAbom(mcr: bv32, c: Init) ensures HasBits(WithOptions(mcr, c), ABOM) == c.abom {}

  lemma HasAwum(mcr: bv32, c: Init) ensures HasBits(WithOptions(mcr, c), AWUM) == c.awum {}

  lemma HasNart(mcr: bv32, c: Init) ensures HasBits(WithOptions(mcr, c), NART) == c.nart {}

  lemma HasRflm(mcr: bv32, c: Init) ensures HasBits(WithOptions(mcr, c), RFLM) == c.rflm {}

  lemma HasTxfp(mcr: bv32, c: Init) ensures HasBits(WithOptions(mcr, c), TXFP) == c.txfp {}

  /** The six options are as configured. */
  ghost predicate OptionsAre(mcr: bv32, c: Init) {
    && HasBits(mcr, TTCM) == c.ttcm && HasBits(mcr, ABOM) == c.abom && HasBits(mcr, AWUM) == c.awum
    && HasBits(mcr, NART) == c.nart && HasBits(mcr, RFLM) == c.rflm && HasBits(mcr, TXFP) == c.txfp
  }

  lemma OptionsConfigured(mcr: bv32, c: Init)
    ensures OptionsAre(WithOptions(mcr, c), c)
  {
    hide HasBits, WithOptions;
    HasTtcm(mcr, c);
    HasAbom(mcr, c);
    HasAwum(mcr, c);
    HasNart(mcr, c);
    HasRflm(mcr, c);
    HasTxfp(mcr, c);
  }

  lemma OptionsAreOptions(mcr: bv32, mcr': bv32, c: Init)
    requires OptionsAre(mcr, c) && Options(mcr') == Options(mcr)
    ensures OptionsAre(mcr', c)
  {
    hide HasBits, Options;
    SameBit(mcr, mcr', TTCM);
    SameBit(mcr, mcr', ABOM);
    SameBit(mcr, mcr', AWUM);
    SameBit(mcr, mcr', NART);
    SameBit(mcr, mcr', RFLM);
    SameBit(mcr, mcr', TXFP);
  }

  const ENTERED: Wait := Wait(INAK, INAK, true)
  const LEFT: Wait := Wait(INAK, INAK, false)
  const AWAKE: Wait := Wait(SLAK, SLAK, false)

  /** What CAN_OperatingModeRequest waits for. */
  function Target(mode: Mode): Wait {
    match mode
    case Initialization => Wait(MODE_MASK, INAK, true)
    case Normal => Wait(MODE_MASK, 0, true)
    case Sleep => Wait(MODE_MASK, SLAK, true)
  }

  function Requested(mode: Mode): bv32 {
    match mode
    case Initialization => INRQ
    case Normal => 0
    case Sleep => SLEEP
  }

  // ----- MSR and MCR in numbers -----

  /** MSR shows the mode: of its two low bits INAK alone, neither, or SLAK alone. */
  predicate InMode(mode: Mode, msr: bv32) {
    match mode
    case Initialization => msr & 0x3 == 0x1
    case Normal => msr & 0x3 == 0x0
    case Sleep => msr & 0x3 == 0x2
  }

  /** INAK, bit 0 of MSR. */
  predicate InInitialization(msr: bv32) { msr & 0x1 == 0x1 }

  /** SLAK, bit 1 of MSR. */
  predicate Asleep(msr: bv32) { msr & 0x2 == 0x2 }

  lemma TargetIsMode(mode: Mode, msr: bv32) ensures Target(mode).Met(msr) == InMode(mode, msr) {}

  lemma EnteredIsInitialization(msr: bv32) ensures ENTERED.Met(msr) == InInitialization(msr) {}

  lemma LeftIsNot(msr: bv32) ensures LEFT.Met(msr) == !InInitialization(msr) {}

  lemma AwakeIsNotAsleep(msr: bv32) ensures AWAKE.Met(msr) == !Asleep(msr) {}

  /** A cell that reaches the mode at read k of MSR and stays in it is reported as having done so exactly if k is at
      most 0x1_0000: the retries, and the read after the loop. */
  lemma SteadyMode(msr: nat -> bv32, mode: Mode, at: nat, k: nat)
    requires forall i: nat | at <= i < at + k :: !InMode(mode, msr(i))
    requires forall i: nat | at + k <= i :: InMode(mode, msr(i))
    ensures Acknowledged(msr, Target(mode), at, TIMEOUT) <==> k <= 0x1_0000
  {
    hide Wait.Met, InMode, Polls, Acknowledged, Target;
    forall i: nat ensures Target(mode).Met(msr(i)) == InMode(mode, msr(i)) { TargetIsMode(mode, msr(i)); }
    CleanAcknowledge(msr, Target(mode), at, TIMEOUT, k);
  }

  /** The requests are the two low bits of MCR: 1 for initialization, 2 for sleep. */
  lemma RequestsInNumbers(mcr: bv32)
    ensures Requests(mcr) == mcr & 0x3
    ensures Requested(Initialization) == 1 && Requested(Normal) == 0 && Requested(Sleep) == 2
  {
  }

  /** The six options, by their bits in MCR. */
  lemma OptionsInNumbers(mcr: bv32, c: Init)
    requires OptionsAre(mcr, c)
    ensures (mcr & 0x80 != 0) == c.ttcm && (mcr & 0x40 != 0) == c.abom && (mcr & 0x20 != 0) == c.awum
    ensures (mcr & 0x10 != 0) == c.nart && (mcr & 0x08 != 0) == c.rflm && (mcr & 0x04 != 0) == c.txfp
  {
  }

  /** The fields of BTR: mode in bits 31:30, jump width in 25:24, second segment in 22:20, first in 19:16, prescaler
      less one in 9:0. */
  lemma TimingInNumbers(c: Init)
    requires c.Legal()
    ensures BitTiming(c) >> 30 == c.mode && (BitTiming(c) >> 24) & 0x3F == c.sjw
    ensures (BitTiming(c) >> 20) & 0xF == c.bs2 && (BitTiming(c) >> 16) & 0xF == c.bs1
    ensures BitTiming(c) & 0xFFFF == c.prescaler - 1
  {
  }

  /** CAN_Init, CAN_OperatingModeRequest, CAN_Sleep and CAN_WakeUp. */
  datatype Call = Setup(init: Init) | Request(mode: Mode) | Doze | Wake

  /** What is requested, how often MSR was read, and the configuration in force, if a call has set one. */
  datatype Control = Control(requests: bv32, sampled: nat, setup: Option<Init>)

  /** The read of MSR that decides a wait starting at read number `at`. */
  function Deciding(msr: nat -> bv32, w: Wait, at: nat): nat { at + Polls(msr, w, at, TIMEOUT) }

  function After(s: Control, call: Call, msr: nat -> bv32): Control {
    match call
    case Setup(c) =>
      var entered := Deciding(msr, ENTERED, s.sampled);
      if !ENTERED.Met(msr(entered)) then Control(INRQ, entered + 1, s.setup)
      else Control(0, Deciding(msr, LEFT, entered + 1) + 1, Some(c))
    case Request(mode) => Control(Requested(mode), Deciding(msr, Target(mode), s.sampled) + 1, s.setup)
    case Doze => Control(SLEEP, s.sampled + 1, s.setup)
    case Wake => Control(Without(s.requests, SLEEP), Deciding(msr, AWAKE, s.sampled) + 1, s.setup)
  }

  ghost predicate Succeeds(s: Control, call: Call, msr: nat -> bv32) {
    match call
    case Setup(_) =>
      && Acknowledged(msr, ENTERED, s.sampled, TIMEOUT)
      && Acknowledged(msr, LEFT, Deciding(msr, ENTERED, s.sampled) + 1, TIMEOUT)
    case Request(mode) => Acknowledged(msr, Target(mode), s.sampled, TIMEOUT)
    case Doze => Target(Sleep).Met(msr(s.sampled))
    case Wake => Acknowledged(msr, AWAKE, s.sampled, TIMEOUT)
  }

  function Afters(s: Control, calls: seq<Call>, msr: nat -> bv32): Control {
    if calls == [] then s else After(Afters(s, calls[..|calls| - 1], msr), calls[|calls| - 1], msr)
  }

  lemma AftersStart(s: Control, calls: seq<Call>, msr: nat -> bv32)
    ensures Afters(s, calls[..0], msr) == s
  {
  }

  lemma AftersStep(s: Control, calls: seq<Call>, i: nat, msr: nat -> bv32)
    requires i < |calls|
    ensures Afters(s, calls[..i + 1], msr) == After(Afters(s, calls[..i], msr), calls[i], msr)
  {
    hide After;
    assert calls[..i + 1][..i] == calls[..i];
  }

  /** Call number i is a CAN_Init whose first acknowledge was seen. */
  predicate Configures(s: Control, calls: seq<Call>, i: nat, msr: nat -> bv32)
    requires i < |calls|
  {
    calls[i].Setup? && ENTERED.Met(msr(Deciding(msr, ENTERED, Afters(s, calls[..i], msr).sampled)))
  }

  /** The last CAN_Init whose first acknowledge was seen decides the configuration. */
  lemma {:induction false} LastSetupDecides(s: Control, calls: seq<Call>, i: nat, msr: nat -> bv32)
    requires i < |calls| && Configures(s, calls, i, msr)
    requires forall j | i < j < |calls| :: !Configures(s, calls, j, msr)
    ensures Afters(s, calls, msr).setup == Some(calls[i].init)
  {
    hide Polls, Wait.Met, Without;
    var n := |calls| - 1;
    if i == n {
    } else {
      assert !Configures(s, calls, n, msr);
      var before := calls[..n];
      assert forall j | 0 <= j < n :: before[..j] == calls[..j];
      assert forall j | 0 <= j < n :: Configures(s, before, j, msr) == Configures(s, calls, j, msr);
      LastSetupDecides(s, before, i, msr);
    }
  }

  /** Without one the configuration is what it was. */
  lemma {:induction false} NeverSetUp(s: Control, calls: seq<Call>, msr: nat -> bv32)
    requires forall j | 0 <= j < |calls| :: !Configures(s, calls, j, msr)
    ensures Afters(s, calls, msr).setup == s.setup
  {
    hide Polls, Wait.Met, Without;
    if calls == [] {
    } else {
      var n := |calls| - 1;
      assert !Configures(s, calls, n, msr);
      var before := calls[..n];
      assert forall j | 0 <= j < n :: before[..j] == calls[..j];
      assert forall j | 0 <= j < n :: Configures(s, before, j, msr) == Configures(s, calls, j, msr);
      NeverSetUp(s, before, msr);
    }
  }

  class CanControl {
    var MCR: bv32
    var BTR: bv32
    const msr: nat -> bv32        // what each read of MSR returns
    var sampled: nat              // how many reads of MSR were made
    ghost var written: seq<bv32>  // every value ever written to MCR

    /** No write to MCR ever requested initialization and sleep at once. */
    ghost predicate Valid()
      reads this`MCR, this`written
    {
      && (forall v | v in written :: Requests(v) != INRQ | SLEEP)
      && (written != [] ==> MCR == written[|written| - 1])
    }

    constructor (mcr: bv32, btr: bv32, msr: nat -> bv32)
      ensures Valid() && MCR == mcr && BTR == btr && this.msr == msr && sampled == 0 && written == []
    {
      MCR, BTR, this.msr, sampled, written := mcr, btr, msr, 0, [];
    }

    method WriteMCR(v: bv32)
      requires Valid() && Requests(v) != INRQ | SLEEP
      modifies this`MCR, this`written
      ensures Valid() && MCR == v && written == old(written) + [v]
    {
      hide Requests;
      MCR := v;
      written := written + [v];
    }

    method ReadMSR() returns (v: bv32)
      modifies this`sampled
      ensures v == msr(old(sampled)) && sampled == old(sampled) + 1
    {
      v := msr(sampled);
      sampled := sampled + 1;
    }

    /** A polling loop: it always ends, on the first read that meets the wait or when the retries are used up. */
    method Poll(w: Wait, retries: nat)
      modifies this`sampled
      ensures sampled == old(sampled) + Polls(msr, w, old(sampled), retries)
    {
      hide Wait.Met;
      var timeout := retries;
      var sample := ReadMSR();
      while !w.Met(sample) && timeout != 0
        invariant old(sampled) < sampled && sample == msr(sampled - 1)
        invariant Polls(msr, w, old(sampled), retries)
               == sampled - 1 - old(sampled) + Polls(msr, w, sampled - 1, timeout)
        decreases timeout
      {
        timeout := timeout - 1;
        sample := ReadMSR();
      }
    }

    /** A polling loop and the read that decides after it. */
    method Await(w: Wait) returns (status: Status)
      modifies this`sampled
      ensures sampled == old(sampled) + Polls(msr, w, old(sampled), TIMEOUT) + 1
      ensures old(sampled) + 2 <= sampled <= old(sampled) + TIMEOUT + 2
      ensures status == Success <==> w.Met(msr(sampled - 1))
      ensures status == Success <==> Acknowledged(msr, w, old(sampled), TIMEOUT)
    {
      hide Wait.Met, Polls;
      Poll(w, TIMEOUT);
      var sample := ReadMSR();
      status := if w.Met(sample) then Success else Failed;
    }

    /** CAN_Init. Without the first acknowledge nothing is configured; with it everything is, and the result says
        whether the second one was seen. */
    method CanInit(c: Init) returns (status: Status)
      requires Valid() && c.Legal()
      modifies this
      ensures Valid() && Rest(MCR) == Rest(old(MCR)) && old(written) < written
      ensures sampled <= old(sampled) + 2 * TIMEOUT + 4
      ensures var decided := old(sampled) + Polls(msr, ENTERED, old(sampled), TIMEOUT);
        if !ENTERED.Met(msr(decided)) then
          && status == Failed && sampled == decided + 1
          && BTR == old(BTR) && Options(MCR) == Options(old(MCR)) && Requests(MCR) == INRQ
        else
          && (status == Success <==> Acknowledged(msr, LEFT, decided + 1, TIMEOUT))
          && sampled == decided + 1 + Polls(msr, LEFT, decided + 1, TIMEOUT) + 1
          && TimingIs(BTR, c) && OptionsAre(MCR, c) && Requests(MCR) == 0
      ensures status == Success ==>
        exists i, j | old(sampled) <= i < j < sampled :: InInitialization(msr(i)) && !InInitialization(msr(j))
    {
      hide Valid, Polls, Wait.Met, Requests, Options, Rest, Or, Without, Acknowledged, TimingIs, OptionsAre;
      hide InInitialization;
      ghost var mcr := MCR;
      // exit from sleep mode, request initialization
      RequestNotBoth(MCR);
      SwitchToInit(MCR);
      OptionsAfterClear(MCR, SLEEP);
      WriteMCR(Without(MCR, SLEEP));
      OptionsAfterSet(MCR, INRQ);
      WriteMCR(Or(MCR, INRQ));
      SameOptions(mcr, MCR);
      ghost var inInit := MCR;
      status := Await(ENTERED);
      ghost var i := sampled - 1;
      if status == Success {
        Configure(c);
        ghost var configured := MCR;
        // request leave initialization
        LeaveInit(MCR);
        OptionsAfterClear(MCR, INRQ);
        WriteMCR(Without(MCR, INRQ));
        SameOptions(configured, MCR);
        OptionsAreOptions(configured, MCR, c);
        status := Await(LEFT);
        ghost var j := sampled - 1;
        EnteredIsInitialization(msr(i));
        LeftIsNot(msr(j));
        assert status == Success ==> InInitialization(msr(i)) && !InInitialization(msr(j));
      }
    }

    /** The part of CAN_Init between the two acknowledges. */
    method Configure(c: Init)
      requires Valid() && c.Legal() && Requests(MCR) == INRQ
      modifies this
      ensures Valid() && sampled == old(sampled) && Requests(MCR) == INRQ && Rest(MCR) == Rest(old(MCR))
      ensures old(written) < written
      ensures OptionsAre(MCR, c) && TimingIs(BTR, c)
    {
      hide Valid, Requests, Rest, SetOption, BitTiming, TimingIs, OptionsAre;
      ghost var mcr := MCR;
      OptionKeepsRequests(MCR, TTCM, c.ttcm);
      WriteMCR(SetOption(MCR, TTCM, c.ttcm));
      OptionKeepsRequests(MCR, ABOM, c.abom);
      WriteMCR(SetOption(MCR, ABOM, c.abom));
      OptionKeepsRequests(MCR, AWUM, c.awum);
      WriteMCR(SetOption(MCR, AWUM, c.awum));
      OptionKeepsRequests(MCR, NART, c.nart);
      WriteMCR(SetOption(MCR, NART, c.nart));
      OptionKeepsRequests(MCR, RFLM, c.rflm);
      WriteMCR(SetOption(MCR, RFLM, c.rflm));
      OptionKeepsRequests(MCR, TXFP, c.txfp);
      WriteMCR(SetOption(MCR, TXFP, c.txfp));
      OptionsConfigured(mcr, c);
      RestAfterOptions(mcr, c);
      TimingUnique(c, c);
      BTR := BitTiming(c);
    }

    /** CAN_OperatingModeRequest: ends for every stream, and succeeds exactly if its last read of MSR shows the mode. */
    method OperatingModeRequest(mode: Mode) returns (status: Status)
      requires Valid()
      modifies this`MCR, this`written, this`sampled
      ensures Valid() && old(written) < written && Requests(MCR) == Requested(mode) && Options(MCR) == Options(old(MCR))
      ensures sampled == old(sampled) + Polls(msr, Target(mode), old(sampled), TIMEOUT) + 1
      ensures old(sampled) + 2 <= sampled <= old(sampled) + TIMEOUT + 2
      ensures status == Success <==> Target(mode).Met(msr(sampled - 1))
      ensures status == Success <==> InMode(mode, msr(sampled - 1))
      ensures status == Success <==> Acknowledged(msr, Target(mode), old(sampled), TIMEOUT)
    {
      hide Valid, Polls, Wait.Met, Requests, Options, Or, Without, InMode;
      match mode {
        case Initialization =>
          SwitchToInit(MCR);
          OptionsAfterSwitch(MCR, SLEEP, INRQ);
          WriteMCR(Or(Without(MCR, SLEEP), INRQ));
        case Normal =>
          LeaveBoth(MCR);
          OptionsAfterClear(MCR, SLEEP | INRQ);
          WriteMCR(Without(MCR, SLEEP | INRQ));
        case Sleep =>
          SwitchToSleep(MCR);
          OptionsAfterSwitch(MCR, INRQ, SLEEP);
          WriteMCR(Or(Without(MCR, INRQ), SLEEP));
      }
      status := Await(Target(mode));
      TargetIsMode(mode, msr(sampled - 1));
    }

    /** CAN_Sleep does not wait: one read decides. */
    method CanSleep() returns (status: Status)
      requires Valid()
      modifies this`MCR, this`written, this`sampled
      ensures Valid() && old(written) < written && sampled == old(sampled) + 1
      ensures Requests(MCR) == SLEEP && Options(MCR) == Options(old(MCR))
      ensures status == Success <==> Target(Sleep).Met(msr(old(sampled)))
      ensures status == Success <==> InMode(Sleep, msr(old(sampled)))
    {
      hide Valid, Polls, Wait.Met, Requests, Options, Or, Without, InMode;
      SwitchToSleep(MCR);
      OptionsAfterSwitch(MCR, INRQ, SLEEP);
      WriteMCR(Or(Without(MCR, INRQ), SLEEP));
      var sample := ReadMSR();
      status := if Target(Sleep).Met(sample) then Success else Failed;
      TargetIsMode(Sleep, sample);
    }

    /** CAN_WakeUp. */
    method WakeUp() returns (status: Status)
      requires Valid()
      modifies this`MCR, this`written, this`sampled
      ensures Valid() && old(written) < written && Options(MCR) == Options(old(MCR))
      ensures Requests(MCR) == Without(Requests(old(MCR)), SLEEP)
      ensures sampled == old(sampled) + Polls(msr, AWAKE, old(sampled), TIMEOUT) + 1
      ensures old(sampled) + 2 <= sampled <= old(sampled) + TIMEOUT + 2
      ensures status == Success <==> AWAKE.Met(msr(sampled - 1))
      ensures status == Success <==> !Asleep(msr(sampled - 1))
      ensures status == Success <==> Acknowledged(msr, AWAKE, old(sampled), TIMEOUT)
    {
      hide Valid, Polls, Wait.Met, Requests, Options, Without, Asleep;
      RequestNotBoth(MCR);
      OptionsAfterClear(MCR, SLEEP);
      SleepDropped(MCR);
      WriteMCR(Without(MCR, SLEEP));
      status := Await(AWAKE);
      AwakeIsNotAsleep(msr(sampled - 1));
    }

    /** Any run of calls, on any stream: requests, reads, results and configuration are those of the fold; and
        initialization and sleep are never requested together, in between or at the end. */
    method Run(calls: seq<Call>) returns (results: seq<Status>)
      requires Valid() && Exclusive(MCR)
      requires forall c | c in calls :: c.Setup? ==> c.init.Legal()
      modifies this
      ensures Valid() && Exclusive(MCR) && old(written) <= written
      ensures |written| >= |old(written)| + |calls| && Rest(MCR) == Rest(old(MCR))
      ensures var start := Control(Requests(old(MCR)), old(sampled), None);
        && Shows(Afters(start, calls, msr), old(MCR), old(BTR))
        && |results| == |calls|
        && forall i: nat | i < |calls| ::
             results[i] == Success <==> Succeeds(Afters(start, calls[..i], msr), calls[i], msr)
      ensures sampled <= old(sampled) + |calls| * (2 * TIMEOUT + 4)
    {
      hide Valid, Shows, Exclusive, Requests, Rest, Init.Legal, After, Afters, Succeeds;
      StartShows();
      ghost var start := Control(Requests(MCR), sampled, None);
      results := [];
      AftersStart(start, calls, msr);
      for i := 0 to |calls|
        invariant Valid() && Exclusive(MCR) && old(written) <= written
        invariant |written| >= |old(written)| + i && Rest(MCR) == Rest(old(MCR))
        invariant Shows(Afters(start, calls[..i], msr), old(MCR), old(BTR))
        invariant |results| == i
        invariant forall k: nat | k < i ::
          results[k] == Success <==> Succeeds(Afters(start, calls[..k], msr), calls[k], msr)
        invariant sampled <= old(sampled) + i * (2 * TIMEOUT + 4)
      {
        assert calls[i] in calls;
        AftersStep(start, calls, i, msr);
        var status := Perform(calls[i], Afters(start, calls[..i], msr), old(MCR), old(BTR));
        results := results + [status];
      }
      assert calls[..|calls|] == calls;
    }

    lemma StartShows()
      ensures Shows(Control(Requests(MCR), sampled, None), MCR, BTR)
    {
    }

    lemma LastWritten()
      requires Valid() && written != []
      ensures Exclusive(MCR)
    {
      hide Requests;
      assert MCR in written;
    }

    /** Any one call takes the registers from one state of the fold to the next. */
    method Perform(call: Call, ghost s: Control, ghost mcr: bv32, ghost btr: bv32) returns (status: Status)
      requires Valid() && Shows(s, mcr, btr) && (call.Setup? ==> call.init.Legal())
      modifies this
      ensures Valid() && old(written) < written && Exclusive(MCR) && Rest(MCR) == Rest(old(MCR))
      ensures Shows(After(s, call, msr), mcr, btr) && (status == Success <==> Succeeds(s, call, msr))
      ensures sampled <= old(sampled) + 2 * TIMEOUT + 4
    {
      hide Valid, Shows, Exclusive, Requests, Rest, Wait.Met, Init.Legal, After, Succeeds;
      if call.Setup? {
        status := PerformSetup(call, s, mcr, btr);
      } else {
        status := PerformRequest(call, s, mcr, btr);
      }
      LastWritten();
    }

    method PerformSetup(call: Call, ghost s: Control, ghost mcr: bv32, ghost btr: bv32) returns (status: Status)
      requires Valid() && Shows(s, mcr, btr) && call.Setup? && call.init.Legal()
      modifies this
      ensures Valid() && old(written) < written && Rest(MCR) == Rest(old(MCR))
      ensures Shows(After(s, call, msr), mcr, btr) && (status == Success <==> Succeeds(s, call, msr))
      ensures sampled <= old(sampled) + 2 * TIMEOUT + 4
    {
      hide Valid, Requests, Options, Rest, Wait.Met, Polls, TimingIs, OptionsAre, Init.Legal, Without, InInitialization;
      ghost var before := MCR;
      status := CanInit(call.init);
      if s.setup.Some? && Options(MCR) == Options(before) { OptionsAreOptions(before, MCR, s.setup.value); }
    }

    method PerformRequest(call: Call, ghost s: Control, ghost mcr: bv32, ghost btr: bv32) returns (status: Status)
      requires Valid() && Shows(s, mcr, btr) && !call.Setup?
      modifies this
      ensures Valid() && old(written) < written && Rest(MCR) == Rest(old(MCR))
      ensures Shows(After(s, call, msr), mcr, btr) && (status == Success <==> Succeeds(s, call, msr))
      ensures sampled <= old(sampled) + 2 * TIMEOUT + 4
    {
      hide Valid, Requests, Options, Rest, Wait.Met, Polls, TimingIs, OptionsAre, Without, InMode, Asleep;
      ghost var before := MCR;
      match call {
        case Request(mode) => status := OperatingModeRequest(mode);
        case Doze => status := CanSleep();
        case Wake => status := WakeUp();
      }
      if s.setup.Some? { OptionsAreOptions(before, MCR, s.setup.value); }
      SameOptions(before, MCR);
    }

    /** The registers show a state of the fold: what was configured, or else what was there before. */
    ghost predicate Shows(s: Control, mcr: bv32, btr: bv32)
      reads this
    {
      && Requests(MCR) == s.requests && sampled == s.sampled
      && match s.setup
         case None => BTR == btr && Options(MCR) == Options(mcr)
         case Some(c) => TimingIs(BTR, c) && OptionsAre(MCR, c)
    }
  }

  lemma SleepDropped(mcr: bv32) ensures Requests(Without(mcr, SLEEP)) == Without(Requests(mcr), SLEEP) {}
}
