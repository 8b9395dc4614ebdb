/** The external interrupt lines: which of them interrupt, which raise an event, and on which edges. */
module Exti {
  import opened Bits
  import opened BitSets

  datatype Mode = Interrupt | Event
  datatype Trigger = Rising | Falling | RisingFalling

  // The enumeration values are offsets of registers from the base address.
  function ModeOffset(mode: Mode): nat {
    match mode
    case Interrupt => 0x00
    case Event => 0x04
  }

  function TriggerOffset(trigger: Trigger): nat {
    match trigger
    case Rising => 0x08
    case Falling => 0x0C
    case RisingFalling => 0x10
  }

  datatype Call = Call(lines: bv32, mode: Mode, trigger: Trigger, on: bool)

  /** One line, as the four registers show it. */
  datatype Line = Line(interrupt: bool, event: bool, rising: bool, falling: bool) {
    predicate On() { interrupt || event }

    predicate Sound() {
      !(interrupt && event) && (On() ==> rising || falling)
    }
  }

  const RESET: Line := Line(false, false, false, false)

  /** A line that is on in one mode, with the edges of a trigger. */
  function Enabled(mode: Mode, trigger: Trigger): Line {
    Line(mode == Interrupt, mode == Event, trigger != Falling, trigger != Rising)
  }

  /** Rising and falling edges and the two modes, one by one. */
  lemma EnabledSays(mode: Mode, trigger: Trigger)
    ensures Enabled(mode, trigger).interrupt <==> mode == Interrupt
    ensures Enabled(mode, trigger).event <==> mode == Event
    ensures Enabled(mode, trigger).rising <==> trigger == Rising || trigger == RisingFalling
    ensures Enabled(mode, trigger).falling <==> trigger == Falling || trigger == RisingFalling
  {
  }

  /** What a call does to line n. */
  function Step(s: Line, n: bv32, call: Call): Line
    requires n < 32
  {
    if !Has(call.lines, n) then s
    else if call.on then Enabled(call.mode, call.trigger)
    else if call.mode == Interrupt then s.(interrupt := false)
    else s.(event := false)
  }

  /** The step, field by field: in the given mode with the given edges if the call enables the line, off in the given
      mode if it disables it, and as before if it does not name it. */
  function After(s: Line, named: bool, call: Call): Line {
    if !named then s
    else if call.on then
      Line(call.mode == Interrupt, call.mode == Event,
           call.trigger == Rising || call.trigger == RisingFalling,
           call.trigger == Falling || call.trigger == RisingFalling)
    else
      Line(s.interrupt && call.mode != Interrupt, s.event && call.mode != Event, s.rising, s.falling)
  }

  function Steps(s: Line, n: bv32, calls: seq<Call>): Line
    requires n < 32
  {
    if calls == [] then s else Step(Steps(s, n, calls[..|calls| - 1]), n, calls[|calls| - 1])
  }

  /** What the four registers say about a line. */
  datatype Registers = Registers(imr: bv32, emr: bv32, rtsr: bv32, ftsr: bv32) {
    function Show(n: bv32): Line
      requires n < 32
    {
      Line(Has(imr, n), Has(emr, n), Has(rtsr, n), Has(ftsr, n))
    }

    /** The same by bit positions. */
    function Told(n: bv32): Line
      requires n < 32
    {
      Line(InMask(imr, n), InMask(emr, n), InMask(rtsr, n), InMask(ftsr, n))
    }

    /** The given lines take the given state. */
    function Enabling(lines: bv32, line: Line): Registers {
      Registers(Written(imr, lines, line.interrupt), Written(emr, lines, line.event),
                Written(rtsr, lines, line.rising), Written(ftsr, lines, line.falling))
    }

    function Disabling(lines: bv32, mode: Mode): Registers {
      Registers(Dropped(imr, lines, mode == Interrupt), Dropped(emr, lines, mode == Event), rtsr, ftsr)
    }
  }

  lemma StepIsAfter(r: Registers, r': Registers, n: bv32, call: Call)
    requires n < 32 && r'.Show(n) == Step(r.Show(n), n, call)
    ensures r'.Told(n) == After(r.Told(n), InMask(call.lines, n), call)
  {
    hide Has, InMask;
    HasIsInMask(call.lines, n);
    ShowIsTold(r, n);
    ShowIsTold(r', n);
    EnabledSays(call.mode, call.trigger);
  }

  lemma ShowIsTold(r: Registers, n: bv32)
    requires n < 32
    ensures r.Show(n) == r.Told(n)
  {
    hide Has, InMask;
    HasIsInMask(r.imr, n);
    HasIsInMask(r.emr, n);
    HasIsInMask(r.rtsr, n);
    HasIsInMask(r.ftsr, n);
  }

  const LINES: bv32 := 0x000F_FFFF

  lemma LinesAreTwenty(n: bv32) requires n < 32 ensures Has(LINES, n) == (n < 20) {}

  class ExtiPort {
    var IMR: bv32
    var EMR: bv32
    var RTSR: bv32
    var FTSR: bv32
    var PR: bv32  // pending lines

    function State(n: bv32): Line
      requires n < 32
      reads this`IMR, this`EMR, this`RTSR, this`FTSR
    {
      Registers(IMR, EMR, RTSR, FTSR).Show(n)
    }

    /** `|=` through an address: only the four registers the driver may write are within reach. */
    method SetAt(offset: nat, lines: bv32)
      requires offset in {0x00, 0x04, 0x08, 0x0C}
      modifies this`IMR, this`EMR, this`RTSR, this`FTSR
      ensures IMR == if offset == 0x00 then Or(old(IMR), lines) else old(IMR)
      ensures EMR == if offset == 0x04 then Or(old(EMR), lines) else old(EMR)
      ensures RTSR == if offset == 0x08 then Or(old(RTSR), lines) else old(RTSR)
      ensures FTSR == if offset == 0x0C then Or(old(FTSR), lines) else old(FTSR)
    {
      hide Or;
      if offset == 0x00 { IMR := Or(IMR, lines); }
      if offset == 0x04 { EMR := Or(EMR, lines); }
      if offset == 0x08 { RTSR := Or(RTSR, lines); }
      if offset == 0x0C { FTSR := Or(FTSR, lines); }
    }

    /** `&= ~` through an address. */
    method ClearAt(offset: nat, lines: bv32)
      requires offset in {0x00, 0x04}
      modifies this`IMR, this`EMR
      ensures IMR == if offset == 0x00 then Without(old(IMR), lines) else old(IMR)
      ensures EMR == if offset == 0x04 then Without(old(EMR), lines) else old(EMR)
    {
      hide Without;
      if offset == 0x00 { IMR := Without(IMR, lines); }
      if offset == 0x04 { EMR := Without(EMR, lines); }
    }

    /** EXTI_DeInit: every line is off, and none of the twenty lines is pending. PR clears what is written as one. */
    method DeInit()
      modifies this
      ensures forall n: bv32 | n < 32 :: State(n) == RESET
      ensures forall n: bv32 | n < 32 :: Has(PR, n) == (n >= 20 && Has(old(PR), n))
    {
      hide Has, Without;
      forall n: bv32 | n < 32 ensures Has(Without(PR, LINES), n) == (n >= 20 && Has(PR, n)) {
        HasWithout(PR, LINES, n);
        LinesAreTwenty(n);
      }
      IMR, EMR, RTSR, FTSR := 0, 0, 0, 0;
      PR := Without(PR, LINES);
      forall n: bv32 | n < 32 ensures State(n) == RESET { HasZero(n); }
    }

    /** EXTI_Init: every line takes the step of the call, the lines it does not name included. The second clause says it
        by bit positions. */
    method Init(call: Call)
      modifies this`IMR, this`EMR, this`RTSR, this`FTSR
      ensures forall n: bv32 | n < 32 :: State(n) == Step(old(State(n)), n, call)
      ensures forall n: bv32 | n < 32 ::
        Registers(IMR, EMR, RTSR, FTSR).Told(n)
        == After(old(Registers(IMR, EMR, RTSR, FTSR).Told(n)), InMask(call.lines, n), call)
    {
      hide Has, InMask, Step, After, Registers.Told, Registers.Show;
      ghost var was := Registers(IMR, EMR, RTSR, FTSR);
      Configure(call);
      forall n: bv32 | n < 32
        ensures Registers(IMR, EMR, RTSR, FTSR).Told(n) == After(was.Told(n), InMask(call.lines, n), call)
      {
        assert State(n) == Step(old(State(n)), n, call);
        StepIsAfter(was, Registers(IMR, EMR, RTSR, FTSR), n, call);
      }
    }

    /** The body of EXTI_Init. */
    method Configure(call: Call)
      modifies this`IMR, this`EMR, this`RTSR, this`FTSR
      ensures forall n: bv32 | n < 32 :: State(n) == Step(old(State(n)), n, call)
      ensures !call.on ==> RTSR == old(RTSR) && FTSR == old(FTSR)
    {
      hide Has, Written, Without, Step;
      ghost var was := Registers(IMR, EMR, RTSR, FTSR);
      if call.on {
        Enable(call.lines, call.mode, call.trigger);
        forall n: bv32 | n < 32 ensures State(n) == Step(old(State(n)), n, call) { EnableStep(was, n, call); }
      } else {
        ClearAt(ModeOffset(call.mode), call.lines);
        forall n: bv32 | n < 32 ensures State(n) == Step(old(State(n)), n, call) { DisableStep(was, n, call); }
      }
    }

    /** The enabling branch of EXTI_Init. */
    method Enable(lines: bv32, mode: Mode, trigger: Trigger)
      modifies this`IMR, this`EMR, this`RTSR, this`FTSR
      ensures IMR == Written(old(IMR), lines, mode == Interrupt)
      ensures EMR == Written(old(EMR), lines, mode == Event)
      ensures RTSR == Written(old(RTSR), lines, trigger != Falling)
      ensures FTSR == Written(old(FTSR), lines, trigger != Rising)
    {
      hide Or, Without;
      IMR := Without(IMR, lines);
      EMR := Without(EMR, lines);
      SetAt(ModeOffset(mode), lines);
      SelectEdges(lines, trigger);
    }

    /** Its last step: the edges. */
    method SelectEdges(lines: bv32, trigger: Trigger)
      modifies this`IMR, this`EMR, this`RTSR, this`FTSR
      ensures IMR == old(IMR) && EMR == old(EMR)
      ensures RTSR == Written(old(RTSR), lines, trigger != Falling)
      ensures FTSR == Written(old(FTSR), lines, trigger != Rising)
    {
      hide Or, Without;
      RTSR := Without(RTSR, lines);
      FTSR := Without(FTSR, lines);
      if trigger == RisingFalling {
        RTSR := Or(RTSR, lines);
        FTSR := Or(FTSR, lines);
      } else {
        SetAt(TriggerOffset(trigger), lines);
      }
    }

    /** Any number of calls: each line holds the fold of the steps that name it. */
    method Replay(calls: seq<Call>)
      modifies this`IMR, this`EMR, this`RTSR, this`FTSR
      ensures forall n: bv32 | n < 32 :: State(n) == Steps(old(State(n)), n, calls)
    {
      hide Has, Step;
      for i := 0 to |calls|
        invariant forall n: bv32 | n < 32 :: State(n) == Steps(old(State(n)), n, calls[..i])
      {
        assert calls[..i + 1][..i] == calls[..i];
        Init(calls[i]);
      }
      assert calls[..|calls|] == calls;
    }

    /** From EXTI_DeInit on, whatever the calls: no line is both interrupt and event, and every line that is on has an
        edge. */
    method ReplayFromReset(calls: seq<Call>)
      modifies this
      ensures forall n: bv32 | n < 32 :: State(n) == Steps(RESET, n, calls) && State(n).Sound()
    {
      hide Has, Step;
      DeInit();
      Replay(calls);
      forall n: bv32 | n < 32 ensures Steps(RESET, n, calls).Sound() { StepsSound(RESET, n, calls); }
    }
  }

  function Dropped(r: bv32, lines: bv32, drop: bool): bv32 { if drop then Without(r, lines) else r }

  lemma DroppedLine(r: bv32, lines: bv32, drop: bool, n: bv32)
    requires n < 32
    ensures Has(Dropped(r, lines, drop), n) == (Has(r, n) && !(drop && Has(lines, n)))
  {
    hide Has, Without;
    HasWithout(r, lines, n);
  }

  /** A register whose given lines are made all one, or all zero. */
  function Written(r: bv32, lines: bv32, one: bool): bv32 {
    if one then Or(Without(r, lines), lines) else Without(r, lines)
  }

  lemma WrittenLine(r: bv32, lines: bv32, one: bool, n: bv32)
    requires n < 32
    ensures Has(Written(r, lines, one), n) == if Has(lines, n) then one else Has(r, n)
  {
    hide Has, Or, Without;
    HasWithout(r, lines, n);
    HasOr(Without(r, lines), lines, n);
  }

  lemma EnableStep(r: Registers, n: bv32, call: Call)
    requires n < 32 && call.on
    ensures r.Enabling(call.lines, Enabled(call.mode, call.trigger)).Show(n) == Step(r.Show(n), n, call)
  {
    hide Has, Written;
    WrittenLine(r.imr, call.lines, call.mode == Interrupt, n);
    WrittenLine(r.emr, call.lines, call.mode == Event, n);
    WrittenLine(r.rtsr, call.lines, call.trigger != Falling, n);
    WrittenLine(r.ftsr, call.lines, call.trigger != Rising, n);
  }

  lemma DisableStep(r: Registers, n: bv32, call: Call)
    requires n < 32 && !call.on
    ensures r.Disabling(call.lines, call.mode).Show(n) == Step(r.Show(n), n, call)
  {
    hide Has, Dropped;
    DroppedLine(r.imr, call.lines, call.mode == Interrupt, n);
    DroppedLine(r.emr, call.lines, call.mode == Event, n);
  }

  /** The last call that enables a line decides its edges; it is on in the mode of that call unless a later call that
      names it disables that mode. */
  lemma {:induction false} LastEnableDecides(s: Line, n: bv32, calls: seq<Call>, i: nat)
    requires n < 32 && i < |calls| && calls[i].on && Has(calls[i].lines, n)
    requires forall j | i < j < |calls| :: Has(calls[j].lines, n) ==> !calls[j].on
    ensures var last := Steps(s, n, calls);
      var kept := forall j | i < j < |calls| && Has(calls[j].lines, n) :: calls[j].mode != calls[i].mode;
      && (last.rising <==> calls[i].trigger == Rising || calls[i].trigger == RisingFalling)
      && (last.falling <==> calls[i].trigger == Falling || calls[i].trigger == RisingFalling)
      && (last.interrupt <==> calls[i].mode == Interrupt && kept)
      && (last.event <==> calls[i].mode == Event && kept)
  {
    hide Has;
    if i == |calls| - 1 {
    } else {
      LastEnableDecides(s, n, calls[..|calls| - 1], i);
    }
  }

  /** A line no call enables keeps its edges and is not switched on. */
  lemma {:induction false} NeverEnabled(s: Line, n: bv32, calls: seq<Call>)
    requires n < 32 && forall j | 0 <= j < |calls| && Has(calls[j].lines, n) :: !calls[j].on
    ensures var last := Steps(s, n, calls);
      && last.rising == s.rising && last.falling == s.falling
      && (last.interrupt ==> s.interrupt) && (last.event ==> s.event)
  {
    hide Has;
    if calls == [] {
    } else {
      NeverEnabled(s, n, calls[..|calls| - 1]);
    }
  }

  /** Call number i switches line n on, and no later call switches it over or off. */
  predicate Holds(calls: seq<Call>, i: nat, n: bv32)
    requires i < |calls| && n < 32
  {
    && calls[i].on && Has(calls[i].lines, n)
    && forall j | i < j < |calls| && Has(calls[j].lines, n) :: !calls[j].on && calls[j].mode != calls[i].mode
  }

  /** After any calls from reset a line is on exactly if some call enabled it and no later one disabled it in that same
      mode; disabling it in the other mode has no effect. */
  lemma OnExactly(n: bv32, calls: seq<Call>)
    requires n < 32
    ensures Steps(RESET, n, calls).On() <==> exists i: nat | i < |calls| :: Holds(calls, i, n)
  {
    hide Has;
    if i: nat :| i < |calls| && Holds(calls, i, n) {
      LastEnableDecides(RESET, n, calls, i);
    } else {
      NotHeld(n, calls);
    }
  }

  lemma NotHeld(n: bv32, calls: seq<Call>)
    requires n < 32 && forall i: nat | i < |calls| :: !Holds(calls, i, n)
    ensures !Steps(RESET, n, calls).On()
  {
    hide Has;
    var i := LastEnable(calls, n);
    if i < 0 {
      NeverEnabled(RESET, n, calls);
    } else {
      assert !Holds(calls, i, n);
      LastEnableDecides(RESET, n, calls, i);
    }
  }

  /** The last call that enables a line, or -1. */
  function LastEnable(calls: seq<Call>, n: bv32): (i: int)
    requires n < 32
    ensures -1 <= i < |calls|
    ensures i >= 0 ==> calls[i].on && Has(calls[i].lines, n)
    ensures forall j | i < j < |calls| :: Has(calls[j].lines, n) ==> !calls[j].on
  {
    if calls == [] then -1
    else
      var k := |calls| - 1;
      if calls[k].on && Has(calls[k].lines, n) then k else LastEnable(calls[..k], n)
  }

  lemma StepSound(s: Line, n: bv32, call: Call)
    requires n < 32 && s.Sound()
    ensures Step(s, n, call).Sound()
  {
    hide Has;
  }

  lemma {:induction false} StepsSound(s: Line, n: bv32, calls: seq<Call>)
    requires n < 32 && s.Sound()
    ensures Steps(s, n, calls).Sound()
  {
    hide Has, Step;
    if calls == [] {
    } else {
      var rest := calls[..|calls| - 1];
      StepsSound(s, n, rest);
      StepSound(Steps(s, n, rest), n, calls[|calls| - 1]);
    }
  }
}
