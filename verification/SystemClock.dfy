/** The boot clock: SystemInit brings the core to 72 MHz, and SystemCoreClockUpdate says what the core runs at.

    Before every access to RCC and FLASH registers the hardware has its moment, in which SWS may follow SW. */
module SystemClock {
  import opened Bits
  import opened Polling
  import opened ClockTree
  import opened ClockWatch

  const HSE_STARTUP_TIMEOUT: nat := 0x500

  // RCC_CR
  const HSION: bv32 := 0x0000_0001
  const HSEON: bv32 := 0x0001_0000
  const HSERDY: bv32 := 0x0002_0000
  const HSEBYP: bv32 := 0x0004_0000
  const PLLON: bv32 := 0x0100_0000
  const HSE_CSS_PLL_ON: bv32 := 0x0109_0000

  // FLASH_ACR
  const LATENCY: bv32 := 0x03
  const LATENCY_2: bv32 := 0x02
  const PRFTBE: bv32 := 0x10

  const HSE_READY: Wait := Wait(HSERDY, 0, false)

  /** How many reads of CR it takes to decide on HSE: those of the counted loop and one more. */
  ghost function HseReads(cr: nat -> bv32, at: nat): (n: nat)
    ensures 2 <= n <= HSE_STARTUP_TIMEOUT + 1
  {
    Polls(cr, HSE_READY, at, HSE_STARTUP_TIMEOUT - 1) + 1
  }

  /** HSE counts as found if the read of CR after the counted loop shows it ready. */
  ghost predicate HseFound(cr: nat -> bv32, at: nat) { Acknowledged(cr, HSE_READY, at, HSE_STARTUP_TIMEOUT - 1) }

  /** HSERDY, bit 17 of CR. */
  predicate HseIsUp(cr: bv32) { cr & 0x0002_0000 != 0 }

  /** An oscillator that comes up and stays up is found exactly if it is ready by read number 0x500. */
  lemma SteadyHse(cr: nat -> bv32, at: nat, k: nat)
    requires forall i: nat | at <= i < at + k :: !HseIsUp(cr(i))
    requires forall i: nat | at + k <= i :: HseIsUp(cr(i))
    ensures HseFound(cr, at) <==> k <= 0x500
  {
    hide Wait.Met, Polls, HseIsUp;
    forall i: nat ensures HSE_READY.Met(cr(i)) == HseIsUp(cr(i)) { FlagsInNumbers(cr(i)); }
    CleanAcknowledge(cr, HSE_READY, at, HSE_STARTUP_TIMEOUT - 1, k);
  }

  lemma PollsStep(r: nat -> bv32, w: Wait, at: nat, left: nat)
    ensures Polls(r, w, at, left) == if w.Met(r(at)) || left == 0 then 1 else 1 + Polls(r, w, at + 1, left - 1)
  {
    hide Wait.Met;
  }

  /** The ready flags are bits 17 and 25 of CR. */
  lemma FlagsInNumbers(v: bv32)
    ensures HSE_READY.Met(v) == HseIsUp(v)
    ensures PLL_READY.Met(v) == (v & 0x0200_0000 != 0)
  {
  }

  /** What is written to ACR: prefetch in bit 4, two wait states in bits 1:0. */
  lemma FlashInNumbers(acr: bv32)
    ensures Or(Without(Or(acr, PRFTBE), LATENCY), LATENCY_2) == (acr & 0xFFFF_FFFC) | 0x12
  {
  }

  lemma LatencySet(acr: bv32) ensures Part(Or(Without(acr, LATENCY), LATENCY_2), LATENCY) == LATENCY_2 {}

  lemma SteadyPllOn() ensures Disjoint(HSION, PLLON) && Disjoint(HSEON, PLLON) && Disjoint(HSEBYP, PLLON) {}

  lemma PllOnIsABit() ensures PLLON != 0 {}

  lemma PllOff(cr: bv32) ensures Part(Without(cr, HSE_CSS_PLL_ON), PLLON) == 0 {}

  lemma SwitchesWithoutPll(cr: bv32)
    ensures Part(Or(Without(Without(Or(cr, HSION), HSE_CSS_PLL_ON), HSEBYP), HSEON), 0x010D_0001) == 0x0001_0001
  {
  }

  lemma SwitchesWithPll(cr: bv32)
    ensures Part(Or(Or(Without(Without(Or(cr, HSION), HSE_CSS_PLL_ON), HSEBYP), HSEON), PLLON), 0x010D_0001)
         == 0x0101_0001
  {
  }

  lemma PrefetchApart() ensures Disjoint(PRFTBE, LATENCY) {}

  lemma NoWaitStates() ensures LATENCY_2 != 0 {}

  class Rcc {
    var CR: bv32                  // the bits software writes
    var CFGR: bv32
    var CIR: bv32
    var ACR: bv32
    var SystemCoreClock: nat
    const cr: nat -> bv32         // what each read of the ready flags in CR returns
    const follows: nat -> bool    // whether SWS follows SW in each of the hardware's moments
    var sampled: nat              // how many reads of the flags were made
    var now: nat                  // how many moments there were
    ghost var locked: bool        // since the PLL was last switched on it was read to be ready
    ghost var faults: Faults      // whether the core ever went over to, or was on, a PLL that was not fit

    constructor (cfgr: bv32, cr: nat -> bv32, follows: nat -> bool)
      ensures CFGR == cfgr && this.cr == cr && this.follows == follows && sampled == 0 && now == 0
      ensures !locked && faults == Faults(false, false)
    {
      CR, CFGR, CIR, ACR, SystemCoreClock := 0x83, cfgr, 0, 0x30, 72_000_000;
      this.cr, this.follows, sampled, now, locked, faults := cr, follows, 0, 0, false, Faults(false, false);
    }

    function State(): Fields
      reads this`CFGR
    {
      Decode(CFGR)
    }

    ghost predicate TwoWaits()
      reads this`ACR
    {
      Part(ACR, LATENCY) == LATENCY_2
    }

    ghost predicate PllIsOn()
      reads this`CR
    {
      Part(CR, PLLON) != 0
    }

    /** What the fitness of the PLL depends on. */
    ghost function Entrance(): Entry
      reads this`locked, this`CR, this`ACR
    {
      Entry(locked, PllIsOn(), TwoWaits())
    }

    /** The PLL may drive the core. */
    ghost predicate Fit()
      reads this`locked, this`ACR
    {
      locked && TwoWaits()
    }

    /** A PLL that is off is not locked. */
    ghost predicate Valid()
      reads this`locked, this`CR
    {
      locked ==> PllIsOn()
    }

    ghost function Seen(): Watch
      reads this`CFGR, this`faults
    {
      Watch(State().sw == SW_PLL, State().sws == SWS_PLL, faults.early, faults.unfit)
    }

    /** The waits without a limit end: if HSE is found, some read after that shows the PLL locked, and some moment
        after the PLL has been selected makes SWS follow. */
    ghost predicate Settles(start: nat, lockedAt: nat, followedAt: nat)
      reads this`sampled
    {
      HseFound(cr, sampled) ==>
        var n := HseReads(cr, sampled);
        && lockedAt >= sampled + n && PLL_READY.Met(cr(lockedAt))
        && followedAt >= start + 24 + n + (lockedAt + 1 - (sampled + n)) && follows(followedAt)
    }

    /** The hardware's moment. */
    method Moment()
      modifies this`CFGR, this`now, this`faults
      ensures now == old(now) + 1 && State() == Moved(old(State()), follows(old(now))) && Kept(old(State()), State())
      ensures Seen() == Tick(old(Seen()), follows(old(now)), Fit())
    {
      hide Part, Followed, Asked, TwoWaits, PllIsOn;
      ghost var was := Seen();
      if follows(now) {
        AskedForPll();
        AskedOnlyForPll(CFGR);
        FollowedFields(CFGR);
        CFGR := Followed(CFGR);
      }
      ghost var after := Tick(was, follows(now), Fit());
      faults := Faults(after.early, after.unfit);
      now := now + 1;
    }

    method ReadCFGR() returns (v: bv32)
      modifies this`CFGR, this`now, this`faults
      ensures v == CFGR && now == old(now) + 1
      ensures State() == Moved(old(State()), follows(old(now))) && Kept(old(State()), State())
      ensures Seen() == Tick(old(Seen()), follows(old(now)), Fit())
    {
      hide Part, Asked, Tick, TwoWaits, PllIsOn;
      Moment();
      v := CFGR;
    }

    /** SWS is read-only: whatever is written there, it stays. */
    method WriteCFGR(v: bv32)
      modifies this`CFGR, this`now, this`faults
      ensures now == old(now) + 1
      ensures State() == Decode(v).(sws := Moved(old(State()), follows(old(now))).sws)
      ensures Seen() == Tick(old(Seen()), follows(old(now)), Fit()).(asks := Decode(v).sw == SW_PLL)
    {
      hide Part, Asked, Stored, Tick, TwoWaits, PllIsOn;
      Moment();
      StoredFields(v, CFGR);
      CFGR := Stored(v, CFGR);
    }

    /** A read-modify-write of CR: `|= on`. */
    method OrCR(on: bv32)
      modifies this`CR, this`CFGR, this`now, this`faults, this`locked
      ensures CR == Or(old(CR), on) && now == old(now) + 2 && Kept(old(State()), State())
      ensures Seen() == Ticks(old(Seen()), follows, old(now), 2, old(Fit()))
      ensures locked == (old(locked) && PllIsOn())
    {
      hide Part, Or, Asked, Decode, Tick, Ticks, Seen, Kept, State, TwoWaits;
      Twice(Seen(), follows, now, Fit());
      ghost var f := State();
      Moment();
      ghost var g := State();
      var v := CR;
      Moment();
      KeptTwice(f, g, State());
      WriteCR(Or(v, on));
    }

    /** A read-modify-write of CR: `&= ~off`. */
    method ClearCR(off: bv32)
      modifies this`CR, this`CFGR, this`now, this`faults, this`locked
      ensures CR == Without(old(CR), off) && now == old(now) + 2 && Kept(old(State()), State())
      ensures Seen() == Ticks(old(Seen()), follows, old(now), 2, old(Fit()))
      ensures locked == (old(locked) && PllIsOn())
    {
      hide Part, Without, Asked, Decode, Tick, Ticks, Seen, Kept, State, TwoWaits;
      Twice(Seen(), follows, now, Fit());
      ghost var f := State();
      Moment();
      ghost var g := State();
      var v := CR;
      Moment();
      KeptTwice(f, g, State());
      WriteCR(Without(v, off));
    }

    method WriteCR(v: bv32)
      modifies this`CR, this`locked
      ensures CR == v && locked == (old(locked) && Part(v, PLLON) != 0)
    {
      hide Part;
      CR := v;
      locked := locked && Part(v, PLLON) != 0;
    }

    /** A read of the ready flags. */
    method ReadFlags(ghost since: Fields) returns (v: bv32)
      requires Kept(since, State())
      modifies this`CFGR, this`now, this`faults, this`sampled, this`locked
      ensures v == cr(old(sampled)) && sampled == old(sampled) + 1 && now == old(now) + 1 && Kept(since, State())
      ensures Seen() == Tick(old(Seen()), follows(old(now)), old(Fit()))
      ensures locked == (old(locked) || (PllIsOn() && PLL_READY.Met(v)))
    {
      hide Part, Asked, Decode, Wait.Met, Tick, Seen, Kept, State, TwoWaits, PllIsOn;
      ghost var f := State();
      Moment();
      KeptTwice(since, f, State());
      v := cr(sampled);
      sampled := sampled + 1;
      locked := locked || (PllIsOn() && PLL_READY.Met(v));
    }

    method OrACR(on: bv32)
      modifies this`ACR, this`CFGR, this`now, this`faults
      ensures ACR == Or(old(ACR), on) && now == old(now) + 2 && Kept(old(State()), State())
      ensures Seen() == Ticks(old(Seen()), follows, old(now), 2, old(Fit()))
    {
      hide Part, Or, Asked, Decode, Tick, Ticks, Seen, Kept, State, PllIsOn;
      Twice(Seen(), follows, now, Fit());
      ghost var f := State();
      Moment();
      ghost var g := State();
      var v := ACR;
      Moment();
      KeptTwice(f, g, State());
      ACR := Or(v, on);
    }

    method ClearACR(off: bv32)
      modifies this`ACR, this`CFGR, this`now, this`faults
      ensures ACR == Without(old(ACR), off) && now == old(now) + 2 && Kept(old(State()), State())
      ensures Seen() == Ticks(old(Seen()), follows, old(now), 2, old(Fit()))
    {
      hide Part, Without, Asked, Decode, Tick, Ticks, Seen, Kept, State, PllIsOn;
      Twice(Seen(), follows, now, Fit());
      ghost var f := State();
      Moment();
      ghost var g := State();
      var v := ACR;
      Moment();
      KeptTwice(f, g, State());
      ACR := Without(v, off);
    }

    /** The counted wait for HSE. */
    method PollHse()
      modifies this`CFGR, this`now, this`faults, this`sampled, this`locked
      ensures sampled == old(sampled) + Polls(cr, HSE_READY, old(sampled), HSE_STARTUP_TIMEOUT - 1)
      ensures now - old(now) == sampled - old(sampled) && Kept(old(State()), State())
      ensures var n := sampled - old(sampled);
        && Seen() == Polled(old(Seen()), old(Entrance()), follows, old(now), cr, old(sampled), n)
        && locked == old(Entrance()).LockedAfter(cr, old(sampled), n)
    {
      hide Part, Asked, Decode, Wait.Met, Polls, Tick, Polled, Entry.LockedAfter, Seen, Kept, State, TwoWaits, PllIsOn;
      ghost var at, f, w, e, start := sampled, State(), Seen(), Entrance(), now;
      KeptSelf(f);
      ghost var all := Polls(cr, HSE_READY, at, HSE_STARTUP_TIMEOUT - 1);
      PolledStart(w, e, follows, start, cr, at);
      PolledStep(w, e, follows, start, cr, at, 0);
      var startUpCounter := 1;
      var v := ReadFlags(f);
      while !HSE_READY.Met(v) && startUpCounter != HSE_STARTUP_TIMEOUT
        invariant 1 <= startUpCounter <= HSE_STARTUP_TIMEOUT && sampled == at + startUpCounter && v == cr(sampled - 1)
        invariant all == startUpCounter - 1 + Polls(cr, HSE_READY, sampled - 1, HSE_STARTUP_TIMEOUT - startUpCounter)
        invariant now == start + startUpCounter && Kept(f, State())
        invariant Seen() == Polled(w, e, follows, start, cr, at, startUpCounter)
        invariant locked == e.LockedAfter(cr, at, startUpCounter)
      {
        PollsStep(cr, HSE_READY, sampled - 1, HSE_STARTUP_TIMEOUT - startUpCounter);
        PolledStep(w, e, follows, start, cr, at, startUpCounter);
        v := ReadFlags(f);
        startUpCounter := startUpCounter + 1;
      }
      PollsStep(cr, HSE_READY, sampled - 1, HSE_STARTUP_TIMEOUT - startUpCounter);
    }

    /** The counted wait, and the read after it that decides. */
    method WaitForHse() returns (hseStatus: bool)
      modifies this`CFGR, this`now, this`faults, this`sampled, this`locked
      ensures hseStatus == HseFound(cr, old(sampled))
      ensures sampled == old(sampled) + HseReads(cr, old(sampled)) && now == old(now) + HseReads(cr, old(sampled))
      ensures Kept(old(State()), State())
      ensures var n := HseReads(cr, old(sampled));
        && Seen() == Polled(old(Seen()), old(Entrance()), follows, old(now), cr, old(sampled), n)
        && locked == old(Entrance()).LockedAfter(cr, old(sampled), n)
    {
      hide Part, Asked, Decode, Wait.Met, Polls, Tick, Polled, Entry.LockedAfter, Seen, Kept, State, TwoWaits, PllIsOn;
      ghost var at, f, w, e, start := sampled, State(), Seen(), Entrance(), now;
      KeptSelf(f);
      PollHse();
      PolledStep(w, e, follows, start, cr, at, sampled - at);
      var v := ReadFlags(f);
      hseStatus := HSE_READY.Met(v);
    }

    /** The wait for the PLL has no limit: it ends at the first read that shows the PLL locked, and needs no later
        one. */
    method WaitForPll(ghost lockedAt: nat)
      requires PllIsOn() && lockedAt >= sampled && PLL_READY.Met(cr(lockedAt))
      modifies this`CFGR, this`now, this`faults, this`sampled, this`locked
      ensures old(sampled) < sampled <= lockedAt + 1 && now - old(now) == sampled - old(sampled)
      ensures PLL_READY.Met(cr(sampled - 1)) && forall i: nat | old(sampled) <= i < sampled - 1 :: !PLL_READY.Met(cr(i))
      ensures Kept(old(State()), State()) && locked
      ensures Seen() == Ticks(old(Seen()), follows, old(now), now - old(now), old(Fit()))
    {
      hide Part, Asked, Decode, Wait.Met, Tick, Ticks, Seen, Kept, State, TwoWaits, PllIsOn;
      ghost var f, w, start, fit := State(), Seen(), now, Fit();
      KeptSelf(f);
      NoTicks(w, follows, start, fit);
      OneMoreTick(w, follows, start, 0, fit);
      var v := ReadFlags(f);
      while !PLL_READY.Met(v)
        invariant old(sampled) < sampled <= lockedAt + 1 && now - start == sampled - old(sampled)
        invariant v == cr(sampled - 1) && forall i: nat | old(sampled) <= i < sampled - 1 :: !PLL_READY.Met(cr(i))
        invariant Kept(f, State()) && (if PLL_READY.Met(v) then locked else locked == old(locked))
        invariant Seen() == Ticks(w, follows, start, now - start, fit)
        decreases lockedAt + 1 - sampled
      {
        OneMoreTick(w, follows, start, now - start, fit);
        v := ReadFlags(f);
      }
    }

    /** Prefetch on, two wait states; in between there are none. */
    method SetFlash()
      modifies this`ACR, this`CFGR, this`now, this`faults
      ensures ACR == Or(Without(Or(old(ACR), PRFTBE), LATENCY), LATENCY_2) && TwoWaits()
      ensures now == old(now) + 6 && Kept(old(State()), State())
      ensures Seen() == Ticks(Ticks(old(Seen()), follows, old(now), 4, old(Fit())), follows, old(now) + 4, 2, false)
    {
      hide Part, Or, Without, Asked, Decode, Ticks, Seen, Kept, State;
      LatencySet(Or(ACR, PRFTBE));
      PrefetchApart();
      OrDisjoint(ACR, PRFTBE, LATENCY);
      PartOfRemoved(Or(ACR, PRFTBE), LATENCY);
      NoWaitStates();
      TicksAdd(Seen(), follows, now, 2, 2, Fit());
      OrACR(PRFTBE);
      ghost var f := State();
      ClearACR(LATENCY);
      ghost var g := State();
      KeptTwice(old(State()), f, g);
      OrACR(LATENCY_2);
      KeptTwice(old(State()), g, State());
    }

    // Writes to CFGR that leave SW alone: two moments each.

    /** `|= 0`: HCLK = SYSCLK, and PCLK2 = HCLK. */
    method OrNothing()
      modifies this`CFGR, this`now, this`faults
      ensures Image(State()) == Image(old(State())) && now == old(now) + 2
      ensures Seen() == Ticks(old(Seen()), follows, old(now), 2, Fit())
    {
      hide Part, Or, Asked, Ticks, Fit;
      Twice(Seen(), follows, now, Fit());
      var v := ReadCFGR();
      OrZero(v);
      WriteCFGR(Or(v, 0));
    }

    /** PCLK1 = HCLK / 2. */
    method OrDivideBy2()
      modifies this`CFGR, this`now, this`faults
      ensures Image(State()) == Image(old(State())).(ppre1 := Or(old(State()).ppre1, PPRE1_DIV2)) && now == old(now) + 2
      ensures Seen() == Ticks(old(Seen()), follows, old(now), 2, Fit())
    {
      hide Part, Or, Asked, Ticks, Fit;
      Twice(Seen(), follows, now, Fit());
      var v := ReadCFGR();
      OrDiv2(v);
      WriteCFGR(Or(v, PPRE1_DIV2));
    }

    method ClearFactors()
      modifies this`CFGR, this`now, this`faults
      ensures Image(State()) == Image(old(State())).(pll := 0) && now == old(now) + 2
      ensures Seen() == Ticks(old(Seen()), follows, old(now), 2, Fit())
    {
      hide Part, Without, Asked, Ticks, Fit;
      Twice(Seen(), follows, now, Fit());
      var v := ReadCFGR();
      ClearPll(v);
      WriteCFGR(Without(v, PLL));
    }

    /** PLLCLK = HSE * 9. */
    method OrFactors()
      requires State().pll == 0
      modifies this`CFGR, this`now, this`faults
      ensures Image(State()) == Image(old(State())).(pll := HSE_TIMES_9) && now == old(now) + 2
      ensures Seen() == Ticks(old(Seen()), follows, old(now), 2, Fit())
    {
      hide Part, Or, Asked, Ticks, Fit;
      Twice(Seen(), follows, now, Fit());
      var v := ReadCFGR();
      OrTimes9(v);
      WriteCFGR(Or(v, HSE_TIMES_9));
    }

    method SetPrescalersAndPll()
      modifies this`CFGR, this`now, this`faults
      ensures Image(State())
           == Image(old(State())).(ppre1 := Or(old(State()).ppre1, PPRE1_DIV2), pll := HSE_TIMES_9)
      ensures now == old(now) + 10
      ensures Seen() == Ticks(old(Seen()), follows, old(now), 10, Fit())
    {
      hide Part, Or, Asked, Decode, Ticks, Fit, Seen, TwoWaits, PllIsOn;
      ghost var w, start := Seen(), now;
      OrNothing();
      OrNothing();
      TicksAdd(w, follows, start, 2, 2, Fit());
      OrDivideBy2();
      TicksAdd(w, follows, start, 4, 2, Fit());
      ClearFactors();
      TicksAdd(w, follows, start, 6, 2, Fit());
      OrFactors();
      TicksAdd(w, follows, start, 8, 2, Fit());
    }

    /** Flash, prescalers and PLL, before the PLL is waited for. */
    method StartPll()
      requires Valid()
      modifies this`CR, this`CFGR, this`ACR, this`now, this`faults, this`locked
      ensures ACR == Or(Without(Or(old(ACR), PRFTBE), LATENCY), LATENCY_2) && TwoWaits()
      ensures CR == Or(old(CR), PLLON) && PllIsOn() && locked == old(locked) && now == old(now) + 18
      ensures Image(State())
           == Image(old(State())).(ppre1 := Or(old(State()).ppre1, PPRE1_DIV2), pll := HSE_TIMES_9)
      ensures var before := Ticks(old(Seen()), follows, old(now), 4, old(Fit()));
        Seen() == Ticks(Ticks(before, follows, old(now) + 4, 2, false), follows, old(now) + 6, 12, locked)
    {
      hide Part, Or, Without, Asked, Decode, Ticks, Seen, Kept, State;
      SetFlash();
      KeptImage(old(State()), State());
      ghost var w, start := Seen(), now;
      SetPrescalersAndPll();
      ghost var g := State();
      PartOfOwn(CR, PLLON);
      PllOnIsABit();
      OrCR(PLLON);
      KeptImage(g, State());
      TicksAdd(w, follows, start, 10, 2, locked);
    }

    /** The switch to the PLL, and the wait until it has happened. */
    method SelectPll(ghost followedAt: nat)
      requires Fit() && followedAt >= now + 4 && follows(followedAt)
      modifies this`CFGR, this`now, this`faults
      ensures State() == old(State()).(sw := SW_PLL, sws := SWS_PLL)
      ensures Seen() == old(Seen()).(asks := true, on := true)
    {
      hide Part, Asked, Decode, TwoWaits, PllIsOn;
      WriteSwitch();
      WaitForSwitch(followedAt);
    }

    method WriteSwitch()
      requires Fit()
      modifies this`CFGR, this`now, this`faults
      ensures Image(State()) == Image(old(State())).(sw := SW_PLL) && now == old(now) + 4
      ensures faults == old(faults)
    {
      hide Part, Asked, Decode, TwoWaits, PllIsOn;
      ClearSwitch();
      OrSwitch();
    }

    method ClearSwitch()
      requires Fit()
      modifies this`CFGR, this`now, this`faults
      ensures Image(State()) == Image(old(State())).(sw := 0) && now == old(now) + 2 && faults == old(faults)
    {
      hide Part, Without, Asked, TwoWaits, PllIsOn;
      var v := ReadCFGR();
      ClearSw(v);
      WriteCFGR(Without(v, SW));
    }

    method OrSwitch()
      requires Fit() && State().sw == 0
      modifies this`CFGR, this`now, this`faults
      ensures Image(State()) == Image(old(State())).(sw := SW_PLL) && now == old(now) + 2 && faults == old(faults)
    {
      hide Part, Or, Asked, TwoWaits, PllIsOn;
      var v := ReadCFGR();
      OrSwPll(v);
      WriteCFGR(Or(v, SW_PLL));
    }

    /** It ends as soon as SWS has followed, at the first moment after the write or at a later one. */
    method WaitForSwitch(ghost followedAt: nat)
      requires Fit() && State().sw == SW_PLL && followedAt >= now && follows(followedAt)
      modifies this`CFGR, this`now, this`faults
      ensures State() == old(State()).(sws := SWS_PLL) && faults == old(faults)
    {
      hide Part, Asked, TwoWaits, PllIsOn;
      AskedForPll();
      var v := ReadCFGR();
      while Part(v, SWS) != SWS_PLL
        invariant v == CFGR && Image(State()) == Image(old(State())) && faults == old(faults)
        invariant now <= followedAt || Part(v, SWS) == SWS_PLL
        decreases followedAt - now
      {
        v := ReadCFGR();
      }
    }

    /** The wait for the PLL, and the switch. */
    method TurnOver(ghost lockedAt: nat, ghost followedAt: nat)
      requires PllIsOn() && TwoWaits()
      requires lockedAt >= sampled && PLL_READY.Met(cr(lockedAt))
      requires followedAt >= now + 4 + (lockedAt + 1 - sampled) && follows(followedAt)
      modifies this`CFGR, this`now, this`faults, this`sampled, this`locked
      ensures old(sampled) < sampled && PLL_READY.Met(cr(sampled - 1))
      ensures forall i: nat | old(sampled) <= i < sampled - 1 :: !PLL_READY.Met(cr(i))
      ensures Image(State()) == Image(old(State())).(sw := SW_PLL) && State().sws == SWS_PLL && Fit()
      ensures var q := sampled - old(sampled);
        Seen() == Ticks(old(Seen()), follows, old(now), q, old(locked)).(asks := true, on := true)
    {
      hide Part, Asked, Decode, Wait.Met, Ticks, Seen, Kept, TwoWaits, PllIsOn;
      WaitForPll(lockedAt);
      KeptImage(old(State()), State());
      SelectPll(followedAt);
    }

    /** The branch of SetSysClockTo72 with HSE found. */
    method RunPll(ghost lockedAt: nat, ghost followedAt: nat)
      requires Valid() && lockedAt >= sampled && PLL_READY.Met(cr(lockedAt))
      requires followedAt >= now + 22 + (lockedAt + 1 - sampled) && follows(followedAt)
      modifies this`CR, this`CFGR, this`ACR, this`now, this`faults, this`sampled, this`locked
      ensures Image(State()) == Image(old(State())).(sw := SW_PLL, pll := HSE_TIMES_9,
                                                     ppre1 := Or(old(State()).ppre1, PPRE1_DIV2))
      ensures State().sws == SWS_PLL && Fit() && CR == Or(old(CR), PLLON) && PllIsOn()
      ensures ACR == Or(Without(Or(old(ACR), PRFTBE), LATENCY), LATENCY_2)
      ensures old(sampled) < sampled && PLL_READY.Met(cr(sampled - 1))
      ensures forall i: nat | old(sampled) <= i < sampled - 1 :: !PLL_READY.Met(cr(i))
      ensures var before := Ticks(old(Seen()), follows, old(now), 4, old(Fit()));
        var bare, q := Ticks(before, follows, old(now) + 4, 2, false), sampled - old(sampled);
        Seen() == Ticks(bare, follows, old(now) + 6, 12 + q, old(locked)).(asks := true, on := true)
    {
      hide Part, Or, Without, Asked, Decode, Wait.Met, Ticks, Seen, State, TwoWaits, PllIsOn;
      ghost var w, start, read := Seen(), now, sampled;
      ghost var bare := Ticks(Ticks(w, follows, start, 4, Fit()), follows, start + 4, 2, false);
      ghost var on := locked;
      StartPll();
      TurnOver(lockedAt, followedAt);
      TicksAdd(bare, follows, start + 6, 12, sampled - read, on);
    }

    /** SetSysClockTo72: if HSE is found, nine times HSE drives the core; if not, the clock is left as it was. What goes
        wrong on the way, SWS following whenever it likes, is exactly what Started and Switched say; QuietEntrance,
        SafeWithHse and SafeWithoutHse say when that is nothing. */
    method SetSysClockTo72(ghost lockedAt: nat, ghost followedAt: nat)
      requires Valid() && Settles(now, lockedAt, followedAt)
      modifies this`CR, this`CFGR, this`ACR, this`now, this`faults, this`sampled, this`locked
      ensures Valid()
      ensures var n := HseReads(cr, old(sampled));
        if HseFound(cr, old(sampled)) then
          && State() == old(State()).(sw := SW_PLL, sws := SWS_PLL, pll := HSE_TIMES_9,
                                      ppre1 := Or(old(State()).ppre1, PPRE1_DIV2))
          && Fit() && CR == Or(Or(old(CR), HSEON), PLLON)
          && ACR == Or(Without(Or(old(ACR), PRFTBE), LATENCY), LATENCY_2)
          && sampled > old(sampled) + n && PLL_READY.Met(cr(sampled - 1))
          && (forall i: nat | old(sampled) + n <= i < sampled - 1 :: !PLL_READY.Met(cr(i)))
          && Seen() == Switched(old(Seen()), old(Entrance()), follows, old(now),
                                cr, old(sampled), n, sampled - old(sampled) - n)
        else
          && Kept(old(State()), State()) && CR == Or(old(CR), HSEON) && ACR == old(ACR) && sampled == old(sampled) + n
          && locked == old(Entrance()).LockedAfter(cr, old(sampled), n)
          && Seen() == Started(old(Seen()), old(Entrance()), follows, old(now), cr, old(sampled), n)
    {
      hide Part, Or, Without, Asked, Decode, HseFound, HseReads, Wait.Met;
      hide Ticks, Polled, Entry.LockedAfter, Seen, Kept, State, TwoWaits;
      SteadyPllOn();
      OrDisjoint(CR, HSEON, PLLON);
      ghost var f := State();
      OrCR(HSEON);
      ghost var g, e := State(), Entrance();
      var hseStatus := WaitForHse();
      LockedNeedsPll(e, cr, old(sampled), sampled - old(sampled));
      KeptTwice(f, g, State());
      if hseStatus {
        KeptImage(f, State());
        RunPll(lockedAt, followedAt);
      }
    }

    /** SystemInit, from whatever the registers hold: the core ends up on the undivided PLL, or asking for undivided
        HSI. What goes wrong on the way is exactly what Booted says; in particular the core goes over too early exactly
        if a switch was pending on an unfit PLL and SWS follows before SW is cleared. */
    method SystemInit(ghost lockedAt: nat, ghost followedAt: nat)
      requires Valid() && Settles(now + 11, lockedAt, followedAt)
      modifies this`CR, this`CFGR, this`CIR, this`ACR, this`now, this`faults, this`sampled, this`locked
      ensures Valid() && CIR == 0x009F_0000
      ensures State().hpre == 0 && State().rest == old(State()).rest
      ensures if HseFound(cr, old(sampled)) then
          && State().sw == SW_PLL && State().sws == SWS_PLL && State().pll == HSE_TIMES_9 && State().ppre1 == PPRE1_DIV2
          && Fit() && Part(CR, 0x010D_0001) == 0x0101_0001
        else
          && State().sw == 0 && State().pll == 0 && State().ppre1 == 0
          && ACR == old(ACR) && !locked && Part(CR, 0x010D_0001) == 0x0001_0001
      ensures sampled >= old(sampled) + HseReads(cr, old(sampled))
      ensures var n := HseReads(cr, old(sampled));
        Seen() == Booted(old(Seen()), old(TwoWaits()), old(Fit()), follows, old(now),
                         cr, old(sampled), n, sampled - old(sampled) - n, HseFound(cr, old(sampled)))
      ensures faults.early
           == (old(faults.early) || (old(Seen()).Pending() && !old(Fit()) && Follows(follows, old(now), 4)))
    {
      hide Part, Or, Without, Asked, Decode, HseFound, HseReads, Wait.Met;
      hide Cleared, Switched, Started, TwoWaits, Follows;
      SwitchesWithoutPll(CR);
      SwitchesWithPll(CR);
      ZeroOr(PPRE1_DIV2);
      ghost var w, waits, fit := Seen(), TwoWaits(), Fit();
      ResetClocks();
      ghost var g, from := State(), sampled;
      SetSysClockTo72(lockedAt, followedAt);
      if !HseFound(cr, from) {
        KeptImage(g, State());
        StaysUnlocked(cr, from, HseReads(cr, from), waits);
      }
      BootedEarly(w, waits, fit, follows, old(now), cr, from, HseReads(cr, from),
                  sampled - from - HseReads(cr, from), HseFound(cr, from));
    }

    /** SystemInit up to the call of SetSysClock. */
    method ResetClocks()
      requires Valid()
      modifies this`CR, this`CFGR, this`CIR, this`now, this`faults, this`locked
      ensures now == old(now) + 11 && CIR == 0x009F_0000
      ensures CR == Without(Without(Or(old(CR), HSION), HSE_CSS_PLL_ON), HSEBYP) && !PllIsOn() && !locked
      ensures Image(State()) == Fields(0, 0, 0, 0, 0, old(State()).rest)
      ensures Seen() == Cleared(old(Seen()), follows, old(now), old(Fit()))
    {
      hide Part, Or, Without, Asked, Decode, Tick, Ticks, Kept, TwoWaits;
      ghost var w, start, fit := Seen(), now, Fit();
      ReleaseSwitch();
      ghost var released := Seen();
      ghost var f := State();
      SwitchOff();
      KeptImage(f, State());
      ghost var off := Seen();
      FinishReset();
      TicksAdd(Ticks(released, follows, start + 4, 2, fit), follows, start + 6, 2, 3, false);
    }

    /** HSI on, SW and the prescalers cleared. */
    method ReleaseSwitch()
      requires Valid()
      modifies this`CR, this`CFGR, this`now, this`faults, this`locked
      ensures CR == Or(old(CR), HSION) && locked == old(locked) && now == old(now) + 4
      ensures Image(State()) == Image(old(State())).(sw := 0, hpre := 0, ppre1 := 0)
      ensures Seen() == Ticks(old(Seen()), follows, old(now), 4, old(Fit())).(asks := false)
    {
      hide Part, Or, Without, Asked, Decode, Tick, Ticks, Seen, Kept, TwoWaits;
      ghost var w, start, f := Seen(), now, State();
      SteadyPllOn();
      OrDisjoint(CR, HSION, PLLON);
      OrCR(HSION);
      KeptImage(f, State());
      ResetSwitch();
      TicksAdd(w, follows, start, 2, 2, Fit());
    }

    method ResetSwitch()
      modifies this`CFGR, this`now, this`faults
      ensures Image(State()) == Image(old(State())).(sw := 0, hpre := 0, ppre1 := 0) && now == old(now) + 2
      ensures Seen() == Ticks(old(Seen()), follows, old(now), 2, Fit()).(asks := false)
    {
      hide Part, Without, Asked, Ticks, Fit;
      Twice(Seen(), follows, now, Fit());
      var v := ReadCFGR();
      ClearSelection(v);
      WriteCFGR(Without(v, SWITCH_AND_PRESCALERS));
    }

    /** HSE, CSS and PLL off, HSE not bypassed. */
    method SwitchOff()
      modifies this`CR, this`CFGR, this`now, this`faults, this`locked
      ensures CR == Without(Without(old(CR), HSE_CSS_PLL_ON), HSEBYP) && !PllIsOn() && !locked
      ensures now == old(now) + 4 && Kept(old(State()), State())
      ensures Seen() == Ticks(Ticks(old(Seen()), follows, old(now), 2, old(Fit())), follows, old(now) + 2, 2, false)
    {
      hide Part, Without, Asked, Decode, Tick, Ticks, Seen, Kept, State, TwoWaits;
      ghost var f := State();
      PllOff(CR);
      ClearCR(HSE_CSS_PLL_ON);
      ghost var g := State();
      SteadyPllOn();
      WithoutDisjoint(CR, HSEBYP, PLLON);
      ClearCR(HSEBYP);
      KeptTwice(f, g, State());
    }

    /** PLL factors cleared, interrupts off. */
    method FinishReset()
      requires !locked
      modifies this`CFGR, this`CIR, this`now, this`faults
      ensures Image(State()) == Image(old(State())).(pll := 0) && CIR == 0x009F_0000 && now == old(now) + 3
      ensures Seen() == Ticks(old(Seen()), follows, old(now), 3, false)
    {
      hide Part, Without, Asked, Decode, Tick, Ticks, Seen, TwoWaits;
      OneMoreTick(Seen(), follows, now, 2, false);
      ResetPll();
      ghost var f := State();
      Moment();
      KeptImage(f, State());
      CIR := 0x009F_0000;
    }

    method ResetPll()
      modifies this`CFGR, this`now, this`faults
      ensures Image(State()) == Image(old(State())).(pll := 0) && now == old(now) + 2
      ensures Seen() == Ticks(old(Seen()), follows, old(now), 2, Fit())
    {
      hide Part, Without, Asked, Ticks, Fit;
      Twice(Seen(), follows, now, Fit());
      var v := ReadCFGR();
      ClearPllAndUsb(v);
      WriteCFGR(Without(v, PLL_AND_USB));
    }

    /** SystemCoreClockUpdate: the frequency of the clock tree, at the moment SWS is read. */
    method SystemCoreClockUpdate()
      modifies this`SystemCoreClock, this`CFGR, this`now, this`faults
      ensures SystemCoreClock == CoreClock(Moved(old(State()), follows(old(now))))
      ensures Kept(old(State()), State())
      ensures now > old(now) && Seen() == Ticks(old(Seen()), follows, old(now), now - old(now), Fit())
    {
      hide Part, Index, SysClk, Divided, ShiftedRight, Asked, Tick, Ticks, Fit;
      ghost var w, start, f := Seen(), now, State();
      SystemCoreClock := SourceClock();
      ghost var g := State();
      OneMoreTick(w, follows, start, now - start, Fit());
      var v := ReadCFGR();
      KeptTwice(f, g, State());
      IndexInTable(v);
      TableDivides(v, SystemCoreClock);
      SystemCoreClock := ShiftedRight(SystemCoreClock, AHB_PRESC_TABLE[Index(Part(v, HPRE))]);
    }

    /** A read of CFGR after others. */
    method ReadAgain(ghost f: Fields, ghost w: Watch, ghost start: nat) returns (v: bv32)
      requires start <= now && Kept(f, State()) && Seen() == Ticks(w, follows, start, now - start, Fit())
      modifies this`CFGR, this`now, this`faults
      ensures v == CFGR && now == old(now) + 1 && State() == Moved(old(State()), follows(old(now)))
      ensures Kept(f, State()) && Seen() == Ticks(w, follows, start, now - start, Fit())
    {
      hide Part, Asked, Decode, Tick, Ticks, Fit, Kept, Seen;
      ghost var g := State();
      OneMoreTick(w, follows, start, now - start, Fit());
      v := ReadCFGR();
      KeptTwice(f, g, State());
    }

    /** The case of the PLL: factor, source and divider are read one by one. */
    method PllClock(ghost f: Fields, ghost w: Watch, ghost start: nat) returns (clock: nat)
      requires start <= now && Kept(f, State()) && Seen() == Ticks(w, follows, start, now - start, Fit())
      modifies this`CFGR, this`now, this`faults
      ensures clock == PllInput(old(State()).pll) * Factor(old(State()).pll)
      ensures now > old(now) && Kept(f, State()) && Seen() == Ticks(w, follows, start, now - start, Fit())
    {
      hide Factor, FromHsi, Halved, Asked, Decode, Tick, Ticks, Fit, Seen, Kept;
      ghost var pll := State().pll;
      var tmp := ReadAgain(f, w, start);
      PllParts(tmp, pll);
      var pllmull := Factor(tmp);
      tmp := ReadAgain(f, w, start);
      PllParts(tmp, pll);
      if FromHsi(tmp) {
        clock := HSI_VALUE / 2 * pllmull;
      } else {
        tmp := ReadAgain(f, w, start);
        PllParts(tmp, pll);
        clock := if Halved(tmp) then HSE_VALUE / 2 * pllmull else HSE_VALUE * pllmull;
      }
    }

    /** SystemCoreClockUpdate, the switch on SWS; every use of CFGR is a read of its own. */
    method SourceClock() returns (clock: nat)
      modifies this`CFGR, this`now, this`faults
      ensures clock == SysClk(Moved(old(State()), follows(old(now))))
      ensures Kept(old(State()), State())
      ensures now > old(now) && Seen() == Ticks(old(Seen()), follows, old(now), now - old(now), Fit())
    {
      hide Part, Factor, PllInput, Asked, Tick, Ticks, Fit, Seen, Kept;
      ghost var f, w, start := State(), Seen(), now;
      KeptSelf(f);
      NoTicks(w, follows, start, Fit());
      var tmp := ReadAgain(f, w, start);
      if Part(tmp, SWS) == 0x00 {
        clock := HSI_VALUE;
      } else if Part(tmp, SWS) == 0x04 {
        clock := HSE_VALUE;
      } else if Part(tmp, SWS) == 0x08 {
        clock := PllClock(f, w, start);
      } else {
        clock := HSI_VALUE;
      }
    }

    /** The hardware, given time: SWS has followed SW. */
    method CatchUp()
      modifies this`CFGR
      ensures State() == Moved(old(State()), true)
    {
      hide Followed, Asked;
      FollowedFields(CFGR);
      CFGR := Followed(CFGR);
    }
  }

  lemma StaysUnlocked(cr: nat -> bv32, from: nat, n: nat, waits: bool)
    ensures !Entry(false, false, waits).LockedAfter(cr, from, n)
  {
  }

  /** Boot, then ask for the frequency once the hardware has followed the last request: 72 MHz, with PCLK1 at its limit
      of 36 MHz, exactly if HSE was found, and the internal 8 MHz if not. */
  method Boot(rcc: Rcc, ghost lockedAt: nat, ghost followedAt: nat)
    requires rcc.Valid() && rcc.Settles(rcc.now + 11, lockedAt, followedAt)
    modifies rcc
    ensures rcc.SystemCoreClock == if HseFound(rcc.cr, old(rcc.sampled)) then 72_000_000 else HSI_VALUE
    ensures HseFound(rcc.cr, old(rcc.sampled)) ==> Pclk1(rcc.State()) == 36_000_000
    ensures rcc.faults.early
         == (old(rcc.faults.early)
             || (old(rcc.Seen()).Pending() && !old(rcc.Fit()) && Follows(rcc.follows, old(rcc.now), 4)))
  {
    hide Part, Or, Asked, HseFound, HseReads, SysClk, AhbDivisor, Apb1Divisor, Decode, Ticks, Booted, Follows;
    rcc.SystemInit(lockedAt, followedAt);
    AskedForPll();
    AskedForHsi();
    rcc.CatchUp();
    ghost var f, w, start := rcc.State(), rcc.Seen(), rcc.now;
    rcc.SystemCoreClockUpdate();
    assert rcc.State() == f;
    Codes();
    StatusCodesDiffer();
    TicksEarly(w, rcc.follows, start, rcc.now - start, rcc.Fit());
    if f.sw == SW_PLL {
      OnPll(f);
    } else {
      OnHsi(f);
    }
  }

  lemma StatusCodesDiffer() ensures SW_PLL != 0 && SWS_PLL != 0 {}

  /** The same without SystemInit's masks: a prescaler left in CFGR survives, so the core runs at 72 MHz over its
      divisor, which is 72 MHz exactly if the prescaler was off already. */
  method BootWithoutReset(rcc: Rcc, ghost lockedAt: nat, ghost followedAt: nat)
    requires rcc.Valid() && rcc.Settles(rcc.now, lockedAt, followedAt)
    modifies rcc
    ensures HseFound(rcc.cr, old(rcc.sampled)) ==>
      && rcc.SystemCoreClock == Divided(72_000_000, old(rcc.State()).hpre)
      && (rcc.SystemCoreClock == 72_000_000 <==> !TopBit(old(rcc.State()).hpre))
  {
    hide Part, Or, Without, HseFound, HseReads, SysClk, Divided, TopBit, Asked, Decode, Ticks, Switched, Started;
    rcc.SetSysClockTo72(lockedAt, followedAt);
    ghost var f := rcc.State();
    AskedForPll();
    rcc.SystemCoreClockUpdate();
    if HseFound(rcc.cr, old(rcc.sampled)) {
      OnPll(f);
      LeftOverPrescaler(rcc.CFGR);
    }
  }

  /** For instance: from a CFGR with the divide-by-2 code left in it the driver ends at half the frequency promised. */
  method LeftOverExample(rcc: Rcc, ghost lockedAt: nat, ghost followedAt: nat)
    requires rcc.Valid() && rcc.CFGR == 0x80 && rcc.Settles(rcc.now, lockedAt, followedAt)
    modifies rcc
    ensures HseFound(rcc.cr, old(rcc.sampled)) ==> rcc.SystemCoreClock == 36_000_000
  {
    hide HseFound, HseReads, AhbDivisor, TopBit;
    HalfCode();
    Codes();
    BootWithoutReset(rcc, lockedAt, followedAt);
  }

  lemma HalfCode() ensures Decode(0x80).hpre == 0x80 {}
}
