/** What the hardware does with the system clock while a driver runs, moment by moment.

    In each moment SWS may follow SW. The PLL is fit to drive the core if it is locked and flash has two wait states.
    Two things can go wrong: the core goes over to a PLL that is not fit, and the core is on such a PLL. */
module ClockWatch {
  import opened Polling

  /** Whether SWS follows SW in each moment. */
  type Schedule = nat -> bool

  /** What each read of the ready flags returns. */
  type Flags = nat -> bv32

  const PLLRDY: bv32 := 0x0200_0000
  const PLL_READY: Wait := Wait(PLLRDY, 0, false)

  /** Whether SW asks for the PLL and SWS shows it, and whether the core ever went over to, or was on, an unfit PLL. */
  datatype Watch = Watch(asks: bool, on: bool, early: bool, unfit: bool) {
    predicate Pending() { asks && !on }
  }

  datatype Faults = Faults(early: bool, unfit: bool)

  function Tick(w: Watch, follow: bool, fit: bool): Watch {
    var on := if follow then w.asks else w.on;
    Watch(w.asks, on, w.early || (on && !w.on && !fit), w.unfit || (on && !fit))
  }

  /** The n moments from moment `at` on, the PLL being fit in all of them or in none. */
  function Ticks(w: Watch, follows: Schedule, at: nat, n: nat, fit: bool): Watch {
    if n == 0 then w else Tick(Ticks(w, follows, at, n - 1, fit), follows(at + n - 1), fit)
  }

  lemma {:induction false} TicksAdd(w: Watch, follows: Schedule, at: nat, m: nat, n: nat, fit: bool)
    ensures Ticks(Ticks(w, follows, at, m, fit), follows, at + m, n, fit) == Ticks(w, follows, at, m + n, fit)
    decreases n
  {
    hide Tick;
    if n == 0 {
    } else {
      TicksAdd(w, follows, at, m, n - 1, fit);
      assert at + m + n - 1 == at + (m + n) - 1;
    }
  }

  lemma NoTicks(w: Watch, follows: Schedule, at: nat, fit: bool) ensures Ticks(w, follows, at, 0, fit) == w {}

  lemma OneMoreTick(w: Watch, follows: Schedule, at: nat, n: nat, fit: bool)
    ensures Ticks(w, follows, at, n + 1, fit) == Tick(Ticks(w, follows, at, n, fit), follows(at + n), fit)
  {
    hide Tick;
  }

  lemma Twice(w: Watch, follows: Schedule, at: nat, fit: bool)
    ensures Ticks(w, follows, at, 2, fit) == Tick(Tick(w, follows(at), fit), follows(at + 1), fit)
  {
    hide Tick;
    assert Ticks(w, follows, at, 1, fit) == Tick(Ticks(w, follows, at, 0, fit), follows(at), fit);
  }

  predicate Follows(follows: Schedule, at: nat, n: nat) { exists i | at <= i < at + n :: follows(i) }

  // ----- What a stretch of moments can do -----

  /** While the PLL is fit nothing goes wrong. */
  lemma {:induction false} FitTicks(w: Watch, follows: Schedule, at: nat, n: nat)
    ensures var v := Ticks(w, follows, at, n, true); v.asks == w.asks && v.early == w.early && v.unfit == w.unfit
    ensures w.asks && w.on ==> Ticks(w, follows, at, n, true).on
  {
    if n == 0 {
    } else {
      FitTicks(w, follows, at, n - 1);
    }
  }

  /** Nor if the PLL is neither asked for nor in use. */
  lemma {:induction false} IdleTicks(w: Watch, follows: Schedule, at: nat, n: nat, fit: bool)
    requires !w.asks && !w.on
    ensures Ticks(w, follows, at, n, fit) == w
  {
    if n == 0 {
    } else {
      IdleTicks(w, follows, at, n - 1, fit);
    }
  }

  /** What went wrong stays wrong, and what is asked for is the driver's business. */
  lemma {:induction false} TicksGrow(w: Watch, follows: Schedule, at: nat, n: nat, fit: bool)
    ensures var v := Ticks(w, follows, at, n, fit); v.asks == w.asks && (w.early ==> v.early) && (w.unfit ==> v.unfit)
  {
    if n == 0 {
    } else {
      TicksGrow(w, follows, at, n - 1, fit);
    }
  }

  /** The core goes over too early exactly if a switch is pending, the PLL is unfit, and SWS follows. */
  lemma {:induction false} TicksEarly(w: Watch, follows: Schedule, at: nat, n: nat, fit: bool)
    ensures Ticks(w, follows, at, n, fit).early == (w.early || (w.Pending() && !fit && Follows(follows, at, n)))
    ensures Ticks(w, follows, at, n, fit).Pending() == (w.Pending() && !Follows(follows, at, n))
  {
    if n == 0 {
    } else {
      TicksEarly(w, follows, at, n - 1, fit);
      TicksGrow(w, follows, at, n - 1, fit);
      assert Follows(follows, at, n) == (Follows(follows, at, n - 1) || follows(at + n - 1));
    }
  }

  /** As long as SWS does not follow, nothing moves. */
  lemma {:induction false} StillTicks(w: Watch, follows: Schedule, at: nat, n: nat, fit: bool)
    requires !Follows(follows, at, n)
    ensures var v := Ticks(w, follows, at, n, fit);
      v.on == w.on && v.early == w.early && v.unfit == (w.unfit || (w.on && !fit && n > 0))
  {
    if n == 0 {
    } else {
      assert !follows(at + n - 1);
      assert !Follows(follows, at, n - 1);
      StillTicks(w, follows, at, n - 1, fit);
    }
  }

  // ----- SetSysClockTo72 -----

  /** What the fitness of the PLL depends on at the call. */
  datatype Entry = Entry(locked: bool, pllOn: bool, latency2: bool) {
    predicate Fit() { locked && latency2 }

    /** The PLL is known to be locked after n reads of the ready flags. */
    predicate LockedAfter(cr: Flags, from: nat, n: nat) {
      locked || (pllOn && exists i | from <= i < from + n :: PLL_READY.Met(cr(i)))
    }
  }

  /** n reads of the ready flags, each of which may show the PLL locked. */
  function Polled(w: Watch, e: Entry, follows: Schedule, at: nat, cr: Flags, from: nat, n: nat): Watch {
    if n == 0 then w
    else
      var fit := e.LockedAfter(cr, from, n - 1) && e.latency2;
      Tick(Polled(w, e, follows, at, cr, from, n - 1), follows(at + n - 1), fit)
  }

  /** Up to the decision on HSE, which takes n reads: HSEON first. */
  function Started(w: Watch, e: Entry, follows: Schedule, at: nat, cr: Flags, from: nat, n: nat): Watch {
    Polled(Ticks(w, follows, at, 2, e.Fit()), e, follows, at + 2, cr, from, n)
  }

  /** With HSE found: the old wait states, none for two moments, two of them, and the PLL wait with its q reads. From
      then on the PLL is fit, and in the end it is in use. */
  function Switched(w: Watch, e: Entry, follows: Schedule, at: nat, cr: Flags, from: nat, n: nat, q: nat): Watch {
    var locked := e.LockedAfter(cr, from, n);
    var begun := Started(w, e, follows, at, cr, from, n);
    var before := Ticks(begun, follows, at + n + 2, 4, locked && e.latency2);
    var bare := Ticks(before, follows, at + n + 6, 2, false);
    Ticks(bare, follows, at + n + 8, 12 + q, locked).(asks := true, on := true)
  }

  lemma PolledStep(w: Watch, e: Entry, follows: Schedule, at: nat, cr: Flags, from: nat, n: nat)
    ensures Polled(w, e, follows, at, cr, from, n + 1)
         == Tick(Polled(w, e, follows, at, cr, from, n), follows(at + n), e.LockedAfter(cr, from, n) && e.latency2)
    ensures e.LockedAfter(cr, from, n + 1) == (e.LockedAfter(cr, from, n) || (e.pllOn && PLL_READY.Met(cr(from + n))))
  {
    hide Wait.Met;
    if e.pllOn && PLL_READY.Met(cr(from + n)) {
      assert from <= from + n < from + (n + 1);
    }
  }

  lemma LockedNeedsPll(e: Entry, cr: Flags, from: nat, n: nat)
    requires e.locked ==> e.pllOn
    ensures e.LockedAfter(cr, from, n) ==> e.pllOn
  {
  }

  lemma PolledStart(w: Watch, e: Entry, follows: Schedule, at: nat, cr: Flags, from: nat)
    ensures Polled(w, e, follows, at, cr, from, 0) == w && e.LockedAfter(cr, from, 0) == e.locked
  {
  }

  lemma {:induction false} PolledGrows(w: Watch, e: Entry, follows: Schedule, at: nat, cr: Flags, from: nat, n: nat)
    ensures var v := Polled(w, e, follows, at, cr, from, n);
      && v.asks == w.asks && (w.early ==> v.early) && (w.unfit ==> v.unfit)
      && (!w.Pending() ==> !v.Pending() && v.early == w.early)
    ensures !w.asks && !w.on ==> Polled(w, e, follows, at, cr, from, n) == w
  {
    hide Entry.LockedAfter;
    if n == 0 {
    } else {
      PolledGrows(w, e, follows, at, cr, from, n - 1);
    }
  }

  /** A PLL that is fit at the call stays fit while HSE is waited for. */
  lemma {:induction false} PolledFit(w: Watch, e: Entry, follows: Schedule, at: nat, cr: Flags, from: nat, n: nat)
    requires e.Fit()
    ensures var v := Polled(w, e, follows, at, cr, from, n); v.early == w.early && v.unfit == w.unfit
  {
    if n == 0 {
    } else {
      PolledFit(w, e, follows, at, cr, from, n - 1);
    }
  }

  lemma {:induction false} PolledStill(w: Watch, e: Entry, follows: Schedule, at: nat, cr: Flags, from: nat, n: nat)
    requires !Follows(follows, at, n)
    ensures var v := Polled(w, e, follows, at, cr, from, n); v.on == w.on && (!w.on ==> v == w)
  {
    hide Entry.LockedAfter;
    if n == 0 {
    } else {
      assert !follows(at + n - 1);
      assert !Follows(follows, at, n - 1);
      PolledStill(w, e, follows, at, cr, from, n - 1);
    }
  }

  /** Entering with the PLL neither asked for nor in use, SetSysClockTo72 does nothing wrong, whatever SWS does. */
  lemma IdleIsSafe(w: Watch, e: Entry, follows: Schedule, at: nat, cr: Flags, from: nat, n: nat, q: nat)
    requires !w.asks && !w.on
    ensures Started(w, e, follows, at, cr, from, n) == w
    ensures Switched(w, e, follows, at, cr, from, n, q) == w.(asks := true, on := true)
  {
    hide Entry.LockedAfter, Ticks, Polled;
    var locked := e.LockedAfter(cr, from, n);
    IdleTicks(w, follows, at, 2, e.Fit());
    PolledGrows(w, e, follows, at + 2, cr, from, n);
    IdleTicks(w, follows, at + n + 2, 4, locked && e.latency2);
    IdleTicks(w, follows, at + n + 6, 2, false);
    IdleTicks(w, follows, at + n + 8, 12 + q, locked);
  }

  /** Without a switch pending at the entry the core never goes over too early, though it may have been on the PLL. */
  lemma CalmIsNotEarly(w: Watch, e: Entry, follows: Schedule, at: nat, cr: Flags, from: nat, n: nat, q: nat)
    requires !w.Pending()
    ensures Started(w, e, follows, at, cr, from, n).early == w.early
    ensures Switched(w, e, follows, at, cr, from, n, q).early == w.early
  {
    hide Entry.LockedAfter, Ticks, Polled;
    var locked := e.LockedAfter(cr, from, n);
    TicksEarly(w, follows, at, 2, e.Fit());
    PolledGrows(Ticks(w, follows, at, 2, e.Fit()), e, follows, at + 2, cr, from, n);
    var begun := Started(w, e, follows, at, cr, from, n);
    TicksEarly(begun, follows, at + n + 2, 4, locked && e.latency2);
    var before := Ticks(begun, follows, at + n + 2, 4, locked && e.latency2);
    TicksEarly(before, follows, at + n + 6, 2, false);
    TicksEarly(Ticks(before, follows, at + n + 6, 2, false), follows, at + n + 8, 12 + q, locked);
  }

  lemma QuietEntrance(w: Watch, e: Entry, follows: Schedule, at: nat, cr: Flags, from: nat, n: nat, q: nat)
    ensures !w.Pending() ==> Started(w, e, follows, at, cr, from, n).early == w.early
    ensures !w.Pending() ==> Switched(w, e, follows, at, cr, from, n, q).early == w.early
    ensures !w.asks && !w.on ==> Started(w, e, follows, at, cr, from, n).unfit == w.unfit
    ensures !w.asks && !w.on ==> Switched(w, e, follows, at, cr, from, n, q).unfit == w.unfit
  {
    hide Started, Switched, Entry.LockedAfter;
    if !w.Pending() { CalmIsNotEarly(w, e, follows, at, cr, from, n, q); }
    if !w.asks && !w.on { IdleIsSafe(w, e, follows, at, cr, from, n, q); }
  }

  /** A fit PLL at the entry makes the wait for HSE safe in every case. */
  lemma FitIsSafe(w: Watch, e: Entry, follows: Schedule, at: nat, cr: Flags, from: nat, n: nat)
    requires e.Fit()
    ensures var v := Started(w, e, follows, at, cr, from, n); v.early == w.early && v.unfit == w.unfit
  {
    FitTicks(w, follows, at, 2);
    PolledFit(Ticks(w, follows, at, 2, true), e, follows, at + 2, cr, from, n);
  }

  /** What went wrong before flash has no wait states, or while it has none, shows in the end. */
  lemma SwitchedGrows(w: Watch, e: Entry, follows: Schedule, at: nat, cr: Flags, from: nat, n: nat, q: nat)
    ensures var locked := e.LockedAfter(cr, from, n);
      var begun := Started(w, e, follows, at, cr, from, n);
      var bare := Ticks(Ticks(begun, follows, at + n + 2, 4, locked && e.latency2), follows, at + n + 6, 2, false);
      var v := Switched(w, e, follows, at, cr, from, n, q);
      (begun.early || bare.early ==> v.early) && (begun.unfit || bare.unfit ==> v.unfit)
  {
    hide Entry.LockedAfter, Ticks, Started;
    var locked := e.LockedAfter(cr, from, n);
    var begun := Started(w, e, follows, at, cr, from, n);
    var before := Ticks(begun, follows, at + n + 2, 4, locked && e.latency2);
    TicksGrow(begun, follows, at + n + 2, 4, locked && e.latency2);
    TicksGrow(before, follows, at + n + 6, 2, false);
    TicksGrow(Ticks(before, follows, at + n + 6, 2, false), follows, at + n + 8, 12 + q, locked);
  }

  /** A schedule in which SWS follows at one moment, and then not before moment `late`. */
  function Once(at: nat, late: nat): Schedule { (i: nat) => i == at || i == late }

  function NotBefore(late: nat): Schedule { (i: nat) => i == late }

  /** A pending switch strikes when SWS follows in the moment before two wait states are written, fit or not. */
  lemma PendingStrikes(w: Watch, e: Entry, at: nat, late: nat, cr: Flags, from: nat, n: nat, q: nat)
    requires w.Pending() && late >= at + n + 8
    ensures var v := Switched(w, e, Once(at + n + 6, late), at, cr, from, n, q); v.early && v.unfit
  {
    hide Entry.LockedAfter, Ticks, Polled, Tick;
    var follows := Once(at + n + 6, late);
    var locked := e.LockedAfter(cr, from, n);
    var begun := Started(w, e, follows, at, cr, from, n);
    var before := Ticks(begun, follows, at + n + 2, 4, locked && e.latency2);
    StillTicks(w, follows, at, 2, e.Fit());
    TicksGrow(w, follows, at, 2, e.Fit());
    PolledStill(Ticks(w, follows, at, 2, e.Fit()), e, follows, at + 2, cr, from, n);
    StillTicks(begun, follows, at + n + 2, 4, locked && e.latency2);
    TicksGrow(begun, follows, at + n + 2, 4, locked && e.latency2);
    Strikes(before, follows, at + n + 6);
    SwitchedGrows(w, e, follows, at, cr, from, n, q);
  }

  lemma Strikes(w: Watch, follows: Schedule, at: nat)
    requires follows(at) && w.Pending()
    ensures var v := Ticks(w, follows, at, 2, false); v.early && v.unfit
  {
    Twice(w, follows, at, false);
  }

  /** The core on the PLL, and SWS not following: it stays there while flash has no wait states. */
  lemma UseStrikes(w: Watch, e: Entry, at: nat, late: nat, cr: Flags, from: nat, n: nat, q: nat)
    requires w.on && late >= at + n + 8
    ensures Switched(w, e, NotBefore(late), at, cr, from, n, q).unfit
  {
    hide Entry.LockedAfter, Ticks, Polled;
    var follows := NotBefore(late);
    var locked := e.LockedAfter(cr, from, n);
    var begun := Started(w, e, follows, at, cr, from, n);
    StillTicks(w, follows, at, 2, e.Fit());
    PolledStill(Ticks(w, follows, at, 2, e.Fit()), e, follows, at + 2, cr, from, n);
    StillTicks(begun, follows, at + n + 2, 4, locked && e.latency2);
    StillTicks(Ticks(begun, follows, at + n + 2, 4, locked && e.latency2), follows, at + n + 6, 2, false);
    SwitchedGrows(w, e, follows, at, cr, from, n, q);
  }

  const CLEAN: Watch := Watch(false, false, false, false)

  /** With HSE found, and among the schedules in which SWS follows at some late moment, so that the driver returns:
      SetSysClockTo72 is safe for all of them exactly if the PLL is neither asked for nor in use at the call, and the
      core goes over too early in none exactly if no switch is pending at the call, whether the PLL is fit or not. */
  lemma SafeWithHse(asks: bool, on: bool, e: Entry, at: nat, late: nat, cr: Flags, from: nat, n: nat, q: nat)
    requires late >= at + n + 8
    ensures var w := CLEAN.(asks := asks, on := on);
      && ((forall follows: Schedule | follows(late) ::
             !Switched(w, e, follows, at, cr, from, n, q).unfit) <==> !asks && !on)
      && ((forall follows: Schedule | follows(late) ::
             !Switched(w, e, follows, at, cr, from, n, q).early) <==> !w.Pending())
  {
    hide Switched, Entry.LockedAfter;
    var w := CLEAN.(asks := asks, on := on);
    forall follows: Schedule ensures !w.Pending() ==> !Switched(w, e, follows, at, cr, from, n, q).early {
      if !w.Pending() { CalmIsNotEarly(w, e, follows, at, cr, from, n, q); }
    }
    forall follows: Schedule ensures !asks && !on ==> !Switched(w, e, follows, at, cr, from, n, q).unfit {
      if !asks && !on { IdleIsSafe(w, e, follows, at, cr, from, n, q); }
    }
    if on {
      UseStrikes(w, e, at, late, cr, from, n, q);
      assert NotBefore(late)(late) && Switched(w, e, NotBefore(late), at, cr, from, n, q).unfit;
    } else if asks {
      PendingStrikes(w, e, at, late, cr, from, n, q);
      assert Once(at + n + 6, late)(late) && Switched(w, e, Once(at + n + 6, late), at, cr, from, n, q).early;
    }
  }

  /** Without HSE a PLL that is fit at the call is safe too. */
  lemma SafeWithoutHse(asks: bool, on: bool, e: Entry, at: nat, cr: Flags, from: nat, n: nat)
    ensures var w := CLEAN.(asks := asks, on := on);
      && ((forall follows: Schedule :: !Started(w, e, follows, at, cr, from, n).unfit) <==> (!asks && !on) || e.Fit())
      && ((forall follows: Schedule :: !Started(w, e, follows, at, cr, from, n).early) <==> !w.Pending() || e.Fit())
  {
    hide Started, Entry.LockedAfter;
    var w := CLEAN.(asks := asks, on := on);
    forall follows: Schedule ensures !w.Pending() || e.Fit() ==> !Started(w, e, follows, at, cr, from, n).early {
      if e.Fit() {
        FitIsSafe(w, e, follows, at, cr, from, n);
      } else if !w.Pending() {
        CalmIsNotEarly(w, e, follows, at, cr, from, n, 0);
      }
    }
    forall follows: Schedule ensures (!asks && !on) || e.Fit() ==> !Started(w, e, follows, at, cr, from, n).unfit {
      if e.Fit() {
        FitIsSafe(w, e, follows, at, cr, from, n);
      } else if !asks && !on {
        IdleIsSafe(w, e, follows, at, cr, from, n, 0);
      }
    }
    if !e.Fit() {
      StartStrikes(w, e, at, cr, from, n);
      assert on ==> Started(w, e, NotBefore(at + 2), at, cr, from, n).unfit;
      assert w.Pending() ==> Started(w, e, NotBefore(at), at, cr, from, n).early;
      assert w.Pending() ==> Started(w, e, NotBefore(at), at, cr, from, n).unfit;
    }
  }

  lemma StartStrikes(w: Watch, e: Entry, at: nat, cr: Flags, from: nat, n: nat)
    requires !e.Fit()
    ensures w.on ==> Started(w, e, NotBefore(at + 2), at, cr, from, n).unfit
    ensures w.Pending() ==> Started(w, e, NotBefore(at), at, cr, from, n).early
    ensures w.Pending() ==> Started(w, e, NotBefore(at), at, cr, from, n).unfit
  {
    hide Entry.LockedAfter, Ticks, Polled;
    PolledGrows(Ticks(w, NotBefore(at + 2), at, 2, false), e, NotBefore(at + 2), at + 2, cr, from, n);
    PolledGrows(Ticks(w, NotBefore(at), at, 2, false), e, NotBefore(at), at + 2, cr, from, n);
    StillTicks(w, NotBefore(at + 2), at, 2, false);
    if w.Pending() { Strikes(w, NotBefore(at), at); }
  }

  // ----- SystemInit -----

  /** SystemInit up to the call of SetSysClock: SW is cleared with the fourth access, PLLON with the sixth. */
  function Cleared(w: Watch, follows: Schedule, at: nat, fit: bool): Watch {
    var released := Ticks(w, follows, at, 4, fit).(asks := false);
    Ticks(Ticks(released, follows, at + 4, 2, fit), follows, at + 6, 5, false)
  }

  /** Up to there the core goes over too early exactly if a switch is pending on an unfit PLL and SWS follows in one of
      the first four moments; afterwards it cannot. */
  lemma ClearedEarly(w: Watch, follows: Schedule, at: nat, fit: bool)
    ensures var v := Cleared(w, follows, at, fit);
      v.early == (w.early || (w.Pending() && !fit && Follows(follows, at, 4))) && !v.asks
  {
    hide Ticks, Follows;
    var released := Ticks(w, follows, at, 4, fit).(asks := false);
    TicksEarly(w, follows, at, 4, fit);
    TicksEarly(released, follows, at + 4, 2, fit);
    TicksGrow(released, follows, at + 4, 2, fit);
    TicksEarly(Ticks(released, follows, at + 4, 2, fit), follows, at + 6, 5, false);
    TicksGrow(Ticks(released, follows, at + 4, 2, fit), follows, at + 6, 5, false);
  }

  lemma ClearedGrows(w: Watch, follows: Schedule, at: nat, fit: bool)
    ensures w.unfit ==> Cleared(w, follows, at, fit).unfit
    ensures !w.asks && !w.on ==> Cleared(w, follows, at, fit) == w
  {
    hide Ticks;
    var released := Ticks(w, follows, at, 4, fit).(asks := false);
    TicksGrow(w, follows, at, 4, fit);
    TicksGrow(released, follows, at + 4, 2, fit);
    TicksGrow(Ticks(released, follows, at + 4, 2, fit), follows, at + 6, 5, false);
    if !w.asks && !w.on {
      IdleTicks(w, follows, at, 4, fit);
      IdleTicks(w, follows, at + 4, 2, fit);
      IdleTicks(w, follows, at + 6, 5, false);
    }
  }

  /** All of SystemInit: when SetSysClockTo72 is called the PLL is off. */
  function Booted(w: Watch, latency2: bool, fit: bool, follows: Schedule, at: nat,
                  cr: Flags, from: nat, n: nat, q: nat, found: bool): Watch
  {
    var cleared, off := Cleared(w, follows, at, fit), Entry(false, false, latency2);
    if found then Switched(cleared, off, follows, at + 11, cr, from, n, q)
    else Started(cleared, off, follows, at + 11, cr, from, n)
  }

  lemma BootedGrows(w: Watch, latency2: bool, fit: bool, follows: Schedule, at: nat,
                    cr: Flags, from: nat, n: nat, q: nat, found: bool)
    ensures Cleared(w, follows, at, fit).unfit ==> Booted(w, latency2, fit, follows, at, cr, from, n, q, found).unfit
  {
    hide Ticks, Polled, Cleared, Entry.LockedAfter;
    var cleared, off := Cleared(w, follows, at, fit), Entry(false, false, latency2);
    TicksGrow(cleared, follows, at + 11, 2, off.Fit());
    PolledGrows(Ticks(cleared, follows, at + 11, 2, off.Fit()), off, follows, at + 13, cr, from, n);
    SwitchedGrows(cleared, off, follows, at + 11, cr, from, n, q);
  }

  /** In SystemInit the core goes over too early exactly if a switch is pending on an unfit PLL at the call and SWS
      follows in one of the first four moments, before SW is cleared. */
  lemma BootedEarly(w: Watch, latency2: bool, fit: bool, follows: Schedule, at: nat,
                    cr: Flags, from: nat, n: nat, q: nat, found: bool)
    ensures Booted(w, latency2, fit, follows, at, cr, from, n, q, found).early
         == (w.early || (w.Pending() && !fit && Follows(follows, at, 4)))
  {
    hide Cleared, Started, Switched, Follows;
    ClearedEarly(w, follows, at, fit);
    CalmIsNotEarly(Cleared(w, follows, at, fit), Entry(false, false, latency2), follows, at + 11, cr, from, n, q);
  }

  lemma BootedIdle(w: Watch, latency2: bool, fit: bool, follows: Schedule, at: nat,
                   cr: Flags, from: nat, n: nat, q: nat, found: bool)
    requires !w.asks && !w.on
    ensures Booted(w, latency2, fit, follows, at, cr, from, n, q, found).unfit == w.unfit
  {
    hide Cleared, Started, Switched;
    ClearedGrows(w, follows, at, fit);
    IdleIsSafe(w, Entry(false, false, latency2), follows, at + 11, cr, from, n, q);
  }

  /** SystemInit switches PLLON off while SWS may still show the PLL. Among the schedules in which SWS follows at some
      late moment it is safe for all exactly if the PLL is neither asked for nor in use at the call. The core goes over
      too early in none exactly if no switch is pending at the call, or the PLL is fit. */
  lemma SafeBoot(asks: bool, on: bool, latency2: bool, fit: bool, at: nat, late: nat,
                 cr: Flags, from: nat, n: nat, q: nat, found: bool)
    requires late >= at + 11
    ensures var w := CLEAN.(asks := asks, on := on);
      && ((forall follows: Schedule | follows(late) ::
             !Booted(w, latency2, fit, follows, at, cr, from, n, q, found).unfit) <==> !asks && !on)
      && ((forall follows: Schedule | follows(late) ::
             !Booted(w, latency2, fit, follows, at, cr, from, n, q, found).early) <==> !w.Pending() || fit)
  {
    hide Booted;
    var w := CLEAN.(asks := asks, on := on);
    forall follows: Schedule
      ensures !asks && !on ==> !Booted(w, latency2, fit, follows, at, cr, from, n, q, found).unfit
      ensures !w.Pending() || fit ==> !Booted(w, latency2, fit, follows, at, cr, from, n, q, found).early
    {
      if !asks && !on { BootedIdle(w, latency2, fit, follows, at, cr, from, n, q, found); }
      BootedEarly(w, latency2, fit, follows, at, cr, from, n, q, found);
    }
    var still, once := NotBefore(late), Once(at, late);
    assert still(late) && once(late) && once(at);
    if w.on { Lingers(w, still, at, fit); }
    if w.Pending() { Lingers(w, once, at, fit); }
    BootedGrows(w, latency2, fit, still, at, cr, from, n, q, found);
    BootedGrows(w, latency2, fit, once, at, cr, from, n, q, found);
    BootedEarly(w, latency2, fit, once, at, cr, from, n, q, found);
    assert on ==> Booted(w, latency2, fit, still, at, cr, from, n, q, found).unfit;
    assert w.Pending() ==> Booted(w, latency2, fit, once, at, cr, from, n, q, found).unfit;
    assert w.Pending() && !fit ==> Booted(w, latency2, fit, once, at, cr, from, n, q, found).early;
  }

  /** If the core is on the PLL after the first moment, and SWS does not follow again, it is still there when PLLON is
      cleared. */
  lemma Lingers(w: Watch, follows: Schedule, at: nat, fit: bool)
    requires Tick(w, follows(at), fit).on && !Follows(follows, at + 1, 10)
    ensures Cleared(w, follows, at, fit).unfit
  {
    hide Ticks, Tick;
    Once1(w, follows, at, fit);
    TicksAdd(w, follows, at, 1, 3, fit);
    StillTicks(Ticks(w, follows, at, 1, fit), follows, at + 1, 3, fit);
    var released := Ticks(w, follows, at, 4, fit).(asks := false);
    StillTicks(released, follows, at + 4, 2, fit);
    StillTicks(Ticks(released, follows, at + 4, 2, fit), follows, at + 6, 5, false);
  }

  lemma Once1(w: Watch, follows: Schedule, at: nat, fit: bool)
    ensures Ticks(w, follows, at, 1, fit) == Tick(w, follows(at), fit)
  {
    hide Tick;
    assert Ticks(w, follows, at, 0, fit) == w;
  }
}
