/** The RTC counter: 32 bits in two 16-bit registers, read one after the other while the clock ticks. */
module Rtc {
  import opened Bits

  const HALF: nat := 0x1_0000
  const WORD: nat := 0x1_0000_0000
  const PRESCALERS: nat := 0x10_0000
  const CNF: bv32 := 0x0010

  /** A 16-bit register. `x / HALF` and `x % HALF` stand for `x >> 16` and `x & 0xFFFF`. */
  type Half = x: nat | x < HALF

  function Join(high: Half, low: Half): nat { high * HALF + low }

  /** How often the low half overflows while k ticks are added to c. */
  function Carries(c: nat, k: nat): nat {
    OrderedHalves(c, c + k);
    (c + k) / HALF - c / HALF
  }

  lemma OrderedHalves(a: nat, b: nat)
    requires a <= b
    ensures a / HALF <= b / HALF
  {
  }

  /** What RTC_GetCounter returns when it starts at count c and k ticks fall between its two reads. */
  function Reading(c: nat, k: nat): nat { (c + HALF * Carries(c, k)) % WORD }

  /** While the counter does not wrap, a reading is never before the start of the call and never as much as one low
      half after its end, and its low half is always right. */
  lemma ReadingBounds(c: nat, k: nat)
    requires c + k < WORD
    ensures c <= Reading(c, k) < c + k + HALF
    ensures Reading(c, k) % HALF == c % HALF
  {
    assert c + HALF * Carries(c, k) == HALF * ((c + k) / HALF) + c % HALF;
    assert (c + k) / HALF < HALF;
    LowOf((c + k) / HALF, c % HALF);
  }

  lemma LowOf(high: nat, low: nat)
    requires low < HALF
    ensures (HALF * high + low) % HALF == low
    ensures (HALF * high + low) / HALF == high
  {
  }

  /** It is the count at the start of the call exactly if no carry left the low half. */
  lemma ReadingExact(c: nat, k: nat)
    requires c + k < WORD
    ensures Reading(c, k) == c <==> Carries(c, k) == 0
    ensures Reading(c, k) == c <==> c % HALF + k < HALF
  {
    assert c + HALF * Carries(c, k) == HALF * ((c + k) / HALF) + c % HALF;
    assert (c + k) / HALF < HALF;
  }

  /** No later reading is smaller, however it is timed, exactly if the low half did not fall during this one. */
  lemma ReadingsInOrder(c: nat, k: nat)
    requires c + k < WORD
    ensures (forall c': nat, k': nat | c + k <= c' && c' + k' < WORD :: Reading(c, k) <= Reading(c', k'))
      <==> c % HALF <= (c + k) % HALF
  {
    ReadingBounds(c, k);
    var end := c + k;
    assert Reading(c, k) == HALF * (end / HALF) + c % HALF by {
      assert c + HALF * Carries(c, k) == HALF * (end / HALF) + c % HALF;
      assert end / HALF < HALF;
    }
    assert Reading(c, k) <= end <==> c % HALF <= end % HALF;
    if c % HALF <= end % HALF {
      forall c': nat, k': nat | end <= c' && c' + k' < WORD ensures Reading(c, k) <= Reading(c', k') {
        ReadingBounds(c', k');
      }
    } else {
      ReadingExact(end, 0);
      assert Reading(end, 0) == end;
    }
  }

  class RtcPort {
    var CRL: bv32  // CRL has 16 bits
    var CNTH: Half
    var CNTL: Half
    var ALRH: Half
    var ALRL: Half
    var PRLH: Half
    var PRLL: Half

    function Counter(): nat
      reads this`CNTH, this`CNTL
    {
      Join(CNTH, CNTL)
    }

    function Alarm(): nat
      reads this`ALRH, this`ALRL
    {
      Join(ALRH, ALRL)
    }

    function Prescaler(): nat
      reads this`PRLH, this`PRLL
    {
      Join(PRLH, PRLL)
    }

    predicate Configuring()
      reads this`CRL
    {
      Part(CRL, CNF) != 0
    }

    /** CNF is bit 4 of CRL. */
    lemma ConfiguringInNumbers()
      ensures Configuring() == (CRL & 0x10 != 0)
    {
    }

    /** Hardware: the clock ticks, and the counter wraps around. */
    method Tick(k: nat)
      modifies this`CNTH, this`CNTL
      ensures Counter() == (old(Counter()) + k) % WORD
    {
      var c := Counter() + k;
      Wrap(c);
      CNTH, CNTL := c / HALF % HALF, c % HALF;
    }

    /** RTC_EnterConfigMode. */
    method EnterConfigMode()
      modifies this`CRL
      ensures Configuring() && CRL == Or(old(CRL), CNF)
    {
      hide Or, Part;
      PartOfOwn(CRL, CNF);
      CRL := Or(CRL, CNF);
    }

    /** RTC_ExitConfigMode. */
    method ExitConfigMode()
      modifies this`CRL
      ensures !Configuring() && CRL == Without(old(CRL), CNF)
    {
      hide Without, Part;
      PartOfRemoved(CRL, CNF);
      CRL := Without(CRL, CNF);
    }

    // Hardware: the six registers take a value only in configuration mode.

    method WriteCNTH(v: Half) modifies this`CNTH ensures CNTH == if Configuring() then v else old(CNTH) {
      if Configuring() { CNTH := v; }
    }

    method WriteCNTL(v: Half) modifies this`CNTL ensures CNTL == if Configuring() then v else old(CNTL) {
      if Configuring() { CNTL := v; }
    }

    method WriteALRH(v: Half) modifies this`ALRH ensures ALRH == if Configuring() then v else old(ALRH) {
      if Configuring() { ALRH := v; }
    }

    method WriteALRL(v: Half) modifies this`ALRL ensures ALRL == if Configuring() then v else old(ALRL) {
      if Configuring() { ALRL := v; }
    }

    method WritePRLH(v: Half) modifies this`PRLH ensures PRLH == if Configuring() then v else old(PRLH) {
      if Configuring() { PRLH := v; }
    }

    method WritePRLL(v: Half) modifies this`PRLL ensures PRLL == if Configuring() then v else old(PRLL) {
      if Configuring() { PRLL := v; }
    }

    /** RTC_SetCounter, with k ticks between the two half-writes: each time they carry out of the old low half the
        counter ends 65536 too high, so it is the value given exactly if they do not. */
    method SetCounter(v: nat, k: nat)
      requires v < WORD
      modifies this`CRL, this`CNTH, this`CNTL
      ensures Counter() == (v + HALF * Spill(old(CNTL), k)) % WORD
      ensures Counter() == v <==> Spill(old(CNTL), k) % HALF == 0
      ensures k <= HALF ==> (Counter() == v <==> old(CNTL) + k < HALF)
      ensures !Configuring() && Part(CRL, OTHERS) == Part(old(CRL), OTHERS)
    {
      hide Or, Without, Part, Spill;
      HalvesFit(v);
      ghost var low := CNTL;
      OthersKept(CRL);
      EnterConfigMode();
      WriteCNTH(v / HALF);
      Tick(k);
      HighAfterSpill(v / HALF, low, k);
      WriteCNTL(v % HALF);
      ExitConfigMode();
      Spilled(v, low, k);
    }

    /** RTC_SetAlarm. */
    method SetAlarm(v: nat)
      requires v < WORD
      modifies this`CRL, this`ALRH, this`ALRL
      ensures Alarm() == v && !Configuring() && Part(CRL, OTHERS) == Part(old(CRL), OTHERS)
    {
      hide Or, Without, Part;
      OthersKept(CRL);
      EnterConfigMode();
      WriteALRH(v / HALF);
      WriteALRL(v % HALF);
      ExitConfigMode();
    }

    /** RTC_SetPrescaler: 20 bits are stored, so the value survives exactly if it has no more. */
    method SetPrescaler(v: nat)
      requires v < WORD
      modifies this`CRL, this`PRLH, this`PRLL
      ensures Prescaler() == v % PRESCALERS && !Configuring() && Part(CRL, OTHERS) == Part(old(CRL), OTHERS)
      ensures Prescaler() == v <==> v < PRESCALERS
    {
      hide Or, Without, Part;
      OthersKept(CRL);
      EnterConfigMode();
      WritePRLH(v / HALF % 16);
      WritePRLL(v % HALF);
      ExitConfigMode();
    }

    /** RTC_GetCounter: the low half is read first, then k ticks happen, then the high half is read. */
    method GetCounter(k: nat) returns (r: nat)
      modifies this`CNTH, this`CNTL
      ensures r == Reading(old(Counter()), k) && Counter() == (old(Counter()) + k) % WORD
    {
      hide Reading, Carries;
      var tmp := CNTL;
      ghost var c := Counter();
      Tick(k);
      HighAfter(c, k);
      r := Join(CNTH, tmp);
    }
  }

  /** How often k ticks carry out of a low half. */
  function Spill(low: Half, k: nat): nat { (low + k) / HALF }

  lemma HighAfterSpill(high: Half, low: Half, k: nat)
    ensures (Join(high, low) + k) % WORD / HALF == (high + Spill(low, k)) % HALF
  {
    HighOfWrapped(Join(high, low) + k);
    LowOf(high + Spill(low, k), (low + k) % HALF);
  }

  /** A value whose high half has been moved by the spill is the value itself exactly if there was none. */
  lemma Spilled(v: nat, low: Half, k: nat)
    requires v < WORD
    ensures (v / HALF + Spill(low, k)) % HALF * HALF + v % HALF == (v + HALF * Spill(low, k)) % WORD
    ensures (v + HALF * Spill(low, k)) % WORD == v <==> Spill(low, k) % HALF == 0
    ensures k <= HALF ==> (Spill(low, k) % HALF == 0 <==> low + k < HALF)
  {
    JoinWrapped(v / HALF + Spill(low, k), v % HALF);
    assert v + HALF * Spill(low, k) == HALF * (v / HALF + Spill(low, k)) + v % HALF;
    SumIsSame(v / HALF, Spill(low, k));
  }

  lemma SumIsSame(high: Half, d: nat) ensures (high + d) % HALF == high <==> d % HALF == 0 {}

  const OTHERS: bv32 := 0xFFFF_FFEF  // every bit of CRL but CNF

  /** Entering and leaving configuration mode leaves the other bits of CRL alone. */
  lemma OthersKept(crl: bv32)
    ensures Part(Without(Or(crl, CNF), CNF), OTHERS) == Part(crl, OTHERS)
  {
    hide Part, Or, Without, Disjoint;
    CnfApart();
    WithoutDisjoint(Or(crl, CNF), CNF, OTHERS);
    OrDisjoint(crl, CNF, OTHERS);
  }

  lemma CnfApart() ensures Disjoint(CNF, OTHERS) {}

  lemma HalvesFit(v: nat) requires v < WORD ensures v / HALF < HALF && v % HALF < HALF {}

  lemma Wrap(c: nat)
    ensures c / HALF % HALF * HALF + c % HALF == c % WORD
  {
  }

  /** The high half after k ticks, joined to the low half before. */
  lemma HighAfter(c: nat, k: nat)
    requires c < WORD
    ensures (c + k) % WORD / HALF * HALF + c % HALF == Reading(c, k)
  {
    assert c + HALF * Carries(c, k) == HALF * ((c + k) / HALF) + c % HALF;
    HighOfWrapped(c + k);
    JoinWrapped((c + k) / HALF, c % HALF);
  }

  lemma HighOfWrapped(x: nat) ensures x % WORD / HALF == x / HALF % HALF {}

  lemma JoinWrapped(high: nat, low: nat)
    requires low < HALF
    ensures (HALF * high + low) % WORD == high % HALF * HALF + low
  {
  }

  /** Setting and then reading, with ticks only inside the two calls: the value given comes back exactly as far as the
      ticks do not carry out of a low half. Without ticks it always comes back. */
  method SetThenGet(rtc: RtcPort, v: nat, j: nat, k: nat) returns (r: nat)
    requires v < WORD
    modifies rtc
    ensures r == Reading((v + HALF * Spill(old(rtc.CNTL), j)) % WORD, k)
    ensures j == k == 0 ==> r == v
  {
    hide Part, Or, Without, Reading;
    rtc.SetCounter(v, j);
    r := rtc.GetCounter(k);
    if k == 0 { ReadingExact(rtc.Counter(), 0); }
  }
}
