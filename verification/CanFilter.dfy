/** The acceptance filter banks: one bit a bank in four registers, and two words a bank. */
module CanFilter {
  import opened BitSets

  const FINIT: bv32 := 0x0000_0001
  const BANKS: bv32 := 28

  // ----- One bit a bank -----

  /** Switching one bank switches that bank and no other. */
  lemma SwitchBank(r: bv32, n: bv32, on: bool)
    requires n < BANKS
    ensures forall k: bv32 | k < BANKS :: Has(Switch(r, n, on), k) == if k == n then on else Has(r, k)
  {
    hide Has, Switch;
    forall k: bv32 | k < BANKS { SwitchOnly(r, n, on, k); }
  }

  // ----- Two 16-bit words in a filter register -----

  function Pack(high: bv16, low: bv16): bv32 {
    ((0x0000_FFFF & high as bv32) << 16) | (0x0000_FFFF & low as bv32)
  }

  function High(w: bv32): bv16 { (w >> 16) as bv16 }
  function Low(w: bv32): bv16 { (w & 0xFFFF) as bv16 }

  lemma HighOfPack(high: bv16, low: bv16) ensures High(Pack(high, low)) == high {}

  lemma LowOfPack(high: bv16, low: bv16) ensures Low(Pack(high, low)) == low {}

  datatype FilterRegister = FilterRegister(FR1: bv32, FR2: bv32)

  function Index(n: bv32): (i: nat)
    requires n < BANKS
    ensures i < 28
  {
    n as int
  }

  lemma IndexIsNumber(n: bv32) requires n < BANKS ensures n as nat == Index(n) < 28 {}

  lemma IndexApart(n: bv32, k: bv32)
    requires n < BANKS && k < BANKS && n != k
    ensures Index(n) != Index(k)
  {
    assert (n as int) as bv32 == n;
    assert (k as int) as bv32 == k;
  }

  /** What one bank is configured to do. */
  datatype Bank = Bank(wide: bool, list: bool, fifo1: bool, active: bool,
                       idHigh: bv16, idLow: bv16, maskHigh: bv16, maskLow: bv16)

  /** The four words of a bank: which word is where depends on the scale. */
  function Words(wide: bool, r: FilterRegister): (bv16, bv16, bv16, bv16) {
    if wide then (High(r.FR1), Low(r.FR1), High(r.FR2), Low(r.FR2))
    else (Low(r.FR2), Low(r.FR1), High(r.FR2), High(r.FR1))
  }

  function Registers(c: Bank): FilterRegister {
    if c.wide then FilterRegister(Pack(c.idHigh, c.idLow), Pack(c.maskHigh, c.maskLow))
    else FilterRegister(Pack(c.maskLow, c.idLow), Pack(c.maskHigh, c.idHigh))
  }

  /** In either scale the four words come back as they were given. */
  lemma WordsRoundTrip(c: Bank)
    ensures Words(c.wide, Registers(c)) == (c.idHigh, c.idLow, c.maskHigh, c.maskLow)
  {
    hide Pack, High, Low;
    HighOfPack(c.maskLow, c.idLow); LowOfPack(c.maskLow, c.idLow);
    HighOfPack(c.maskHigh, c.idHigh); LowOfPack(c.maskHigh, c.idHigh);
    HighOfPack(c.idHigh, c.idLow); LowOfPack(c.idHigh, c.idLow);
    HighOfPack(c.maskHigh, c.maskLow); LowOfPack(c.maskHigh, c.maskLow);
  }

  /** Which half of which filter register a word is in: with one 32-bit filter, identifier in the first register and
      mask in the second; with two 16-bit ones, each in its register with its mask above it. */
  lemma WordsInNumbers(c: Bank)
    ensures c.wide ==> Registers(c).FR1 >> 16 == c.idHigh as bv32
    ensures c.wide ==> Registers(c).FR1 & 0xFFFF == c.idLow as bv32
    ensures c.wide ==> Registers(c).FR2 >> 16 == c.maskHigh as bv32
    ensures c.wide ==> Registers(c).FR2 & 0xFFFF == c.maskLow as bv32
    ensures !c.wide ==> Registers(c).FR1 >> 16 == c.maskLow as bv32
    ensures !c.wide ==> Registers(c).FR1 & 0xFFFF == c.idLow as bv32
    ensures !c.wide ==> Registers(c).FR2 >> 16 == c.maskHigh as bv32
    ensures !c.wide ==> Registers(c).FR2 & 0xFFFF == c.idHigh as bv32
  {
  }

  // ----- FMR -----

  lemma FmrInNumbers(fmr: bv32)
    ensures StartBank(fmr) == (fmr & 0x3F00) >> 8
    ensures InInit(fmr) <==> fmr & 1 == 1
  {
  }


  function StartBank(fmr: bv32): bv32 { (fmr >> 8) & 0x3F }
  predicate InInit(fmr: bv32) { fmr & FINIT == FINIT }
  function EnterInit(fmr: bv32): bv32 { fmr | FINIT }
  function LeaveInit(fmr: bv32): bv32 { fmr & !FINIT }
  function ClearStart(fmr: bv32): bv32 { fmr & 0xFFFF_C0F1 }
  function OrStart(fmr: bv32, n: bv32): bv32 { fmr | (n << 8) }
  function Other(fmr: bv32): bv32 { fmr & 0xFFFF_C0F0 }
  function Reserved(fmr: bv32): bv32 { fmr & 0x0000_000E }  // bits 3:1, which CAN_SlaveStartBank clears

  lemma Entered(fmr: bv32) ensures InInit(EnterInit(fmr)) {}

  lemma Left(fmr: bv32) ensures !InInit(LeaveInit(fmr)) {}

  lemma InitKeepsStart(fmr: bv32) ensures StartBank(LeaveInit(EnterInit(fmr))) == StartBank(fmr) {}

  lemma InitKeepsOther(fmr: bv32) ensures Other(LeaveInit(EnterInit(fmr))) == Other(fmr) {}

  lemma InitKeepsReserved(fmr: bv32) ensures Reserved(LeaveInit(EnterInit(fmr))) == Reserved(fmr) {}

  lemma StartClearsReserved(fmr: bv32, n: bv32)
    requires n < BANKS
    ensures Reserved(LeaveInit(OrStart(ClearStart(EnterInit(fmr)), n))) == 0
  {
  }

  lemma StartSelected(fmr: bv32, n: bv32)
    requires n < BANKS
    ensures StartBank(LeaveInit(OrStart(ClearStart(EnterInit(fmr)), n))) == n
  {
  }

  lemma StartKeepsOther(fmr: bv32, n: bv32)
    requires n < BANKS
    ensures Other(LeaveInit(OrStart(ClearStart(EnterInit(fmr)), n))) == Other(fmr)
  {
  }

  /** A call: CAN_FilterInit for one bank, or CAN_SlaveStartBank. */
  datatype Call = FilterInit(number: bv32, bank: Bank) | SlaveStartBank(number: bv32) {
    predicate Legal() { number < BANKS }
  }

  // ----- Histories -----

  /** The configuration the last CAN_FilterInit for bank k asked for, or what was there before. */
  function LastBank(calls: seq<Call>, k: bv32, before: Bank): Bank {
    if calls == [] then before
    else
      var last := calls[|calls| - 1];
      if last.FilterInit? && last.number == k then last.bank
      else LastBank(calls[..|calls| - 1], k, before)
  }

  function LastStart(calls: seq<Call>, before: bv32): bv32 {
    if calls == [] then before
    else
      var last := calls[|calls| - 1];
      if last.SlaveStartBank? then last.number else LastStart(calls[..|calls| - 1], before)
  }

  predicate Starts(calls: seq<Call>) { exists i :: 0 <= i < |calls| && calls[i].SlaveStartBank? }

  /** The last call that sets the start bank decides it. */
  lemma {:induction false} LastStartDecides(calls: seq<Call>, i: nat, before: bv32)
    requires i < |calls| && calls[i].SlaveStartBank?
    requires forall j | i < j < |calls| :: !calls[j].SlaveStartBank?
    ensures LastStart(calls, before) == calls[i].number
  {
    if i == |calls| - 1 {
    } else {
      LastStartDecides(calls[..|calls| - 1], i, before);
    }
  }

  /** The last call that names a bank decides it, whatever comes before and whatever is done to other banks after. */
  lemma {:induction false} LastCallDecides(calls: seq<Call>, i: nat, k: bv32, before: Bank)
    requires i < |calls| && calls[i].FilterInit? && calls[i].number == k
    requires forall j | i < j < |calls| :: calls[j].FilterInit? ==> calls[j].number != k
    ensures LastBank(calls, k, before) == calls[i].bank
  {
    if i == |calls| - 1 {
    } else {
      LastCallDecides(calls[..|calls| - 1], i, k, before);
    }
  }

  lemma {:induction false} UnnamedBankKept(calls: seq<Call>, k: bv32, before: Bank)
    requires forall c | c in calls :: c.FilterInit? ==> c.number != k
    ensures LastBank(calls, k, before) == before
  {
    if calls == [] {
    } else {
      assert calls[|calls| - 1] in calls;
      UnnamedBankKept(calls[..|calls| - 1], k, before);
    }
  }

  class CanFilters {
    var FMR: bv32
    var FM1R: bv32
    var FS1R: bv32
    var FFA1R: bv32
    var FA1R: bv32
    var sFilterRegister: seq<FilterRegister>

    ghost predicate Valid()
      reads this`sFilterRegister
    {
      |sFilterRegister| == 28
    }

    /** After a reset: every bank is inactive, and the start bank is 14. */
    constructor (words: seq<FilterRegister>)
      requires |words| == 28
      ensures Valid() && sFilterRegister == words
      ensures FMR == 0x2A1C_0E01 && FM1R == FS1R == FFA1R == FA1R == 0
    {
      FMR, FM1R, FS1R, FFA1R, FA1R, sFilterRegister := 0x2A1C_0E01, 0, 0, 0, 0, words;
    }

    function Register(n: bv32): FilterRegister
      requires Valid() && n < BANKS
      reads this`sFilterRegister
    {
      sFilterRegister[Index(n)]
    }

    /** What bank n is configured to do, read off all the registers. */
    function Decode(n: bv32): Bank
      requires Valid() && n < BANKS
      reads this
    {
      var words := Words(Has(FS1R, n), Register(n));
      Bank(Has(FS1R, n), Has(FM1R, n), Has(FFA1R, n), Has(FA1R, n), words.0, words.1, words.2, words.3)
    }

    /** Where the four settings of a bank are: bit n of FS1R, FM1R, FFA1R and FA1R; and its words in register n. */
    lemma BankInShifts(n: bv32)
      requires Valid() && n < BANKS
      ensures Decode(n).wide == InMask(FS1R, n) && Decode(n).list == InMask(FM1R, n)
      ensures Decode(n).fifo1 == InMask(FFA1R, n) && Decode(n).active == InMask(FA1R, n)
      ensures n as nat < 28 && Register(n) == sFilterRegister[n as nat]
    {
      hide Has, InMask, Words;
      HasIsInMask(FS1R, n);
      HasIsInMask(FM1R, n);
      HasIsInMask(FFA1R, n);
      HasIsInMask(FA1R, n);
      IndexIsNumber(n);
    }

    // The settings of a bank may change only in initialization mode and while the bank is inactive.

    method WriteScale(n: bv32, on: bool)
      requires n < BANKS && InInit(FMR) && !Has(FA1R, n)
      modifies this`FS1R
      ensures forall k: bv32 | k < BANKS :: Has(FS1R, k) == if k == n then on else Has(old(FS1R), k)
    {
      hide Has, Switch;
      SwitchBank(FS1R, n, on);
      FS1R := Switch(FS1R, n, on);
    }

    method WriteMode(n: bv32, on: bool)
      requires n < BANKS && InInit(FMR) && !Has(FA1R, n)
      modifies this`FM1R
      ensures forall k: bv32 | k < BANKS :: Has(FM1R, k) == if k == n then on else Has(old(FM1R), k)
    {
      hide Has, Switch;
      SwitchBank(FM1R, n, on);
      FM1R := Switch(FM1R, n, on);
    }

    method WriteFifo(n: bv32, on: bool)
      requires n < BANKS && InInit(FMR) && !Has(FA1R, n)
      modifies this`FFA1R
      ensures forall k: bv32 | k < BANKS :: Has(FFA1R, k) == if k == n then on else Has(old(FFA1R), k)
    {
      hide Has, Switch;
      SwitchBank(FFA1R, n, on);
      FFA1R := Switch(FFA1R, n, on);
    }

    method WriteActive(n: bv32, on: bool)
      requires n < BANKS
      modifies this`FA1R
      ensures forall k: bv32 | k < BANKS :: Has(FA1R, k) == if k == n then on else Has(old(FA1R), k)
    {
      hide Has, Switch;
      SwitchBank(FA1R, n, on);
      FA1R := Switch(FA1R, n, on);
    }

    method WriteFR(n: bv32, r: FilterRegister)
      requires Valid() && n < BANKS && InInit(FMR) && !Has(FA1R, n)
      modifies this`sFilterRegister
      ensures Valid() && Register(n) == r
      ensures forall k: bv32 | k < BANKS && k != n :: Register(k) == old(Register(k))
    {
      hide Index;
      forall k: bv32 | k < BANKS && k != n { IndexApart(n, k); }
      sFilterRegister := sFilterRegister[Index(n) := r];
    }

    /** The middle part of CAN_FilterInit: scale and words, mode, FIFO. */
    method Configure(n: bv32, c: Bank)
      requires Valid() && n < BANKS && InInit(FMR) && !Has(FA1R, n)
      modifies this`FS1R, this`FM1R, this`FFA1R, this`sFilterRegister
      ensures Valid()
      ensures Has(FS1R, n) == c.wide && Has(FM1R, n) == c.list && Has(FFA1R, n) == c.fifo1
      ensures Register(n) == Registers(c)
      ensures forall k: bv32 | k < BANKS && k != n :: Has(FS1R, k) == Has(old(FS1R), k)
      ensures forall k: bv32 | k < BANKS && k != n :: Has(FM1R, k) == Has(old(FM1R), k)
      ensures forall k: bv32 | k < BANKS && k != n :: Has(FFA1R, k) == Has(old(FFA1R), k)
      ensures forall k: bv32 | k < BANKS && k != n :: Register(k) == old(Register(k))
    {
      hide Index, Has, InInit, Pack, Register;
      if !c.wide {
        WriteScale(n, false);
        WriteFR(n, FilterRegister(Pack(c.maskLow, c.idLow), Pack(c.maskHigh, c.idHigh)));
      } else {
        WriteScale(n, true);
        WriteFR(n, FilterRegister(Pack(c.idHigh, c.idLow), Pack(c.maskHigh, c.maskLow)));
      }
      WriteMode(n, c.list);
      WriteFifo(n, c.fifo1);
    }

    /** CAN_FilterInit: the bank named is configured as asked, every other bank is as it was. */
    method Init(n: bv32, c: Bank)
      requires Valid() && n < BANKS
      modifies this
      ensures Valid() && !InInit(FMR) && StartBank(FMR) == StartBank(old(FMR))
      ensures Other(FMR) == Other(old(FMR)) && Reserved(FMR) == Reserved(old(FMR))
      ensures Decode(n) == c
      ensures forall k: bv32 | k < BANKS && k != n :: Decode(k) == old(Decode(k))
    {
      hide Has, InInit, EnterInit, LeaveInit, StartBank, Other, Reserved, Registers, Words, Register;
      Entered(FMR);
      InitKeepsStart(FMR);
      InitKeepsOther(FMR);
      InitKeepsReserved(FMR);
      FMR := EnterInit(FMR);
      WriteActive(n, false);
      Configure(n, c);
      if c.active {
        WriteActive(n, true);
      }
      Left(FMR);
      FMR := LeaveInit(FMR);
      WordsRoundTrip(c);
    }

    /** CAN_SlaveStartBank: the start bank is as asked; no bank changes. */
    method SlaveStart(n: bv32)
      requires Valid() && n < BANKS
      modifies this`FMR
      ensures Valid() && !InInit(FMR) && StartBank(FMR) == n && Other(FMR) == Other(old(FMR)) && Reserved(FMR) == 0
      ensures forall k: bv32 | k < BANKS :: Decode(k) == old(Decode(k))
    {
      hide Index, Has, High, Low, InInit, EnterInit, LeaveInit, StartBank, Other, Reserved, ClearStart, OrStart;
      StartSelected(FMR, n);
      StartKeepsOther(FMR, n);
      StartClearsReserved(FMR, n);
      FMR := EnterInit(FMR);
      FMR := ClearStart(FMR);
      FMR := OrStart(FMR, n);
      Left(FMR);
      FMR := LeaveInit(FMR);
    }

    /** Any history of calls: every bank and the start bank are as their last calls asked. */
    method Replay(calls: seq<Call>)
      requires Valid() && forall c | c in calls :: c.Legal()
      modifies this
      ensures Valid() && (calls != [] ==> !InInit(FMR)) && Other(FMR) == Other(old(FMR))
      ensures forall k: bv32 | k < BANKS :: Decode(k) == LastBank(calls, k, old(Decode(k)))
      ensures StartBank(FMR) == LastStart(calls, StartBank(old(FMR)))
      ensures Reserved(FMR) == if Starts(calls) then 0 else Reserved(old(FMR))
    {
      hide InInit, StartBank, Other, Reserved, Decode;
      for i := 0 to |calls|
        invariant Valid() && (i > 0 ==> !InInit(FMR)) && Other(FMR) == Other(old(FMR))
        invariant forall k: bv32 | k < BANKS :: Decode(k) == LastBank(calls[..i], k, old(Decode(k)))
        invariant StartBank(FMR) == LastStart(calls[..i], StartBank(old(FMR)))
        invariant Reserved(FMR) == if Starts(calls[..i]) then 0 else Reserved(old(FMR))
      {
        assert calls[i] in calls && calls[..i + 1][..i] == calls[..i];
        match calls[i] {
          case FilterInit(n, bank) => Init(n, bank);
          case SlaveStartBank(n) => SlaveStart(n);
        }
      }
      assert calls[..|calls|] == calls;
    }
  }
}
