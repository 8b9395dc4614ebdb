/** Transmit mailboxes and receive FIFOs: the driver's calls interleaved with the CAN cell's own steps.

    Every register access of the driver first lets the cell take any number of steps, so each contract
    below holds for every interleaving. */
module CanTransfer {
  import opened Bits
  import opened CanFrame
  import opened CanBus
  import opened Wrappers

  const NO_MAILBOX: nat := 4
  const STATUS_FAILED: bv8 := 0
  const STATUS_OK: bv8 := 1
  const STATUS_PENDING: bv8 := 2
  const RFOM: bv32 := 0x20

  // ----- TSR: three status bits a mailbox -----

  function Rqcp(m: nat): bv32 { if m == 0 then 0x0000_0001 else if m == 1 then 0x0000_0100 else 0x0001_0000 }
  function Txok(m: nat): bv32 { if m == 0 then 0x0000_0002 else if m == 1 then 0x0000_0200 else 0x0002_0000 }
  function Tme(m: nat): bv32 { if m == 0 then 0x0400_0000 else if m == 1 then 0x0800_0000 else 0x1000_0000 }

  function StatusBits(m: nat): bv32 { Rqcp(m) | Txok(m) | Tme(m) }

  function EndedBits(m: nat): bv32 { Rqcp(m) | Tme(m) }

  function Status(tsr: bv32, m: nat): bv32 { Part(tsr, StatusBits(m)) }

  predicate IsEmpty(tsr: bv32, m: nat) { Part(tsr, Tme(m)) == Tme(m) }

  /** How the three bits of mailbox m read in each case. */
  function Code(m: nat, o: Outcome): bv32 {
    match o
    case Idle => Tme(m)
    case Busy => 0
    case Sent => StatusBits(m)
    case Failed => EndedBits(m)
  }

  function WithCode(tsr: bv32, m: nat, o: Outcome): bv32 { Replace(tsr, StatusBits(m), Code(m, o)) }

  lemma TmeFits(m: nat) ensures Within(Tme(m), StatusBits(m)) {}

  lemma EndedFits(m: nat) ensures Within(EndedBits(m), StatusBits(m)) {}

  lemma WithinSelf(a: bv32) ensures Within(a, a) {}

  lemma ZeroWithin(a: bv32) ensures Within(0, a) {}

  lemma CodeFits(m: nat, o: Outcome)
    ensures Within(Code(m, o), StatusBits(m))
  {
    hide Rqcp, Txok, Tme, StatusBits, EndedBits, Within;
    match o
    case Idle => TmeFits(m);
    case Busy => ZeroWithin(StatusBits(m));
    case Sent => WithinSelf(StatusBits(m));
    case Failed => EndedFits(m);
  }

  lemma StatusApart(m: nat, k: nat)
    requires m < 3 && k < 3 && k != m
    ensures Disjoint(StatusBits(m), StatusBits(k))
  {
  }

  lemma StatusAfter(tsr: bv32, m: nat, o: Outcome, k: nat)
    requires m < 3 && k < 3
    ensures Status(WithCode(tsr, m, o), k) == if k == m then Code(m, o) else Status(tsr, k)
  {
    hide StatusBits, Code, Replace, Part, Within, Disjoint;
    CodeFits(m, o);
    if k == m {
      ReplaceOwn(tsr, StatusBits(m), Code(m, o));
    } else {
      StatusApart(m, k);
      ReplaceOther(tsr, StatusBits(m), Code(m, o), StatusBits(k));
    }
  }

  lemma BusyIsNotEmpty(m: nat) ensures Part(0, Tme(m)) != Tme(m) {}

  lemma OthersAreEmpty(m: nat, o: Outcome) ensures o != Busy ==> Part(Code(m, o), Tme(m)) == Tme(m) {}

  /** A mailbox reads empty exactly when no request is pending in it. */
  lemma EmptyUnlessBusy(tsr: bv32, m: nat, o: Outcome)
    requires Status(tsr, m) == Code(m, o)
    ensures IsEmpty(tsr, m) <==> o != Busy
  {
    hide Tme, StatusBits, Part, Within;
    CodeFits(m, Idle);
    PartOfPart(tsr, StatusBits(m), Tme(m));
    BusyIsNotEmpty(m);
    OthersAreEmpty(m, o);
  }

  /** TSR in numbers: TME is bit 26 + m; and how the three bits read in each case, with completion and success in bits
      8m and 8m + 1. */
  lemma EmptyInNumbers0(tsr: bv32) ensures IsEmpty(tsr, 0) == (tsr & 0x0400_0000 == 0x0400_0000) {}

  lemma EmptyInNumbers1(tsr: bv32) ensures IsEmpty(tsr, 1) == (tsr & 0x0800_0000 == 0x0800_0000) {}

  lemma EmptyInNumbers2(tsr: bv32) ensures IsEmpty(tsr, 2) == (tsr & 0x1000_0000 == 0x1000_0000) {}

  lemma CodesInNumbers()
    ensures Code(0, Idle) == 0x0400_0000 && Code(1, Idle) == 0x0800_0000 && Code(2, Idle) == 0x1000_0000
    ensures Code(0, Sent) == 0x0400_0003 && Code(1, Sent) == 0x0800_0300 && Code(2, Sent) == 0x1003_0000
    ensures Code(0, Failed) == 0x0400_0001 && Code(1, Failed) == 0x0800_0100 && Code(2, Failed) == 0x1001_0000
    ensures Code(0, Busy) == Code(1, Busy) == Code(2, Busy) == 0
    ensures StatusBits(0) == 0x0400_0003 && StatusBits(1) == 0x0800_0300 && StatusBits(2) == 0x1003_0000
  {
  }

  // ----- RFxR: pending count, full and overrun flags, release request -----

  function Fmp(n: nat): bv32 { if n == 0 then 0 else if n == 1 then 1 else if n == 2 then 2 else 3 }

  /** The cell stores a frame: the count goes up and FULL is raised at three. */
  function AfterStore(rfr: bv32, n: nat): bv32 {
    (rfr & 0xFFFF_FFFC) | Fmp(n) | (if n == 3 then 0x8 else 0)
  }

  /** A write to RFxR: flags written as one are cleared, and the count is that after the release. */
  function AfterWrite(rfr: bv32, v: bv32, n: nat): bv32 {
    (rfr & !(v & 0x18) & 0xFFFF_FFDC) | Fmp(n)
  }

  function Pending(rfr: bv32): bv32 {
    rfr & 0x03
  }

  /** RFxR in numbers: the count in bits 1:0, the release request in bit 5. */
  lemma CountInNumbers(rfr: bv32, n: nat)
    requires n <= 3
    ensures Pending(rfr) == Fmp(n) <==> (rfr & 0x3) as nat == n
  {
  }

  lemma ReleaseInNumbers(rfr: bv32)
    ensures IsRelease(rfr) == (rfr & 0x20 != 0) && ReleaseOr(rfr) == rfr | 0x20
  {
  }

  lemma CountIsNumber(n: nat) requires n <= 3 ensures Fmp(n) as nat == n {}

  lemma StoredCount(rfr: bv32, n: nat) ensures n <= 3 ==> Pending(AfterStore(rfr, n)) == Fmp(n) {}

  lemma WrittenCount(rfr: bv32, v: bv32, n: nat) ensures n <= 3 ==> Pending(AfterWrite(rfr, v, n)) == Fmp(n) {}

  /** FULL, bit 3, is raised by the third frame, and overrun, bit 4, by none; a write clears those it names. */
  lemma StoredFlags(rfr: bv32, n: nat) ensures AfterStore(rfr, n) & 0x18 == (rfr & 0x18) | if n == 3 then 0x8 else 0 {}

  lemma WrittenFlags(rfr: bv32, v: bv32, n: nat) ensures AfterWrite(rfr, v, n) & 0x38 == rfr & 0x18 & !v {}

  /** The loopback path copies the frame; request bit and time stamp do not travel, the filter index is the cell's. */
  function Looped(m: Mailbox, fmi: bv8, time: bv16): Mailbox {
    Mailbox(ClearTxrq(m.ir), LoopedDtr(m.dtr, fmi, time), m.dlr, m.dhr)
  }

  function LoopedDtr(dtr: bv32, fmi: bv8, time: bv16): bv32 {
    (dtr & 0xF) | ((fmi as bv32) << 8) | ((time as bv32) << 16)
  }

  /** The filter index the cell puts into RDTxR is the one CAN_Receive takes out. */
  lemma IndexRoundTrip(dtr: bv32, fmi: bv8, time: bv16) ensures RxFmi(LoopedDtr(dtr, fmi, time)) == fmi {}

  lemma LoopedTime(dtr: bv32, fmi: bv8, time: bv16) ensures LoopedDtr(dtr, fmi, time) >> 16 == time as bv32 {}

  lemma LoopedLength(dtr: bv32, fmi: bv8, time: bv16)
    ensures DlcOf(LoopedDtr(dtr, fmi, time)) == DlcOf(dtr)
  {
  }

  lemma LoopedStd(ir: bv32) ensures StdOf(ClearTxrq(ir)) == StdOf(ir) {}

  lemma LoopedExt(ir: bv32) ensures ExtOf(ClearTxrq(ir)) == ExtOf(ir) {}

  lemma LoopedIde(ir: bv32) ensures IsStandard(ClearTxrq(ir)) == IsStandard(ir) {}

  lemma LoopedRtr(ir: bv32) ensures IsRemote(ClearTxrq(ir)) == IsRemote(ir) {}

  lemma IndexIsLooped(m: Mailbox, fmi: bv8, time: bv16)
    ensures RxFmi(Looped(m, fmi, time).dtr) == fmi
  {
    hide RxFmi, LoopedDtr, ClearTxrq;
    IndexRoundTrip(m.dtr, fmi, time);
  }

  lemma Loopback(m: Mailbox, fmi: bv8, time: bv16)
    ensures Decode(Looped(m, fmi, time)) == Decode(m)
  {
    hide IsStandard, IsRemote, StdOf, ExtOf, DlcOf, Bytes, ClearTxrq, LoopedDtr;
    LoopedLength(m.dtr, fmi, time);
    LoopedStd(m.ir);
    LoopedExt(m.ir);
    LoopedIde(m.ir);
    LoopedRtr(m.ir);
  }

  // ----- The three mailboxes -----

  ghost predicate MailboxOk(tsr: bv32, box: Mailbox, m: nat, o: Outcome) {
    Status(tsr, m) == Code(m, o) && (o != Busy ==> !HasTxrq(box.ir))
  }

  /** TSR and the mailbox registers agree with what became of the requests. */
  ghost predicate TxOk(tsr: bv32, boxes: seq<Mailbox>, outcome: seq<Outcome>) {
    && |boxes| == 3 && |outcome| == 3
    && MailboxOk(tsr, boxes[0], 0, outcome[0])
    && MailboxOk(tsr, boxes[1], 1, outcome[1])
    && MailboxOk(tsr, boxes[2], 2, outcome[2])
  }

  /** The frame waiting in a mailbox, read off the registers; nothing when TSR shows the mailbox empty. */
  ghost function Waiting(tsr: bv32, box: Mailbox, m: nat): multiset<Frame> {
    if IsEmpty(tsr, m) then multiset{} else multiset{Decode(box)}
  }

  ghost function InMailboxes(tsr: bv32, boxes: seq<Mailbox>): multiset<Frame>
    requires |boxes| == 3
  {
    Waiting(tsr, boxes[0], 0) + Waiting(tsr, boxes[1], 1) + Waiting(tsr, boxes[2], 2)
  }

  lemma MailboxAfter(tsr: bv32, box: Mailbox, m: nat, o: Outcome, k: nat, now: Outcome)
    requires m < 3 && k < 3 && k != m && MailboxOk(tsr, box, k, o)
    ensures MailboxOk(WithCode(tsr, m, now), box, k, o)
    ensures Waiting(WithCode(tsr, m, now), box, k) == Waiting(tsr, box, k)
  {
    hide Status, Code, WithCode, IsEmpty, HasTxrq, Decode;
    StatusAfter(tsr, m, now, k);
    EmptyUnlessBusy(tsr, k, o);
    EmptyUnlessBusy(WithCode(tsr, m, now), k, o);
  }

  lemma OwnMailboxAfter(tsr: bv32, box: Mailbox, m: nat, now: Outcome)
    requires m < 3 && (now != Busy ==> !HasTxrq(box.ir))
    ensures MailboxOk(WithCode(tsr, m, now), box, m, now)
    ensures Waiting(WithCode(tsr, m, now), box, m) == if now == Busy then multiset{Decode(box)} else multiset{}
  {
    hide Status, Code, WithCode, IsEmpty, HasTxrq, Decode;
    StatusAfter(tsr, m, now, m);
    EmptyUnlessBusy(WithCode(tsr, m, now), m, now);
  }

  /** Changing one mailbox and its status bits leaves the other two as they are. */
  lemma OneMailboxChanges(tsr: bv32, boxes: seq<Mailbox>, outcome: seq<Outcome>, m: nat, box: Mailbox, now: Outcome)
    requires TxOk(tsr, boxes, outcome) && m < 3
    requires now != Busy ==> !HasTxrq(box.ir)
    ensures var tsr', boxes' := WithCode(tsr, m, now), boxes[m := box];
      && TxOk(tsr', boxes', outcome[m := now])
      && InMailboxes(tsr', boxes') + Waiting(tsr, boxes[m], m)
         == InMailboxes(tsr, boxes) + (if now == Busy then multiset{Decode(box)} else multiset{})
      && (now != Busy ==> InMailboxes(tsr', boxes') + Waiting(tsr, boxes[m], m) == InMailboxes(tsr, boxes))
  {
    hide MailboxOk, Waiting, WithCode, HasTxrq, Decode;
    OwnMailboxAfter(tsr, box, m, now);
    forall k: nat | k < 3 && k != m
      ensures MailboxOk(WithCode(tsr, m, now), boxes[k], k, outcome[k])
      ensures Waiting(WithCode(tsr, m, now), boxes[k], k) == Waiting(tsr, boxes[k], k)
    {
      MailboxAfter(tsr, boxes[k], m, outcome[k], k, now);
    }
  }

  lemma WaitingIffBusy(tsr: bv32, boxes: seq<Mailbox>, outcome: seq<Outcome>, m: nat)
    requires TxOk(tsr, boxes, outcome) && m < 3
    ensures Waiting(tsr, boxes[m], m) == if outcome[m] == Busy then multiset{Decode(boxes[m])} else multiset{}
    ensures IsEmpty(tsr, m) <==> outcome[m] != Busy
  {
    hide Status, Code, IsEmpty, HasTxrq, Decode;
    EmptyUnlessBusy(tsr, m, outcome[m]);
  }

  lemma NoRequestInEmpty(tsr: bv32, boxes: seq<Mailbox>, outcome: seq<Outcome>, m: nat)
    requires TxOk(tsr, boxes, outcome) && m < 3 && outcome[m] != Busy
    ensures !HasTxrq(boxes[m].ir)
  {
    hide Status, Code, HasTxrq;
  }

  /** Rewriting a register of an empty mailbox, without a request, changes nothing that counts. */
  lemma IdleMailboxChanges(tsr: bv32, boxes: seq<Mailbox>, outcome: seq<Outcome>, m: nat, box: Mailbox)
    requires TxOk(tsr, boxes, outcome) && m < 3 && outcome[m] != Busy && !HasTxrq(box.ir)
    ensures TxOk(tsr, boxes[m := box], outcome)
    ensures InMailboxes(tsr, boxes[m := box]) == InMailboxes(tsr, boxes)
  {
    hide Status, Code, IsEmpty, HasTxrq, Decode;
    EmptyUnlessBusy(tsr, m, outcome[m]);
  }

  // ----- A receive FIFO -----

  /** A receive FIFO: its register, its output mailbox, what it stores (the oldest first), and the frames
      it ever stored and released, in order. */
  datatype Fifo = Fifo(rfr: bv32, output: Mailbox, mail: seq<Mailbox>, stored: seq<Frame>, released: seq<Frame>)

  ghost predicate FifoOk(f: Fifo) {
    && |f.mail| <= 3
    && Pending(f.rfr) == Fmp(|f.mail|)
    && (f.mail != [] ==> f.output == f.mail[0])
    && f.stored == f.released + Frames(f.mail)
  }

  function Frames(mail: seq<Mailbox>): (frames: seq<Frame>)
    ensures |frames| == |mail|
  {
    if mail == [] then [] else [Decode(mail[0])] + Frames(mail[1..])
  }

  /** The filter indices that go with them. */
  function Indices(mail: seq<Mailbox>): (indices: seq<bv8>)
    ensures |indices| == |mail|
  {
    if mail == [] then [] else [RxFmi(mail[0].dtr)] + Indices(mail[1..])
  }

  lemma {:induction false} IndicesAppend(mail: seq<Mailbox>, image: Mailbox)
    ensures Indices(mail + [image]) == Indices(mail) + [RxFmi(image.dtr)]
  {
    hide RxFmi;
    if mail == [] {
    } else {
      assert (mail + [image])[1..] == mail[1..] + [image];
      IndicesAppend(mail[1..], image);
    }
  }

  lemma {:induction false} FramesAppend(mail: seq<Mailbox>, image: Mailbox)
    ensures Frames(mail + [image]) == Frames(mail) + [Decode(image)]
  {
    hide Decode;
    if mail == [] {
    } else {
      assert (mail + [image])[1..] == mail[1..] + [image];
      FramesAppend(mail[1..], image);
    }
  }

  function Store(f: Fifo, image: Mailbox, frame: Frame): Fifo {
    var n := |f.mail| + 1;
    Fifo(AfterStore(f.rfr, n), if n == 1 then image else f.output, f.mail + [image], f.stored + [frame], f.released)
  }

  lemma StoreKeepsOrder(f: Fifo, image: Mailbox)
    requires FifoOk(f) && |f.mail| < 3
    ensures FifoOk(Store(f, image, Decode(image)))
  {
    hide Decode, AfterStore, Pending, Fmp;
    StoredCount(f.rfr, |f.mail| + 1);
    FramesAppend(f.mail, image);
  }

  predicate IsRelease(v: bv32) { v & RFOM == RFOM }

  /** A write of v to RFxR: flags written as one are cleared; a release request drops the oldest frame. */
  function WriteRfr(f: Fifo, v: bv32): Fifo {
    if IsRelease(v) && f.mail != [] && f.stored != [] && |f.released| < |f.stored| then
      var rest := f.mail[1..];
      Fifo(AfterWrite(f.rfr, v, |rest|), if rest == [] then f.output else rest[0], rest, f.stored,
           f.released + [f.stored[|f.released|]])
    else
      f.(rfr := AfterWrite(f.rfr, v, |f.mail|))
  }

  lemma ReleaseKeepsOrder(f: Fifo, v: bv32)
    requires FifoOk(f)
    ensures FifoOk(WriteRfr(f, v))
    ensures WriteRfr(f, v).stored == f.stored
    ensures WriteRfr(f, v).released
         == if IsRelease(v) && f.mail != [] then f.released + [Decode(f.mail[0])] else f.released
    ensures WriteRfr(f, v).mail == if IsRelease(v) && f.mail != [] then f.mail[1..] else f.mail
  {
    hide Decode, AfterWrite, Pending, Fmp, IsRelease;
    WrittenCount(f.rfr, v, if f.mail == [] then 0 else |f.mail| - 1);
    WrittenCount(f.rfr, v, |f.mail|);
    if f.mail != [] {
      assert Frames(f.mail) == [Decode(f.mail[0])] + Frames(f.mail[1..]);
      assert f.stored[|f.released|] == Decode(f.mail[0]);
    }
  }

  /** What the cell alone can do to the mailboxes: end requests, and nothing else. */
  ghost predicate Settled(boxes: seq<Mailbox>, outcome: seq<Outcome>, boxes': seq<Mailbox>, outcome': seq<Outcome>) {
    && |boxes| == |boxes'| == |outcome| == |outcome'| == 3
    && forall m | 0 <= m < 3 ::
         (outcome[m] != Busy || outcome'[m] == Busy) ==> outcome'[m] == outcome[m] && boxes'[m] == boxes[m]
  }

  /** The same for the mailboxes other than m. */
  ghost predicate OthersSettled(m: nat, boxes: seq<Mailbox>, outcome: seq<Outcome>,
                                boxes': seq<Mailbox>, outcome': seq<Outcome>)
  {
    && |boxes| == |boxes'| == |outcome| == |outcome'| == 3
    && forall k | 0 <= k < 3 && k != m ::
         (outcome[k] != Busy || outcome'[k] == Busy) ==> outcome'[k] == outcome[k] && boxes'[k] == boxes[k]
  }

  lemma SettledThenOthers(m: nat, boxes: seq<Mailbox>, outcome: seq<Outcome>,
                          boxes': seq<Mailbox>, outcome': seq<Outcome>,
                          boxes'': seq<Mailbox>, outcome'': seq<Outcome>)
    requires Settled(boxes, outcome, boxes', outcome')
    requires OthersSettled(m, boxes', outcome', boxes'', outcome'') || (boxes'' == boxes' && outcome'' == outcome')
    ensures OthersSettled(m, boxes, outcome, boxes'', outcome'')
  {
  }

  /** What the cell alone can do to a FIFO: append. The output mailbox changes only when the FIFO was empty. */
  ghost predicate Filled(f: Fifo, f': Fifo) {
    && f.mail <= f'.mail && f.stored <= f'.stored && f.released == f'.released
    && (f.mail != [] || f'.mail == [] ==> f'.output == f.output)
  }

  /** What the driver does to the FIFOs unless it releases: nothing, and the cell may append. */
  ghost predicate Grown(before: seq<Fifo>, after: seq<Fifo>) {
    |before| == |after| == 2 && Filled(before[0], after[0]) && Filled(before[1], after[1])
  }

  /** Conservation: every accepted frame waits in a mailbox, was stored in one of the FIFOs, or was given up. */
  ghost predicate Conserved(accepted: seq<Frame>, waiting: multiset<Frame>, s0: seq<Frame>, s1: seq<Frame>,
                            failed: seq<Frame>)
  {
    multiset(accepted) == waiting + multiset(s0) + multiset(s1) + multiset(failed)
  }

  /** A frame that leaves the mailboxes is accounted for wherever it goes. */
  lemma Moves(accepted: seq<Frame>, before: multiset<Frame>, after: multiset<Frame>, frame: Frame,
              s0: seq<Frame>, s1: seq<Frame>, failed: seq<Frame>)
    requires Conserved(accepted, before, s0, s1, failed)
    requires after + multiset{frame} == before
    ensures Conserved(accepted, after, s0 + [frame], s1, failed)
    ensures Conserved(accepted, after, s0, s1 + [frame], failed)
    ensures Conserved(accepted, after, s0, s1, failed + [frame])
  {
  }

  function Emptied(box: Mailbox): Mailbox { box.(ir := ClearTxrq(box.ir)) }

  /** Ending the request in mailbox m empties that mailbox, and its frame is free to go anywhere. */
  lemma FrameLeaves(tsr: bv32, boxes: seq<Mailbox>, outcome: seq<Outcome>, m: nat, now: Outcome,
                    accepted: seq<Frame>, s0: seq<Frame>, s1: seq<Frame>, failed: seq<Frame>)
    requires TxOk(tsr, boxes, outcome) && m < 3 && outcome[m] == Busy && now != Busy
    requires Conserved(accepted, InMailboxes(tsr, boxes), s0, s1, failed)
    ensures var boxes', outcome', frame := boxes[m := Emptied(boxes[m])], outcome[m := now], Decode(boxes[m]);
      var tsr' := WithCode(tsr, m, now);
      && TxOk(tsr', boxes', outcome')
      && Conserved(accepted, InMailboxes(tsr', boxes'), s0 + [frame], s1, failed)
      && Conserved(accepted, InMailboxes(tsr', boxes'), s0, s1 + [frame], failed)
      && Conserved(accepted, InMailboxes(tsr', boxes'), s0, s1, failed + [frame])
  {
    hide Conserved, InMailboxes, Waiting, WithCode, HasTxrq, Decode, IsEmpty, ClearTxrq, MailboxOk;
    TxrqCleared(boxes[m].ir);
    WaitingIffBusy(tsr, boxes, outcome, m);
    OneMailboxChanges(tsr, boxes, outcome, m, Emptied(boxes[m]), now);
    Moves(accepted, InMailboxes(tsr, boxes), InMailboxes(WithCode(tsr, m, now), boxes[m := Emptied(boxes[m])]),
          Decode(boxes[m]), s0, s1, failed);
  }

  /** A request fills the mailbox it is made in, and accepts exactly the frame the registers hold. */
  lemma FrameEnters(tsr: bv32, boxes: seq<Mailbox>, outcome: seq<Outcome>, m: nat, box: Mailbox,
                    accepted: seq<Frame>, s0: seq<Frame>, s1: seq<Frame>, failed: seq<Frame>)
    requires TxOk(tsr, boxes, outcome) && m < 3 && outcome[m] != Busy
    requires Conserved(accepted, InMailboxes(tsr, boxes), s0, s1, failed)
    ensures var tsr', boxes' := WithCode(tsr, m, Busy), boxes[m := box];
      && TxOk(tsr', boxes', outcome[m := Busy])
      && !IsEmpty(tsr', m)
      && Conserved(accepted + [Decode(box)], InMailboxes(tsr', boxes'), s0, s1, failed)
  {
    hide InMailboxes, Waiting, WithCode, HasTxrq, Decode, IsEmpty, MailboxOk;
    WaitingIffBusy(tsr, boxes, outcome, m);
    OneMailboxChanges(tsr, boxes, outcome, m, box, Busy);
    WaitingIffBusy(WithCode(tsr, m, Busy), boxes[m := box], outcome[m := Busy], m);
    assert multiset(accepted + [Decode(box)]) == multiset(accepted) + multiset{Decode(box)};
    assert InMailboxes(WithCode(tsr, m, Busy), boxes[m := box]) == InMailboxes(tsr, boxes) + multiset{Decode(box)};
  }

  /** The second switch of CAN_TransmitStatus. */
  function StateOf(state: bv32): bv8 {
    if state == 0 then STATUS_PENDING
    else if state == Rqcp(0) | Tme(0) then STATUS_FAILED
    else if state == Rqcp(1) | Tme(1) then STATUS_FAILED
    else if state == Rqcp(2) | Tme(2) then STATUS_FAILED
    else if state == Rqcp(0) | Txok(0) | Tme(0) then STATUS_OK
    else if state == Rqcp(1) | Txok(1) | Tme(1) then STATUS_OK
    else if state == Rqcp(2) | Txok(2) | Tme(2) then STATUS_OK
    else STATUS_FAILED
  }

  lemma StateOfZero() ensures StateOf(0) == STATUS_PENDING {}

  lemma StateOfCode(m: nat, o: Outcome)
    requires m < 3
    ensures StateOf(Code(m, o)) == match o case Busy => STATUS_PENDING case Sent => STATUS_OK case _ => STATUS_FAILED
  {
  }

  function ReleaseOr(rfr: bv32): bv32 { rfr | RFOM }

  lemma ReleaseRequested(rfr: bv32) ensures IsRelease(ReleaseOr(rfr)) {}

  lemma Split(a: seq<Frame>, b: seq<Frame>) ensures multiset(a + b) == multiset(a) + multiset(b) {}

  lemma PendingMeansSome(n: nat) ensures Fmp(n) > 0 <==> n > 0 {}

  const TSR_RESET: bv32 := 0x1C00_0000

  lemma ResetStatus(m: nat) requires m < 3 ensures Status(TSR_RESET, m) == Code(m, Idle) {}

  lemma ResetCount() ensures Pending(0) == Fmp(0) {}

  /** The output mailbox of FIFO f is what it was: there was a frame in it, or there still is none. */
  ghost predicate Steady(before: seq<Fifo>, after: seq<Fifo>, f: nat) {
    |before| == |after| == 2 && f < 2 && (before[f].mail != [] || after[f].mail == [])
  }

  lemma SettledSelf(b: seq<Mailbox>, o: seq<Outcome>) requires |b| == |o| == 3 ensures Settled(b, o, b, o) {}

  lemma GrownSelf(f: seq<Fifo>) requires |f| == 2 ensures Grown(f, f) {}

  lemma OthersTwice(m: nat, b: seq<Mailbox>, o: seq<Outcome>, b': seq<Mailbox>, o': seq<Outcome>,
                    b'': seq<Mailbox>, o'': seq<Outcome>)
    requires OthersSettled(m, b, o, b', o') && OthersSettled(m, b', o', b'', o'')
    ensures OthersSettled(m, b, o, b'', o'')
  {
  }

  /** What is pending now was pending before. */
  lemma StillBusy(b: seq<Mailbox>, o: seq<Outcome>, b': seq<Mailbox>, o': seq<Outcome>,
                  b'': seq<Mailbox>, o'': seq<Outcome>)
    requires Settled(b, o, b', o') && Settled(b', o', b'', o'')
    ensures forall m | 0 <= m < 3 :: (o''[m] == Busy ==> o'[m] == Busy) && (o'[m] == Busy ==> o[m] == Busy)
  {
  }

  lemma SettledTwice(b: seq<Mailbox>, o: seq<Outcome>, b': seq<Mailbox>, o': seq<Outcome>,
                     b'': seq<Mailbox>, o'': seq<Outcome>)
    requires Settled(b, o, b', o') && Settled(b', o', b'', o'')
    ensures Settled(b, o, b'', o'')
  {
  }

  lemma GrownTwice(f: seq<Fifo>, g: seq<Fifo>, h: seq<Fifo>)
    requires Grown(f, g) && Grown(g, h)
    ensures Grown(f, h)
  {
  }

  /** The cell told in frames. */
  ghost function Told(outcome: seq<Outcome>, boxes: seq<Mailbox>, fifo: seq<Fifo>,
                      accepted: seq<Frame>, failed: seq<Frame>, now: nat): (c: Cell)
    requires |outcome| == |boxes| == 3 && |fifo| == 2
    ensures c.Valid()
  {
    Cell(outcome, [Shown(outcome[0], boxes[0]), Shown(outcome[1], boxes[1]), Shown(outcome[2], boxes[2])],
         [Frames(fifo[0].mail), Frames(fifo[1].mail)], [Indices(fifo[0].mail), Indices(fifo[1].mail)],
         [fifo[0].released, fifo[1].released], accepted, failed, now)
  }

  lemma DeliveryTold(outcome: seq<Outcome>, boxes: seq<Mailbox>, fifo: seq<Fifo>,
                     accepted: seq<Frame>, failed: seq<Frame>, now: nat,
                     m: nat, f: nat, fmi: bv8, time: bv16, box: Mailbox, image: Mailbox)
    requires |outcome| == |boxes| == 3 && |fifo| == 2
    requires m < 3 && f < 2 && outcome[m] == Busy && |fifo[f].mail| < 3
    requires Decode(image) == Decode(boxes[m]) && RxFmi(image.dtr) == fmi
    ensures Told(outcome[m := Sent], boxes[m := box], fifo[f := Store(fifo[f], image, Decode(boxes[m]))],
                 accepted, failed, now)
         == Act(Told(outcome, boxes, fifo, accepted, failed, now), Step.Deliver(m, f, fmi, time))
  {
    hide Decode, AfterStore, RxFmi;
    FramesAppend(fifo[f].mail, image);
    IndicesAppend(fifo[f].mail, image);
  }

  lemma RequestTold(outcome: seq<Outcome>, boxes: seq<Mailbox>, fifo: seq<Fifo>,
                    accepted: seq<Frame>, failed: seq<Frame>, now: nat, m: nat, box: Mailbox)
    requires |outcome| == |boxes| == 3 && |fifo| == 2 && m < 3
    ensures Told(outcome[m := Busy], boxes[m := box], fifo, accepted + [Decode(box)], failed, now)
         == Accept(Told(outcome, boxes, fifo, accepted, failed, now), m, Decode(box))
  {
    hide Decode, Frames;
  }

  lemma GivenUpTold(outcome: seq<Outcome>, boxes: seq<Mailbox>, fifo: seq<Fifo>,
                    accepted: seq<Frame>, failed: seq<Frame>, now: nat, m: nat, box: Mailbox)
    requires |outcome| == |boxes| == 3 && |fifo| == 2 && m < 3 && outcome[m] == Busy
    ensures Told(outcome[m := Failed], boxes[m := box], fifo, accepted, failed + [Decode(boxes[m])], now)
         == Act(Told(outcome, boxes, fifo, accepted, failed, now), Step.GiveUp(m))
  {
    hide Decode, Frames;
  }

  lemma IdleTold(outcome: seq<Outcome>, boxes: seq<Mailbox>, fifo: seq<Fifo>,
                 accepted: seq<Frame>, failed: seq<Frame>, now: nat, m: nat, box: Mailbox)
    requires |outcome| == |boxes| == 3 && |fifo| == 2 && m < 3 && outcome[m] != Busy
    ensures Told(outcome, boxes[m := box], fifo, accepted, failed, now)
         == Told(outcome, boxes, fifo, accepted, failed, now)
  {
    hide Decode, Frames;
  }

  lemma ReleaseTold(outcome: seq<Outcome>, boxes: seq<Mailbox>, fifo: seq<Fifo>,
                    accepted: seq<Frame>, failed: seq<Frame>, now: nat, f: nat, v: bv32)
    requires |outcome| == |boxes| == 3 && |fifo| == 2 && f < 2 && FifoOk(fifo[f])
    ensures Told(outcome, boxes, fifo[f := WriteRfr(fifo[f], v)], accepted, failed, now)
         == var c := Told(outcome, boxes, fifo, accepted, failed, now); if IsRelease(v) then Release(c, f) else c
  {
    hide Decode, FifoOk, WriteRfr, IsRelease;
    ReleaseKeepsOrder(fifo[f], v);
  }

  lemma LaterTold(outcome: seq<Outcome>, boxes: seq<Mailbox>, fifo: seq<Fifo>,
                  accepted: seq<Frame>, failed: seq<Frame>, now: nat)
    requires |outcome| == |boxes| == 3 && |fifo| == 2
    ensures Told(outcome, boxes, fifo, accepted, failed, now).(now := now + 1)
         == Told(outcome, boxes, fifo, accepted, failed, now + 1)
    ensures Told(outcome, boxes, fifo, accepted, failed, now).now == now
  {
    hide Decode, Frames;
  }

  ghost function Shown(o: Outcome, box: Mailbox): Option<Frame> { if o == Busy then Some(Decode(box)) else None }

  class CanCell {
    var TSR: bv32
    var sTxMailBox: seq<Mailbox>  // three transmit mailboxes
    var fifo: seq<Fifo>           // RF0R and sFIFOMailBox[0], RF1R and sFIFOMailBox[1]
    const cell: nat -> seq<Step>  // the steps the cell takes before each register access
    var now: nat                  // how many register accesses were made

    ghost var outcome: seq<Outcome>  // by mailbox: what became of the last request
    ghost var accepted: seq<Frame>   // the frames requested by CAN_Transmit
    ghost var failed: seq<Frame>     // the frames the cell gave up

    /** Registers and history agree, and no frame is lost, invented, duplicated or reordered. */
    ghost predicate Valid()
      reads this
    {
      && |sTxMailBox| == 3 && |outcome| == 3 && |fifo| == 2
      && TxOk(TSR, sTxMailBox, outcome)
      && FifoOk(fifo[0]) && FifoOk(fifo[1])
      && Conserved(accepted, InMailboxes(TSR, sTxMailBox), fifo[0].stored, fifo[1].stored, failed)
    }

    /** The cell told in frames. */
    ghost function Abs(): (c: Cell)
      requires Valid()
      reads this
      ensures c.Valid()
    {
      Told(outcome, sTxMailBox, fifo, accepted, failed, now)
    }

    /** Since the cell was c there were k register accesses, and nothing else. */
    ghost predicate At(c: Cell, k: nat)
      reads this
    {
      c.Valid() && Valid() && Abs() == Moments(c, cell, k)
    }

    /** After a reset: TSR shows three empty mailboxes, whatever their other registers hold. */
    constructor (boxes: seq<Mailbox>, output0: Mailbox, output1: Mailbox, cell: nat -> seq<Step>)
      requires |boxes| == 3 && forall m | 0 <= m < 3 :: !HasTxrq(boxes[m].ir)
      ensures Valid() && TSR == TSR_RESET && sTxMailBox == boxes && this.cell == cell && now == 0
      ensures fifo == [Fifo(0, output0, [], [], []), Fifo(0, output1, [], [], [])]
      ensures outcome == [Idle, Idle, Idle] && accepted == [] && failed == []
    {
      hide Status, Code, IsEmpty, Pending, Fmp, HasTxrq;
      ResetStatus(0);
      ResetStatus(1);
      ResetStatus(2);
      EmptyUnlessBusy(TSR_RESET, 0, Idle);
      EmptyUnlessBusy(TSR_RESET, 1, Idle);
      EmptyUnlessBusy(TSR_RESET, 2, Idle);
      ResetCount();
      TSR, sTxMailBox := TSR_RESET, boxes;
      fifo := [Fifo(0, output0, [], [], []), Fifo(0, output1, [], [], [])];
      outcome, accepted, failed := [Idle, Idle, Idle], [], [];
      this.cell, now := cell, 0;
    }

    // ----- The cell's own steps -----

    /** Loopback: the frame of mailbox m is sent and stored in FIFO f. */
    method Deliver(m: nat, f: nat, fmi: bv8, time: bv16)
      requires Valid() && m < 3 && f < 2 && outcome[m] == Busy && |fifo[f].mail| < 3
      modifies this
      ensures Valid() && accepted == old(accepted) && Abs() == Act(old(Abs()), Step.Deliver(m, f, fmi, time))
      ensures Settled(old(sTxMailBox), old(outcome), sTxMailBox, outcome)
      ensures Grown(old(fifo), fifo) && now == old(now)
    {
      hide Conserved, TxOk, InMailboxes, WithCode, Decode, FifoOk, Emptied, Looped, Told, Act;
      var box := sTxMailBox[m];
      FrameLeaves(TSR, sTxMailBox, outcome, m, Sent, accepted, fifo[0].stored, fifo[1].stored, failed);
      Loopback(box, fmi, time);
      IndexIsLooped(box, fmi, time);
      StoreKeepsOrder(fifo[f], Looped(box, fmi, time));
      DeliveryTold(outcome, sTxMailBox, fifo, accepted, failed, now, m, f, fmi, time,
                   Emptied(box), Looped(box, fmi, time));
      TSR := WithCode(TSR, m, Sent);
      sTxMailBox := sTxMailBox[m := Emptied(box)];
      outcome := outcome[m := Sent];
      fifo := fifo[f := Store(fifo[f], Looped(box, fmi, time), Decode(box))];
    }

    /** The cell gives the frame of mailbox m up. */
    method GiveUp(m: nat)
      requires Valid() && m < 3 && outcome[m] == Busy
      modifies this
      ensures Valid() && accepted == old(accepted) && Abs() == Act(old(Abs()), Step.GiveUp(m))
      ensures Settled(old(sTxMailBox), old(outcome), sTxMailBox, outcome)
      ensures fifo == old(fifo) && now == old(now)
    {
      hide Conserved, TxOk, InMailboxes, WithCode, Decode, FifoOk, Emptied, Told, Act;
      GivenUpTold(outcome, sTxMailBox, fifo, accepted, failed, now, m, Emptied(sTxMailBox[m]));
      FrameLeaves(TSR, sTxMailBox, outcome, m, Failed, accepted, fifo[0].stored, fifo[1].stored, failed);
      failed := failed + [Decode(sTxMailBox[m])];
      TSR := WithCode(TSR, m, Failed);
      sTxMailBox := sTxMailBox[m := Emptied(sTxMailBox[m])];
      outcome := outcome[m := Failed];
    }

    /** One step of the cell; a step it cannot take does nothing. */
    method Take(step: Step)
      requires Valid()
      modifies this
      ensures Valid() && accepted == old(accepted) && Abs() == Act(old(Abs()), step) && now == old(now)
      ensures Settled(old(sTxMailBox), old(outcome), sTxMailBox, outcome)
      ensures Grown(old(fifo), fifo)
    {
      hide Conserved, TxOk, InMailboxes, FifoOk, Decode;
      match step {
        case Deliver(m, f, fmi, time) =>
          if m < 3 && f < 2 && CellMayEnd(m) && |fifo[f].mail| < 3 {
            Deliver(m, f, fmi, time);
          }
        case GiveUp(m) =>
          if m < 3 && CellMayEnd(m) {
            GiveUp(m);
          }
      }
    }

    /** The steps of the cell before one register access. */
    method Hardware()
      requires Valid()
      modifies this
      ensures Valid() && accepted == old(accepted) && Abs() == Moment(old(Abs()), cell)
      ensures Settled(old(sTxMailBox), old(outcome), sTxMailBox, outcome)
      ensures Grown(old(fifo), fifo)
    {
      hide Conserved, TxOk, InMailboxes, FifoOk, Decode, Act, Told, Settled, Grown;
      ghost var c, b, o, f := Abs(), sTxMailBox, outcome, fifo;
      SettledSelf(b, o);
      GrownSelf(f);
      var steps := cell(now);
      for i := 0 to |steps|
        invariant Valid() && accepted == old(accepted) && now == old(now) && Abs() == Acts(c, steps[..i])
        invariant Settled(b, o, sTxMailBox, outcome) && Grown(f, fifo)
      {
        assert steps[..i + 1][..i] == steps[..i];
        ghost var b', o', f' := sTxMailBox, outcome, fifo;
        Take(steps[i]);
        SettledTwice(b, o, b', o', sTxMailBox, outcome);
        GrownTwice(f, f', fifo);
      }
      assert steps[..|steps|] == steps;
      LaterTold(o, b, f, accepted, old(failed), now);
      LaterTold(outcome, sTxMailBox, fifo, accepted, failed, now);
      now := now + 1;
    }

    /** The cell itself knows which requests are pending. */
    predicate CellMayEnd(m: nat)
      requires Valid() && m < 3
      reads this
      ensures CellMayEnd(m) <==> outcome[m] == Busy
    {
      hide Status, Code, IsEmpty, HasTxrq;
      WaitingIffBusy(TSR, sTxMailBox, outcome, m);
      !IsEmpty(TSR, m)
    }

    // ----- Register accesses of the driver; before each the cell takes its steps -----

    method ReadTSR(ghost c: Cell, ghost k: nat) returns (v: bv32)
      requires Valid() && At(c, k)
      modifies this
      ensures Valid() && accepted == old(accepted) && v == TSR && At(c, k + 1)
      ensures Settled(old(sTxMailBox), old(outcome), sTxMailBox, outcome)
      ensures Grown(old(fifo), fifo)
    {
      hide Moment, Told, Act;
      Hardware();
      v := TSR;
    }

    /** Reading the registers of a mailbox that has no request pending. */
    method ReadTxMailBox(m: nat, ghost c: Cell, ghost k: nat) returns (v: Mailbox)
      requires Valid() && m < 3 && outcome[m] != Busy && At(c, k)
      modifies this
      ensures Valid() && accepted == old(accepted) && outcome[m] == old(outcome[m]) && At(c, k + 1)
      ensures v == old(sTxMailBox[m]) == sTxMailBox[m] && !HasTxrq(v.ir)
      ensures OthersSettled(m, old(sTxMailBox), old(outcome), sTxMailBox, outcome)
      ensures Grown(old(fifo), fifo)
    {
      hide TxOk, InMailboxes, HasTxrq, Decode, FifoOk, Conserved, Moment, Told;
      Hardware();
      NoRequestInEmpty(TSR, sTxMailBox, outcome, m);
      v := sTxMailBox[m];
    }

    /** A mailbox register may be written only while no request is pending in that mailbox. */
    method WriteTxMailBox(m: nat, v: Mailbox, ghost c: Cell, ghost k: nat)
      requires Valid() && m < 3 && outcome[m] != Busy && At(c, k)
      requires v.ir == sTxMailBox[m].ir || !HasTxrq(v.ir)
      modifies this
      ensures Valid() && accepted == old(accepted) && outcome[m] == old(outcome[m]) && At(c, k + 1)
      ensures sTxMailBox[m] == v
      ensures OthersSettled(m, old(sTxMailBox), old(outcome), sTxMailBox, outcome)
      ensures Grown(old(fifo), fifo)
    {
      hide TxOk, HasTxrq, Decode, FifoOk, Conserved, InMailboxes, Moment, Told;
      Hardware();
      NoRequestInEmpty(TSR, sTxMailBox, outcome, m);
      assert !HasTxrq(v.ir);
      IdleTold(outcome, sTxMailBox, fifo, accepted, failed, now, m, v);
      IdleMailboxChanges(TSR, sTxMailBox, outcome, m, v);
      sTxMailBox := sTxMailBox[m := v];
    }

    /** Setting TXRQ: the cell takes the frame the registers hold at this moment. */
    method RequestTransmission(m: nat, v: Mailbox, ghost c: Cell, ghost k: nat)
      requires Valid() && m < 3 && outcome[m] != Busy && At(c, k)
      requires v == sTxMailBox[m].(ir := v.ir) && HasTxrq(v.ir)
      modifies this
      ensures Valid() && accepted == old(accepted) + [Decode(v)] && outcome[m] == Busy
      ensures c.Valid() && Abs() == Accept(Moments(c, cell, k + 1), m, Decode(v))
      ensures sTxMailBox[m] == v && !IsEmpty(TSR, m)
      ensures OthersSettled(m, old(sTxMailBox), old(outcome), sTxMailBox, outcome)
      ensures Grown(old(fifo), fifo)
    {
      hide WithCode, HasTxrq, Decode, FifoOk, Conserved, InMailboxes, TxOk, IsEmpty, Moment, Told, Accept;
      Hardware();
      RequestTold(outcome, sTxMailBox, fifo, accepted, failed, now, m, v);
      FrameEnters(TSR, sTxMailBox, outcome, m, v, accepted, fifo[0].stored, fifo[1].stored, failed);
      TSR := WithCode(TSR, m, Busy);
      sTxMailBox := sTxMailBox[m := v];
      outcome := outcome[m := Busy];
      accepted := accepted + [Decode(v)];
    }

    /** Reading a register of the output mailbox of FIFO f. Since the FIFOs were g only the cell has touched them. */
    method ReadFIFOMailBox(f: nat, ghost g: seq<Fifo>, ghost c: Cell, ghost k: nat) returns (v: Mailbox)
      requires Valid() && f < 2 && At(c, k) && Grown(g, fifo)
      modifies this
      ensures Valid() && accepted == old(accepted) && At(c, k + 1) && Grown(g, fifo)
      ensures Steady(g, fifo, f) ==> Steady(g, old(fifo), f) && v == g[f].output
    {
      hide TxOk, Decode, Conserved, InMailboxes, FifoOk, Moment, Told;
      Hardware();
      v := fifo[f].output;
    }

    method ReadRFR(f: nat, ghost c: Cell, ghost k: nat) returns (v: bv32)
      requires Valid() && f < 2 && At(c, k)
      modifies this
      ensures Valid() && accepted == old(accepted) && Pending(v) == Fmp(|fifo[f].mail|) && At(c, k + 1)
      ensures Grown(old(fifo), fifo) && |fifo[f].mail| <= 3
    {
      hide TxOk, Decode, Conserved, InMailboxes, Pending, Fmp, Moment, Told;
      Hardware();
      v := fifo[f].rfr;
    }

    /** A write to RFxR; only one with the release bit takes a frame away, the oldest, if there is one. */
    method WriteRFR(f: nat, v: bv32, ghost c: Cell, ghost k: nat)
      requires Valid() && f < 2 && At(c, k)
      modifies this
      ensures Valid() && accepted == old(accepted) && c.Valid()
      ensures Abs() == var end := Moments(c, cell, k + 1); if IsRelease(v) then Release(end, f) else end
      ensures fifo[1 - f].released == old(fifo[1 - f].released)
      ensures !IsRelease(v) ==> fifo[f].released == old(fifo[f].released)
      ensures IsRelease(v) && old(fifo[f].mail) != [] ==>
        fifo[f].released == old(fifo[f].released) + [Decode(old(fifo[f].mail[0]))]
      ensures old(fifo[f].released) <= fifo[f].released && |fifo[f].released| <= |old(fifo[f].released)| + 1
    {
      hide TxOk, Decode, Conserved, InMailboxes, FifoOk, IsRelease, WriteRfr, Moment, Told, Release;
      Hardware();
      ReleaseTold(outcome, sTxMailBox, fifo, accepted, failed, now, f, v);
      ReleaseKeepsOrder(fifo[f], v);
      fifo := fifo[f := WriteRfr(fifo[f], v)];
    }

    // ----- The driver -----

    lemma AtStart()
      requires Valid()
      ensures At(Abs(), 0)
    {
      hide Told;
    }

    lemma AtOutcome(c: Cell, k: nat)
      requires At(c, k)
      ensures c.Valid() && Moments(c, cell, k).outcome == outcome
    {
      hide Moments, Decode, Frames;
    }

    lemma AtMail(c: Cell, k: nat, f: nat)
      requires At(c, k) && f < 2
      ensures c.Valid() && Moments(c, cell, k).mail[f] == Frames(fifo[f].mail)
    {
      hide Moments, Decode, Frames;
    }

    lemma FirstIndex(f: nat)
      requires Valid() && f < 2 && fifo[f].mail != []
      ensures Abs().index[f][0] == RxFmi(fifo[f].mail[0].dtr)
    {
      hide RxFmi, Decode;
    }

    /** CAN_Transmit: the lowest mailbox found empty takes the whole frame; the others stay as they are. */
    method Transmit(msg: CanMsg) returns (mailbox: nat)
      requires Valid() && msg.WellFormed()
      modifies this, msg`DLC
      ensures Valid() && Abs() == Sending(old(Abs()), cell, old(msg.Meaning()))
      ensures mailbox == (if Choice(old(Abs()), cell) < 3 then Choice(old(Abs()), cell) else NO_MAILBOX)
      ensures mailbox < 3 ==> accepted == old(accepted) + [old(msg.Meaning())] && msg.DLC == LowNibble(old(msg.DLC))
      ensures mailbox < 3 ==> !IsEmpty(TSR, mailbox) && Decode(sTxMailBox[mailbox]) == old(msg.Meaning())
      ensures mailbox == NO_MAILBOX ==> accepted == old(accepted) && msg.DLC == old(msg.DLC)
      ensures forall k | 0 <= k < 3 && k < mailbox :: old(outcome[k]) == Busy
      ensures OthersSettled(mailbox, old(sTxMailBox), old(outcome), sTxMailBox, outcome)
      ensures Grown(old(fifo), fifo)
    {
      hide TxOk, Decode, Conserved, InMailboxes, FifoOk, IsEmpty, LowNibble, Message, Settled, OthersSettled, Grown;
      hide Told, Moments, Choice, Accept;
      ghost var c, boxes, was, f := Abs(), sTxMailBox, outcome, fifo;
      mailbox := ChooseMailbox(c);
      ghost var boxes', was', f' := sTxMailBox, outcome, fifo;
      if mailbox != NO_MAILBOX {
        FillMailbox(mailbox, msg, c, mailbox + 1);
        GrownTwice(f, f', fifo);
      }
      SettledThenOthers(mailbox, boxes, was, boxes', was', sTxMailBox, outcome);
    }

    /** The first part of CAN_Transmit: TSR is read once for each mailbox looked at, and completions may come between
        the reads. */
    method ChooseMailbox(ghost c: Cell) returns (mailbox: nat)
      requires Valid() && c == Abs()
      modifies this
      ensures Valid() && accepted == old(accepted)
      ensures mailbox == (if Choice(c, cell) < 3 then Choice(c, cell) else NO_MAILBOX)
      ensures At(c, if mailbox < 3 then mailbox + 1 else 3)
      ensures mailbox < 3 ==> outcome[mailbox] != Busy
      ensures forall k | 0 <= k < 3 && k < mailbox :: old(outcome[k]) == Busy
      ensures Settled(old(sTxMailBox), old(outcome), sTxMailBox, outcome)
      ensures Grown(old(fifo), fifo)
    {
      hide TxOk, Decode, Conserved, InMailboxes, FifoOk, IsEmpty, Told, Moments, At, Grown, Settled;
      ghost var b, o, f := sTxMailBox, outcome, fifo;
      SettledSelf(b, o);
      AtStart();
      var found := LookAt(0, c);
      StillBusy(b, o, b, o, sTxMailBox, outcome);
      if found {
        mailbox := 0;
      } else {
        ghost var b1, o1, f1 := sTxMailBox, outcome, fifo;
        found := LookAt(1, c);
        StillBusy(b, o, b1, o1, sTxMailBox, outcome);
        SettledTwice(b, o, b1, o1, sTxMailBox, outcome);
        GrownTwice(f, f1, fifo);
        if found {
          mailbox := 1;
        } else {
          ghost var b2, o2, f2 := sTxMailBox, outcome, fifo;
          found := LookAt(2, c);
          StillBusy(b, o, b2, o2, sTxMailBox, outcome);
          SettledTwice(b, o, b2, o2, sTxMailBox, outcome);
          GrownTwice(f, f2, fifo);
          mailbox := if found then 2 else NO_MAILBOX;
        }
      }
    }

    /** One look at TSR: is mailbox m empty? */
    method LookAt(m: nat, ghost c: Cell) returns (found: bool)
      requires Valid() && m < 3 && At(c, m)
      modifies this
      ensures Valid() && accepted == old(accepted) && At(c, m + 1)
      ensures found == (outcome[m] != Busy) && c.Valid() && Moments(c, cell, m + 1).outcome == outcome
      ensures Settled(old(sTxMailBox), old(outcome), sTxMailBox, outcome)
      ensures Grown(old(fifo), fifo)
    {
      hide TxOk, Decode, Conserved, InMailboxes, FifoOk, IsEmpty, Told, Moments, At, Grown, Settled;
      var tsr := ReadTSR(c, m);
      WaitingIffBusy(TSR, sTxMailBox, outcome, m);
      AtOutcome(c, m + 1);
      found := IsEmpty(tsr, m);
    }

    /** The body of CAN_Transmit once a mailbox is chosen: identifier, length, data, and only then the request. */
    method FillMailbox(m: nat, msg: CanMsg, ghost c: Cell, ghost k: nat)
      requires Valid() && msg.WellFormed() && m < 3 && outcome[m] != Busy && At(c, k)
      modifies this, msg`DLC
      ensures Valid() && c.Valid() && Abs() == Accept(Moments(c, cell, k + 12), m, old(msg.Meaning()))
      ensures accepted == old(accepted) + [old(msg.Meaning())] && msg.DLC == LowNibble(old(msg.DLC))
      ensures !IsEmpty(TSR, m) && Decode(sTxMailBox[m]) == old(msg.Meaning())
      ensures OthersSettled(m, old(sTxMailBox), old(outcome), sTxMailBox, outcome)
      ensures Grown(old(fifo), fifo)
    {
      hide TxOk, Decode, Conserved, InMailboxes, FifoOk, IsEmpty, HasTxrq, Told, Moments, At, Accept;
      hide OthersSettled, Grown;
      hide IdWord, LengthWord, LowNibble, Word, KeepTxrq, AddTxrq, AddId, Message;
      ghost var b, o, f := sTxMailBox, outcome, fifo;
      var id := IdWord(msg.StdId, msg.ExtId, msg.IDE, msg.RTR);
      SetIdentifier(m, msg, id, c, k);
      ghost var b1, o1, f1 := sTxMailBox, outcome, fifo;
      // set up the length
      ghost var dlc, tdtr := msg.DLC, sTxMailBox[m].dtr;
      msg.DLC := LowNibble(msg.DLC);
      SetLength(m, msg, c, k + 4);
      OthersTwice(m, b, o, b1, o1, sTxMailBox, outcome);
      GrownTwice(f, f1, fifo);
      ghost var b2, o2, f2 := sTxMailBox, outcome, fifo;
      SetData(m, msg, c, k + 8);
      OthersTwice(m, b, o, b2, o2, sTxMailBox, outcome);
      GrownTwice(f, f2, fifo);
      ghost var b3, o3, f3 := sTxMailBox, outcome, fifo;
      // request transmission
      var box := ReadTxMailBox(m, c, k + 10);
      OthersTwice(m, b, o, b3, o3, sTxMailBox, outcome);
      GrownTwice(f, f3, fifo);
      ghost var b4, o4, f4 := sTxMailBox, outcome, fifo;
      TxrqAdded(box.ir);
      box := box.(ir := AddTxrq(box.ir));
      MailboxHoldsMessage(box, msg.StdId, msg.ExtId, msg.IDE, msg.RTR, dlc, msg.Data, tdtr);
      RequestTransmission(m, box, c, k + 11);
      OthersTwice(m, b, o, b4, o4, sTxMailBox, outcome);
      GrownTwice(f, f4, fifo);
    }

    method SetIdentifier(m: nat, msg: CanMsg, id: bv32, ghost c: Cell, ghost k: nat)
      requires Valid() && msg.WellFormed() && m < 3 && outcome[m] != Busy && At(c, k)
      requires id == IdWord(msg.StdId, msg.ExtId, msg.IDE, msg.RTR)
      modifies this
      ensures Valid() && accepted == old(accepted) && outcome[m] == old(outcome[m]) && At(c, k + 4)
      ensures sTxMailBox[m] == old(sTxMailBox[m]).(ir := id)
      ensures OthersSettled(m, old(sTxMailBox), old(outcome), sTxMailBox, outcome)
      ensures Grown(old(fifo), fifo)
    {
      hide TxOk, Decode, Conserved, InMailboxes, FifoOk, HasTxrq, IdWord, KeepTxrq, AddId, Told, Moments, At;
      var box := ReadTxMailBox(m, c, k);
      NothingKept(box.ir);
      NothingRequested();
      WriteTxMailBox(m, box.(ir := KeepTxrq(box.ir)), c, k + 1);
      box := ReadTxMailBox(m, c, k + 2);
      IdAlone(id);
      NoRequestYet(msg.StdId, msg.ExtId, msg.IDE, msg.RTR);
      WriteTxMailBox(m, box.(ir := AddId(box.ir, id)), c, k + 3);
    }

    method SetLength(m: nat, msg: CanMsg, ghost c: Cell, ghost k: nat)
      requires Valid() && m < 3 && outcome[m] != Busy && At(c, k)
      modifies this
      ensures Valid() && accepted == old(accepted) && outcome[m] == old(outcome[m]) && At(c, k + 4)
      ensures sTxMailBox[m] == old(sTxMailBox[m]).(dtr := LengthWord(old(sTxMailBox[m]).dtr, msg.DLC))
      ensures OthersSettled(m, old(sTxMailBox), old(outcome), sTxMailBox, outcome)
      ensures Grown(old(fifo), fifo)
    {
      hide TxOk, Decode, Conserved, InMailboxes, FifoOk, HasTxrq, ClearLength, AddLength, Told, Moments, At;
      var box := ReadTxMailBox(m, c, k);
      WriteTxMailBox(m, box.(dtr := ClearLength(box.dtr)), c, k + 1);
      box := ReadTxMailBox(m, c, k + 2);
      WriteTxMailBox(m, box.(dtr := AddLength(box.dtr, msg.DLC)), c, k + 3);
    }

    method SetData(m: nat, msg: CanMsg, ghost c: Cell, ghost k: nat)
      requires Valid() && msg.WellFormed() && m < 3 && outcome[m] != Busy && At(c, k)
      modifies this
      ensures Valid() && accepted == old(accepted) && outcome[m] == old(outcome[m]) && At(c, k + 2)
      ensures sTxMailBox[m] == old(sTxMailBox[m]).(dlr := Word(msg.Data[3], msg.Data[2], msg.Data[1], msg.Data[0]),
                                                   dhr := Word(msg.Data[7], msg.Data[6], msg.Data[5], msg.Data[4]))
      ensures OthersSettled(m, old(sTxMailBox), old(outcome), sTxMailBox, outcome)
      ensures Grown(old(fifo), fifo)
    {
      hide TxOk, Decode, Conserved, InMailboxes, FifoOk, HasTxrq, Word, Told, Moments, At;
      WriteTxMailBox(m, sTxMailBox[m].(dlr := Word(msg.Data[3], msg.Data[2], msg.Data[1], msg.Data[0])), c, k);
      WriteTxMailBox(m, sTxMailBox[m].(dhr := Word(msg.Data[7], msg.Data[6], msg.Data[5], msg.Data[4])), c, k + 1);
    }

    /** CAN_Receive: called with a frame pending, it hands over the oldest one and drops exactly that one, even
        though the cell may store more between any two of its reads. Called with none, and none stored before its last
        read, it hands over what the output mailbox still shows. */
    method Receive(f: nat, msg: CanMsg)
      requires Valid() && f < 2
      modifies this, msg
      ensures Valid() && accepted == old(accepted) && Abs() == Receiving(old(Abs()), cell, f)
      ensures fifo[1 - f].released == old(fifo[1 - f].released)
      ensures msg.WellFormed()
      ensures old(fifo[f].mail) != [] ==>
        && msg.Meaning() == Decode(old(fifo[f].mail[0]))
        && msg.FMI == old(Abs()).index[f][0]
        && fifo[f].released == old(fifo[f].released) + [msg.Meaning()]
      ensures Moments(old(Abs()), cell, 14).mail[f] == [] ==> msg.Meaning() == Decode(old(fifo[f].output))
      ensures msg.IDE == ID_STANDARD ==> msg.ExtId == old(msg.ExtId)
      ensures msg.IDE != ID_STANDARD ==> msg.StdId == old(msg.StdId)
      ensures old(fifo[f].released) <= fifo[f].released && |fifo[f].released| <= |old(fifo[f].released)| + 1
    {
      hide TxOk, Decode, Conserved, InMailboxes, FifoOk, IsRelease, Pending, Fmp, ReleaseOr, Message;
      hide Told, Moments, At, Release;
      ghost var c, g := Abs(), fifo;
      AtStart();
      if fifo[f].mail != [] {
        OutputIsHead(fifo[f]);
        FirstIndex(f);
      }
      ReadMessage(f, msg, c);
      ghost var g1 := fifo;
      // release the FIFO
      var rfr := ReadRFR(f, c, 13);
      GrownTwice(g, g1, fifo);
      AtMail(c, 14, f);
      ReleaseRequested(rfr);
      WriteRFR(f, ReleaseOr(rfr), c, 14);
    }

    /** CAN_Receive up to the release. */
    method ReadMessage(f: nat, msg: CanMsg, ghost c: Cell)
      requires Valid() && f < 2 && At(c, 0)
      modifies this, msg
      ensures Valid() && accepted == old(accepted) && At(c, 13) && Grown(old(fifo), fifo)
      ensures msg.WellFormed()
      ensures Steady(old(fifo), fifo, f) ==>
        && msg.Meaning() == Decode(old(fifo[f].output))
        && msg.FMI == RxFmi(old(fifo[f].output.dtr))
      ensures msg.IDE == ID_STANDARD ==> msg.ExtId == old(msg.ExtId)
      ensures msg.IDE != ID_STANDARD ==> msg.StdId == old(msg.StdId)
    {
      hide TxOk, Decode, Conserved, InMailboxes, FifoOk, Told, Moments, At, Grown, Steady;
      hide RxIde, RxStdId, RxExtId, RxRtr, RxDlc, RxFmi, Bytes, Low11, Low29, LowNibble;
      ghost var g := fifo;
      GrownSelf(g);
      ReadHeader(f, msg, g, c);
      var low := ReadDataLow(f, g, c, 5);
      var high := ReadDataHigh(f, g, c, 9);
      msg.Data := low + high;
      ghost var o := g[f].output;
      if Steady(g, fifo, f) {
        assert msg.Data == Bytes(o.dlr, o.dhr);
        ExtractedFields(o, msg.StdId, msg.ExtId);
      }
    }

    /** The reads of RIR and RDTR. */
    method ReadHeader(f: nat, msg: CanMsg, ghost g: seq<Fifo>, ghost c: Cell)
      requires Valid() && f < 2 && At(c, 0) && Grown(g, fifo)
      modifies this, msg
      ensures Valid() && accepted == old(accepted) && At(c, 5) && Grown(g, fifo)
      ensures msg.IDE == ID_STANDARD || msg.IDE == ID_EXTENDED
      ensures msg.RTR == RTR_DATA || msg.RTR == RTR_REMOTE
      ensures msg.IDE == ID_STANDARD ==> msg.ExtId == old(msg.ExtId)
      ensures msg.IDE != ID_STANDARD ==> msg.StdId == old(msg.StdId)
      ensures Steady(g, fifo, f) ==>
        && Steady(g, old(fifo), f)
        && var o := g[f].output;
        && msg.IDE == RxIde(o.ir) && msg.RTR == RxRtr(o.ir)
        && msg.DLC == RxDlc(o.dtr) && msg.FMI == RxFmi(o.dtr)
        && (msg.IDE == ID_STANDARD ==> msg.StdId == RxStdId(o.ir))
        && (msg.IDE != ID_STANDARD ==> msg.ExtId == RxExtId(o.ir))
    {
      hide TxOk, Decode, Conserved, InMailboxes, FifoOk, Told, Moments, At, Grown, Steady, Valid;
      hide RxIde, RxStdId, RxExtId, RxRtr, RxDlc, RxFmi;
      ReadIdentifier(f, msg, g, c);
      var r := ReadFIFOMailBox(f, g, c, 2);
      msg.RTR := RxRtr(r.ir);
      RxRtrValues(r.ir);
      r := ReadFIFOMailBox(f, g, c, 3);
      msg.DLC := RxDlc(r.dtr);
      r := ReadFIFOMailBox(f, g, c, 4);
      msg.FMI := RxFmi(r.dtr);
    }

    /** The kind of identifier, and the identifier. */
    method ReadIdentifier(f: nat, msg: CanMsg, ghost g: seq<Fifo>, ghost c: Cell)
      requires Valid() && f < 2 && At(c, 0) && Grown(g, fifo)
      modifies this, msg
      ensures Valid() && accepted == old(accepted) && At(c, 2) && Grown(g, fifo)
      ensures msg.IDE == ID_STANDARD || msg.IDE == ID_EXTENDED
      ensures msg.IDE == ID_STANDARD ==> msg.ExtId == old(msg.ExtId)
      ensures msg.IDE != ID_STANDARD ==> msg.StdId == old(msg.StdId)
      ensures Steady(g, fifo, f) ==>
        && Steady(g, old(fifo), f)
        && var o := g[f].output;
        && msg.IDE == RxIde(o.ir)
        && (msg.IDE == ID_STANDARD ==> msg.StdId == RxStdId(o.ir))
        && (msg.IDE != ID_STANDARD ==> msg.ExtId == RxExtId(o.ir))
    {
      hide TxOk, Decode, Conserved, InMailboxes, FifoOk, Told, Moments, At, Grown, Steady, Valid;
      hide RxIde, RxStdId, RxExtId;
      var r := ReadFIFOMailBox(f, g, c, 0);
      msg.IDE := RxIde(r.ir);
      RxIdeValues(r.ir);
      r := ReadFIFOMailBox(f, g, c, 1);
      if msg.IDE == ID_STANDARD {
        msg.StdId := RxStdId(r.ir);
      } else {
        msg.ExtId := RxExtId(r.ir);
      }
    }

    /** The four reads of RDLR. */
    method ReadDataLow(f: nat, ghost g: seq<Fifo>, ghost c: Cell, ghost k: nat) returns (b: seq<bv8>)
      requires Valid() && f < 2 && At(c, k) && Grown(g, fifo)
      modifies this
      ensures Valid() && accepted == old(accepted) && |b| == 4 && At(c, k + 4) && Grown(g, fifo)
      ensures Steady(g, fifo, f) ==> Steady(g, old(fifo), f) && b == Bytes(g[f].output.dlr, g[f].output.dhr)[..4]
    {
      hide TxOk, Decode, Conserved, InMailboxes, FifoOk, Told, Moments, At, Grown, Steady, Byte0, Byte1, Byte2, Byte3;
      var r0 := ReadFIFOMailBox(f, g, c, k);
      var r1 := ReadFIFOMailBox(f, g, c, k + 1);
      var r2 := ReadFIFOMailBox(f, g, c, k + 2);
      var r3 := ReadFIFOMailBox(f, g, c, k + 3);
      b := [Byte0(r0.dlr), Byte1(r1.dlr), Byte2(r2.dlr), Byte3(r3.dlr)];
    }

    /** The four reads of RDHR. */
    method ReadDataHigh(f: nat, ghost g: seq<Fifo>, ghost c: Cell, ghost k: nat) returns (b: seq<bv8>)
      requires Valid() && f < 2 && At(c, k) && Grown(g, fifo)
      modifies this
      ensures Valid() && accepted == old(accepted) && |b| == 4 && At(c, k + 4) && Grown(g, fifo)
      ensures Steady(g, fifo, f) ==> Steady(g, old(fifo), f) && b == Bytes(g[f].output.dlr, g[f].output.dhr)[4..]
    {
      hide TxOk, Decode, Conserved, InMailboxes, FifoOk, Told, Moments, At, Grown, Steady, Byte0, Byte1, Byte2, Byte3;
      var r0 := ReadFIFOMailBox(f, g, c, k);
      var r1 := ReadFIFOMailBox(f, g, c, k + 1);
      var r2 := ReadFIFOMailBox(f, g, c, k + 2);
      var r3 := ReadFIFOMailBox(f, g, c, k + 3);
      b := [Byte0(r0.dhr), Byte1(r1.dhr), Byte2(r2.dhr), Byte3(r3.dhr)];
    }

    /** CAN_MessagePending: how many frames the FIFO stores when it is asked. */
    method MessagePending(f: nat) returns (n: bv32)
      requires Valid()
      modifies this
      ensures Valid() && accepted == old(accepted) && Grown(old(fifo), fifo)
      ensures f < 2 ==> n == Fmp(|fifo[f].mail|) && n as nat == |fifo[f].mail| && |fifo[f].mail| <= 3
      ensures f < 2 ==> Abs() == Moments(old(Abs()), cell, 1)
      ensures f >= 2 ==> n == 0 && Abs() == old(Abs())
    {
      hide TxOk, Decode, Conserved, InMailboxes, FifoOk, Pending, Fmp, Told, Moments;
      n := 0;
      if f < 2 {
        ghost var c := Abs();
        AtStart();
        var rfr := ReadRFR(f, c, 0);
        n := Pending(rfr);
        CountIsNumber(|fifo[f].mail|);
      }
    }

    /** CAN_TransmitStatus: what became of the last request in the mailbox, as far as the cell has got.
        A mailbox number out of range is reported as pending. */
    method TransmitStatus(mailbox: nat) returns (status: bv8)
      requires Valid()
      modifies this
      ensures Valid() && accepted == old(accepted) && Grown(old(fifo), fifo)
      ensures Abs() == Moments(old(Abs()), cell, if mailbox < 3 then 1 else 0)
      ensures Settled(old(sTxMailBox), old(outcome), sTxMailBox, outcome)
      ensures mailbox < 3 ==>
        && (status == 2 <==> outcome[mailbox] == Busy)
        && (status == 1 <==> outcome[mailbox] == Sent)
        && (status == 0 <==> outcome[mailbox] == Failed || outcome[mailbox] == Idle)
      ensures mailbox >= 3 ==> status == 2
    {
      hide Decode, Conserved, InMailboxes, FifoOk, Status, Code, HasTxrq, StateOf, Told;
      var state: bv32 := 0;  // CAN_TxStatus_Failed
      ghost var c := Abs();
      AtStart();
      if mailbox < 3 {
        var tsr := ReadTSR(c, 0);
        state := Status(tsr, mailbox);
        StateOfCode(mailbox, outcome[mailbox]);
      }
      StateOfZero();
      status := StateOf(state);
    }

    // ----- Whole runs -----

    /** Every accepted frame waits in a mailbox, waits in a FIFO, was handed over, or was given up by the cell. */
    lemma NothingLost()
      requires Valid()
      ensures multiset(accepted)
           == InMailboxes(TSR, sTxMailBox) + multiset(Frames(fifo[0].mail)) + multiset(Frames(fifo[1].mail))
            + multiset(fifo[0].released) + multiset(fifo[1].released) + multiset(failed)
      ensures fifo[0].stored == fifo[0].released + Frames(fifo[0].mail)
      ensures fifo[1].stored == fifo[1].released + Frames(fifo[1].mail)
    {
      hide TxOk, InMailboxes, Decode, Pending, Fmp;
      Split(fifo[0].released, Frames(fifo[0].mail));
      Split(fifo[1].released, Frames(fifo[1].mail));
    }

    /** Any run of sends and guarded receives, from any state and on any stream of steps of the cell: the cell ends
        where the fold over calls and stream says, and what is sent and received is what the fold says, call by call.
        Nothing is lost on the way, and each FIFO hands over in the order it stored. */
    method Run(calls: seq<Call>) returns (sent: seq<Frame>, got: (seq<Frame>, seq<Frame>))
      requires Valid() && LegalCalls(calls)
      modifies this
      ensures Valid() && Abs() == Effects(old(Abs()), cell, calls)
      ensures sent == SentBy(old(Abs()), cell, calls) && accepted == old(accepted) + sent
      ensures got == (GotBy(old(Abs()), cell, calls, 0), GotBy(old(Abs()), cell, calls, 1))
      ensures fifo[0].released == old(fifo[0].released) + got.0 && fifo[1].released == old(fifo[1].released) + got.1
      ensures multiset(old(accepted) + sent)
           == InMailboxes(TSR, sTxMailBox) + multiset(Frames(fifo[0].mail)) + multiset(Frames(fifo[1].mail))
            + multiset(old(fifo[0].released) + got.0) + multiset(old(fifo[1].released) + got.1) + multiset(failed)
      ensures fifo[0].stored == old(fifo[0].released) + got.0 + Frames(fifo[0].mail)
      ensures fifo[1].stored == old(fifo[1].released) + got.1 + Frames(fifo[1].mail)
    {
      hide TxOk, InMailboxes, Decode, Conserved, FifoOk, Frames, Message, Call.Legal;
      hide Told, Moments, Effects, Choice, SentBy, GotBy, Sending, Asking;
      ghost var c := Abs();
      sent := [];
      var got0, got1 := [], [];
      NoCallsYet(c, cell, calls);
      for i := 0 to |calls|
        invariant Valid() && Abs() == Effects(c, cell, calls[..i])
        invariant sent == SentBy(c, cell, calls[..i]) && accepted == old(accepted) + sent
        invariant got0 == GotBy(c, cell, calls[..i], 0) && got1 == GotBy(c, cell, calls[..i], 1)
        invariant fifo[0].released == old(fifo[0].released) + got0 && fifo[1].released == old(fifo[1].released) + got1
      {
        assert calls[i].Legal();
        EffectsStep(c, cell, calls, i);
        GotStep(c, cell, calls, i, 0);
        GotStep(c, cell, calls, i, 1);
        if calls[i].Send? {
          var frames := Offer(calls[i]);
          sent := sent + frames;
        } else {
          LegalPoll(calls[i]);
          var frames := Ask(calls[i].f);
          if calls[i].f == 0 { got0 := got0 + frames; } else { got1 := got1 + frames; }
        }
      }
      assert calls[..|calls|] == calls;
      NothingLost();
      got := (got0, got1);
    }

    /** One send: the frame, unless it is refused; and it is refused exactly as the fold says, so only with all three
        mailboxes busy at the call. */
    method Offer(call: Call) returns (frames: seq<Frame>)
      requires Valid() && call.Send? && call.Legal()
      modifies this
      ensures Valid() && Abs() == Sending(old(Abs()), cell, call.Content()) && accepted == old(accepted) + frames
      ensures frames == if Choice(old(Abs()), cell) < 3 then [call.Content()] else []
      ensures fifo[0].released == old(fifo[0].released) && fifo[1].released == old(fifo[1].released)
      ensures frames == [] ==> old(outcome) == [Busy, Busy, Busy]
    {
      hide TxOk, InMailboxes, Decode, Conserved, FifoOk, Low11, Low29, LowNibble, OthersSettled, Told, Choice, Sending;
      var msg := new CanMsg(call.stdId, call.extId, call.ide, call.rtr, call.dlc, call.data);
      var mailbox := Transmit(msg);
      frames := if mailbox != NO_MAILBOX then [call.Content()] else [];
    }

    /** One guarded receive: the frame, if one was pending when the FIFO was asked. */
    method Ask(f: nat) returns (frames: seq<Frame>)
      requires Valid() && f < 2
      modifies this
      ensures Valid() && Abs() == Asking(old(Abs()), cell, f) && accepted == old(accepted)
      ensures frames == Handed(old(Abs()), cell, f) && fifo[f].released == old(fifo[f].released) + frames
      ensures fifo[1 - f].released == old(fifo[1 - f].released)
      ensures frames == [] ==> old(fifo[f].mail) == []
    {
      hide TxOk, InMailboxes, Decode, Conserved, FifoOk, Pending, Fmp, Low11, Low29, LowNibble, Message;
      hide Told, Moments, Receiving;
      frames := [];
      ghost var c := Abs();
      AtStart();
      var n := MessagePending(f);
      assert At(c, 1);
      AtMail(c, 1, f);
      PendingMeansSome(|fifo[f].mail|);
      if n > 0 {
        var msg := new CanMsg(0, 0, 0, 0, 0, []);
        Receive(f, msg);
        frames := [Message(msg.StdId, msg.ExtId, msg.IDE, msg.RTR, msg.DLC, msg.Data)];
      }
    }
  }

  /** CAN_Receive without CAN_MessagePending can lose a frame: one stored after its last read is dropped by its release,
      and the caller is given what the output mailbox held before. */
  method LoseFrame(can: CanCell, f: nat, fmi: bv8, time: bv16, msg: CanMsg)
    requires can.Valid() && f < 2 && can.fifo[f].mail == [] && can.outcome[0] == Busy
    requires forall i | can.now <= i < can.now + 14 :: can.cell(i) == []
    requires can.cell(can.now + 14) == [Deliver(0, f, fmi, time)]
    modifies can, msg
    ensures can.Valid() && can.fifo[f].mail == []
    ensures can.fifo[f].released == old(can.fifo[f].released) + [Decode(old(can.sTxMailBox[0]))]
    ensures msg.Meaning() == Decode(old(can.fifo[f].output))
  {
    hide TxOk, InMailboxes, Decode, Conserved, FifoOk, Low11, Low29, LowNibble, Message, Moments, Receiving;
    LateDelivery(can.Abs(), can.cell, f, fmi, time);
    can.Receive(f, msg);
  }

  lemma OutputIsHead(f: Fifo) requires FifoOk(f) && f.mail != [] ensures f.output == f.mail[0] {}
}
