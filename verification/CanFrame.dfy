/** The bit layout of a CAN frame in a transmit mailbox and in a receive FIFO mailbox. */
module CanFrame {

  const ID_STANDARD: bv8 := 0x00
  const ID_EXTENDED: bv8 := 0x04
  const RTR_DATA: bv8 := 0x00
  const RTR_REMOTE: bv8 := 0x02
  const TXRQ: bv32 := 0x0000_0001

  /** What a frame says on the bus, independent of any register layout. */
  datatype Frame =
    | Standard(id: bv32, remote: bool, dlc: bv8, data: seq<bv8>)
    | Extended(id: bv32, remote: bool, dlc: bv8, data: seq<bv8>)

  /** The four registers of a mailbox: identifier, length and time, data low, data high. */
  datatype Mailbox = Mailbox(ir: bv32, dtr: bv32, dlr: bv32, dhr: bv32)

  /** The message a driver's caller fills in or gets back (the eight data bytes are a value). */
  class CanMsg {
    var StdId: bv32
    var ExtId: bv32
    var IDE: bv8
    var RTR: bv8
    var DLC: bv8
    var FMI: bv8
    var Data: seq<bv8>

    constructor (stdId: bv32, extId: bv32, ide: bv8, rtr: bv8, dlc: bv8, data: seq<bv8>)
      ensures StdId == stdId && ExtId == extId && IDE == ide && RTR == rtr && DLC == dlc && Data == data
    {
      StdId, ExtId, IDE, RTR, DLC, Data, FMI := stdId, extId, ide, rtr, dlc, data, 0;
    }

    ghost predicate WellFormed()
      reads this
    {
      |Data| == 8 && (IDE == ID_STANDARD || IDE == ID_EXTENDED) && (RTR == RTR_DATA || RTR == RTR_REMOTE)
    }

    /** The frame this message stands for: only the identifier that IDE selects counts. */
    ghost function Meaning(): Frame
      reads this
    {
      Message(StdId, ExtId, IDE, RTR, DLC, Data)
    }
  }

  function Message(stdId: bv32, extId: bv32, ide: bv8, rtr: bv8, dlc: bv8, data: seq<bv8>): Frame {
    if ide == ID_STANDARD
    then Standard(Low11(stdId), rtr == RTR_REMOTE, LowNibble(dlc), data)
    else Extended(Low29(extId), rtr == RTR_REMOTE, LowNibble(dlc), data)
  }

  function Low11(id: bv32): bv32 { id & 0x7FF }
  function Low29(id: bv32): bv32 { id & 0x1FFF_FFFF }

  // ----- The receiving side: fields as the hardware lays them out -----

  function Byte0(w: bv32): bv8 { (w & 0xFF) as bv8 }
  function Byte1(w: bv32): bv8 { ((w >> 8) & 0xFF) as bv8 }
  function Byte2(w: bv32): bv8 { ((w >> 16) & 0xFF) as bv8 }
  function Byte3(w: bv32): bv8 { ((w >> 24) & 0xFF) as bv8 }

  function Bytes(lo: bv32, hi: bv32): (s: seq<bv8>)
    ensures |s| == 8
  {
    [Byte0(lo), Byte1(lo), Byte2(lo), Byte3(lo), Byte0(hi), Byte1(hi), Byte2(hi), Byte3(hi)]
  }

  /** The frame a mailbox image holds. Request bit, time stamp and filter index are no part of it. */
  function Decode(m: Mailbox): Frame {
    if IsStandard(m.ir)
    then Standard(StdOf(m.ir), IsRemote(m.ir), DlcOf(m.dtr), Bytes(m.dlr, m.dhr))
    else Extended(ExtOf(m.ir), IsRemote(m.ir), DlcOf(m.dtr), Bytes(m.dlr, m.dhr))
  }

  predicate IsStandard(ir: bv32) { ir & 0x4 == 0 }
  predicate IsRemote(ir: bv32) { ir & 0x2 != 0 }
  function StdOf(ir: bv32): bv32 { ir >> 21 }
  function ExtOf(ir: bv32): bv32 { ir >> 3 }
  function DlcOf(dtr: bv32): bv8 { (dtr & 0xF) as bv8 }

  // ----- The transmitting side: the words CAN_Transmit composes -----

  function Word(b3: bv8, b2: bv8, b1: bv8, b0: bv8): bv32 {
    (b3 as bv32 << 24) | (b2 as bv32 << 16) | (b1 as bv32 << 8) | (b0 as bv32)
  }

  /** The identifier word before the transmit request is added. */
  function IdWord(stdId: bv32, extId: bv32, ide: bv8, rtr: bv8): bv32 {
    if ide == ID_STANDARD
    then (stdId << 21) | rtr as bv32
    else (extId << 3) | ide as bv32 | rtr as bv32
  }

  lemma WordBytes(b3: bv8, b2: bv8, b1: bv8, b0: bv8)
    ensures var w := Word(b3, b2, b1, b0);
      Byte0(w) == b0 && Byte1(w) == b1 && Byte2(w) == b2 && Byte3(w) == b3
  {
  }

  /** The data field: eight bytes go into two words and come back unchanged and in order. */
  lemma DataRoundTrip(b: seq<bv8>)
    requires |b| == 8
    ensures Bytes(Word(b[3], b[2], b[1], b[0]), Word(b[7], b[6], b[5], b[4])) == b
  {
    hide Byte0, Byte1, Byte2, Byte3, Word;
    WordBytes(b[3], b[2], b[1], b[0]);
    WordBytes(b[7], b[6], b[5], b[4]);
  }

  lemma NoRequestYet(stdId: bv32, extId: bv32, ide: bv8, rtr: bv8)
    requires ide == ID_STANDARD || ide == ID_EXTENDED
    requires rtr == RTR_DATA || rtr == RTR_REMOTE
    ensures !HasTxrq(IdWord(stdId, extId, ide, rtr))
  {
  }

  lemma IdeRoundTrip(stdId: bv32, extId: bv32, ide: bv8, rtr: bv8)
    requires ide == ID_STANDARD || ide == ID_EXTENDED
    requires rtr == RTR_DATA || rtr == RTR_REMOTE
    ensures IsStandard(AddTxrq(IdWord(stdId, extId, ide, rtr))) <==> ide == ID_STANDARD
  {
  }

  lemma RtrRoundTrip(stdId: bv32, extId: bv32, ide: bv8, rtr: bv8)
    requires ide == ID_STANDARD || ide == ID_EXTENDED
    requires rtr == RTR_DATA || rtr == RTR_REMOTE
    ensures IsRemote(AddTxrq(IdWord(stdId, extId, ide, rtr))) <==> rtr == RTR_REMOTE
  {
  }

  lemma StdRoundTrip(stdId: bv32, extId: bv32, rtr: bv8)
    requires rtr == RTR_DATA || rtr == RTR_REMOTE
    ensures StdOf(AddTxrq(IdWord(stdId, extId, ID_STANDARD, rtr))) == Low11(stdId)
  {
  }

  lemma ExtRoundTrip(stdId: bv32, extId: bv32, rtr: bv8)
    requires rtr == RTR_DATA || rtr == RTR_REMOTE
    ensures ExtOf(AddTxrq(IdWord(stdId, extId, ID_EXTENDED, rtr))) == Low29(extId)
  {
  }

  function LowNibble(dlc: bv8): bv8 { dlc & 0x0F }

  /** The length word keeps everything above the four length bits. */
  function LengthWord(tdtr: bv32, dlc: bv8): bv32 { AddLength(ClearLength(tdtr), dlc) }

  function ClearLength(tdtr: bv32): bv32 { tdtr & 0xFFFF_FFF0 }
  function AddLength(tdtr: bv32, dlc: bv8): bv32 { tdtr | dlc as bv32 }

  lemma DlcRoundTrip(tdtr: bv32, dlc: bv8)
    ensures DlcOf(LengthWord(tdtr, LowNibble(dlc))) == LowNibble(dlc)
  {
  }

  function KeepTxrq(ir: bv32): bv32 { ir & TXRQ }
  function ClearTxrq(ir: bv32): bv32 { ir & !TXRQ }
  function AddTxrq(ir: bv32): bv32 { ir | TXRQ }
  function AddId(ir: bv32, id: bv32): bv32 { ir | id }
  predicate HasTxrq(ir: bv32) { ir & TXRQ == TXRQ }

  lemma TxrqCleared(ir: bv32) ensures !HasTxrq(ClearTxrq(ir)) {}

  lemma NothingRequested() ensures !HasTxrq(0) {}

  lemma TxrqAdded(ir: bv32) ensures HasTxrq(AddTxrq(ir)) {}

  lemma NothingKept(ir: bv32) ensures !HasTxrq(ir) ==> KeepTxrq(ir) == 0 {}

  lemma IdAlone(id: bv32) ensures AddId(0, id) == id {}

  /** Round trip: whatever the mailbox held before, once the words CAN_Transmit composes are in place
      the mailbox holds exactly the caller's frame. */
  lemma MailboxHoldsMessage(m: Mailbox, stdId: bv32, extId: bv32, ide: bv8, rtr: bv8, dlc: bv8, data: seq<bv8>,
                            tdtr: bv32)
    requires ide == ID_STANDARD || ide == ID_EXTENDED
    requires rtr == RTR_DATA || rtr == RTR_REMOTE
    requires |data| == 8
    requires m.ir == AddTxrq(IdWord(stdId, extId, ide, rtr))
    requires m.dtr == LengthWord(tdtr, LowNibble(dlc))
    requires m.dlr == Word(data[3], data[2], data[1], data[0]) && m.dhr == Word(data[7], data[6], data[5], data[4])
    ensures Decode(m) == Message(stdId, extId, ide, rtr, dlc, data)
  {
    hide Low11, Low29, IdWord, LengthWord, LowNibble, AddTxrq, Word, Bytes, IsStandard, IsRemote, StdOf, ExtOf, DlcOf;
    IdeRoundTrip(stdId, extId, ide, rtr);
    RtrRoundTrip(stdId, extId, ide, rtr);
    StdRoundTrip(stdId, extId, rtr);
    ExtRoundTrip(stdId, extId, rtr);
    DlcRoundTrip(tdtr, dlc);
    DataRoundTrip(data);
  }

  // ----- The words, by bit positions -----

  /** TIxR as CAN_Transmit leaves it: the request in bit 0, remote in bit 1, extended in bit 2; a standard identifier in
      bits 31:21 with nothing below it, an extended one in bits 31:3. */
  lemma IdentifierInNumbers(stdId: bv32, extId: bv32, ide: bv8, rtr: bv8)
    requires (ide == 0 || ide == 4) && (rtr == 0 || rtr == 2)
    ensures var ir := AddTxrq(IdWord(stdId, extId, ide, rtr));
      && ir & 0x1 == 0x1 && (ir & 0x2 == 0x2) == (rtr == 2) && (ir & 0x4 == 0x4) == (ide == 4)
      && (ide == 0 ==> ir >> 21 == stdId & 0x7FF && ir & 0x001F_FFF8 == 0)
      && (ide == 4 ==> ir >> 3 == extId & 0x1FFF_FFFF)
  {
  }

  /** The length in bits 3:0 of TDTxR, above it what was there. */
  lemma LengthInNumbers(tdtr: bv32, dlc: bv8)
    ensures var w := LengthWord(tdtr, LowNibble(dlc)); w & 0xF == (dlc & 0xF) as bv32 && w >> 4 == tdtr >> 4
  {
  }

  /** Four data bytes in a word, the first in its low byte. */
  lemma DataInNumbers(b3: bv8, b2: bv8, b1: bv8, b0: bv8)
    ensures var w := Word(b3, b2, b1, b0);
      && w & 0xFF == b0 as bv32 && (w >> 8) & 0xFF == b1 as bv32
      && (w >> 16) & 0xFF == b2 as bv32 && w >> 24 == b3 as bv32
  {
  }

  /** What CAN_Receive reads out of RIxR and RDTxR. */
  lemma HeaderInNumbers(rir: bv32)
    ensures RxIde(rir) == (if rir & 0x4 != 0 then 4 else 0)
    ensures RxRtr(rir) == (if rir & 0x2 != 0 then 2 else 0)
    ensures RxStdId(rir) == rir >> 21
    ensures RxExtId(rir) == rir >> 3
  {
  }

  lemma LengthAndIndexInNumbers(rdtr: bv32)
    ensures RxDlc(rdtr) as bv32 == rdtr & 0xF
    ensures RxFmi(rdtr) as bv32 == (rdtr >> 8) & 0xFF
  {
  }

  lemma BytesInNumbers(lo: bv32, hi: bv32)
    ensures Bytes(lo, hi)[0] as bv32 == lo & 0xFF && Bytes(lo, hi)[1] as bv32 == (lo >> 8) & 0xFF
    ensures Bytes(lo, hi)[2] as bv32 == (lo >> 16) & 0xFF && Bytes(lo, hi)[3] as bv32 == lo >> 24
    ensures Bytes(lo, hi)[4] as bv32 == hi & 0xFF && Bytes(lo, hi)[5] as bv32 == (hi >> 8) & 0xFF
    ensures Bytes(lo, hi)[6] as bv32 == (hi >> 16) & 0xFF && Bytes(lo, hi)[7] as bv32 == hi >> 24
  {
  }

  // ----- The fields CAN_Receive extracts -----

  function RxIde(rir: bv32): bv8 { (rir & 0x4) as bv8 }
  function RxStdId(rir: bv32): bv32 { 0x7FF & (rir >> 21) }
  function RxExtId(rir: bv32): bv32 { 0x1FFF_FFFF & (rir >> 3) }
  function RxRtr(rir: bv32): bv8 { (rir & 0x2) as bv8 }
  function RxDlc(rdtr: bv32): bv8 { (rdtr & 0xF) as bv8 }
  function RxFmi(rdtr: bv32): bv8 { ((rdtr >> 8) & 0xFF) as bv8 }

  lemma RxIdeField(rir: bv32) ensures RxIde(rir) == if IsStandard(rir) then ID_STANDARD else ID_EXTENDED {}

  lemma RxRtrField(rir: bv32) ensures RxRtr(rir) == RTR_REMOTE <==> IsRemote(rir) {}

  lemma RxStdField(rir: bv32) ensures Low11(RxStdId(rir)) == StdOf(rir) {}

  lemma RxExtField(rir: bv32) ensures Low29(RxExtId(rir)) == ExtOf(rir) {}

  lemma RxDlcField(rdtr: bv32) ensures LowNibble(RxDlc(rdtr)) == DlcOf(rdtr) {}

  lemma RxIdeValues(rir: bv32) ensures RxIde(rir) == ID_STANDARD || RxIde(rir) == ID_EXTENDED {}

  lemma RxRtrValues(rir: bv32) ensures RxRtr(rir) == RTR_DATA || RxRtr(rir) == RTR_REMOTE {}

  /** Whichever identifier field CAN_Receive leaves alone, the fields it fills in stand for the frame in the image. */
  lemma ExtractedFields(m: Mailbox, stdId: bv32, extId: bv32)
    requires RxIde(m.ir) == ID_STANDARD ==> stdId == RxStdId(m.ir)
    requires RxIde(m.ir) != ID_STANDARD ==> extId == RxExtId(m.ir)
    ensures Message(stdId, extId, RxIde(m.ir), RxRtr(m.ir), RxDlc(m.dtr), Bytes(m.dlr, m.dhr)) == Decode(m)
  {
    hide Low11, Low29, LowNibble, RxIde, RxStdId, RxExtId, RxRtr, RxDlc, Bytes;
    hide IsStandard, IsRemote, StdOf, ExtOf, DlcOf;
    RxIdeField(m.ir);
    RxRtrField(m.ir);
    RxStdField(m.ir);
    RxExtField(m.ir);
    RxDlcField(m.dtr);
  }
}
