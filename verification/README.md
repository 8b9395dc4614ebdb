# STM32F10x drivers: registers that hold structured data

A Dafny model of the part of the STM32F10x standard peripheral library that keeps structured data inside packed
registers: message mailboxes and FIFOs, filter banks, conversion sequences, pin configurations, remap fields, interrupt
priorities, the clock tree, a counter read in two halves, and interrupt lines. The registers are fields of classes and
are changed in place by methods that follow the C functions branch by branch. What a register *means* is a function that
decodes it, and the main results relate the two: any history of calls, in any order and number, leaves the registers
decoding to the fold of the abstract updates. Volatile registers are arbitrary streams (one value per read), and the hardware's
own steps are arbitrary streams too (so many before each register access of the driver).

| file | what it models |
|---|---|
| `Wrappers.dfy` | an optional value |
| `Bits.dfy`, `BitSets.dfy`, `Nibbles.dfy` | the read-modify-write step, a register as a set of 32 numbers, a register as eight 4-bit fields |
| `Polling.dfy` | bounded polling loops over an arbitrary volatile register |
| `CanFrame.dfy` | the bit layout of a message in a transmit and in a receive mailbox |
| `CanBus.dfy` | the CAN cell and its driver told in frames: a fold over calls and the stream of the cell's steps |
| `CanTransfer.dfy` | mailbox allocation, transmission, reception on the registers, with the CAN cell acting before every register access; the whole refines `CanBus.dfy` |
| `CanMode.dfy` | initialization, operating modes, sleep and wake-up handshakes |
| `CanFilter.dfy` | the 28 acceptance filter banks |
| `Adc.dfy` | ranks, sample times, injected slots, lengths and control fields of the conversion sequencer |
| `Gpio.dfy`, `Afio.dfy` | pin configurations and output bits; remap fields and external-interrupt sources |
| `Nvic.dfy` | the two priority encoders, priority bytes and enable bits |
| `ClockTree.dfy` | the clock tree as RCC_CFGR shows it |
| `ClockWatch.dfy` | what the hardware does with the system clock moment by moment, and when that is unsafe |
| `SystemClock.dfy` | the boot clock path and the clock calculator (plain density lines), with a moment of the hardware before every register access |
| `Rtc.dfy`, `Exti.dfy` | the RTC counter, alarm and prescaler; the external interrupt lines |

A register is decoded by functions that a method and its contract share. Each of them has a law of its own that says the
same without it, with plain shifts, masks and numbers: the lemmas whose names end in `InNumbers` and `InShifts`, and the
ones listed beside them.

How the proofs are built: a lemma about bits states one fact about one named bit operation; everything above it hides
those definitions (`hide`), so that the solver never reasons about single bits and about histories at the same time.

## Where the code and its documentation differ

- `GPIO_Remap_SPI3`: the comment (STM32F10x_FWLib/src/stm32f10x_gpio.c:522-523) says the debug port is set to "full
  without JTRST". The code writes ones to bits 27:24, and the model, like the reference manual, takes that as no change.
- The comment at USER/system_stm32f10x.c:1027 says PCLK1 = HCLK; the code divides by two, as its limit of 36 MHz needs
  (`Boot`).

## Behaviour a caller may not expect, with the exact conditions

- `CAN_TransmitStatus` with a mailbox number above 2 reports *pending*, although its first switch prepares *failed*
  (`TransmitStatus`).
- `CAN_Init`, `CAN_OperatingModeRequest` and `CAN_WakeUp` read MSR once more after the waiting loop, and only that read
  decides. An acknowledge seen by the loop and gone at the next read is reported as a failure (`SeenButForgotten`); one
  that comes one read after the last retry is reported as a success (`CleanAcknowledge`).
- An injected rank one past the length in force overwrites the length field of JSQR; `RankKeepsLength` says exactly when
  the length survives. A change of length moves the channels of the ranks; `ChannelMovesWithLength` says where to.
- `EXTI_Init` with `DISABLE` clears one of the two mask registers only; `OnExactly` says which lines are on after any
  calls.
- `SetSysClockTo72` on its own gives 72 MHz only if the AHB prescaler was already off, because it ORs in a code that is
  zero; `BootWithoutReset` says so exactly, and `LeftOverExample` is a start from which it ends at 36 MHz.
- `SetSysClockTo72` leaves flash without wait states for two register accesses, and `SystemInit` clears PLLON, while SWS
  may still show the PLL. Both are safe on every schedule of SWS exactly if the PLL is neither asked for nor in use at
  the call (`SafeWithHse`, `SafeBoot`); if HSE is not found, a PLL that is locked with two wait states is safe too
  (`SafeWithoutHse`). `BootedEarly` says exactly when `SystemInit` sees the core go over too early.
- `CAN_Receive` called on an empty FIFO can drop a frame unseen: `DroppedExactly` says when it drops one, and `LoseFrame`
  is a run that hands over an old frame and drops a new one.
- `RTC_SetCounter` leaves the counter 65536 too high for each carry out of the old low half between its two writes, and
  a later RTC reading can be smaller than an earlier one; `SetCounter` and `ReadingsInOrder` say exactly when not.
- A GPIO output mode with speed zero cannot be read back; `ZeroSpeedLosesMode` says exactly when it can.

## Model

| member | source | states |
|---|---|---|
| CanFrame.DataRoundTrip | STM32F10x_FWLib/src/stm32f10x_can.c:564-571 | eight data bytes packed into the two data words come back unchanged and in order |
| CanFrame.MailboxHoldsMessage | STM32F10x_FWLib/src/stm32f10x_can.c:545-574 | over any earlier mailbox contents, the composed words hold exactly the caller's frame: kind, 11- or 29-bit identifier, remote flag, length, all eight bytes |
| CanFrame.IdentifierInNumbers | STM32F10x_FWLib/src/stm32f10x_can.c:545-558 | the standard identifier goes to bits 31:21, the extended one to 31:3, IDE and RTR to bits 2 and 1 |
| CanFrame.LengthInNumbers | STM32F10x_FWLib/src/stm32f10x_can.c:560-562 | the length goes to bits 3:0 of TDTR and the other bits are kept |
| CanFrame.DataInNumbers | STM32F10x_FWLib/src/stm32f10x_can.c:564-571 | byte k of a data word goes to bits 8k+7:8k |
| CanFrame.ExtractedFields | STM32F10x_FWLib/src/stm32f10x_can.c:677-700 | whichever identifier field is left untouched, what CAN_Receive extracts stands for exactly the frame in the FIFO mailbox |
| CanFrame.HeaderInNumbers | STM32F10x_FWLib/src/stm32f10x_can.c:677-687 | IDE and RTR are read from bits 2 and 1 of RIR, the identifiers from bits 31:21 and 31:3 |
| CanFrame.LengthAndIndexInNumbers | STM32F10x_FWLib/src/stm32f10x_can.c:688-690 | the length is bits 3:0 of RDTR and the filter match index bits 15:8 |
| CanFrame.BytesInNumbers | STM32F10x_FWLib/src/stm32f10x_can.c:692-699 | byte k of the data is bits 8k+7:8k of its data word |
| CanFrame.DlcRoundTrip | STM32F10x_FWLib/src/stm32f10x_can.c:560-562 | the length written over any earlier length word decodes to the message's length modulo 16 |
| CanTransfer.EmptyUnlessBusy | STM32F10x_FWLib/src/stm32f10x_can.c:525-541 | TSR shows a mailbox empty exactly when no request is pending in it |
| CanTransfer.EmptyInNumbers0 | STM32F10x_FWLib/src/stm32f10x_can.c:525-528 | mailbox 0 is empty exactly if bit 26 of TSR is set |
| CanTransfer.EmptyInNumbers1 | STM32F10x_FWLib/src/stm32f10x_can.c:529-532 | mailbox 1: bit 27 |
| CanTransfer.EmptyInNumbers2 | STM32F10x_FWLib/src/stm32f10x_can.c:533-536 | mailbox 2: bit 28 |
| CanTransfer.CodesInNumbers | STM32F10x_FWLib/src/stm32f10x_can.c:594-607 | how the status bits of each mailbox read with no request, pending, sent and failed |
| CanTransfer.StatusAfter | STM32F10x_FWLib/src/stm32f10x_can.c:597-606 | a change of one mailbox's status bits is invisible in the other two mailboxes |
| CanTransfer.StateOfCode | STM32F10x_FWLib/src/stm32f10x_can.c:610-633 | the decoded transmit state is pending, ok or failed exactly as the request stands |
| CanTransfer.CountInNumbers | STM32F10x_FWLib/src/stm32f10x_can.c:743-762 | the number of frames stored is bits 1:0 of RFxR |
| CanTransfer.ReleaseInNumbers | STM32F10x_FWLib/src/stm32f10x_can.c:701-711 | the release bit is bit 5 of RFxR |
| CanTransfer.StoredFlags | STM32F10x_FWLib/src/stm32f10x_can.c:743-762 | the third frame raises bit 3 of RFxR, and no store touches bit 4 |
| CanTransfer.WrittenFlags | STM32F10x_FWLib/src/stm32f10x_can.c:701-711 | a write to RFxR clears those of bits 4:3 it has as one, and leaves no release request |
| CanTransfer.Loopback | STM32F10x_FWLib/src/stm32f10x_can.c:677-700 | the frame that arrives in a FIFO is the frame that was in the transmit mailbox |
| CanTransfer.IndexRoundTrip | STM32F10x_FWLib/src/stm32f10x_can.c:688-690 | the filter index the cell stores with a frame is the FMI that CAN_Receive extracts, whatever the length and time stamp |
| CanTransfer.IndexIsLooped | STM32F10x_FWLib/src/stm32f10x_can.c:677-690 | and it is that of the stored mailbox as a whole |
| CanTransfer.OneMailboxChanges | STM32F10x_FWLib/src/stm32f10x_can.c:525-575 | any change to one mailbox and its status leaves the waiting frames of the others as they are |
| CanTransfer.FramesAppend | STM32F10x_FWLib/src/stm32f10x_can.c:671-712 | storing a frame puts it behind the frames already stored |
| CanTransfer.StoreKeepsOrder | STM32F10x_FWLib/src/stm32f10x_can.c:743-762 | a store into a FIFO that is not full keeps pending count, output mailbox and order right |
| CanTransfer.ReleaseKeepsOrder | STM32F10x_FWLib/src/stm32f10x_can.c:701-711 | a release drops the oldest frame and no other; a write without the release bit drops none |
| CanTransfer.FrameLeaves | STM32F10x_FWLib/src/stm32f10x_can.c:589-634 | a request that ends empties its mailbox, and its frame is accounted for wherever it goes |
| CanTransfer.FrameEnters | STM32F10x_FWLib/src/stm32f10x_can.c:573-574 | a request adds the frame the registers hold to the accepted and to the waiting frames |
| CanTransfer.CanCell.RequestTransmission | STM32F10x_FWLib/src/stm32f10x_can.c:573-574 | the cell takes the frame the mailbox holds at the moment TXRQ is set; allowed only on a mailbox with no request |
| CanTransfer.CanCell.WriteTxMailBox | STM32F10x_FWLib/src/stm32f10x_can.c:545-571 | a mailbox register is written only while no request is pending in that mailbox (its precondition, met at every call) |
| CanTransfer.CanCell.ChooseMailbox | STM32F10x_FWLib/src/stm32f10x_can.c:525-541 | the mailbox chosen is the one the fold says, has no request pending although completions may happen between the three TSR reads, and every mailbox below it, or all three if none is chosen, was busy at the call |
| CanTransfer.CanCell.Transmit | STM32F10x_FWLib/src/stm32f10x_can.c:515-578 | the mailbox chosen takes exactly the caller's frame and its request is accepted; the other two are as the cell left them; no mailbox means nothing was accepted; the cell is where the fold over its steps says |
| CanTransfer.CanCell.FillMailbox | STM32F10x_FWLib/src/stm32f10x_can.c:543-575 | identifier, length, data and then the request: when TXRQ is set the mailbox encodes the whole message |
| CanTransfer.CanCell.SetIdentifier | STM32F10x_FWLib/src/stm32f10x_can.c:545-558 | whatever identifier was there before, only the new one remains, and no request is made yet |
| CanTransfer.CanCell.Receive | STM32F10x_FWLib/src/stm32f10x_can.c:671-712 | with a frame pending, the message is the oldest stored frame and FMI is the filter index the cell stored with it, exactly that frame is dropped, and stores during the call do no harm; with none until the last read, the message is what the output mailbox showed before; what is dropped is what the fold says; the unused identifier field is untouched |
| CanTransfer.CanCell.ReadMessage | STM32F10x_FWLib/src/stm32f10x_can.c:677-700 | header and data, read register by register, all belong to one frame, the oldest stored, whatever is stored meanwhile |
| CanTransfer.CanCell.ReadHeader | STM32F10x_FWLib/src/stm32f10x_can.c:677-690 | the header fields all come from one and the same frame although they are read one by one |
| CanTransfer.CanCell.MessagePending | STM32F10x_FWLib/src/stm32f10x_can.c:743-762 | the number of frames the FIFO stores when asked, as a number; zero for a FIFO that does not exist |
| CanTransfer.CanCell.TransmitStatus | STM32F10x_FWLib/src/stm32f10x_can.c:589-634 | 2, 1 and 0 for pending, ok and failed exactly as the mailbox's last request stands; out of range reads as pending; no FIFO releases a frame |
| CanTransfer.CanCell.NothingLost | STM32F10x_FWLib/src/stm32f10x_can.c:515-712 | accepted frames = frames in mailboxes + frames in FIFOs + frames handed over + frames the cell gave up, as multisets |
| CanTransfer.CanCell.Run | STM32F10x_FWLib/src/stm32f10x_can.c:515-762 | from any state, over any run of sends and guarded receives and any stream of steps of the cell: the cell ends where the fold says, and the frames sent and received are those of the fold, call by call; nothing is lost, invented or duplicated, and each FIFO hands over in the order it stored |
| CanTransfer.CanCell.Offer | STM32F10x_FWLib/src/stm32f10x_can.c:515-578 | one send is accepted, or refused exactly as the fold says, with all three mailboxes busy at the call |
| CanTransfer.CanCell.Ask | STM32F10x_FWLib/src/stm32f10x_can.c:671-762 | one guarded receive hands over exactly the frame the fold says, or nothing, with the FIFO empty at the call |
| CanTransfer.LoseFrame | STM32F10x_FWLib/src/stm32f10x_can.c:671-712 | a run in which an unguarded receive on an empty FIFO drops a frame and hands over an older one |
| CanTransfer.CanCell.Take | STM32F10x_FWLib/src/stm32f10x_can.c:515-762 | one step of the cell on the registers is that step told in frames; an impossible one does nothing |
| CanTransfer.CanCell.Hardware | STM32F10x_FWLib/src/stm32f10x_can.c:515-762 | the steps before one register access are the fold of the stream; they end requests and append to FIFOs, and change nothing else |
| CanBus.MomentsLater | STM32F10x_FWLib/src/stm32f10x_can.c:515-762 | between two points of time the cell ends requests, appends to FIFOs and gives frames up, and nothing else |
| CanBus.RefusedExactly | STM32F10x_FWLib/src/stm32f10x_can.c:525-541 | a send is refused exactly if each mailbox still has its request when it is looked at; then all three were pending at the call |
| CanBus.HandedExactly | STM32F10x_FWLib/src/stm32f10x_can.c:671-762 | a poll hands over the oldest frame exactly if the FIFO stores one when CAN_MessagePending reads it |
| CanBus.DroppedExactly | STM32F10x_FWLib/src/stm32f10x_can.c:671-712 | an unguarded receive drops a frame exactly if the FIFO stores one when the release is written |
| CanBus.LateDelivery | STM32F10x_FWLib/src/stm32f10x_can.c:671-712 | a frame stored after the last read and before the release is dropped |
| CanBus.RunExactly | STM32F10x_FWLib/src/stm32f10x_can.c:515-762 | over any calls the accepted and released frames grow by exactly those sent and handed over |
| CanBus.SentIsSelected | STM32F10x_FWLib/src/stm32f10x_can.c:515-578 | the frames sent are messages of the sends, in their order |
| Polling.PollsFirstHit | STM32F10x_FWLib/src/stm32f10x_can.c:178-182 | a counted wait ends at the first read that shows the flag or with its last retry, and at no other read |
| Polling.CleanAcknowledge | STM32F10x_FWLib/src/stm32f10x_can.c:178-187 | a steady acknowledge is reported exactly if it starts within the retries plus one read |
| Polling.SeenButForgotten | STM32F10x_FWLib/src/stm32f10x_can.c:178-187 | an acknowledge the loop saw counts exactly if the next read still shows it |
| CanMode.TimingUnique | STM32F10x_FWLib/src/stm32f10x_can.c:252-256 | BTR decodes to mode, jump width, both segments and prescaler, and two legal configurations with one BTR are the same timing |
| CanMode.TimingInNumbers | STM32F10x_FWLib/src/stm32f10x_can.c:252-256 | the bits of BTR each field is in, the prescaler less one |
| CanMode.OptionsConfigured | STM32F10x_FWLib/src/stm32f10x_can.c:191-249 | after the six branches each of the six option bits is as configured |
| CanMode.OptionsInNumbers | STM32F10x_FWLib/src/stm32f10x_can.c:191-249 | bits 7 to 2 of MCR are TTCM, ABOM, AWUM, NART, RFLM and TXFP as configured |
| CanMode.RestAfterOptions | STM32F10x_FWLib/src/stm32f10x_can.c:191-249 | and no other bit of MCR has changed |
| CanMode.RequestsInNumbers | STM32F10x_FWLib/src/stm32f10x_can.c:783-825 | the requests are bits 1:0 of MCR: 1 for initialization, 0 for normal, 2 for sleep |
| CanMode.TargetIsMode | STM32F10x_FWLib/src/stm32f10x_can.c:783-840 | what a mode request waits for is bits 1:0 of MSR at 1, 0 or 2 for initialization, normal or sleep, and nothing else of MSR |
| CanMode.SteadyMode | STM32F10x_FWLib/src/stm32f10x_can.c:788-803 | a cell that reaches the mode at some read of MSR and stays in it is reported as a success exactly if that read is within 0x10000 of the first |
| CanMode.EnteredIsInitialization | STM32F10x_FWLib/src/stm32f10x_can.c:178-187 | CAN_Init first waits for bit 0 of MSR set |
| CanMode.LeftIsNot | STM32F10x_FWLib/src/stm32f10x_can.c:261-274 | and then for bit 0 clear |
| CanMode.AwakeIsNotAsleep | STM32F10x_FWLib/src/stm32f10x_can.c:890-900 | CAN_WakeUp waits for bit 1 of MSR clear |
| CanMode.CanControl.Poll | STM32F10x_FWLib/src/stm32f10x_can.c:178-182 | the loop terminates for every stream, after exactly the specified number of reads |
| CanMode.CanControl.Await | STM32F10x_FWLib/src/stm32f10x_can.c:178-187 | success exactly if the read after the loop shows what was waited for |
| CanMode.CanControl.CanInit | STM32F10x_FWLib/src/stm32f10x_can.c:154-283 | terminates; without the first acknowledge timing and options are unchanged; with it all are as configured; success means bit 0 of MSR was seen set and later clear |
| CanMode.CanControl.Configure | STM32F10x_FWLib/src/stm32f10x_can.c:189-256 | between the two acknowledges: options and timing set, the request bits and all other bits kept |
| CanMode.CanControl.OperatingModeRequest | STM32F10x_FWLib/src/stm32f10x_can.c:774-848 | terminates; requests exactly the mode asked for; success exactly if bits 1:0 of its last MSR read are 1, 0 or 2 for initialization, normal or sleep |
| CanMode.CanControl.CanSleep | STM32F10x_FWLib/src/stm32f10x_can.c:856-874 | requests sleep and nothing else; one read decides: success exactly if its bits 1:0 are 2 |
| CanMode.CanControl.WakeUp | STM32F10x_FWLib/src/stm32f10x_can.c:882-905 | withdraws the sleep request and leaves the initialization request as it is; success exactly if bit 1 of the last read is clear |
| CanMode.CanControl.Run | STM32F10x_FWLib/src/stm32f10x_can.c:154-905 | after any run on any stream the requests, the number of reads, every result, and the timing and options are those of the fold over the calls and the stream; no value with both initialization and sleep requested is ever written to MCR; the reads are bounded |
| CanMode.CanControl.Perform | STM32F10x_FWLib/src/stm32f10x_can.c:154-905 | any one call takes the registers from one state of that fold to the next |
| CanMode.LastSetupDecides | STM32F10x_FWLib/src/stm32f10x_can.c:154-283 | the configuration is that of the last CAN_Init whose first acknowledge was seen, whatever was called in between |
| CanMode.NeverSetUp | STM32F10x_FWLib/src/stm32f10x_can.c:154-283 | without one the configuration is what it was |
| CanFilter.SwitchBank | STM32F10x_FWLib/src/stm32f10x_can.c:306-366 | switching a bank's bit switches that bank and no other |
| CanFilter.WordsRoundTrip | STM32F10x_FWLib/src/stm32f10x_can.c:309-339 | in either scale the four 16-bit words of a bank come back as they were given |
| CanFilter.WordsInNumbers | STM32F10x_FWLib/src/stm32f10x_can.c:309-339 | which half of FR1 or FR2 each word is in, in either scale |
| CanFilter.StartSelected | STM32F10x_FWLib/src/stm32f10x_can.c:434-441 | the start bank reads back as asked, whatever it was before |
| CanFilter.FmrInNumbers | STM32F10x_FWLib/src/stm32f10x_can.c:434-441 | the start bank is bits 13:8 of FMR and FINIT is bit 0 |
| CanFilter.CanFilters.WriteFR | STM32F10x_FWLib/src/stm32f10x_can.c:317-338 | filter words change only in initialization mode and while the bank is inactive, and only for that bank |
| CanFilter.CanFilters.Configure | STM32F10x_FWLib/src/stm32f10x_can.c:309-362 | scale, words, mode and FIFO of one bank set while it is inactive; every other bank kept |
| CanFilter.CanFilters.Init | STM32F10x_FWLib/src/stm32f10x_can.c:292-376 | the registers decode to the configuration asked for the bank, and every other bank decodes as before; FINIT is clear on return |
| CanFilter.CanFilters.BankInShifts | STM32F10x_FWLib/src/stm32f10x_can.c:306-362 | bank n is decoded from bit n of FS1R, FM1R, FFA1R and FA1R and from filter register n |
| CanFilter.CanFilters.SlaveStart | STM32F10x_FWLib/src/stm32f10x_can.c:428-442 | only the start bank changes, and bits 3:1 of FMR are cleared; FINIT is clear on return |
| CanFilter.CanFilters.Replay | STM32F10x_FWLib/src/stm32f10x_can.c:292-442 | after any history each bank and the start bank decode to their last call |
| CanFilter.LastCallDecides | STM32F10x_FWLib/src/stm32f10x_can.c:292-376 | the last call that names a bank decides it, whatever comes before it or is done to others after it |
| CanFilter.UnnamedBankKept | STM32F10x_FWLib/src/stm32f10x_can.c:292-376 | a bank no call names is as it was |
| CanFilter.LastStartDecides | STM32F10x_FWLib/src/stm32f10x_can.c:428-442 | the last call that sets the start bank decides it |
| Adc.SetFiveOnly | STM32F10x_FWLib/src/stm32f10x_adc.c:624-640 | writing one 5-bit field of a register changes that field and none of the other five |
| Adc.SlotAndLength | STM32F10x_FWLib/src/stm32f10x_adc.c:964-983 | an injected slot overlaps the length field exactly if it is the fifth |
| Adc.RanksInNumbers1 | STM32F10x_FWLib/src/stm32f10x_adc.c:630-644 | ranks 1 to 6 are the six 5-bit fields of SQR3, from bit 0 up |
| Adc.RanksInNumbers2 | STM32F10x_FWLib/src/stm32f10x_adc.c:646-660 | ranks 7 to 12: those of SQR2 |
| Adc.RanksInNumbers3 | STM32F10x_FWLib/src/stm32f10x_adc.c:662-676 | ranks 13 to 16: the first four of SQR1 |
| Adc.TimesInNumbers1 | STM32F10x_FWLib/src/stm32f10x_adc.c:614-628 | the sample times of channels 0 to 9 are the 3-bit fields of SMPR2 |
| Adc.TimesInNumbers2 | STM32F10x_FWLib/src/stm32f10x_adc.c:599-613 | those of channels 10 to 17: of SMPR1 |
| Adc.SlotsInNumbers | STM32F10x_FWLib/src/stm32f10x_adc.c:964-1010 | the injected slots are the first four 5-bit fields of JSQR, the two lengths bits 21:20 of JSQR and 23:20 of SQR1 |
| Adc.ControlsInNumbers | STM32F10x_FWLib/src/stm32f10x_adc.c:509-550 | which bits of CR1 each control field is |
| Adc.Controls2InNumbers | STM32F10x_FWLib/src/stm32f10x_adc.c:243-256 | which bits of CR2 continuous mode, alignment and trigger are |
| Adc.SelectionInNumbers | STM32F10x_FWLib/src/stm32f10x_adc.c:353-372 | which interrupt enables an ADC_IT code selects |
| Adc.InterruptsOnly | STM32F10x_FWLib/src/stm32f10x_adc.c:353-372 | the selected interrupt enables change, and no other field of CR1 |
| Adc.AdcPort.Init | STM32F10x_FWLib/src/stm32f10x_adc.c:218-268 | mode, scan, alignment, trigger, continuous mode and regular length read back as given; every rank, slot, time and other field, and all other bits of CR1 and CR2, as before |
| Adc.AdcPort.RegularChannelConfig | STM32F10x_FWLib/src/stm32f10x_adc.c:590-677 | one rank and one sample time change, and nothing else in seven registers |
| Adc.AdcPort.InjectedChannelConfig | STM32F10x_FWLib/src/stm32f10x_adc.c:930-984 | one sample time and the slot the rank has under the length in force change, and nothing else unless the rank is past the length |
| Adc.AdcPort.InjectedSequencerLengthConfig | STM32F10x_FWLib/src/stm32f10x_adc.c:993-1010 | the length changes; the four slots in the same register do not |
| Adc.AdcPort.SetControl | STM32F10x_FWLib/src/stm32f10x_adc.c:509-550 | each setter of a CR1 field changes that field only |
| Adc.AdcPort.ITConfig | STM32F10x_FWLib/src/stm32f10x_adc.c:353-372 | interrupt enables change as selected; nothing else does |
| Adc.AdcPort.Replay | STM32F10x_FWLib/src/stm32f10x_adc.c:218-1160 | after any history of all these calls every rank, sample time, slot, length and control field reads as the last call that named it said; sample times are shared between regular and injected calls |
| Adc.LastCallDecides | STM32F10x_FWLib/src/stm32f10x_adc.c:590-1010 | the last call that names an observable decides it |
| Adc.UnnamedKept | STM32F10x_FWLib/src/stm32f10x_adc.c:590-1010 | an observable no call names is as it was |
| Adc.RankHasSlot | STM32F10x_FWLib/src/stm32f10x_adc.c:964-983 | under length L, rank r has slot (r-1)+(4-L), one of the four |
| Adc.SlotsApart | STM32F10x_FWLib/src/stm32f10x_adc.c:964-983 | different ranks never share a slot |
| Adc.RankKeepsLength | STM32F10x_FWLib/src/stm32f10x_adc.c:964-983 | a call keeps the length field exactly if its rank is not the one just past the length, or its channel agrees with the length in two bits |
| Adc.LengthKept | STM32F10x_FWLib/src/stm32f10x_adc.c:930-1010 | no history of calls with ranks within the length changes the length |
| Adc.ChannelMovesWithLength | STM32F10x_FWLib/src/stm32f10x_adc.c:930-1010 | a channel given rank r under one length is, after a change of length, at the rank moved by the change, and every other rank has what its slot held before |
| Gpio.SetOdrPin | STM32F10x_FWLib/src/stm32f10x_gpio.c:358-365 | a set write drives exactly the pins of its mask |
| BitSets.HasIsInMask | STM32F10x_FWLib/src/stm32f10x_gpio.c:197-200 | a mask covers pin n exactly if bit 0 of the mask shifted right by n is set |
| Nibbles.NibbleIsFourBits | STM32F10x_FWLib/src/stm32f10x_gpio.c:201-205 | configuration n of a register is its four bits from bit 4n on |
| Gpio.ModesInNumbers | STM32F10x_FWLib/src/stm32f10x_gpio.c:183-188 | the 4-bit configuration of each of the eight modes, in numbers |
| Gpio.PullsInNumbers | STM32F10x_FWLib/src/stm32f10x_gpio.c:206-219 | only mode 0x28 clears and only mode 0x48 sets the output bit |
| Gpio.GpioPort.StateInShifts | STM32F10x_FWLib/src/stm32f10x_gpio.c:189-257 | pin p is the four bits from 4p of CRL, or from 4(p-8) of CRH, and bit p of ODR |
| Gpio.GpioPort.InitLow | STM32F10x_FWLib/src/stm32f10x_gpio.c:189-222 | the CRL loop configures and drives exactly the low pins of the mask |
| Gpio.GpioPort.InitHigh | STM32F10x_FWLib/src/stm32f10x_gpio.c:225-257 | the CRH loop configures and drives exactly the high pins of the mask |
| Gpio.GpioPort.Init | STM32F10x_FWLib/src/stm32f10x_gpio.c:173-258 | every pin of the mask has the mode and speed asked for and the output bit of its pull; every other pin is untouched; and in shifts: four bits of CRL or CRH from bit 4i on change exactly if bit i or i+8 of the mask is set, and ODR changes pin by pin so |
| Gpio.GpioPort.Replay | STM32F10x_FWLib/src/stm32f10x_gpio.c:173-423 | after any history each of the sixteen pins is where its own sequence of steps leads |
| Gpio.LastInitDecides | STM32F10x_FWLib/src/stm32f10x_gpio.c:173-258 | the last GPIO_Init that covers a pin decides its configuration |
| Gpio.LastDriverDecides | STM32F10x_FWLib/src/stm32f10x_gpio.c:358-423 | the last call that drives a pin decides its output bit |
| Gpio.UncoveredPinKept | STM32F10x_FWLib/src/stm32f10x_gpio.c:173-423 | a pin no call covers is as it was |
| Gpio.PinsDetermine | STM32F10x_FWLib/src/stm32f10x_gpio.c:189-257 | the sixteen pins determine CRL, CRH and ODR: nothing in the registers escapes the abstraction |
| Gpio.DisjointCallsCommute | STM32F10x_FWLib/src/stm32f10x_gpio.c:173-405 | calls on disjoint masks do the same to every pin in either order |
| Gpio.CommuteOnRegisters | STM32F10x_FWLib/src/stm32f10x_gpio.c:173-405 | and leave the same registers |
| Gpio.UnionOnRegisters | STM32F10x_FWLib/src/stm32f10x_gpio.c:173-258 | one GPIO_Init for A or B leaves the same CRL, CRH and ODR as one for A and then one for B |
| Gpio.LoopsAgree | STM32F10x_FWLib/src/stm32f10x_gpio.c:189-257 | the CRH loop does to CRH and the high output bits, on mask m << 8, what the CRL loop does to CRL and the low output bits on m |
| Gpio.ModeRecovered | STM32F10x_FWLib/inc/stm32f10x_gpio.h:58-80 | mode and, for outputs, speed can be read back from configuration and output bit |
| Gpio.ZeroSpeedLosesMode | STM32F10x_FWLib/src/stm32f10x_gpio.c:183-188 | an output mode can be read back exactly if its speed is not zero |
| Gpio.WritesTurnPulls | STM32F10x_FWLib/src/stm32f10x_gpio.c:206-219 | setting or resetting a pulled input turns its pull, whatever GPIO_Init asked for |
| Afio.FieldsApart | STM32F10x_FWLib/inc/stm32f10x_gpio.h:172-203 | two remap codes have the same field of MAPR or fields with no bit in common |
| Afio.CodesInNumbers1 | STM32F10x_FWLib/inc/stm32f10x_gpio.h:172-180 | field and value of each remap code in numbers, SPI1 to TIM2 partial 1 |
| Afio.CodesInNumbers2 | STM32F10x_FWLib/inc/stm32f10x_gpio.h:181-189 | TIM2 partial 2 to TIM5CH4 |
| Afio.CodesInNumbers3 | STM32F10x_FWLib/inc/stm32f10x_gpio.h:190-203 | ADC1 to PTP_PPS, ETH and CAN2 among them |
| Afio.DebugCodesInNumbers | STM32F10x_FWLib/inc/stm32f10x_gpio.h:194-196 | the value of each debug-port code in numbers |
| Afio.NoiseIsIgnored | STM32F10x_FWLib/src/stm32f10x_gpio.c:557-589 | the value written to MAPR does not depend on what bits 27:24 read back as |
| Afio.OwnField | STM32F10x_FWLib/src/stm32f10x_gpio.c:578-589 | a peripheral code leaves its own field with the code's value, or zero when disabled |
| Afio.OtherFields | STM32F10x_FWLib/src/stm32f10x_gpio.c:578-589 | and every other field as it was |
| Afio.DebugKeepsFields | STM32F10x_FWLib/src/stm32f10x_gpio.c:569-573 | a debug-port code changes no peripheral field |
| Afio.DebugBitsAllOnes | STM32F10x_FWLib/src/stm32f10x_gpio.c:574-584 | a peripheral code writes the debug port's no-effect pattern |
| Afio.AfioPort.PinRemapConfig | STM32F10x_FWLib/src/stm32f10x_gpio.c:549-599 | one field takes the code, every other keeps its own, and the debug port keeps its setting unless the code is for it |
| Afio.AfioPort.EXTILineConfig | STM32F10x_FWLib/src/stm32f10x_gpio.c:609-620 | the line named gets the port named; the other fifteen keep theirs |
| Afio.AfioPort.PortInShifts | STM32F10x_FWLib/src/stm32f10x_gpio.c:609-620 | the port of line n is four bits of EXTICR word n / 4, from bit 4 (n % 4) on |
| Afio.AfioPort.Replay | STM32F10x_FWLib/src/stm32f10x_gpio.c:549-620 | after any history, on any read-back noise, every field, the debug port and every line are as their last calls asked |
| Afio.LastRemapDecides | STM32F10x_FWLib/src/stm32f10x_gpio.c:549-599 | the last call for a field decides it: its code if enabled, zero if disabled |
| Afio.LastDebugDecides | STM32F10x_FWLib/src/stm32f10x_gpio.c:549-599 | the last call for the debug port decides its setting |
| Afio.LastPortDecides | STM32F10x_FWLib/src/stm32f10x_gpio.c:609-620 | the last call for an interrupt line decides its port |
| Nvic.WidthsAddUp | CORE/core_cm3.h:1640-1641 | for every number of implemented bits up to 8, preemption and sub bits share them out exactly |
| Nvic.PreemptBitsLargest | CORE/core_cm3.h:1640 | the preemption bits are the largest number that is implemented and that the group leaves |
| Nvic.CutInNumbers | CORE/core_cm3.h:1643-1646 | a value cut to n bits is its n low bits, for each n |
| Nvic.DecodeOfEncode | CORE/core_cm3.h:1634-1676 | decoding an encoded priority gives both values back, each modulo its width |
| Nvic.EncodeOfDecode | CORE/core_cm3.h:1634-1676 | encoding a decoded priority gives it back modulo the implemented bits |
| Nvic.EncodingKeepsOrder | CORE/core_cm3.h:1634-1647 | on values in range, encoded order is the lexicographic order of (preemption, sub) |
| Nvic.EncodersAgree | STM32F10x_FWLib/src/misc.c:124-132 | for groups 3 to 7 and all values below 16, in range or not, the unmasked shift truncated to a byte equals the CMSIS encoding as stored |
| Nvic.StoredOrder | STM32F10x_FWLib/src/misc.c:124-132 | the bytes NVIC_Init stores order interrupts by preemption and then sub priority |
| Nvic.ByteRoundTrip | CORE/core_cm3.h:1586-1615 | what NVIC_GetPriority returns after NVIC_SetPriority is the priority's implemented bits |
| Nvic.ByteInNumbers | CORE/core_cm3.h:1586-1592 | the byte stored is sixteen times the four low bits of the priority |
| Nvic.NvicPort.EnableIRQ | CORE/core_cm3.h:1502-1505 | exactly the interrupt named becomes enabled |
| Nvic.NvicPort.DisableIRQ | CORE/core_cm3.h:1515-1518 | exactly the interrupt named becomes disabled |
| Nvic.NvicPort.EnabledInShifts | CORE/core_cm3.h:1502-1518 | interrupt n is bit n % 32 of word n / 32 |
| Nvic.NvicPort.SetPriority | CORE/core_cm3.h:1586-1592 | device or core interrupt, only its own byte changes |
| Nvic.NvicPort.Init | STM32F10x_FWLib/src/misc.c:112-147 | enabling stores the CMSIS-encoded priority and enables; disabling keeps every priority |
| Nvic.PrioritySurvives | STM32F10x_FWLib/src/misc.c:96-147 | from group selection through NVIC_Init to NVIC_GetPriority and decoding: what was given comes back, cut to the group's widths |
| Nvic.InitAll | STM32F10x_FWLib/src/misc.c:112-147 | after any calls each interrupt is on or off as its last call says, with the priority of the last call that enabled it |
| Nvic.OrderAfterCalls | STM32F10x_FWLib/src/misc.c:112-147 | after any calls the stored bytes of two interrupts are ordered as their last requests are |
| ClockTree.TableDivides | USER/system_stm32f10x.c:167-411 | shifting by the calculator's table entry divides by the divisor of the prescaler code |
| ClockTree.Apb1InNumbers | USER/system_stm32f10x.c:1026-1028 | the APB1 divisor is 1 below code 4, 2 at it, and doubles from there on |
| ClockTree.FactorsInNumbers | USER/system_stm32f10x.c:331-336 | the PLL factor is the code plus two, for all sixteen codes |
| ClockTree.FactorOfCode | USER/system_stm32f10x.c:331-336 | and depends on bits 21:18 of CFGR only |
| ClockTree.PllInputInNumbers | USER/system_stm32f10x.c:338-360 | half of HSI, HSE or half of HSE, as bits 16 and 17 say |
| ClockTree.FieldsInNumbers | USER/system_stm32f10x.c:306-412 | the bits of CFGR each field is |
| ClockTree.SourcesInNumbers | USER/system_stm32f10x.c:317-395 | the source of the core clock is HSE at 0x4, the PLL at 0x8 and HSI at any other SWS |
| ClockTree.LeftOverPrescaler | USER/system_stm32f10x.c:1020-1028 | on the PLL at nine times HSE the core runs at 72 MHz exactly if the top bit of the prescaler field is clear |
| SystemClock.SteadyHse | USER/system_stm32f10x.c:994-1010 | a crystal that starts and stays up is found exactly if it is up by read 0x500 |
| SystemClock.FlagsInNumbers | USER/system_stm32f10x.c:994-1058 | the ready flags of HSE and PLL are bits 17 and 25 of CR |
| SystemClock.Rcc.Moment | USER/system_stm32f10x.c:1066-1072 | the hardware's step: SWS may follow SW; the faults recorded are exactly those of Tick, at that moment |
| SystemClock.Rcc.WaitForHse | USER/system_stm32f10x.c:994-1010 | the counted wait terminates and reports what the read after it shows |
| SystemClock.Rcc.WaitForPll | USER/system_stm32f10x.c:1056-1058 | the wait ends at the first read that shows the PLL locked; no later read matters |
| SystemClock.Rcc.SetFlash | USER/system_stm32f10x.c:1014-1019 | two wait states are set, and for exactly two moments there are none |
| SystemClock.FlashInNumbers | USER/system_stm32f10x.c:1014-1019 | the value written to ACR has bit 4 set, 2 in bits 1:0, and all other bits as they were |
| SystemClock.Rcc.StartPll | USER/system_stm32f10x.c:1014-1054 | wait states, prescalers, PLL factors and PLLON are set, and no switch to the PLL is asked for |
| SystemClock.Rcc.SelectPll | USER/system_stm32f10x.c:1060-1068 | the core goes over to the PLL, and the wait ends once it has |
| SystemClock.Rcc.SetSysClockTo72 | USER/system_stm32f10x.c:987-1079 | with HSE found the core is on nine times HSE; without, the clock is as it was; on every schedule of SWS the faults on the way are exactly those of the fold over the moments |
| ClockWatch.QuietEntrance | USER/system_stm32f10x.c:987-1079 | with no switch pending at the call the core never goes over too early, and with the PLL neither asked for nor in use nothing goes wrong at all |
| ClockWatch.SafeWithHse | USER/system_stm32f10x.c:987-1079 | with HSE found: safe on all schedules exactly if the PLL is neither asked for nor in use at the call; never too early exactly if no switch is pending, fit or not |
| ClockWatch.SafeWithoutHse | USER/system_stm32f10x.c:987-1079 | with HSE not found: the same, or the PLL is fit at the call |
| ClockWatch.PendingStrikes | USER/system_stm32f10x.c:1014-1019 | a schedule on which a pending switch strikes while flash has no wait states, even on a fit PLL |
| ClockWatch.UseStrikes | USER/system_stm32f10x.c:1014-1019 | a schedule on which the core is on the PLL while flash has no wait states |
| SystemClock.Rcc.SystemInit | USER/system_stm32f10x.c:212-269 | from any CFGR, undivided PLL or undivided HSI; bits outside the masks kept; faults exactly those of the fold, and the core goes over too early exactly if a switch was pending on an unfit PLL and SWS follows in one of the first four moments |
| ClockWatch.BootedEarly | USER/system_stm32f10x.c:212-269 | that condition, for every schedule |
| ClockWatch.SafeBoot | USER/system_stm32f10x.c:212-269 | SystemInit is safe on all schedules exactly if the PLL is neither asked for nor in use at the call; never too early exactly if no switch is pending or the PLL is fit |
| SystemClock.Rcc.SystemCoreClockUpdate | USER/system_stm32f10x.c:306-412 | the calculator computes the frequency of the clock tree at the moment SWS is read, although it reads CFGR up to five times |
| SystemClock.Boot | USER/system_stm32f10x.c:212-412 | from any register contents and for any moments at which SWS follows: 72 MHz, with PCLK1 at 36 MHz, exactly if HSE was found, and 8 MHz HSI if not, once the hardware has followed the last request |
| SystemClock.BootWithoutReset | USER/system_stm32f10x.c:987-1079 | the same path without the masks: 72 MHz over the divisor left in CFGR, with the exact condition for 72 MHz |
| SystemClock.LeftOverExample | USER/system_stm32f10x.c:1020-1028 | run from a CFGR of 0x80 the driver ends at 36 MHz |
| Rtc.ReadingBounds | STM32F10x_FWLib/src/stm32f10x_rtc.c:133-138 | with k ticks between the half-reads and no wrap, c <= r < c + k + 65536, and the low half is right |
| Rtc.ReadingExact | STM32F10x_FWLib/src/stm32f10x_rtc.c:133-138 | the reading is the count at the call exactly if no carry left the low half |
| Rtc.ReadingsInOrder | STM32F10x_FWLib/src/stm32f10x_rtc.c:133-138 | no later reading, however timed, is smaller exactly if the low half did not fall during this one |
| Rtc.RtcPort.GetCounter | STM32F10x_FWLib/src/stm32f10x_rtc.c:133-138 | for any number of ticks, wrap included: the count plus 65536 for each carry, modulo 2^32 |
| Rtc.RtcPort.SetCounter | STM32F10x_FWLib/src/stm32f10x_rtc.c:145-153 | with any number of ticks between the half-writes: the value given plus 65536 for each carry out of the old low half, so the value itself exactly if there is none; configuration mode is left and the other bits of CRL are kept |
| Rtc.RtcPort.ConfiguringInNumbers | STM32F10x_FWLib/src/stm32f10x_rtc.c:111-125 | configuration mode is bit 4 of CRL |
| Rtc.RtcPort.SetAlarm | STM32F10x_FWLib/src/stm32f10x_rtc.c:178-186 | the alarm is the value given although it is written in halves; configuration mode is left |
| Rtc.RtcPort.SetPrescaler | STM32F10x_FWLib/src/stm32f10x_rtc.c:160-171 | the value modulo 2^20; the value itself exactly if it fits |
| Rtc.SetThenGet | STM32F10x_FWLib/src/stm32f10x_rtc.c:133-153 | setting and getting without ticks is the identity, and with ticks inside either call the exact value |
| Exti.ExtiPort.DeInit | STM32F10x_FWLib/src/stm32f10x_exti.c:85-92 | every line is off and has no edge, and none of the twenty lines is pending |
| Exti.EnabledSays | STM32F10x_FWLib/src/stm32f10x_exti.c:114-139 | an enabling call sets interrupt or event as its mode says, rising and falling as its trigger says |
| Exti.StepIsAfter | STM32F10x_FWLib/src/stm32f10x_exti.c:101-149 | what a call does to line n, told by bit positions in the four registers and by mode and trigger one by one |
| Exti.ExtiPort.Init | STM32F10x_FWLib/src/stm32f10x_exti.c:101-149 | each line of the set takes the step of the call, every other line is as it was; and in shifts: bit n of the four registers is as mode and trigger say, one by one, exactly if bit n of the mask is set |
| Exti.ExtiPort.Replay | STM32F10x_FWLib/src/stm32f10x_exti.c:101-149 | after any history each line holds the fold of the calls that name it |
| Exti.ExtiPort.ReplayFromReset | STM32F10x_FWLib/src/stm32f10x_exti.c:85-149 | in every state reachable from reset no line is both interrupt and event, and every line that is on has an edge |
| Exti.StepsSound | STM32F10x_FWLib/src/stm32f10x_exti.c:101-149 | any calls keep a sound line sound |
| Exti.LastEnableDecides | STM32F10x_FWLib/src/stm32f10x_exti.c:101-149 | the last enabling call decides: rising exactly if its trigger is rising or both, falling exactly if falling or both; interrupt or event as its mode says unless a later call disables that mode |
| Exti.NeverEnabled | STM32F10x_FWLib/src/stm32f10x_exti.c:140-148 | a line never enabled keeps its edges and is not switched on |
| Exti.OnExactly | STM32F10x_FWLib/src/stm32f10x_exti.c:85-149 | after any calls from reset a line is on exactly if some call enabled it and no later call enabled it otherwise or disabled it in that same mode |

## Left out

- CanTransfer.CanCell.Receive: on an empty FIFO, what is handed over when a frame is stored between two of its reads is a mixture of old and new, and is not stated; DroppedExactly says what is dropped.
- CanTransfer.CanCell.TransmitStatus: a mailbox that never carried a request reads as failed, as in the code; the model keeps that case apart as Idle.
- CanTransfer.Loopback: the whole mailbox image travels; on a real bus the bytes past the length do not. Time stamps and time-triggered transmission are not modelled.
- FIFO overrun: the cell stores only into a FIFO that is not full; the overrun and lock modes are not modelled.
- CAN_CancelTransmit, CAN_ClearFlag and the error and interrupt flags of the CAN cell: they write TSR and MSR bits that clear on a one.
- MCR bits the cell clears by itself (SLEEP on automatic wake-up) are not modelled; MCR is what the driver last wrote.
- SystemClock.Rcc.SystemInit: if HSE is found, some later read must show the PLL locked and SWS must follow once it is asked to, or the two unlimited waits do not end; not modelled are the clock variants of the connectivity and value lines, external SRAM, the vector table address, and what the PLL does if its factors are written while it is on.
- SystemClock.Rcc.SystemCoreClockUpdate: frequencies are unbounded integers; the largest product, 17 times 8 MHz, fits 32 bits.
- Afio.AfioPort.PinRemapConfig: codes with bit 31 set (MAPR2) shift by more than the word width, which has no meaning in C, and are excluded.
- Nvic.NvicPort.Init: enabling in a group below 3, the reset value included, shifts by a negative amount, which C leaves undefined, and is excluded; disabling is modelled in every group.
- Rtc.RtcPort.SetCounter: the registers take a value at once; hardware that holds the writes back until configuration mode is left would lose no carry.
- Rtc.RtcPort.SetPrescaler: the waits for RTOFF and RSF, the RTC flags and the divider register are not modelled; the six data registers take a value only in configuration mode.
- Rtc.RtcPort.GetCounter: the 16-bit halves are numbers below 65536, with division and remainder for shift and mask.
- Exti.ExtiPort.Init: the pending register is not touched; how lines become pending, and software interrupts, are not modelled.
- Clock outputs: MCO, USB and ADC prescalers are cleared with the others but not decoded.
- Adc.AdcPort.Replay: calibration, software start, external injected trigger, thresholds, offsets and data registers are not modelled.
- CMSIS assembly intrinsics, SysTick, ITM, system reset, and the drivers for DMA, DAC, BKP, CEC, CRC, PWR, watchdogs, FSMC and DBGMCU: each operation is settled by reading one branch, or repeats the field argument in an easier form.
- The lwIP and uC/OS sources are not part of this model.
