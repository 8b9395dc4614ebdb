/** What a CAN cell in loopback and its driver do, told in frames: no registers, no bits.

    The cell is a stream: before access number i of the driver it takes the steps cell(i). */
module CanBus {
  import opened CanFrame
  import opened Wrappers

  /** What became of the last request accepted in a mailbox. */
  datatype Outcome = Idle | Busy | Sent | Failed

  /** A step of the cell: send a waiting frame and store it in a FIFO, with the index of the filter that matched and the
      time of arrival, or give it up. */
  datatype Step = Deliver(m: nat, f: nat, fmi: bv8, time: bv16) | GiveUp(m: nat)

  datatype Cell = Cell(outcome: seq<Outcome>, waiting: seq<Option<Frame>>, mail: seq<seq<Frame>>,
                       index: seq<seq<bv8>>, released: seq<seq<Frame>>, accepted: seq<Frame>,
                       failed: seq<Frame>, now: nat)
  {
    /** Three mailboxes, a frame exactly where a request is pending, and two FIFOs with an index for each frame. */
    predicate Valid() {
      && |outcome| == |waiting| == 3 && |mail| == |index| == |released| == 2
      && |mail[0]| == |index[0]| && |mail[1]| == |index[1]|
      && forall m | 0 <= m < 3 :: waiting[m].Some? <==> outcome[m] == Busy
    }
  }

  // ----- The cell -----

  /** A step the cell cannot take does nothing: no request, no such mailbox or FIFO, or a full FIFO. */
  function Act(c: Cell, step: Step): (r: Cell)
    requires c.Valid()
    ensures r.Valid()
  {
    match step
    case Deliver(m, f, fmi, _) =>
      if m < 3 && f < 2 && c.outcome[m] == Busy && |c.mail[f]| < 3 then
        c.(outcome := c.outcome[m := Sent], waiting := c.waiting[m := None],
           mail := c.mail[f := c.mail[f] + [c.waiting[m].value]], index := c.index[f := c.index[f] + [fmi]])
      else c
    case GiveUp(m) =>
      if m < 3 && c.outcome[m] == Busy then
        c.(outcome := c.outcome[m := Failed], waiting := c.waiting[m := None],
           failed := c.failed + [c.waiting[m].value])
      else c
  }

  function Acts(c: Cell, steps: seq<Step>): (r: Cell)
    requires c.Valid()
    ensures r.Valid()
  {
    if steps == [] then c else Act(Acts(c, steps[..|steps| - 1]), steps[|steps| - 1])
  }

  /** The cell before one access of the driver. */
  function Moment(c: Cell, cell: nat -> seq<Step>): (r: Cell)
    requires c.Valid()
    ensures r.Valid()
  {
    Acts(c, cell(c.now)).(now := c.now + 1)
  }

  /** The cell before n accesses. */
  function Moments(c: Cell, cell: nat -> seq<Step>, n: nat): (r: Cell)
    requires c.Valid()
    ensures r.Valid()
  {
    if n == 0 then c else Moment(Moments(c, cell, n - 1), cell)
  }

  lemma {:induction false} MomentsAdd(c: Cell, cell: nat -> seq<Step>, m: nat, n: nat)
    requires c.Valid()
    ensures Moments(Moments(c, cell, m), cell, n) == Moments(c, cell, m + n)
    decreases n
  {
    hide Moment;
    if n == 0 {
    } else {
      MomentsAdd(c, cell, m, n - 1);
    }
  }

  // ----- The driver -----

  function Accept(c: Cell, m: nat, frame: Frame): (r: Cell)
    requires c.Valid() && m < 3
    ensures r.Valid()
  {
    c.(outcome := c.outcome[m := Busy], waiting := c.waiting[m := Some(frame)], accepted := c.accepted + [frame])
  }

  function Release(c: Cell, f: nat): (r: Cell)
    requires c.Valid() && f < 2
    ensures r.Valid()
  {
    if c.mail[f] == [] then c
    else c.(mail := c.mail[f := c.mail[f][1..]], index := c.index[f := c.index[f][1..]],
            released := c.released[f := c.released[f] + [c.mail[f][0]]])
  }

  /** The mailbox CAN_Transmit chooses, looking at the first, the second and the third in turn; 3 if it finds none. */
  function Choice(c: Cell, cell: nat -> seq<Step>): (m: nat)
    requires c.Valid()
    ensures m <= 3
  {
    if Moments(c, cell, 1).outcome[0] != Busy then 0
    else if Moments(c, cell, 2).outcome[1] != Busy then 1
    else if Moments(c, cell, 3).outcome[2] != Busy then 2
    else 3
  }

  /** CAN_Transmit: the look at the mailboxes, and twelve accesses to fill the one chosen. */
  function Sending(c: Cell, cell: nat -> seq<Step>, frame: Frame): (r: Cell)
    requires c.Valid()
    ensures r.Valid()
  {
    var m := Choice(c, cell);
    if m == 3 then Moments(c, cell, 3) else Accept(Moments(c, cell, m + 13), m, frame)
  }

  /** CAN_Receive on its own: fourteen accesses to read, and one that releases. */
  function Receiving(c: Cell, cell: nat -> seq<Step>, f: nat): (r: Cell)
    requires c.Valid() && f < 2
    ensures r.Valid()
  {
    Release(Moments(c, cell, 15), f)
  }

  /** CAN_MessagePending, and CAN_Receive if there is something. */
  function Asking(c: Cell, cell: nat -> seq<Step>, f: nat): (r: Cell)
    requires c.Valid() && f < 2
    ensures r.Valid()
  {
    var asked := Moments(c, cell, 1);
    if asked.mail[f] == [] then asked else Receiving(asked, cell, f)
  }

  /** A call of the driver's user: send a message, or receive if one is pending. */
  datatype Call =
    | Send(stdId: bv32, extId: bv32, ide: bv8, rtr: bv8, dlc: bv8, data: seq<bv8>)
    | Poll(f: nat)
  {
    predicate Legal() {
      match this
      case Send(_, _, ide, rtr, _, data) =>
        |data| == 8 && (ide == ID_STANDARD || ide == ID_EXTENDED) && (rtr == RTR_DATA || rtr == RTR_REMOTE)
      case Poll(f) => f < 2
    }

    function Content(): Frame
      requires Send?
    {
      Message(stdId, extId, ide, rtr, dlc, data)
    }
  }

  predicate LegalCalls(calls: seq<Call>) { forall i | 0 <= i < |calls| :: calls[i].Legal() }

  function Effect(c: Cell, cell: nat -> seq<Step>, call: Call): (r: Cell)
    requires c.Valid() && (call.Poll? ==> call.f < 2)
    ensures r.Valid()
  {
    match call
    case Send(_, _, _, _, _, _) => Sending(c, cell, call.Content())
    case Poll(f) => Asking(c, cell, f)
  }

  function Effects(c: Cell, cell: nat -> seq<Step>, calls: seq<Call>): (r: Cell)
    requires c.Valid() && LegalCalls(calls)
    ensures r.Valid()
  {
    if calls == [] then c else Effect(Effects(c, cell, calls[..|calls| - 1]), cell, calls[|calls| - 1])
  }

  /** What a poll hands over. */
  function Handed(c: Cell, cell: nat -> seq<Step>, f: nat): seq<Frame>
    requires c.Valid() && f < 2
  {
    var asked := Moments(c, cell, 1);
    if asked.mail[f] == [] then [] else [asked.mail[f][0]]
  }

  /** The frames of the sends that are not refused, in order. */
  function SentBy(c: Cell, cell: nat -> seq<Step>, calls: seq<Call>): seq<Frame>
    requires c.Valid() && LegalCalls(calls)
  {
    if calls == [] then []
    else
      var before, call := calls[..|calls| - 1], calls[|calls| - 1];
      SentBy(c, cell, before)
      + if call.Send? && Choice(Effects(c, cell, before), cell) < 3 then [call.Content()] else []
  }

  /** The frames the polls of FIFO f hand over, in order. */
  function GotBy(c: Cell, cell: nat -> seq<Step>, calls: seq<Call>, f: nat): seq<Frame>
    requires c.Valid() && LegalCalls(calls) && f < 2
  {
    if calls == [] then []
    else
      var before, call := calls[..|calls| - 1], calls[|calls| - 1];
      GotBy(c, cell, before, f) + if call == Poll(f) then Handed(Effects(c, cell, before), cell, f) else []
  }

  lemma NoCallsYet(c: Cell, cell: nat -> seq<Step>, calls: seq<Call>)
    requires c.Valid() && LegalCalls(calls)
    ensures Effects(c, cell, calls[..0]) == c && SentBy(c, cell, calls[..0]) == []
    ensures GotBy(c, cell, calls[..0], 0) == GotBy(c, cell, calls[..0], 1) == []
  {
  }

  lemma LegalPoll(call: Call) requires call.Legal() && call.Poll? ensures call.f < 2 {}

  lemma EffectsStep(c: Cell, cell: nat -> seq<Step>, calls: seq<Call>, i: nat)
    requires c.Valid() && LegalCalls(calls) && i < |calls|
    ensures Effects(c, cell, calls[..i + 1]) == Effect(Effects(c, cell, calls[..i]), cell, calls[i])
    ensures SentBy(c, cell, calls[..i + 1]) == SentBy(c, cell, calls[..i])
      + if calls[i].Send? && Choice(Effects(c, cell, calls[..i]), cell) < 3 then [calls[i].Content()] else []
  {
    hide Effect, Choice, Call.Legal;
    assert calls[..i + 1][..i] == calls[..i];
  }

  lemma GotStep(c: Cell, cell: nat -> seq<Step>, calls: seq<Call>, i: nat, f: nat)
    requires c.Valid() && LegalCalls(calls) && i < |calls| && f < 2
    ensures GotBy(c, cell, calls[..i + 1], f) == GotBy(c, cell, calls[..i], f)
      + if calls[i] == Poll(f) then Handed(Effects(c, cell, calls[..i]), cell, f) else []
  {
    hide Effects, Handed, Call.Legal;
    assert calls[..i + 1][..i] == calls[..i];
  }

  // ----- What the cell can and cannot do -----

  /** What the cell does between two points of time: end requests, append to FIFOs, and nothing else. */
  predicate Later(c: Cell, d: Cell)
    requires c.Valid() && d.Valid()
  {
    && d.accepted == c.accepted && d.released == c.released && c.failed <= d.failed
    && c.mail[0] <= d.mail[0] && c.mail[1] <= d.mail[1]
    && c.index[0] <= d.index[0] && c.index[1] <= d.index[1]
    && forall m | 0 <= m < 3 ::
         c.outcome[m] != Busy || d.outcome[m] == Busy ==> d.outcome[m] == c.outcome[m] && d.waiting[m] == c.waiting[m]
  }

  lemma {:induction false} ActsLater(c: Cell, steps: seq<Step>)
    requires c.Valid()
    ensures Later(c, Acts(c, steps))
  {
    if steps == [] {
    } else {
      ActsLater(c, steps[..|steps| - 1]);
    }
  }

  lemma {:induction false} MomentsLater(c: Cell, cell: nat -> seq<Step>, n: nat)
    requires c.Valid()
    ensures Later(c, Moments(c, cell, n))
    ensures Moments(c, cell, n).now == c.now + n
  {
    if n == 0 {
    } else {
      MomentsLater(c, cell, n - 1);
      ActsLater(Moments(c, cell, n - 1), cell(Moments(c, cell, n - 1).now));
    }
  }

  // ----- Refused sends, empty polls, and receiving unasked -----

  /** A send is refused exactly if each mailbox still has its request at the moment it is looked at; all three were
      pending at the call, then. */
  lemma RefusedExactly(c: Cell, cell: nat -> seq<Step>)
    requires c.Valid()
    ensures Choice(c, cell) == 3 <==>
      && Moments(c, cell, 1).outcome[0] == Busy && Moments(c, cell, 2).outcome[1] == Busy
      && Moments(c, cell, 3).outcome[2] == Busy
    ensures Choice(c, cell) == 3 ==> c.outcome == [Busy, Busy, Busy]
  {
    hide Moments;
    LaterBusy(c, cell, 1);
    LaterBusy(c, cell, 2);
    LaterBusy(c, cell, 3);
  }

  lemma LaterBusy(c: Cell, cell: nat -> seq<Step>, n: nat)
    requires c.Valid()
    ensures var d := Moments(c, cell, n);
      && d.accepted == c.accepted
      && (d.outcome[0] == Busy ==> c.outcome[0] == Busy)
      && (d.outcome[1] == Busy ==> c.outcome[1] == Busy)
      && (d.outcome[2] == Busy ==> c.outcome[2] == Busy)
  {
    hide Moments;
    MomentsLater(c, cell, n);
  }

  /** A poll hands over the oldest frame of the FIFO exactly if it stores one when CAN_MessagePending reads it, and then
      that frame; otherwise nothing. */
  lemma HandedExactly(c: Cell, cell: nat -> seq<Step>, f: nat)
    requires c.Valid() && f < 2
    ensures var asked := Moments(c, cell, 1);
      Asking(c, cell, f).released[f] == c.released[f] + (if asked.mail[f] == [] then [] else [asked.mail[f][0]])
    ensures Asking(c, cell, f).released[1 - f] == c.released[1 - f]
    ensures c.mail[f] != [] ==> Moments(c, cell, 1).mail[f] != [] && Moments(c, cell, 1).mail[f][0] == c.mail[f][0]
  {
    hide Moments;
    var asked := Moments(c, cell, 1);
    MomentsLater(c, cell, 1);
    MomentsLater(asked, cell, 15);
  }

  /** CAN_Receive without asking drops a frame exactly if the FIFO stores one when the release is written: the oldest at
      the call, or, if there was none, the first stored during the call, which was not there from the start. */
  lemma DroppedExactly(c: Cell, cell: nat -> seq<Step>, f: nat)
    requires c.Valid() && f < 2
    ensures var end := Moments(c, cell, 15);
      Receiving(c, cell, f).released[f] == c.released[f] + (if end.mail[f] == [] then [] else [end.mail[f][0]])
    ensures c.mail[f] != [] ==> Moments(c, cell, 15).mail[f] != [] && Moments(c, cell, 15).mail[f][0] == c.mail[f][0]
  {
    hide Moments;
    MomentsLater(c, cell, 15);
  }

  lemma {:induction false} RestingMoments(c: Cell, cell: nat -> seq<Step>, n: nat)
    requires c.Valid() && forall i | c.now <= i < c.now + n :: cell(i) == []
    ensures Moments(c, cell, n) == c.(now := c.now + n)
  {
    if n == 0 {
    } else {
      RestingMoments(c, cell, n - 1);
      assert cell(c.now + n - 1) == [];
    }
  }

  /** The frame of mailbox 0 arrives in an empty FIFO after the last read and before the release: it is dropped. */
  lemma LateDelivery(c: Cell, cell: nat -> seq<Step>, f: nat, fmi: bv8, time: bv16)
    requires c.Valid() && f < 2 && c.mail[f] == [] && c.outcome[0] == Busy
    requires (forall i | c.now <= i < c.now + 14 :: cell(i) == []) && cell(c.now + 14) == [Deliver(0, f, fmi, time)]
    ensures Moments(c, cell, 14).mail[f] == []
    ensures var d := Receiving(c, cell, f);
      d.mail[f] == [] && d.released[f] == c.released[f] + [c.waiting[0].value] && d.waiting[0] == None
  {
    hide Moments, Acts;
    RestingMoments(c, cell, 14);
    NextMoment(c, cell, 14);
    OneStep(c.(now := c.now + 14), Deliver(0, f, fmi, time));
  }

  lemma NextMoment(c: Cell, cell: nat -> seq<Step>, n: nat)
    requires c.Valid()
    ensures Moments(c, cell, n + 1) == Moment(Moments(c, cell, n), cell)
  {
    hide Moment;
  }

  lemma OneStep(c: Cell, step: Step)
    requires c.Valid()
    ensures Acts(c, [step]) == Act(c, step)
  {
    hide Act;
    assert [step][..0] == [];
    assert Acts(c, []) == c;
  }

  // ----- Whole runs -----

  /** The calls are the only ones who accept and release: what the cell has in its history is what they sent and got. */
  lemma {:induction false} RunExactly(c: Cell, cell: nat -> seq<Step>, calls: seq<Call>)
    requires c.Valid() && LegalCalls(calls)
    ensures var d := Effects(c, cell, calls);
      && d.accepted == c.accepted + SentBy(c, cell, calls)
      && d.released[0] == c.released[0] + GotBy(c, cell, calls, 0)
      && d.released[1] == c.released[1] + GotBy(c, cell, calls, 1)
  {
    hide Moments, Call.Legal, Choice, Sending, Asking;
    if calls == [] {
    } else {
      var before, call := calls[..|calls| - 1], calls[|calls| - 1];
      RunExactly(c, cell, before);
      assert call.Legal();
      CallExactly(Effects(c, cell, before), cell, call);
    }
  }

  lemma CallExactly(c: Cell, cell: nat -> seq<Step>, call: Call)
    requires c.Valid() && call.Legal()
    ensures var d := Effect(c, cell, call);
      && d.accepted == c.accepted + (if call.Send? && Choice(c, cell) < 3 then [call.Content()] else [])
      && d.released[0] == c.released[0] + (if call == Poll(0) then Handed(c, cell, 0) else [])
      && d.released[1] == c.released[1] + (if call == Poll(1) then Handed(c, cell, 1) else [])
  {
    hide Moments, Choice, Message;
    match call
    case Send(_, _, _, _, _, _) => SendExactly(c, cell, call.Content());
    case Poll(f) =>
      HandedExactly(c, cell, f);
      PollExactly(c, cell, f);
  }

  lemma SendExactly(c: Cell, cell: nat -> seq<Step>, frame: Frame)
    requires c.Valid()
    ensures Sending(c, cell, frame).released == c.released
    ensures Sending(c, cell, frame).accepted == c.accepted + (if Choice(c, cell) < 3 then [frame] else [])
  {
    hide Moments, Choice;
    if Choice(c, cell) == 3 {
      MomentsLater(c, cell, 3);
      assert c.accepted + [] == c.accepted;
    } else {
      MomentsLater(c, cell, Choice(c, cell) + 13);
    }
  }

  lemma PollExactly(c: Cell, cell: nat -> seq<Step>, f: nat)
    requires c.Valid() && f < 2
    ensures Asking(c, cell, f).accepted == c.accepted
  {
    hide Moments;
    MomentsLater(c, cell, 1);
    MomentsLater(Moments(c, cell, 1), cell, 15);
  }

  /** The frames are those of some of the sends among the calls, in their order. */
  predicate Selected(frames: seq<Frame>, calls: seq<Call>) {
    if calls == [] then frames == []
    else
      var before, call := calls[..|calls| - 1], calls[|calls| - 1];
      || Selected(frames, before)
      || (call.Send? && frames != [] && frames[|frames| - 1] == call.Content()
          && Selected(frames[..|frames| - 1], before))
  }

  lemma {:induction false} SentIsSelected(c: Cell, cell: nat -> seq<Step>, calls: seq<Call>)
    requires c.Valid() && LegalCalls(calls)
    ensures Selected(SentBy(c, cell, calls), calls)
  {
    hide Choice, Message, Call.Legal, Effects;
    if calls == [] {
    } else {
      var before, call := calls[..|calls| - 1], calls[|calls| - 1];
      SentIsSelected(c, cell, before);
      var sent := SentBy(c, cell, before);
      assert call.Send? ==> (sent + [call.Content()])[..|sent|] == sent;
      assert sent + [] == sent;
    }
  }
}
