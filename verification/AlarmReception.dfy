/**
  What a received alarm frame does, told by the guards of the frame alone: which frame is credited,
  accepted, answered, shown to the application, which one fails, and which one ends the AR.  Then
  the receive half of the periodic function: which frames it reads.
*/
module AlarmReception {
  import opened Wrappers
  import opened SequenceNumbers
  import opened Apmx
  import opened AlarmModel
  import opened AlarmInvariants
  import opened AlarmTheorems

  // ------------------------------------------------------ guards of a frame

  predicate IsNotification(p: Prio, rx: Rx) {
    rx.blockType == if p == High then 0x0001 else 0x0002
  }

  predicate IsAnswer(p: Prio, rx: Rx) {
    rx.blockType == if p == High then 0x8001 else 0x8002
  }

  /** A DATA PDU that APMR looks at. */
  predicate Examined(l: Line, rx: Rx) {
    rx.version == 1 && rx.pdu == DataPdu && rx.tack && l.rcv.state == ApmrOpen
  }

  /** The DATA PDU after those accepted so far. */
  predicate InSequence(l: Line, rx: Rx) {
    Examined(l, rx) && rx.sendSeq == SeqOf(l.rcv.accepted)
  }

  /** The last accepted DATA PDU once more. */
  predicate OnceMore(l: Line, rx: Rx) {
    Examined(l, rx) && rx.sendSeq == SeqOf(l.rcv.accepted - 1)
  }

  /** ... whose block type the receiver knows. */
  predicate Welcome(l: Line, p: Prio, rx: Rx) {
    InSequence(l, rx) && (IsNotification(p, rx) || IsAnswer(p, rx))
  }

  /** The frame carries the number of the PDU that waits for its TACK. */
  predicate Answers(l: Line, rx: Rx) {
    l.snd.state == ApmsWTack && rx.ackSeq == SeqOf(l.snd.acked)
  }

  /** A buffer is there for the transport acknowledgement, and it can be sent. */
  predicate AckGoesOut(cfg: Config, clock: nat) {
    cfg.env.alloc(clock) && cfg.env.send(clock)
  }

  /** The application has not yet finished with the alarm before, as far as the frame tells. */
  predicate Busy(l: Line, rx: Rx) {
    l.alpmr == AlpmrWUserAck || (l.alpmr == AlpmrWTack && !Answers(l, rx))
  }

  lemma BlockTypes(p: Prio, rx: Rx)
    ensures IsNotification(p, rx) <==> rx.blockType == BlockTypeNotify(p)
    ensures IsAnswer(p, rx) <==> rx.blockType == BlockTypeAck(p)
    ensures !(IsNotification(p, rx) && IsAnswer(p, rx))
  {
  }

  lemma Verdicts(l: Line, rx: Rx)
    ensures Judge(l.rcv, rx.sendSeq) == Fresh <==> rx.sendSeq == SeqOf(l.rcv.accepted)
    ensures Judge(l.rcv, rx.sendSeq) == Repeated <==> rx.sendSeq == SeqOf(l.rcv.accepted - 1)
    ensures Credits(l.snd, rx.ackSeq) <==> Answers(l, rx)
  {
    VerdictsExclude(l.rcv);
  }

  // --------------------------------------------------------------- one frame

  /** The frame's acknowledgement number is looked at, and it is that of the outstanding PDU. */
  predicate Credited(l: Line, p: Prio, rx: Rx) {
    && Answers(l, rx)
    && (Welcome(l, p, rx) || OnceMore(l, rx) || (rx.version == 1 && rx.pdu == AckPdu && rx.varPartLen == 0))
  }

  /** The application is told of an alarm. */
  predicate Tells(cfg: Config, clock: nat, l: Line, p: Prio, rx: Rx) {
    && Welcome(l, p, rx) && IsNotification(p, rx) && rx.parsed && AckGoesOut(cfg, clock)
    && !Busy(l, rx) && l.alpmr != AlpmrWStart
  }

  lemma TakeAckTells(l: Line, rx: Rx)
    ensures var l1 := TakeAck(l, rx.ackSeq); var confirms := Answers(l, rx) && l.alpmr == AlpmrWTack;
            && l1.snd == (if Answers(l, rx) then l.snd.(state := ApmsOpen, acked := l.snd.acked + 1, saved := None)
                          else l.snd)
            && l1.rcv == l.rcv && l1.alpmi == l.alpmi && l1.hist.sent == l.hist.sent && l1.hist.notes == l.hist.notes
            && l1.alpmr == (if confirms then AlpmrWNotify else l.alpmr)
            && l1.hist.replies == l.hist.replies + (if confirms then [AckConfirmed] else [])
  {
    hide SeqOf;
  }

  /** Accepted and repeated DATA PDUs have handlers of their own; any other frame is at most credited, or refused. */
  lemma ByGuards(cfg: Config, clock: nat, l: Line, p: Prio, rx: Rx)
    ensures Welcome(l, p, rx) ==> Process(cfg, clock, l, p, rx) == Deliver(cfg, clock, l, p, rx)
    ensures OnceMore(l, rx) ==> Process(cfg, clock, l, p, rx) == RepeatAck(cfg, clock, l, rx.ackSeq)
    ensures !Welcome(l, p, rx) && !OnceMore(l, rx) ==>
              var l' := Process(cfg, clock, l, p, rx).line;
              l'.rcv == l.rcv && l'.hist.notes == l.hist.notes
              && (if Credited(l, p, rx) then l' == TakeAck(l, rx.ackSeq)
                  else l'.snd == l.snd && l'.hist.replies == l.hist.replies)
    ensures !(Welcome(l, p, rx) && OnceMore(l, rx))
  {
    hide SeqOf, Judge, BlockTypeAck, BlockTypeNotify, Deliver, RepeatAck, Credit, MakeNack;
    BlockTypes(p, rx);
    Verdicts(l, rx);
    VerdictsExclude(l.rcv);
  }

  lemma RepeatTells(cfg: Config, clock: nat, l: Line, rx: Rx)
    ensures var l', l1 := RepeatAck(cfg, clock, l, rx.ackSeq).line, TakeAck(l, rx.ackSeq);
            && l'.snd == l1.snd && l'.rcv == l1.rcv
            && l'.hist.replies == l1.hist.replies && l'.hist.notes == l1.hist.notes
  {
    hide SeqOf, TakeAck;
  }

  /** What accepting and delivering leaves behind. */
  lemma DeliverTells(cfg: Config, clock: nat, l: Line, p: Prio, rx: Rx)
    requires Welcome(l, p, rx)
    ensures var l', l1 := Deliver(cfg, clock, l, p, rx).line, TakeAck(l, rx.ackSeq);
            && l'.snd == l1.snd && l'.rcv.accepted == l.rcv.accepted + 1
            && l'.hist.replies == l1.hist.replies + (if Tells(cfg, clock, l, p, rx) then [Indicated(rx.told)] else [])
            && l'.hist.notes == l1.hist.notes + (if IsAnswer(p, rx) && AckGoesOut(cfg, clock) && l1.alpmi == AlpmiWAck
                                                 then [Confirmed(rx.status)] else [])
  {
    hide SeqOf, BlockTypeAck, BlockTypeNotify, TakeAck, MakeAck;
    BlockTypes(p, rx);
    TakeAckTells(l, rx);
  }

  /** APMS is credited exactly by an ACK PDU without a variable part, or by a DATA PDU that is accepted or repeated,
      when the number is that of the outstanding PDU; no other frame touches APMS. */
  lemma CreditedExactly(cfg: Config, clock: nat, l: Line, p: Prio, rx: Rx)
    ensures var l' := Process(cfg, clock, l, p, rx).line;
            l'.snd == if Credited(l, p, rx)
                      then l.snd.(state := ApmsOpen, acked := l.snd.acked + 1, saved := None)
                      else l.snd
  {
    hide Process, Deliver, RepeatAck, TakeAck, Welcome, OnceMore, Answers;
    ByGuards(cfg, clock, l, p, rx);
    RepeatTells(cfg, clock, l, rx);
    TakeAckTells(l, rx);
    if Welcome(l, p, rx) { DeliverTells(cfg, clock, l, p, rx); }
  }

  /** A DATA PDU counts exactly when it is the next one and of a known block type. */
  lemma AcceptedExactly(cfg: Config, clock: nat, l: Line, p: Prio, rx: Rx)
    ensures Process(cfg, clock, l, p, rx).line.rcv.accepted
            == l.rcv.accepted + (if Welcome(l, p, rx) then 1 else 0)
  {
    hide Process, Deliver, RepeatAck, TakeAck, Welcome, OnceMore, Answers;
    ByGuards(cfg, clock, l, p, rx);
    RepeatTells(cfg, clock, l, rx);
    TakeAckTells(l, rx);
    if Welcome(l, p, rx) { DeliverTells(cfg, clock, l, p, rx); }
  }

  /** The answer to a frame, given a buffer: an ACK with the very number received for a DATA PDU that is accepted or
      repeated, a NACK with the number accepted last for one that is out of sequence, nothing for any other frame. */
  lemma AnsweredExactly(cfg: Config, clock: nat, l: Line, p: Prio, rx: Rx)
    ensures var l' := Process(cfg, clock, l, p, rx).line; var sent := l'.hist.sent;
            var acks := Welcome(l, p, rx) || OnceMore(l, rx);
            var nacks := Examined(l, rx) && !InSequence(l, rx) && !OnceMore(l, rx);
            if cfg.env.alloc(clock) && (acks || nacks) then
              && |sent| == |l.hist.sent| + 1 && sent[..|l.hist.sent|] == l.hist.sent
              && var tx := sent[|l.hist.sent|].tx;
                 && !tx.tack && tx.body == None
                 && tx.pdu == (if acks then AckPdu else NackPdu)
                 && tx.sendSeq == SeqOf(l'.snd.acked - 1)
                 && tx.ackSeq == (if acks then rx.sendSeq else SeqOf(l.rcv.accepted - 1))
            else sent == l.hist.sent
  {
    hide SeqOf, Judge, BlockTypeAck, BlockTypeNotify, TakeAck;
    BlockTypes(p, rx);
    Verdicts(l, rx);
    VerdictsExclude(l.rcv);
    TakeAckTells(l, rx);
  }

  /** The application is told exactly of an in-sequence notification that can be parsed, is acknowledged and finds ALPMR
      ready, be it by its own acknowledgement number; before that ALPMR gets the TACK it waits for. */
  lemma IndicatedExactly(cfg: Config, clock: nat, l: Line, p: Prio, rx: Rx)
    ensures Process(cfg, clock, l, p, rx).line.hist.replies
            == l.hist.replies + (if Credited(l, p, rx) && l.alpmr == AlpmrWTack then [AckConfirmed] else [])
               + (if Tells(cfg, clock, l, p, rx) then [Indicated(rx.told)] else [])
  {
    hide Process, Deliver, RepeatAck, TakeAck, Welcome, OnceMore, Answers;
    ByGuards(cfg, clock, l, p, rx);
    RepeatTells(cfg, clock, l, rx);
    TakeAckTells(l, rx);
    if Welcome(l, p, rx) { DeliverTells(cfg, clock, l, p, rx); }
  }

  /** The application's alarm is confirmed exactly by an in-sequence answer that is acknowledged. */
  lemma ConfirmedExactly(cfg: Config, clock: nat, l: Line, p: Prio, rx: Rx)
    ensures Process(cfg, clock, l, p, rx).line.hist.notes
            == l.hist.notes + (if Welcome(l, p, rx) && IsAnswer(p, rx) && AckGoesOut(cfg, clock) && l.alpmi == AlpmiWAck
                               then [Confirmed(rx.status)] else [])
  {
    hide Process, Deliver, RepeatAck, TakeAck, Welcome, OnceMore, Answers;
    ByGuards(cfg, clock, l, p, rx);
    RepeatTells(cfg, clock, l, rx);
    TakeAckTells(l, rx);
    if Welcome(l, p, rx) { DeliverTells(cfg, clock, l, p, rx); }
  }

  /** What ends the AR, with the error that is indicated: the peer's ERR PDU of 4 octets, an in-sequence DATA PDU of
      unknown block type, or an acknowledged notification while the one before is still in hand. */
  function Ending(cfg: Config, clock: nat, l: Line, p: Prio, rx: Rx): Option<Err> {
    if rx.version == 1 && rx.pdu == ErrPdu && rx.varPartLen == 4 then
      Some(if l.rcv.state == ApmrOpen then Err(rx.errCls, rx.errCode) else Err(0x46, 0x00))
    else if InSequence(l, rx) && !Welcome(l, p, rx) then
      Some(Err(0xfd, 0x0b))
    else if Welcome(l, p, rx) && IsNotification(p, rx) && rx.parsed && AckGoesOut(cfg, clock) && Busy(l, rx) then
      Some(Err(0xfd, 0x12))
    else None
  }

  /** A frame raises an error indication exactly when it ends the AR, and only notes one when it is out of sequence. */
  lemma EndsExactly(cfg: Config, clock: nat, l: Line, p: Prio, rx: Rx)
    ensures Process(cfg, clock, l, p, rx).trouble
            == match Ending(cfg, clock, l, p, rx)
               case Some(err) => Abort(err, false)
               case None => if Examined(l, rx) && !InSequence(l, rx) && !OnceMore(l, rx)
                            then Noted(Err(0xfd, 0x01)) else Fine
  {
    hide SeqOf, Judge, BlockTypeAck, BlockTypeNotify;
    BlockTypes(p, rx);
    Verdicts(l, rx);
    VerdictsExclude(l.rcv);
  }

  /** Processing fails, which ends the round of the receive loop, exactly for: a DATA PDU for a receiver that is stuck
      in WCNF, one of unknown block type, one that cannot be acknowledged, and a notification that cannot be handed
      on. */
  predicate Fails(cfg: Config, clock: nat, l: Line, p: Prio, rx: Rx) {
    || (rx.version == 1 && rx.pdu == DataPdu && l.rcv.state == ApmrWCnf)
    || (InSequence(l, rx) && (|| !Welcome(l, p, rx)
                              || !AckGoesOut(cfg, clock)
                              || (IsNotification(p, rx) && (!rx.parsed || Busy(l, rx)))))
  }

  lemma FailsExactly(cfg: Config, clock: nat, l: Line, p: Prio, rx: Rx)
    ensures Process(cfg, clock, l, p, rx).ok <==> !Fails(cfg, clock, l, p, rx)
  {
    hide SeqOf, Judge, BlockTypeAck, BlockTypeNotify;
    BlockTypes(p, rx);
    Verdicts(l, rx);
  }

  // ---------------------------------------------------------------- one turn

  /** The oldest frame of a priority. */
  function Oldest(ar: Ar, p: Prio): Rx
    requires HasFrame(ar.At(p))
  {
    ar.At(p).inQ.items[0].frame
  }

  /** Both priorities are down, and nobody listens. */
  predicate Down(ar: Ar) {
    && ar.low.snd.state == ar.high.snd.state == ApmsClosed && ar.low.rcv.state == ar.high.rcv.state == ApmrClosed
    && !ar.listening && !ar.low.link && !ar.high.link
  }

  /** The last frame handed to the network is an ERR PDU with this code. */
  predicate ErrorReported(ar: Ar, code: nat) {
    var sent := ar.low.hist.sent;
    sent != [] && sent[|sent| - 1].tx.pdu == ErrPdu && sent[|sent| - 1].tx.body == Some(ErrorStatus(0xfd, code))
  }

  /** The moment at which the ERR PDU needs its buffer: a notification is acknowledged first. */
  function EndingMoment(cfg: Config, ar: Ar, p: Prio): nat
    requires HasFrame(ar.At(p))
  {
    if Welcome(ar.At(p), p, Oldest(ar, p)) then ar.clock + 1 else ar.clock
  }

  lemma ProcessClock(cfg: Config, clock: nat, l: Line, p: Prio, rx: Rx)
    requires Ending(cfg, clock, l, p, rx).Some?
    ensures Process(cfg, clock, l, p, rx).clock == (if Welcome(l, p, rx) then clock + 1 else clock)
  {
    hide SeqOf, Judge, BlockTypeAck, BlockTypeNotify, TakeAck;
    BlockTypes(p, rx);
    Verdicts(l, rx);
  }

  lemma AbortGoesDown(cfg: Config, ar: Ar)
    ensures Down(AbortAr(cfg, ar))
    ensures ar.low.snd.state != ApmsClosed && cfg.env.alloc(ar.clock) ==> ErrorReported(AbortAr(cfg, ar), ar.err.code)
  {
  }

  /** A turn ends the AR exactly for the frames named above; then both priorities are down and, given a buffer, the
      controller is told the code. */
  lemma TurnEndsExactly(cfg: Config, ar: Ar, p: Prio)
    requires Inv(cfg, ar) && Together(ar) && !ar.faulted && HasFrame(ar.At(p))
    ensures var ar' := Step(cfg, ar, Turn(p)); var end := Ending(cfg, ar.clock, ar.At(p), p, Oldest(ar, p));
            && (Down(ar') <==> end.Some?)
            && (ar'.low.snd.state == ApmsClosed <==> end.Some?) && (ar'.high.snd.state == ApmsClosed <==> end.Some?)
            && (end.Some? && cfg.env.alloc(EndingMoment(cfg, ar, p)) ==> ErrorReported(ar', end.value.code))
  {
    hide Process, Ending, AbortAr, Inv, LineOk, ErrorReported;
    var l, rx := ar.At(p), Oldest(ar, p);
    OpenSides(cfg, ar, p);
    SameGuards(cfg, ar.clock, l, p, rx);
    EndsExactly(cfg, ar.clock, DropFrame(l), p, rx);
    ProcessAsOpen(cfg, ar.clock, DropFrame(l), p, rx);
    var out := Process(cfg, ar.clock, DropFrame(l), p, rx);
    if Ending(cfg, ar.clock, l, p, rx).Some? {
      ProcessClock(cfg, ar.clock, DropFrame(l), p, rx);
      AbortGoesDown(cfg, ar.With(p, out.line).(clock := out.clock, err := out.trouble.err));

    } else {
      NotDown(ar);

    }
  }

  lemma NotDown(ar: Ar)
    ensures ar.low.snd.state != ApmsClosed ==> !Down(ar)
  {
  }

  lemma OpenSides(cfg: Config, ar: Ar, p: Prio)
    requires Inv(cfg, ar) && Together(ar) && HasFrame(ar.At(p))
    ensures ar.low.snd.state != ApmsClosed && ar.high.snd.state != ApmsClosed
  {
  }

  lemma SameGuards(cfg: Config, clock: nat, l: Line, p: Prio, rx: Rx)
    ensures Ending(cfg, clock, DropFrame(l), p, rx) == Ending(cfg, clock, l, p, rx)
    ensures Fails(cfg, clock, DropFrame(l), p, rx) == Fails(cfg, clock, l, p, rx)
    ensures Welcome(DropFrame(l), p, rx) == Welcome(l, p, rx)
  {
  }

  /** A frame that comes while the handlers are registered goes behind the frames of its priority exactly when there
      is room in an available queue; nothing else changes. */
  lemma FrameArrives(cfg: Config, ar: Ar, p: Prio, msg: RxMessage)
    requires !ar.faulted
    ensures var ar', waiting, q := Step(cfg, ar, FrameIn(p, msg)), ar.At(p).inQ, if p == Low then High else Low;
            var takes := ar.listening && waiting.Present? && |waiting.items| < cfg.capacity;
            && ar'.At(p) == ar.At(p).(inQ := if takes then Present(waiting.items + [msg]) else waiting)
            && ar' == ar.With(p, ar'.At(p)) && ar'.At(q) == ar.At(q)
  {
  }

  // ---------------------------------------------------------- the receive half

  predicate TurnFails(cfg: Config, ar: Ar, p: Prio) {
    HasFrame(ar.At(p)) && Fails(cfg, ar.clock, ar.At(p), p, Oldest(ar, p))
  }

  /** `k` turns are a whole round: they go on exactly while a frame is there and none has failed. */
  predicate Round(cfg: Config, ar: Ar, p: Prio, k: nat)
    decreases k
  {
    if k == 0 then !HasFrame(ar.At(p))
    else HasFrame(ar.At(p)) && if TurnFails(cfg, ar, p) then k == 1 else Round(cfg, Step(cfg, ar, Turn(p)), p, k - 1)
  }

  /** One of the `k` turns fails. */
  predicate RoundFails(cfg: Config, ar: Ar, p: Prio, k: nat)
    decreases k
  {
    k > 0 && (TurnFails(cfg, ar, p) || RoundFails(cfg, Step(cfg, ar, Turn(p)), p, k - 1))
  }

  function Turns(p: Prio, k: nat): seq<Event> {
    seq(k, _ => Turn(p))
  }

  lemma TurnsUnfold(cfg: Config, ar: Ar, p: Prio, k: nat)
    requires k > 0
    ensures Run(cfg, ar, Turns(p, k)) == Run(cfg, Step(cfg, ar, Turn(p)), Turns(p, k - 1))
  {
    assert Turns(p, k)[0] == Turn(p) && Turns(p, k)[1..] == Turns(p, k - 1);
  }

  lemma PollFails(cfg: Config, ar: Ar, p: Prio)
    ensures Poll(cfg, ar, p).1 <==> !TurnFails(cfg, ar, p)
  {
    hide Process, Fails;
    if HasFrame(ar.At(p)) {
      SameGuards(cfg, ar.clock, ar.At(p), p, Oldest(ar, p));
      FailsExactly(cfg, ar.clock, DropFrame(ar.At(p)), p, Oldest(ar, p));
    }
  }

  /** The receive loop of one priority is such a round, and reports whether it failed. */
  lemma {:induction false} LoopIsRound(cfg: Config, ar: Ar, p: Prio) returns (k: nat)
    requires !ar.faulted
    ensures Round(cfg, ar, p, k)
    ensures PollAll(cfg, ar, p) == (Run(cfg, ar, Turns(p, k)), !RoundFails(cfg, ar, p, k))
    ensures !PollAll(cfg, ar, p).0.faulted
    ensures PollAll(cfg, ar, p).1 ==> !HasFrame(PollAll(cfg, ar, p).0.At(p))
    decreases Backlog(ar.At(p))
  {
    hide TurnFails, HasFrame, Poll;
    PollFails(cfg, ar, p);
    if !HasFrame(ar.At(p)) {
      k := 0;
    } else {
      PollShrinks(cfg, ar, p);
      PollHandsOverNothing(cfg, ar, p);
      var ar1 := Poll(cfg, ar, p).0;
      assert ar1 == Step(cfg, ar, Turn(p));
      var rest := 0;
      if Poll(cfg, ar, p).1 {
        rest := LoopIsRound(cfg, ar1, p);
      }
      k := rest + 1;
      TurnsUnfold(cfg, ar, p, k);
      assert rest == 0 ==> Run(cfg, ar1, Turns(p, 0)) == ar1;
    }
  }

  /** The turns of a round take the queued frames in the order of their arrival, and all of them unless a turn fails or
      closes the AR. */
  lemma {:induction false} RoundReadsInOrder(cfg: Config, ar: Ar, p: Prio, k: nat)
    requires !ar.faulted && Round(cfg, ar, p, k)
    ensures forall m :: 0 <= m < k ==>
              var mid := Run(cfg, ar, Turns(p, m));
              HasFrame(mid.At(p)) && |ar.At(p).inQ.items| > m && mid.At(p).inQ.items == ar.At(p).inQ.items[m..]
    ensures HasFrame(ar.At(p)) ==>
              || k == |ar.At(p).inQ.items|
              || RoundFails(cfg, ar, p, k)
              || Run(cfg, ar, Turns(p, k)).At(p).rcv.state == ApmrClosed
    decreases k
  {
    hide TurnFails, Poll;
    if k > 0 {
      var ar1, items := Step(cfg, ar, Turn(p)), ar.At(p).inQ.items;
      TurnTakesOldest(cfg, ar, p);
      TurnsUnfold(cfg, ar, p, k);
      if TurnFails(cfg, ar, p) {
        assert Turns(p, 0) == [];
      } else {
        RoundReadsInOrder(cfg, ar1, p, k - 1);
        forall m | 0 <= m < k ensures
          var mid := Run(cfg, ar, Turns(p, m));
          HasFrame(mid.At(p)) && |items| > m && mid.At(p).inQ.items == items[m..]
        {
          if m > 0 {
            TurnsUnfold(cfg, ar, p, m);
            if k > 1 { assert HasFrame(ar1.At(p)); }
            assert ar1.At(p).inQ.items == items[1..];
            assert items[1..][m - 1..] == items[m..];
          }
        }
        if k == 1 { assert Run(cfg, ar1, Turns(p, 0)) == ar1; }
      }
    }
  }

  lemma TurnTakesOldest(cfg: Config, ar: Ar, p: Prio)
    requires !ar.faulted && HasFrame(ar.At(p))
    ensures var l' := Step(cfg, ar, Turn(p)).At(p);
            && !Step(cfg, ar, Turn(p)).faulted
            && (l'.rcv.state != ApmrClosed ==> l'.inQ == Present(ar.At(p).inQ.items[1..]))
  {
    hide Process;
    var l := ar.At(p);
    PollHandsOverNothing(cfg, ar, p);
    ProcessKeepsQueues(cfg, ar.clock, DropFrame(l), p, l.inQ.items[0].frame);
  }

  /** Turns at high priority bring no frame to the low one. */
  lemma {:induction false} OtherStaysEmpty(cfg: Config, ar: Ar, k: nat)
    requires !HasFrame(ar.low)
    ensures !HasFrame(Run(cfg, ar, Turns(High, k)).low)
    decreases k
  {
    hide Process;
    if k > 0 {
      TurnsUnfold(cfg, ar, High, k);
      OtherStaysEmpty(cfg, Step(cfg, ar, Turn(High)), k - 1);
    }
  }

  /** One call of the periodic function is this run: a round of turns at low priority, a round at high priority unless
      the first failed, and one send.  If no turn fails, no frame is left at either priority. */
  lemma PeriodicIsRun(cfg: Config, ar: Ar) returns (i: nat, j: nat)
    requires !ar.faulted
    ensures var mid := Run(cfg, ar, Turns(Low, i)); var received := Run(cfg, mid, Turns(High, j));
            && Periodic(cfg, ar) == Run(cfg, ar, Turns(Low, i) + Turns(High, j) + [Send])
            && Round(cfg, ar, Low, i)
            && (if RoundFails(cfg, ar, Low, i) then j == 0 else Round(cfg, mid, High, j))
            && ReceiveHalf(cfg, ar) == (received, !RoundFails(cfg, ar, Low, i) && !RoundFails(cfg, mid, High, j))
            && (ReceiveHalf(cfg, ar).1 ==> !HasFrame(received.low) && !HasFrame(received.high))
  {
    hide Round, RoundFails, HasFrame;
    i := LoopIsRound(cfg, ar, Low);
    j := 0;
    var mid := Run(cfg, ar, Turns(Low, i));
    if PollAll(cfg, ar, Low).1 {
      j := LoopIsRound(cfg, mid, High);
      OtherStaysEmpty(cfg, mid, j);
    } else {
      assert !RoundFails(cfg, mid, High, 0) by { NoTurnNoFailure(cfg, mid, High); }
      assert Run(cfg, mid, Turns(High, 0)) == mid;
    }
    RunAppend(cfg, ar, Turns(Low, i), Turns(High, j));
    RunAppend(cfg, ar, Turns(Low, i) + Turns(High, j), [Send]);
    PollBothHandsOverNothing(cfg, ar);
    assert Run(cfg, PollBoth(cfg, ar), [Send]) == Run(cfg, Dispatch(cfg, PollBoth(cfg, ar)), []);
  }

  lemma NoTurnNoFailure(cfg: Config, ar: Ar, p: Prio)
    ensures !RoundFails(cfg, ar, p, 0)
  {
  }
}
