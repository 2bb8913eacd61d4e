/** What every step of the alarm transport of one AR keeps, for every environment and every peer. */
module AlarmInvariants {
  import opened Wrappers
  import opened SequenceNumbers
  import opened Apmx
  import opened AlarmModel

  // -------------------------------------------------------------- vocabulary

  /** How often DATA PDU `k` was handed to the network. */
  function Copies(sent: seq<Sent>, k: nat): nat {
    if sent == [] then 0 else
    var last := sent[|sent| - 1];
    Copies(sent[..|sent| - 1], k) + (if last.tx.pdu == DataPdu && last.ix == k then 1 else 0)
  }

  lemma CopiesAfter(sent: seq<Sent>, s: Sent, k: nat)
    ensures Copies(sent + [s], k) == Copies(sent, k) + (if s.tx.pdu == DataPdu && s.ix == k then 1 else 0)
  {
    assert (sent + [s])[..|sent|] == sent;
  }

  /** Alarms still waiting in the send queue. */
  function Waiting(l: Line): seq<Alarm> {
    if l.outQ.Present? then l.outQ.items else []
  }

  /** Sends and confirmations alternate, beginning with a send. */
  ghost predicate Alternating(notes: seq<Note>) {
    forall i :: 0 <= i < |notes| ==> if i % 2 == 0 then notes[i].Notified? else notes[i].Confirmed?
  }

  /** Indication, acknowledgement and its confirmation follow each other in this order. */
  ghost predicate Cyclic(replies: seq<Reply>) {
    forall i :: 0 <= i < |replies| ==>
      if i % 3 == 0 then replies[i].Indicated? else if i % 3 == 1 then replies[i].Acknowledged?
        else replies[i].AckConfirmed?
  }

  ghost predicate CopiesBounded(cfg: Config, sent: seq<Sent>) {
    forall k: nat :: Copies(sent, k) <= 1 + cfg.retries
  }

  // -------------------------------------------------------------- invariants

  /** What even a line that is about to be closed satisfies. */
  ghost predicate LineCore(cfg: Config, l: Line) {
    && l.hist.posted == l.hist.handed + Waiting(l)
    && |Waiting(l)| <= cfg.capacity
    && (l.inQ.Present? ==> |l.inQ.items| <= cfg.capacity)
    && Alternating(l.hist.notes) && Cyclic(l.hist.replies)
    && CopiesBounded(cfg, l.hist.sent)
    && l.seqNo < SEQUENCE_LIMIT
    && (l.armed ==> l.timers > 0 && l.snd.state != ApmsClosed)
    && (l.rcv.state == ApmrClosed ==> l.inQ.Missing?)
  }

  /** APMS against its history: at most `retries` further copies of the outstanding PDU, none of a later one. */
  ghost predicate SenderOk(cfg: Config, l: Line) {
    && (l.snd.state == ApmsWTack ==> Copies(l.hist.sent, l.snd.acked) + l.snd.resend <= 1 + cfg.retries)
    && (l.snd.state == ApmsOpen ==> Copies(l.hist.sent, l.snd.acked) == 0)
    && (l.snd.state != ApmsClosed ==> forall k :: k > l.snd.acked ==> Copies(l.hist.sent, k) == 0)
    && (l.snd.saved.Some? ==>
          && l.snd.state == ApmsWTack
          && l.snd.saved.value.pdu == DataPdu && l.snd.saved.value.tack
          && l.snd.saved.value.sendSeq == SeqOf(l.snd.acked)
          && l.snd.saved.value.body == l.snd.flight)
    && (l.snd.state == ApmsWTack ==> l.snd.flight.Some?)
  }

  /** ALPMI and ALPMR against their histories. */
  ghost predicate MachinesOk(l: Line) {
    && (l.snd.state == ApmsClosed <==> l.rcv.state == ApmrClosed)
    && (l.snd.state != ApmsClosed ==> l.link)
    && (l.alpmi != AlpmiWStart ==> l.snd.state != ApmsClosed)
    && (l.alpmr == AlpmrWNotify || l.alpmr == AlpmrWUserAck ==> l.snd.state != ApmsClosed)
    && (l.alpmi == AlpmiWAlarm ==> |l.hist.notes| % 2 == 0)
    && (l.alpmi == AlpmiWAck ==> |l.hist.notes| % 2 == 1)
    && (l.alpmr == AlpmrWNotify ==> |l.hist.replies| % 3 == 0)
    && (l.alpmr == AlpmrWUserAck ==> |l.hist.replies| % 3 == 1)
    && (l.alpmr == AlpmrWTack ==> |l.hist.replies| % 3 == 2)
  }

  ghost predicate LineOk(cfg: Config, l: Line) {
    LineCore(cfg, l) && SenderOk(cfg, l) && MachinesOk(l)
  }

  ghost predicate Inv(cfg: Config, ar: Ar) {
    LineOk(cfg, ar.low) && LineOk(cfg, ar.high)
  }

  /** A handler's result is fit to be stored, or to be closed when it raised an error indication. */
  ghost predicate OutOk(cfg: Config, out: Out) {
    LineCore(cfg, out.line) && (!out.trouble.Abort? ==> SenderOk(cfg, out.line) && MachinesOk(out.line))
  }

  // ---------------------------------------------------------------- handlers

  /** Logging a frame that is not DATA leaves all copy counts alone. */
  lemma LogPlain(cfg: Config, l: Line, tx: Tx, attempted: bool)
    requires tx.pdu != DataPdu
    ensures forall k: nat :: Copies(Log(l, tx, attempted).hist.sent, k) == Copies(l.hist.sent, k)
  {
    forall k: nat ensures Copies(Log(l, tx, attempted).hist.sent, k) == Copies(l.hist.sent, k) {
      CopiesAfter(l.hist.sent, Sent(l.snd.acked, tx), k);
    }
  }

  lemma LogData(cfg: Config, l: Line, tx: Tx, attempted: bool)
    requires tx.pdu == DataPdu
    ensures forall k: nat :: Copies(Log(l, tx, attempted).hist.sent, k)
                             == Copies(l.hist.sent, k) + (if attempted && k == l.snd.acked then 1 else 0)
  {
    forall k: nat ensures Copies(Log(l, tx, attempted).hist.sent, k)
                          == Copies(l.hist.sent, k) + (if attempted && k == l.snd.acked then 1 else 0) {
      CopiesAfter(l.hist.sent, Sent(l.snd.acked, tx), k);
    }
  }

  lemma TransmitOk(cfg: Config, clock: nat, l: Line, tx: Tx)
    requires LineOk(cfg, l) && tx.pdu != DataPdu
    ensures LineOk(cfg, Transmit(cfg, clock, l, tx).line)
  {
    LogPlain(cfg, l, tx, cfg.env.alloc(clock));
  }

  lemma RequestOk(cfg: Config, clock: nat, l: Line, body: Body)
    requires LineOk(cfg, l)
    ensures OutOk(cfg, Request(cfg, clock, l, body))
  {
    if l.snd.state == ApmsOpen { LogData(cfg, l, MakeData(l.snd, l.rcv, body), cfg.env.alloc(clock)); }
  }

  lemma TakeAckOk(cfg: Config, l: Line, ackSeq: nat)
    requires LineOk(cfg, l)
    ensures LineOk(cfg, TakeAck(l, ackSeq))
  {
  }

  lemma AcceptOk(cfg: Config, l: Line, ackSeq: nat)
    requires LineOk(cfg, l)
    ensures LineOk(cfg, TakeAck(l, ackSeq).(rcv := Accept(l.rcv)))
  {
    TakeAckOk(cfg, l, ackSeq);
  }

  lemma ConfirmAlarmOk(cfg: Config, l: Line, status: nat)
    requires LineOk(cfg, l)
    ensures LineOk(cfg, ConfirmAlarm(l, status))
  {
  }

  lemma IndicateAlarmOk(cfg: Config, l: Line, clock: nat, told: Told)
    requires LineOk(cfg, l)
    ensures LineOk(cfg, IndicateAlarm(l, clock, told).line)
  {
  }

  lemma WCnfOk(cfg: Config, l: Line)
    requires LineOk(cfg, l) && l.rcv.state == ApmrOpen
    ensures LineOk(cfg, Jam(l))
  {
  }

  lemma AcceptDataOk(cfg: Config, clock: nat, l: Line, ackSeq: nat)
    requires LineOk(cfg, l) && l.rcv.state == ApmrOpen
    ensures LineOk(cfg, AcceptData(cfg, clock, l, ackSeq).line)
            && AcceptData(cfg, clock, l, ackSeq).line.rcv.state == ApmrOpen
  {
    AcceptOk(cfg, l, ackSeq);
    var l1 := TakeAck(l, ackSeq).(rcv := Accept(l.rcv));
    TransmitOk(cfg, clock, l1, MakeAck(l1.snd, l1.rcv));
  }

  lemma DeliverOk(cfg: Config, clock: nat, l: Line, p: Prio, rx: Rx)
    requires LineOk(cfg, l) && l.rcv.state == ApmrOpen
    ensures LineOk(cfg, Deliver(cfg, clock, l, p, rx).line)
  {
    AcceptDataOk(cfg, clock, l, rx.ackSeq);
    var l2 := AcceptData(cfg, clock, l, rx.ackSeq).line;
    ConfirmAlarmOk(cfg, l2, rx.status);
    WCnfOk(cfg, l2);
    IndicateAlarmOk(cfg, l2, clock + 1, rx.told);
  }

  lemma RepeatAckOk(cfg: Config, clock: nat, l: Line, ackSeq: nat)
    requires LineOk(cfg, l)
    ensures LineOk(cfg, RepeatAck(cfg, clock, l, ackSeq).line)
  {
    TakeAckOk(cfg, l, ackSeq);
    var l1 := TakeAck(l, ackSeq);
    TransmitOk(cfg, clock, l1, MakeAck(l1.snd, l1.rcv));
  }

  lemma DataIndOk(cfg: Config, clock: nat, l: Line, p: Prio, rx: Rx)
    requires LineOk(cfg, l)
    ensures LineOk(cfg, DataInd(cfg, clock, l, p, rx).line)
  {
    RepeatAckOk(cfg, clock, l, rx.ackSeq);
    TransmitOk(cfg, clock, l, MakeNack(l.snd, l.rcv));
    if l.rcv.state == ApmrOpen { DeliverOk(cfg, clock, l, p, rx); }
  }

  lemma ProcessOk(cfg: Config, clock: nat, l: Line, p: Prio, rx: Rx)
    requires LineOk(cfg, l)
    ensures LineOk(cfg, Process(cfg, clock, l, p, rx).line)
  {
    TakeAckOk(cfg, l, rx.ackSeq);
    DataIndOk(cfg, clock, l, p, rx);
  }

  lemma FireOk(cfg: Config, clock: nat, l: Line)
    requires LineOk(cfg, l)
    ensures OutOk(cfg, Fire(cfg, clock, l))
  {
    hide SeqOf, Copies;
    if l.snd.saved.Some? { LogData(cfg, l.(timers := l.timers, armed := false), l.snd.saved.value, true); }
  }

  lemma SendInternalOk(cfg: Config, clock: nat, l: Line)
    requires LineOk(cfg, l) && CanDispatch(l)
    ensures OutOk(cfg, SendInternal(cfg, clock, DropAlarm(l), l.outQ.items[0]))
  {
    var alarm := l.outQ.items[0];
    var l1 := HandOver(DropAlarm(l), alarm);
    assert l.outQ.items == [alarm] + l.outQ.items[1..];
    assert LineOk(cfg, l1);
    RequestOk(cfg, clock, l1, Notification(alarm, l.seqNo));
    RequestKeepsAlpmi(cfg, clock, l1, Notification(alarm, l.seqNo));
    AwaitAckOk(cfg, Request(cfg, clock, l1, Notification(alarm, l.seqNo)).line, alarm);
  }

  lemma RequestKeepsAlpmi(cfg: Config, clock: nat, l: Line, body: Body)
    ensures Request(cfg, clock, l, body).line.alpmi == l.alpmi
    ensures Request(cfg, clock, l, body).ok ==> Request(cfg, clock, l, body).line.snd.state == ApmsWTack
  {
  }

  lemma AwaitAckOk(cfg: Config, l: Line, alarm: Alarm)
    ensures LineOk(cfg, l) && l.alpmi == AlpmiWAlarm ==> LineOk(cfg, AwaitAck(l, alarm))
  {
  }

  lemma CloseAlpmxOk(cfg: Config, l: Line)
    requires LineCore(cfg, l)
    ensures LineCore(cfg, CloseAlpmx(l))
  {
  }

  lemma CloseApmxOk(cfg: Config, l: Line)
    requires LineCore(cfg, l) && l.alpmi == AlpmiWStart && l.alpmr == AlpmrWStart
    ensures LineOk(cfg, CloseApmx(l))
  {
  }

  lemma CloseArOk(cfg: Config, ar: Ar)
    requires LineCore(cfg, ar.low) && LineCore(cfg, ar.high)
    ensures Inv(cfg, CloseAr(cfg, ar))
  {
    CloseAlpmxOk(cfg, ar.low);
    CloseAlpmxOk(cfg, ar.high);
    var l := CloseAlpmx(ar.low);
    LogPlain(cfg, l, MakeErr(l.snd, l.rcv, ERR_PROTOCOL, ar.err.code), cfg.env.alloc(ar.clock));
    CloseApmxOk(cfg, CloseAlarm(cfg, ar.clock, l, ar.err.code).line);
    CloseApmxOk(cfg, CloseAlpmx(ar.high));
  }

  lemma ReleaseLineOk(cfg: Config, l: Line)
    requires LineOk(cfg, l) && l.outQ.Missing?
    ensures LineOk(cfg, ReleaseLine(l))
  {
  }

  /** Aborting establishes the invariant from any state that keeps queues and histories right. */
  lemma AbortArOk(cfg: Config, ar: Ar)
    requires LineCore(cfg, ar.low) && LineCore(cfg, ar.high)
    ensures Inv(cfg, AbortAr(cfg, ar))
  {
    hide LineOk, LineCore;
    CloseArOk(cfg, ar);
    var closed := CloseAr(cfg, ar);
    ReleaseLineOk(cfg, closed.low);
    ReleaseLineOk(cfg, closed.high);
  }

  lemma FinishOk(cfg: Config, ar: Ar, p: Prio, out: Out)
    requires Inv(cfg, ar) && OutOk(cfg, out)
    ensures Inv(cfg, Finish(cfg, ar, p, out))
  {
    if out.trouble.Abort? {
      AbortArOk(cfg, ar.With(p, out.line).(clock := out.clock, err := out.trouble.err));
    }
  }

  lemma ActivateLineOk(cfg: Config, l: Line)
    requires LineOk(cfg, l)
    ensures LineOk(cfg, ActivateLine(l))
  {
  }

  lemma PostFrameOk(cfg: Config, l: Line, msg: RxMessage)
    requires LineOk(cfg, l)
    ensures LineOk(cfg, PostFrame(cfg, l, msg))
  {
  }

  lemma PostAlarmOk(cfg: Config, ar: Ar, p: Prio, alarm: Alarm)
    requires Inv(cfg, ar)
    ensures Inv(cfg, PostAlarm(cfg, ar, p, alarm))
  {
  }

  lemma PollOk(cfg: Config, ar: Ar, p: Prio)
    requires Inv(cfg, ar)
    ensures Inv(cfg, Poll(cfg, ar, p).0)
  {
    var l := ar.At(p);
    if HasFrame(l) {
      var l0 := DropFrame(l);
      ProcessOk(cfg, ar.clock, l0, p, l.inQ.items[0].frame);
      FinishOk(cfg, ar, p, Process(cfg, ar.clock, l0, p, l.inQ.items[0].frame));
    }
  }

  lemma DispatchOk(cfg: Config, ar: Ar)
    requires Inv(cfg, ar)
    ensures Inv(cfg, Dispatch(cfg, ar))
  {
    forall p | CanDispatch(ar.At(p)) ensures Inv(cfg, DispatchLine(cfg, ar, p)) {
      var l := ar.At(p);
      SendInternalOk(cfg, ar.clock, l);
      FinishOk(cfg, ar, p, SendInternal(cfg, ar.clock, DropAlarm(l), l.outQ.items[0]));
    }
    assert ar.At(High) == ar.high && ar.At(Low) == ar.low;
  }

  /** A request reads and writes neither ALPMR's state nor its history. */
  lemma RequestIgnoresAlpmr(cfg: Config, clock: nat, l: Line, body: Body, st: AlpmrState)
    ensures Request(cfg, clock, l.(alpmr := st), body)
            == Request(cfg, clock, l, body).(line := Request(cfg, clock, l, body).line.(alpmr := st))
    ensures Request(cfg, clock, l, body).line.hist.replies == l.hist.replies
  {
  }

  lemma CoreIgnoresAlpmr(cfg: Config, l: Line, st: AlpmrState)
    ensures LineCore(cfg, l.(alpmr := st)) == LineCore(cfg, l)
  {
  }

  lemma CoreOfLine(cfg: Config, l: Line)
    requires LineOk(cfg, l)
    ensures LineCore(cfg, l)
  {
  }

  lemma LineFromOut(cfg: Config, out: Out)
    requires OutOk(cfg, out) && !out.trouble.Abort?
    ensures LineOk(cfg, out.line)
  {
  }

  lemma RequestTrouble(cfg: Config, clock: nat, l: Line, body: Body)
    ensures !Request(cfg, clock, l, body).trouble.Noted?
    ensures Request(cfg, clock, l, body).trouble.Abort? ==> Request(cfg, clock, l, body).trouble.readsOn
  {
  }

  /** Taking the acknowledgement and entering W_TACK at once. */
  lemma TakeUserAckOk(cfg: Config, l: Line, argument: AlarmArgument, status: nat)
    requires LineOk(cfg, l) && l.alpmr == AlpmrWUserAck
    ensures LineOk(cfg, TakeUserAck(l, argument, status).(alpmr := AlpmrWTack))
  {
  }

  lemma AckAlarmOk(cfg: Config, ar: Ar, argument: AlarmArgument, status: nat)
    requires Inv(cfg, ar) && !ar.faulted
    ensures Inv(cfg, AckAlarm(cfg, ar, argument, status))
  {
    hide LineOk, LineCore, Request, TakeUserAck, CloseAr;
    if ar.high.alpmr == AlpmrWUserAck {
      var body := AlarmAck(argument, status);
      var l := TakeUserAck(ar.high, argument, status);
      var out := Request(cfg, ar.clock, l, body);
      TakeUserAckOk(cfg, ar.high, argument, status);
      RequestOk(cfg, ar.clock, l.(alpmr := AlpmrWTack), body);
      RequestIgnoresAlpmr(cfg, ar.clock, l, body, AlpmrWTack);
      RequestTrouble(cfg, ar.clock, l, body);
      if out.trouble.Abort? {
        CoreIgnoresAlpmr(cfg, out.line, AlpmrWTack);
        CoreOfLine(cfg, ar.low);
        AbortArOk(cfg, ar.With(High, out.line).(clock := out.clock, err := out.trouble.err));
      } else {
        LineFromOut(cfg, out.(line := out.line.(alpmr := AlpmrWTack)));
      }
    }
  }

  lemma ActivationOk(cfg: Config, ar: Ar)
    requires Inv(cfg, ar)
    ensures Inv(cfg, ActivateAr(ar))
  {
    ActivateLineOk(cfg, ar.low);
    ActivateLineOk(cfg, ar.high);
  }

  lemma FreshOk(cfg: Config)
    ensures Inv(cfg, FRESH)
  {
  }

  /** Every step keeps the invariant, whatever the peer, the application and the environment do. */
  lemma StepOk(cfg: Config, ar: Ar, e: Event)
    requires Inv(cfg, ar)
    ensures Inv(cfg, Step(cfg, ar, e))
  {
    if ar.faulted { return; }
    match e {
      case FrameIn(p, msg) => PostFrameOk(cfg, ar.At(p), msg);
      case Turn(p) => PollOk(cfg, ar, p);
      case Send => DispatchOk(cfg, ar);
      case TimerExpires(p) =>
        FireOk(cfg, ar.clock, ar.At(p));
        FinishOk(cfg, ar, p, Fire(cfg, ar.clock, ar.At(p)));
      case UserAlarm(p, alarm) => PostAlarmOk(cfg, ar, p, alarm);
      case UserAck(argument, status) => AckAlarmOk(cfg, ar, argument, status);
      case Activation => ActivationOk(cfg, ar);
      case Aborted => AbortArOk(cfg, ar);
      case SetEnabled(on) =>
    }
  }

  lemma {:induction false} RunOk(cfg: Config, ar: Ar, events: seq<Event>)
    requires Inv(cfg, ar)
    ensures Inv(cfg, Run(cfg, ar, events))
    decreases |events|
  {
    if events != [] {
      StepOk(cfg, ar, events[0]);
      RunOk(cfg, Step(cfg, ar, events[0]), events[1..]);
    }
  }
}
