/**
  What is sent, and how often: the number of transmissions of an unacknowledged PDU, the sequence
  numbers of alarms, what dispatching and acknowledging put on the network, and what closing,
  clearing and activating leave of the record.
*/
module AlarmSending {
  import opened Wrappers
  import opened SequenceNumbers
  import opened Apmx
  import opened AlarmModel
  import opened AlarmInvariants
  import opened AlarmTheorems
  import opened AlarmReception

  // -------------------------------------------------------- number of copies

  /** Copies sent and retries left of the outstanding PDU make up all transmissions. */
  ghost predicate Counted(cfg: Config, l: Line) {
    l.snd.state == ApmsWTack ==> Copies(l.hist.sent, l.snd.acked) + l.snd.resend == 1 + cfg.retries
  }

  lemma TransmitCounted(cfg: Config, clock: nat, l: Line, tx: Tx)
    requires Counted(cfg, l) && tx.pdu != DataPdu
    ensures Counted(cfg, Transmit(cfg, clock, l, tx).line)
  {
    LogPlain(cfg, l, tx, cfg.env.alloc(clock));
  }

  lemma TakeAckCounted(cfg: Config, l: Line, ackSeq: nat)
    requires Counted(cfg, l)
    ensures Counted(cfg, TakeAck(l, ackSeq))
  {
  }

  lemma DeliverCounted(cfg: Config, clock: nat, l: Line, p: Prio, rx: Rx)
    requires Counted(cfg, l)
    ensures Counted(cfg, Deliver(cfg, clock, l, p, rx).line)
  {
    hide SeqOf, Copies, TakeAck;
    TakeAckCounted(cfg, l, rx.ackSeq);
    var l1 := TakeAck(l, rx.ackSeq).(rcv := Accept(l.rcv));
    TransmitCounted(cfg, clock, l1, MakeAck(l1.snd, l1.rcv));
  }

  lemma DataIndCounted(cfg: Config, clock: nat, l: Line, p: Prio, rx: Rx)
    requires Counted(cfg, l)
    ensures Counted(cfg, DataInd(cfg, clock, l, p, rx).line)
  {
    hide SeqOf, Copies, TakeAck, Deliver, Judge;
    DeliverCounted(cfg, clock, l, p, rx);
    TakeAckCounted(cfg, l, rx.ackSeq);
    var l1 := TakeAck(l, rx.ackSeq);
    TransmitCounted(cfg, clock, l1, MakeAck(l1.snd, l1.rcv));
    TransmitCounted(cfg, clock, l, MakeNack(l.snd, l.rcv));
  }

  lemma ProcessCounted(cfg: Config, clock: nat, l: Line, p: Prio, rx: Rx)
    requires Counted(cfg, l)
    ensures Counted(cfg, Process(cfg, clock, l, p, rx).line)
  {
    hide SeqOf, Copies, DataInd, TakeAck;
    DataIndCounted(cfg, clock, l, p, rx);
    TakeAckCounted(cfg, l, rx.ackSeq);
  }

  lemma RequestCounted(cfg: Config, clock: nat, l: Line, body: Body)
    requires cfg.env.alloc(clock) && SenderOk(cfg, l)
    ensures Counted(cfg, l) ==> Counted(cfg, Request(cfg, clock, l, body).line)
    ensures l.snd.state == ApmsOpen ==>
              Copies(Request(cfg, clock, l, body).line.hist.sent, l.snd.acked) == 1
  {
    hide SeqOf;
    if l.snd.state == ApmsOpen { LogData(cfg, l, MakeData(l.snd, l.rcv, body), true); }
  }

  lemma FireCounted(cfg: Config, clock: nat, l: Line)
    requires Counted(cfg, l) && SenderOk(cfg, l)
    ensures Counted(cfg, Fire(cfg, clock, l).line)
  {
    hide SeqOf, Copies;
    if l.snd.saved.Some? { LogData(cfg, l, l.snd.saved.value, true); }
  }

  lemma FinishCounted(cfg: Config, ar: Ar, p: Prio, out: Out)
    requires Counted(cfg, ar.low) && Counted(cfg, ar.high)
    requires !out.trouble.Abort? ==> Counted(cfg, out.line)
    ensures Counted(cfg, Finish(cfg, ar, p, out).low) && Counted(cfg, Finish(cfg, ar, p, out).high)
  {
    hide SeqOf, Copies, MakeErr;
  }

  lemma SendInternalCounted(cfg: Config, clock: nat, l: Line, alarm: Alarm)
    requires Counted(cfg, l) && cfg.env.alloc(clock) && SenderOk(cfg, l)
    ensures Counted(cfg, SendInternal(cfg, clock, l, alarm).line)
  {
    hide SeqOf, Copies, Request;
    RequestCounted(cfg, clock, HandOver(l, alarm), Notification(alarm, l.seqNo));
  }

  lemma StepCounted(cfg: Config, ar: Ar, e: Event)
    requires Healthy(cfg.env) && Inv(cfg, ar) && Counted(cfg, ar.low) && Counted(cfg, ar.high)
    ensures Counted(cfg, Step(cfg, ar, e).low) && Counted(cfg, Step(cfg, ar, e).high)
  {
    hide Process, SeqOf, SendInternal, Request, Fire, Finish, Copies, LineCore, MachinesOk;
    if ar.faulted { return; }
    assert cfg.env.alloc(ar.clock);
    match e {
      case Turn(p) =>
        var l := ar.At(p);
        if HasFrame(l) {
          ProcessCounted(cfg, ar.clock, DropFrame(l), p, l.inQ.items[0].frame);
          FinishCounted(cfg, ar, p, Process(cfg, ar.clock, DropFrame(l), p, l.inQ.items[0].frame));
        }
      case Send =>
        forall p | CanDispatch(ar.At(p))
          ensures Counted(cfg, DispatchLine(cfg, ar, p).low) && Counted(cfg, DispatchLine(cfg, ar, p).high)
        {
          var l := ar.At(p);
          SendInternalCounted(cfg, ar.clock, DropAlarm(l), l.outQ.items[0]);
          FinishCounted(cfg, ar, p, SendInternal(cfg, ar.clock, DropAlarm(l), l.outQ.items[0]));
        }
        assert ar.At(High) == ar.high && ar.At(Low) == ar.low;
      case TimerExpires(p) =>
        FireCounted(cfg, ar.clock, ar.At(p));
        FinishCounted(cfg, ar, p, Fire(cfg, ar.clock, ar.At(p)));
      case UserAck(argument, status) =>
        var l := TakeUserAck(ar.high, argument, status);
        RequestCounted(cfg, ar.clock, l, AlarmAck(argument, status));
        FinishCounted(cfg, ar, High, Request(cfg, ar.clock, l, AlarmAck(argument, status)));
      case _ =>
    }
  }

  /** Over every run, with buffers available: an unacknowledged PDU was sent 1 + rta_retries times less the retries
      left. */
  lemma {:induction false} RunCounted(cfg: Config, ar: Ar, events: seq<Event>)
    requires Healthy(cfg.env) && Inv(cfg, ar) && Counted(cfg, ar.low) && Counted(cfg, ar.high)
    ensures Counted(cfg, Run(cfg, ar, events).low) && Counted(cfg, Run(cfg, ar, events).high)
    decreases |events|
  {
    hide Counted, Inv, Step;
    if events != [] {
      StepOk(cfg, ar, events[0]);
      StepCounted(cfg, ar, events[0]);
      RunCounted(cfg, Step(cfg, ar, events[0]), events[1..]);
    }
  }

  function Firings(p: Prio, n: nat): seq<Event> {
    seq(n, _ => TimerExpires(p))
  }

  /** The PDU outstanding at `l` still is, with `n` copies more. */
  ghost predicate Resent(l: Line, l': Line, n: nat) {
    && l'.snd.state == ApmsWTack && l'.snd.acked == l.snd.acked && l'.snd.flight == l.snd.flight
    && Copies(l'.hist.sent, l.snd.acked) == Copies(l.hist.sent, l.snd.acked) + n
  }

  lemma FiringResends(cfg: Config, ar: Ar, p: Prio)
    requires Healthy(cfg.env) && Inv(cfg, ar) && !ar.faulted && Watched(ar.At(p))
    requires ar.At(p).snd.state == ApmsWTack && ar.At(p).snd.resend > 0
    ensures var ar1 := Step(cfg, ar, TimerExpires(p));
            && !ar1.faulted && Resent(ar.At(p), ar1.At(p), 1) && Watched(ar1.At(p))
            && ar1.At(p).snd.resend == ar.At(p).snd.resend - 1
  {
    hide SeqOf, Copies, LineCore, MachinesOk;
    var l := ar.At(p);
    assert cfg.env.timer(ar.clock);
    LogData(cfg, l, l.snd.saved.value, true);
  }

  lemma {:induction false} FiringsResend(cfg: Config, ar: Ar, p: Prio, n: nat)
    requires Healthy(cfg.env) && Inv(cfg, ar) && !ar.faulted && Watched(ar.At(p))
    requires ar.At(p).snd.state == ApmsWTack && n <= ar.At(p).snd.resend
    ensures Resent(ar.At(p), Run(cfg, ar, Firings(p, n)).At(p), n)
    decreases n
  {
    hide Inv, Step, Watched;
    if n > 0 {
      var ar1 := Step(cfg, ar, TimerExpires(p));
      FiringResends(cfg, ar, p);
      StepOk(cfg, ar, TimerExpires(p));
      FiringsResend(cfg, ar1, p, n - 1);
      assert Firings(p, n)[0] == TimerExpires(p) && Firings(p, n)[1..] == Firings(p, n - 1);
    }
  }

  /** A silent peer gets every transmission it is due: from any reachable state with an unacknowledged PDU, firings
      alone bring the copies to exactly 1 + rta_retries with the PDU still outstanding, and the next one closes the
      AR. */
  lemma SilentPeerGetsAllCopies(cfg: Config, events: seq<Event>, p: Prio)
    requires Healthy(cfg.env) && Run(cfg, FRESH, events).At(p).snd.state == ApmsWTack
    ensures var ar := Run(cfg, FRESH, events); var l := ar.At(p);
            var due := 1 + cfg.retries - Copies(l.hist.sent, l.snd.acked);
            && due >= 0
            && Resent(l, Run(cfg, ar, Firings(p, due)).At(p), due)
            && Copies(Run(cfg, ar, Firings(p, due)).At(p).hist.sent, l.snd.acked) == 1 + cfg.retries
            && Run(cfg, ar, Firings(p, due + 1)).low.snd.state == ApmsClosed
            && Run(cfg, ar, Firings(p, due + 1)).high.snd.state == ApmsClosed
  {
    hide Inv, Copies;
    var ar := Run(cfg, FRESH, events);
    var due := ar.At(p).snd.resend;
    FreshOk(cfg);
    RunOk(cfg, FRESH, events);
    RunCounted(cfg, FRESH, events);
    RunWatched(cfg, FRESH, events);
    FaultedIsClosed(cfg, FRESH, events);
    FiringsResend(cfg, ar, p, due);
    FiringsClose(cfg, ar, p, due);
    FaultedIsClosed(cfg, ar, Firings(p, due + 1));
    assert Firings(p, due + 1) == seq(due + 1, _ => TimerExpires(p));
  }

  // -------------------------------------------------------- sequence numbers

  /** How many alarms of the peer the application has acknowledged. */
  function CountAcknowledged(replies: seq<Reply>): nat {
    if replies == [] then 0 else
    CountAcknowledged(replies[..|replies| - 1]) + (if replies[|replies| - 1].Acknowledged? then 1 else 0)
  }

  lemma AcknowledgedAfter(replies: seq<Reply>, r: Reply)
    ensures CountAcknowledged(replies + [r]) == CountAcknowledged(replies) + (if r.Acknowledged? then 1 else 0)
  {
    assert (replies + [r])[..|replies|] == replies;
  }

  /** Alarms handed over and acknowledgements given since ALPMI started with `base` alarms handed over. */
  function Position(base: nat, l: Line): int {
    |l.hist.handed| - base + CountAcknowledged(l.hist.replies)
  }

  /** The next number is the position modulo 0x800, the last one that before it. */
  ghost predicate Numbered(base: nat, l: Line) {
    l.alpmi != AlpmiWStart ==>
      && base <= |l.hist.handed|
      && l.seqNo == Position(base, l) % 0x800
      && l.prevSeqNo == (if Position(base, l) == 0 then 0xffff else (Position(base, l) - 1) % 0x800)
  }

  /** Alarms of `p` handed over when ALPMI last started in the run; `base` are those when it started before. */
  function BaseOf(cfg: Config, ar: Ar, events: seq<Event>, p: Prio, base: nat): nat
    decreases |events|
  {
    if events == [] then base else
    var l := ar.At(p);
    var starts := events[0] == Activation && !ar.faulted && l.alpmi == AlpmiWStart && l.alpmr == AlpmrWStart;
    BaseOf(cfg, Step(cfg, ar, events[0]), events[1..], p, if starts then |l.hist.handed| else base)
  }

  /** Nothing has been numbered on the way from `l` to `l'`. */
  ghost predicate NumbersKept(l: Line, l': Line) {
    && l'.seqNo == l.seqNo && l'.prevSeqNo == l.prevSeqNo && l'.hist.handed == l.hist.handed
    && CountAcknowledged(l'.hist.replies) == CountAcknowledged(l.hist.replies)
    && (l'.alpmi == AlpmiWStart <==> l.alpmi == AlpmiWStart)
  }

  /** `l'` has the number of `l`, and has left the start state of ALPMI just when `l` has. */
  ghost predicate SeqNoKept(l: Line, l': Line) {
    l'.seqNo == l.seqNo && l'.prevSeqNo == l.prevSeqNo && (l'.alpmi == AlpmiWStart <==> l.alpmi == AlpmiWStart)
  }

  lemma DeliverKeepsSeqNo(cfg: Config, clock: nat, l: Line, p: Prio, rx: Rx)
    ensures SeqNoKept(l, Deliver(cfg, clock, l, p, rx).line)
  {
    hide SeqOf, BlockTypeAck, BlockTypeNotify, MakeAck, TakeAck;
    TakeAckKeepsSeqNo(l, rx.ackSeq);
  }

  lemma DataIndKeepsSeqNo(cfg: Config, clock: nat, l: Line, p: Prio, rx: Rx)
    ensures SeqNoKept(l, DataInd(cfg, clock, l, p, rx).line)
  {
    hide SeqOf, Judge, BlockTypeAck, BlockTypeNotify, MakeAck, MakeNack, TakeAck, Deliver;
    TakeAckKeepsSeqNo(l, rx.ackSeq);
    DeliverKeepsSeqNo(cfg, clock, l, p, rx);
  }

  lemma TakeAckKeepsSeqNo(l: Line, ackSeq: nat)
    ensures var l' := TakeAck(l, ackSeq); l'.seqNo == l.seqNo && l'.prevSeqNo == l.prevSeqNo && l'.alpmi == l.alpmi
  {
  }

  lemma ProcessKeepsNumbers(cfg: Config, clock: nat, l: Line, p: Prio, rx: Rx)
    ensures NumbersKept(l, Process(cfg, clock, l, p, rx).line)
  {
    hide DataInd, TakeAck, Credited, Tells;
    DataIndKeepsSeqNo(cfg, clock, l, p, rx);
    TakeAckKeepsSeqNo(l, rx.ackSeq);
    ProcessHandsOverNothing(cfg, clock, l, p, rx);
    IndicatedExactly(cfg, clock, l, p, rx);
    NoneAcknowledged(l.hist.replies, Credited(l, p, rx) && l.alpmr == AlpmrWTack, Tells(cfg, clock, l, p, rx), rx.told);
  }

  lemma NoneAcknowledged(replies: seq<Reply>, confirms: bool, tells: bool, told: Told)
    ensures var more := replies + (if confirms then [AckConfirmed] else []) + (if tells then [Indicated(told)] else []);
            CountAcknowledged(more) == CountAcknowledged(replies)
  {
    var confirmed := replies + (if confirms then [AckConfirmed] else []);
    AcknowledgedAfter(replies, AckConfirmed);
    AcknowledgedAfter(confirmed, Indicated(told));
    assert replies + [] == replies && confirmed + [] == confirmed;
  }

  lemma RequestKeepsNumbers(cfg: Config, clock: nat, l: Line, body: Body)
    ensures NumbersKept(l, Request(cfg, clock, l, body).line)
    ensures NumbersKept(l, Fire(cfg, clock, l).line)
  {
  }

  lemma NextNumber(n: nat)
    ensures (n % 0x800 + 1) % 0x800 == (n + 1) % 0x800
  {
  }

  /** Taking a number is one position more. */
  lemma NumberAdvances(base: nat, l: Line, l': Line)
    requires Numbered(base, l) && l'.seqNo == (l.seqNo + 1) % 0x800 && l'.prevSeqNo == l.seqNo
    requires Position(base, l') == Position(base, l) + 1 && |l'.hist.handed| >= |l.hist.handed|
    requires l'.alpmi == l.alpmi
    ensures Numbered(base, l')
  {
    hide CountAcknowledged;
    if l.alpmi != AlpmiWStart { NextNumber(Position(base, l)); }
  }

  lemma SendInternalNumbers(cfg: Config, clock: nat, l: Line, alarm: Alarm, base: nat)
    requires Numbered(base, l) && l.alpmi != AlpmiWStart
    ensures Numbered(base, SendInternal(cfg, clock, l, alarm).line)
  {
    hide Request, CountAcknowledged, Numbered;
    NumberAdvances(base, l, HandOver(l, alarm));
    var out := Request(cfg, clock, HandOver(l, alarm), Notification(alarm, l.seqNo));
    RequestKeepsNumbers(cfg, clock, HandOver(l, alarm), Notification(alarm, l.seqNo));
    KeptIsNumbered(HandOver(l, alarm), out.line, base);
    KeptIsNumbered(out.line, AwaitAck(out.line, alarm), base);
  }

  lemma UserAckNumbers(cfg: Config, clock: nat, l: Line, argument: AlarmArgument, status: nat, base: nat)
    requires Numbered(base, l)
    ensures Numbered(base, Request(cfg, clock, TakeUserAck(l, argument, status), AlarmAck(argument, status)).line)
  {
    hide Request, CountAcknowledged, Numbered;
    var l1 := TakeUserAck(l, argument, status);
    AcknowledgedAfter(l.hist.replies, Acknowledged(argument, status));
    NumberAdvances(base, l, l1);
    RequestKeepsNumbers(cfg, clock, l1, AlarmAck(argument, status));
    KeptIsNumbered(l1, Request(cfg, clock, l1, AlarmAck(argument, status)).line, base);
  }

  lemma FinishNumbers(cfg: Config, ar: Ar, q: Prio, out: Out, p: Prio, base: nat)
    requires Numbered(base, ar.At(p)) && (q == p && !out.trouble.Abort? ==> Numbered(base, out.line))
    ensures Numbered(base, Finish(cfg, ar, q, out).At(p))
  {
  }

  lemma StepNumbers(cfg: Config, ar: Ar, e: Event, p: Prio, base: nat)
    requires Numbered(base, ar.At(p))
    ensures Numbered(BaseOf(cfg, ar, [e], p, base), Step(cfg, ar, e).At(p))
  {
    hide Process, SendInternal, Fire, Request, Finish, Numbered, CountAcknowledged;
    if ar.faulted { return; }
    var l := ar.At(p);
    match e {
      case Turn(q) =>
        if HasFrame(ar.At(q)) {
          var rx := ar.At(q).inQ.items[0].frame;
          ProcessKeepsNumbers(cfg, ar.clock, DropFrame(ar.At(q)), q, rx);
          KeptIsNumbered(ar.At(q), Process(cfg, ar.clock, DropFrame(ar.At(q)), q, rx).line, base);
          FinishNumbers(cfg, ar, q, Process(cfg, ar.clock, DropFrame(ar.At(q)), q, rx), p, base);
        }
      case Send =>
        forall q | CanDispatch(ar.At(q)) ensures Numbered(base, DispatchLine(cfg, ar, q).At(p)) {
          var l0, alarm := DropAlarm(ar.At(q)), ar.At(q).outQ.items[0];
          if q == p {
            KeptIsNumbered(l, l0, base);
            SendInternalNumbers(cfg, ar.clock, l0, alarm, base);
          }
          FinishNumbers(cfg, ar, q, SendInternal(cfg, ar.clock, l0, alarm), p, base);
        }
        assert ar.At(High) == ar.high && ar.At(Low) == ar.low;
      case TimerExpires(q) =>
        RequestKeepsNumbers(cfg, ar.clock, ar.At(q), AlarmAck(SOME_ARGUMENT, 0));
        KeptIsNumbered(ar.At(q), Fire(cfg, ar.clock, ar.At(q)).line, base);
        FinishNumbers(cfg, ar, q, Fire(cfg, ar.clock, ar.At(q)), p, base);
      case UserAck(argument, status) =>
        AckNumbers(cfg, ar, argument, status, p, base);
      case Activation => ActivationNumbers(ar, p, base);
      case Aborted => AbortNumbers(cfg, ar, p, base);
      case FrameIn(q, msg) => KeptIsNumbered(l, Step(cfg, ar, e).At(p), base);
      case UserAlarm(q, alarm) => KeptIsNumbered(l, Step(cfg, ar, e).At(p), base);
      case SetEnabled(on) =>
    }
  }

  lemma KeptIsNumbered(l: Line, l': Line, base: nat)
    requires NumbersKept(l, l')
    ensures Numbered(base, l) ==> Numbered(base, l')
  {
  }

  lemma AckNumbers(cfg: Config, ar: Ar, argument: AlarmArgument, status: nat, p: Prio, base: nat)
    requires Numbered(base, ar.At(p))
    ensures Numbered(base, AckAlarm(cfg, ar, argument, status).At(p))
  {
    hide Request, Finish;
    if p == High { UserAckNumbers(cfg, ar.clock, ar.high, argument, status, base); }
    var out := Request(cfg, ar.clock, TakeUserAck(ar.high, argument, status), AlarmAck(argument, status));
    FinishNumbers(cfg, ar, High, out, p, base);
  }

  lemma ActivationNumbers(ar: Ar, p: Prio, base: nat)
    requires Numbered(base, ar.At(p))
    ensures var l := ar.At(p); var starts := l.alpmi == AlpmiWStart && l.alpmr == AlpmrWStart;
            Numbered(if starts then |l.hist.handed| else base, ActivateAr(ar).At(p))
  {
  }

  lemma AbortNumbers(cfg: Config, ar: Ar, p: Prio, base: nat)
    ensures Numbered(base, AbortAr(cfg, ar).At(p))
  {
  }

  lemma {:induction false} RunNumbers(cfg: Config, ar: Ar, events: seq<Event>, p: Prio, base: nat)
    requires Numbered(base, ar.At(p))
    ensures Numbered(BaseOf(cfg, ar, events, p, base), Run(cfg, ar, events).At(p))
    decreases |events|
  {
    hide Step, Numbered;
    if events != [] {
      var e := events[0];
      StepNumbers(cfg, ar, e, p, base);
      assert BaseOf(cfg, Step(cfg, ar, e), [e][1..], p, BaseOf(cfg, ar, [e], p, base)) == BaseOf(cfg, ar, [e], p, base);
      RunNumbers(cfg, Step(cfg, ar, e), events[1..], p, BaseOf(cfg, ar, [e], p, base));
    }
  }

  // -------------------------------------------------- what goes on the network

  /** The frames handed to the network when `body` is sent as the next DATA PDU: one if there is a buffer. */
  function DataFrames(cfg: Config, clock: nat, l: Line, body: Body): seq<Sent> {
    if cfg.env.alloc(clock)
    then [Sent(l.snd.acked, Tx(DataPdu, true, SeqOf(l.snd.acked), SeqOf(l.rcv.accepted - 1), Some(body)))]
    else []
  }

  lemma RequestSucceeds(cfg: Config, clock: nat, l: Line, body: Body)
    ensures Request(cfg, clock, l, body).ok <==> l.snd.state == ApmsOpen && DataGoesOut(cfg, clock)
  {
  }

  /** The application's alarm goes to the end of the queue exactly when alarms are enabled, it fits, and there is
      room. */
  lemma PostsAtEnd(cfg: Config, ar: Ar, p: Prio, alarm: Alarm)
    ensures var waiting := ar.At(p).outQ;
            var takes := ar.enabled && |alarm.payload| <= cfg.maxPayload
                         && waiting.Present? && |waiting.items| < cfg.capacity;
            && (AcceptsAlarm(cfg, ar, p, alarm) <==> takes)
            && PostAlarm(cfg, ar, p, alarm).At(p).outQ
               == (if takes then Present(waiting.items + [alarm]) else waiting)
  {
  }

  /** A DATA PDU has its buffer, its way to the network and its timer. */
  predicate DataGoesOut(cfg: Config, clock: nat) {
    cfg.env.alloc(clock) && cfg.env.send(clock) && cfg.env.timer(clock)
  }

  /** Dispatching the oldest alarm with APMS in OPEN: one DATA PDU with this alarm and the next number; the
      application's alarm counts as sent, and is awaited, exactly when nothing went wrong. */
  lemma DispatchSends(cfg: Config, ar: Ar, p: Prio)
    requires CanDispatch(ar.At(p)) && ar.At(p).snd.state == ApmsOpen
    ensures var l, l' := ar.At(p), DispatchLine(cfg, ar, p).At(p); var alarm := l.outQ.items[0];
            && l'.hist.handed == l.hist.handed + [alarm] && l'.outQ == Present(l.outQ.items[1..])
            && l'.hist.sent == l.hist.sent + DataFrames(cfg, ar.clock, l, Notification(alarm, l.seqNo))
            && l'.snd.state == ApmsWTack && l'.snd.acked == l.snd.acked
            && l'.hist.notes == l.hist.notes + (if DataGoesOut(cfg, ar.clock) then [Notified(alarm)] else [])
            && l'.alpmi == (if DataGoesOut(cfg, ar.clock) then AlpmiWAck else AlpmiWAlarm)
  {
    hide SeqOf;
  }

  /** In every run an alarm leaves with its position modulo 0x800, and the first copy of its PDU is the only one. */
  lemma AlarmCarriesItsPosition(cfg: Config, events: seq<Event>, p: Prio)
    requires var ar := Run(cfg, FRESH, events);
             CanDispatch(ar.At(p)) && ar.At(p).snd.state == ApmsOpen && cfg.env.alloc(ar.clock)
    ensures var ar := Run(cfg, FRESH, events); var l, l' := ar.At(p), DispatchLine(cfg, ar, p).At(p);
            var position := Position(BaseOf(cfg, FRESH, events, p, 0), l);
            && position >= 0 && |l'.hist.sent| == |l.hist.sent| + 1
            && l'.hist.sent[|l.hist.sent|].tx.pdu == DataPdu
            && l'.hist.sent[|l.hist.sent|].tx.body == Some(Notification(l.outQ.items[0], position % 0x800))
            && Copies(l'.hist.sent, l'.snd.acked) == 1
  {
    hide Step;
    var ar := Run(cfg, FRESH, events);
    RunNumbers(cfg, FRESH, events, p, 0);
    FreshOk(cfg);
    RunOk(cfg, FRESH, events);
    DispatchSends(cfg, ar, p);
    var l := ar.At(p);
    var body := Notification(l.outQ.items[0], l.seqNo);
    CopiesAfter(l.hist.sent, DataFrames(cfg, ar.clock, l, body)[0], l.snd.acked);
  }

  /** The application's acknowledgement with APMS in OPEN: one DATA PDU with this argument and status, in high priority,
      and ALPMR waits for its TACK whether or not it went out; with no alarm in hand it is only an error. */
  lemma AckSends(cfg: Config, ar: Ar, argument: AlarmArgument, status: nat)
    requires !ar.faulted && (ar.high.alpmr == AlpmrWUserAck ==> ar.high.snd.state == ApmsOpen)
    ensures var ar' := Step(cfg, ar, UserAck(argument, status)); var l, l' := ar.high, ar'.high;
            if l.alpmr != AlpmrWUserAck then ar' == ar.(err := Err(0x41, 0x03)) else
            && ar'.low == ar.low && !ar'.faulted && l'.alpmr == AlpmrWTack
            && l'.hist.replies == l.hist.replies + [Acknowledged(argument, status)]
            && l'.hist.sent == l.hist.sent + DataFrames(cfg, ar.clock, l, AlarmAck(argument, status))
            && l'.snd.state == ApmsWTack && l'.snd.acked == l.snd.acked
  {
    hide SeqOf;
  }

  // ------------------------------------------------------- how a connection ends

  /** A timer ends the AR exactly when it finds a kept PDU with no retry left; the controller is told the code. */
  lemma TimerEndsExactly(cfg: Config, ar: Ar, p: Prio)
    requires Inv(cfg, ar) && Together(ar) && !ar.faulted && ar.low.snd.state != ApmsClosed
    ensures var ar' := Step(cfg, ar, TimerExpires(p)); var l := ar.At(p);
            var ends := l.timers > 0 && l.snd.state == ApmsWTack && l.snd.saved.Some? && l.snd.resend == 0;
            && (Down(ar') <==> ends) && (ar'.low.snd.state == ApmsClosed <==> ends)
            && (ends && cfg.env.alloc(ar.clock) ==> ErrorReported(ar', 0x08))
  {
    hide SeqOf, AbortAr, Copies, LineCore, MachinesOk, ErrorReported;
    var out := Fire(cfg, ar.clock, ar.At(p));
    AbortGoesDown(cfg, ar.With(p, out.line).(clock := out.clock, err := Err(0x47, 0x08)));
  }

  /** A request to an APMS that waits for a TACK takes the connection down; the controller is told the code. */
  lemma RefusalEnds(cfg: Config, ar: Ar, e: Event)
    requires Inv(cfg, ar) && Together(ar) && !ar.faulted && ar.low.snd.state != ApmsClosed && TouchesCleared(ar, e)
    ensures var ar' := Step(cfg, ar, e); Down(ar') && (cfg.env.alloc(ar.clock) ==> ErrorReported(ar', 0x02))
  {
    hide SeqOf, AbortAr, Copies, LineCore, SenderOk;
    assert ar.At(High) == ar.high && ar.At(Low) == ar.low;
    match e {
      case UserAck(argument, status) =>
        AbortGoesDown(cfg, ar.(high := TakeUserAck(ar.high, argument, status), err := Err(0x41, 0x02)));
      case Send =>
        var p := if CanDispatch(ar.high) then High else Low;
        var l := DropAlarm(ar.At(p));
        AbortGoesDown(cfg, ar.With(p, HandOver(l, ar.At(p).outQ.items[0])).(err := Err(0x41, 0x02)));
      case _ =>
    }
  }

  /** The scheduler's entries and the history of a line that is being closed: at most one entry is removed, the one the
      handle refers to. */
  function Leftover(l: Line): nat {
    if l.snd.state != ApmsClosed && l.armed && l.timers > 0 then l.timers - 1 else l.timers
  }

  /** An abort leaves a record as it is allocated, except for what the scheduler still holds. */
  lemma AbortClears(cfg: Config, ar: Ar)
    ensures var ar' := AbortAr(cfg, ar);
            && ar'.low == FRESH.low.(timers := Leftover(ar.low), hist := ar'.low.hist)
            && ar'.high == FRESH.high.(timers := Leftover(ar.high), hist := ar'.high.hist)
            && ar' == FRESH.(low := ar'.low, high := ar'.high, clock := ar'.clock, faulted := ar.faulted)
            && ar'.low.hist.handed == ar.low.hist.handed && ar'.high.hist.handed == ar.high.hist.handed
            && ar'.low.hist.notes == ar.low.hist.notes && ar'.low.hist.replies == ar.low.hist.replies
  {
    hide SeqOf;
  }

  /** Activating a connection that is already active is refused, and leaves all machines and received frames alone, but
      the alarms that waited to be sent are lost. */
  lemma SecondActivation(cfg: Config, ar: Ar)
    requires Inv(cfg, ar) && Together(ar) && ar.low.snd.state != ApmsClosed && ar.low.alpmi != AlpmiWStart
    requires ar.high.alpmi != AlpmiWStart
    ensures !ActivationSucceeds(ar)
    ensures var ar' := ActivateAr(ar);
            && ar' == ar.(low := ar'.low, high := ar'.high, listening := true, err := Err(0x47, 0x00))
            && ar'.low == ar.low.(outQ := Present([]), hist := ar.low.hist.(posted := ar.low.hist.handed))
            && ar'.high == ar.high.(outQ := Present([]), hist := ar.high.hist.(posted := ar.high.hist.handed))
  {
    hide SeqOf, Copies, LineCore, SenderOk;
  }
}
