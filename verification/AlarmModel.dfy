/**
  The alarm transport of one AR as a step machine on values: for each priority the machines
  APMS, APMR, ALPMI and ALPMR, the two queues and the pending resend timers.

  An error indication aborts the AR before it returns: CMSU closes the alarm machines and CMRPC
  clears the whole AR record.  A handler that then still reads through the cleared link from APMX
  to ALPMX faults; nothing is said about what the C code does after that.  Buffer allocation, frame
  sending and timer allocation may fail: `Env` says for every moment what happens, and all results
  hold for every `Env`.
*/
module AlarmModel {
  import opened Wrappers
  import opened SequenceNumbers
  import opened Apmx

  datatype Prio = Low | High

  datatype AlpmiState = AlpmiWStart | AlpmiWAlarm | AlpmiWAck
  datatype AlpmrState = AlpmrWStart | AlpmrWNotify | AlpmrWUserAck | AlpmrWTack

  /** What the application is told about an alarm of the controller. */
  datatype Told = Told(argument: AlarmArgument, usi: nat, payload: seq<nat>)

  /** A parsed incoming alarm frame; `parsed` tells whether the alarm notification could be read,
      `status` is the PNIO status of an alarm acknowledgement. */
  datatype Rx = Rx(version: nat, pdu: PduType, tack: bool, sendSeq: nat, ackSeq: nat, varPartLen: nat,
                   blockType: nat, parsed: bool, told: Told, status: nat, errCls: nat, errCode: nat)

  /** An entry of the receive queue: the frame buffer, the position of the frame id and the content. */
  datatype RxMessage = RxMessage(buf: nat, frameIdPos: nat, frame: Rx)

  /** A bounded queue, or a queue whose mutex is NULL. */
  datatype Queue<T> = Missing | Present(items: seq<T>)

  datatype Err = Err(cls: nat, code: nat)

  const ERR_ALPMI := 0x41
  const ERR_ALPMR := 0x42
  const ERR_APMR := 0x46
  const ERR_APMS := 0x47
  const ERR_PROTOCOL := 0xfd
  const INVALID_STATE := 0x00
  const ALPMI_INVALID := 0x02
  const ALPMR_INVALID := 0x02
  const WRONG_STATE := 0x03
  const SEND_CNF_NEG := 0x08
  const ALARM_IND_ERROR := 0x0b
  const PROTOCOL_VIOLATION := 0x12
  const CODE_SEQ := 0x01

  const SEQUENCE_LIMIT := 0x0800

  datatype Env = Env(alloc: nat -> bool, send: nat -> bool, timer: nat -> bool)

  datatype Config = Config(env: Env, retries: nat, capacity: nat, maxPayload: nat)

  /** A frame handed to the network, with the index of the PDU outstanding at that time. */
  datatype Sent = Sent(ix: nat, tx: Tx)

  datatype Note = Notified(alarm: Alarm) | Confirmed(status: nat)
  datatype Reply = Indicated(told: Told) | Acknowledged(argument: AlarmArgument, status: nat) | AckConfirmed

  /** What happened since the last activation; no decision reads it.
      Alarms dropped by a queue reset no longer count as posted. */
  datatype History = History(posted: seq<Alarm>, handed: seq<Alarm>, sent: seq<Sent>,
                             notes: seq<Note>, replies: seq<Reply>)

  /** Everything that belongs to one priority. `link` tells whether APMX points to its ALPMX, `armed`
      is the validity of the timer handle. */
  datatype Line = Line(snd: Sender, rcv: Receiver, link: bool, alpmi: AlpmiState, alpmr: AlpmrState,
                       seqNo: nat, prevSeqNo: nat, timers: nat, armed: bool,
                       inQ: Queue<RxMessage>, outQ: Queue<Alarm>, hist: History)

  datatype Ar = Ar(low: Line, high: Line, enabled: bool, listening: bool, err: Err, clock: nat, faulted: bool) {
    function At(p: Prio): Line {
      if p == Low then low else high
    }
    function With(p: Prio, l: Line): Ar {
      if p == Low then this.(low := l) else this.(high := l)
    }
  }

  function BlockTypeNotify(p: Prio): nat { if p == High then 0x0001 else 0x0002 }
  function BlockTypeAck(p: Prio): nat { if p == High then 0x8001 else 0x8002 }

  // ------------------------------------------------------------ one priority

  /** What a handler leaves behind besides the new line: nothing, an error written to the AR, or an
      error indication to CMSU, after which it may still read the ALPMX. */
  datatype Trouble = Fine | Noted(err: Err) | Abort(err: Err, readsOn: bool)

  /** Result of a handler; `ok` is its return value. */
  datatype Out = Out(line: Line, clock: nat, ok: bool, trouble: Trouble)

  function Log(l: Line, tx: Tx, attempted: bool): Line {
    if attempted then l.(hist := l.hist.(sent := l.hist.sent + [Sent(l.snd.acked, tx)])) else l
  }

  /** Sending a frame that is not kept for retransmission. */
  function Transmit(cfg: Config, clock: nat, l: Line, tx: Tx): Out {
    Out(Log(l, tx, cfg.env.alloc(clock)), clock + 1, cfg.env.alloc(clock) && cfg.env.send(clock), Fine)
  }

  /** APMS_A_Data.req: send a DATA PDU and start the resend timer.  In any other state than OPEN both users
      get a negative confirmation: ALPMI raises an error indication, and then ALPMR is looked up. */
  function Request(cfg: Config, clock: nat, l: Line, body: Body): Out {
    if l.snd.state != ApmsOpen then
      Out(l, clock, false, Abort(Err(ERR_ALPMI, ALPMI_INVALID), true))
    else
      var tx := MakeData(l.snd, l.rcv, body);
      var l1 := Log(l, tx, cfg.env.alloc(clock));
      Out(l1.(snd := Launch(l.snd, tx, cfg.env.alloc(clock), cfg.retries),
          timers := if cfg.env.timer(clock) then l.timers + 1 else l.timers,
          armed := cfg.env.timer(clock)),
          clock + 1,
          cfg.env.alloc(clock) && cfg.env.send(clock) && cfg.env.timer(clock),
          Fine)
  }

  /** APMS checks an incoming ack number; a positive confirmation goes to ALPMI (which ignores it) and ALPMR. */
  function TakeAck(l: Line, ackSeq: nat): Line {
    if !Credits(l.snd, ackSeq) then l
    else if l.alpmr == AlpmrWTack then
      l.(snd := Credit(l.snd, ackSeq), alpmr := AlpmrWNotify,
      hist := l.hist.(replies := l.hist.replies + [AckConfirmed]))
    else
      l.(snd := Credit(l.snd, ackSeq))
  }

  /** An alarm acknowledgement reaches ALPMI. */
  function ConfirmAlarm(l: Line, status: nat): Line {
    if l.alpmi == AlpmiWAck
    then l.(alpmi := AlpmiWAlarm, hist := l.hist.(notes := l.hist.notes + [Confirmed(status)]))
    else l
  }

  /** An alarm notification reaches ALPMR. */
  function IndicateAlarm(l: Line, clock: nat, told: Told): Out {
    match l.alpmr
    case AlpmrWStart => Out(l, clock, true, Fine)
    case AlpmrWNotify =>
      Out(l.(alpmr := AlpmrWUserAck, hist := l.hist.(replies := l.hist.replies + [Indicated(told)])), clock, true, Fine)
    case _ => Out(l, clock, false, Abort(Err(ERR_PROTOCOL, PROTOCOL_VIOLATION), false))
  }

  function Jam(l: Line): Line {
    l.(rcv := l.rcv.(state := ApmrWCnf))
  }

  /** APMR counts an in-sequence DATA PDU and acknowledges it. */
  function AcceptData(cfg: Config, clock: nat, l: Line, ackSeq: nat): Out {
    var l1 := TakeAck(l, ackSeq).(rcv := Accept(l.rcv));
    Transmit(cfg, clock, l1, MakeAck(l1.snd, l1.rcv))
  }

  /** APMR acknowledges a repeated DATA PDU again. */
  function RepeatAck(cfg: Config, clock: nat, l: Line, ackSeq: nat): Out {
    var l1 := TakeAck(l, ackSeq);
    Transmit(cfg, clock, l1, MakeAck(l1.snd, l1.rcv)).(ok := true)
  }

  function RefuseData(cfg: Config, clock: nat, l: Line): Out {
    Transmit(cfg, clock, l, MakeNack(l.snd, l.rcv)).(ok := true, trouble := Noted(Err(ERR_PROTOCOL, CODE_SEQ)))
  }

  /** An acknowledged notification goes to ALPMR; APMR stays in WCNF when that fails. */
  function DeliverNotification(l: Line, clock: nat, rx: Rx): Out {
    var out := if rx.parsed then IndicateAlarm(l, clock, rx.told) else Out(l, clock, false, Fine);
    if out.ok then out else out.(line := Jam(l))
  }

  /** APMR on an in-sequence DATA PDU whose block type is known: acknowledge, then deliver. */
  function Deliver(cfg: Config, clock: nat, l: Line, p: Prio, rx: Rx): Out {
    var ack := AcceptData(cfg, clock, l, rx.ackSeq);
    if !ack.ok then ack
    else if rx.blockType == BlockTypeAck(p) then ack.(line := ConfirmAlarm(ack.line, rx.status))
    else DeliverNotification(ack.line, ack.clock, rx)
  }

  /** APMR: A_Data_ind. */
  function DataInd(cfg: Config, clock: nat, l: Line, p: Prio, rx: Rx): Out {
    match l.rcv.state
    case ApmrClosed => Out(l, clock, true, Fine)
    case ApmrWCnf => Out(l, clock, false, Fine)
    case ApmrOpen =>
      if !rx.tack then Out(l, clock, true, Fine)
      else match Judge(l.rcv, rx.sendSeq)
        case Fresh =>
          if rx.blockType == BlockTypeAck(p) || rx.blockType == BlockTypeNotify(p)
          then Deliver(cfg, clock, l, p, rx)
          else Out(l, clock, false, Abort(Err(ERR_PROTOCOL, ALARM_IND_ERROR), false))
        case Repeated => RepeatAck(cfg, clock, l, rx.ackSeq)
        case OutOfSequence => RefuseData(cfg, clock, l)
  }

  /** One frame taken from the receive queue. */
  function Process(cfg: Config, clock: nat, l: Line, p: Prio, rx: Rx): Out {
    if rx.version != 1 then Out(l, clock, true, Fine)
    else match rx.pdu
      case AckPdu => Out(if rx.varPartLen == 0 then TakeAck(l, rx.ackSeq) else l, clock, true, Fine)
      case DataPdu => DataInd(cfg, clock, l, p, rx)
      case ErrPdu =>
        if rx.varPartLen != 4 then Out(l, clock, true, Fine)
        else if l.rcv.state == ApmrOpen then Out(l, clock, true, Abort(Err(rx.errCls, rx.errCode), false))
        else Out(l, clock, true, Abort(Err(ERR_APMR, INVALID_STATE), false))
      case NackPdu => Out(l, clock, true, Fine)
      case ReservedPdu => Out(l, clock, true, Fine)
  }

  /** The resend timer fires; a firing timer always invalidates the handle. */
  function Fire(cfg: Config, clock: nat, l: Line): Out {
    if l.timers == 0 then Out(l, clock, true, Fine) else
    var l1 := l.(timers := l.timers - 1, armed := false);
    if l.snd.state != ApmsWTack then
      Out(l1.(snd := l.snd.(saved := None)), clock, true, Fine)
    else if l.snd.saved.None? then
      Out(l1, clock, true, Fine)
    else if l.snd.resend > 0 then
      var l2 := Log(l1, l.snd.saved.value, true);
      Out(l2.(snd := l.snd.(resend := l.snd.resend - 1),
          timers := if cfg.env.timer(clock) then l.timers else l1.timers,
          armed := cfg.env.timer(clock)),
          clock + 1, true, Fine)
    else
      Out(l1.(snd := l.snd.(state := ApmsOpen)), clock, true, Abort(Err(ERR_APMS, SEND_CNF_NEG), false))
  }

  /** Take the next alarm sequence number. */
  function Number(l: Line): Line {
    l.(prevSeqNo := l.seqNo, seqNo := (l.seqNo + 1) % SEQUENCE_LIMIT)
  }

  /** An alarm leaves the send queue and gets its number. */
  function HandOver(l: Line, alarm: Alarm): Line {
    Number(l).(hist := l.hist.(handed := l.hist.handed + [alarm]))
  }

  /** ALPMI waits for the confirmation of an alarm that was sent. */
  function AwaitAck(l: Line, alarm: Alarm): Line {
    l.(alpmi := AlpmiWAck, hist := l.hist.(notes := l.hist.notes + [Notified(alarm)]))
  }

  /** ALPMI hands the oldest waiting alarm to APMS. */
  function SendInternal(cfg: Config, clock: nat, l: Line, alarm: Alarm): Out {
    var out := Request(cfg, clock, HandOver(l, alarm), Notification(alarm, l.seqNo));
    if out.ok then out.(line := AwaitAck(out.line, alarm)) else out
  }

  /** ALPMR takes the application's acknowledgement. */
  function TakeUserAck(l: Line, argument: AlarmArgument, status: nat): Line {
    Number(l).(hist := l.hist.(replies := l.hist.replies + [Acknowledged(argument, status)]))
  }

  // ------------------------------------------------------------------ the AR

  function ResetOut(l: Line): Line {
    l.(hist := l.hist.(posted := l.hist.handed))
  }

  /** Send queue, ALPMI and ALPMR of a closing AR. */
  function CloseAlpmx(l: Line): Line {
    var l1 := if l.outQ.Present? then ResetOut(l) else l;
    l1.(outQ := Missing, alpmi := AlpmiWStart, alpmr := AlpmrWStart)
  }

  /** APMS and APMR of a closing AR; of several pending timers only the one the handle knows is stopped. */
  function CloseApmx(l: Line): Line {
    l.(timers := if l.snd.state != ApmsClosed && l.armed && l.timers > 0 then l.timers - 1 else l.timers,
    armed := if l.snd.state != ApmsClosed then false else l.armed,
    snd := l.snd.(state := ApmsClosed, saved := None),
    rcv := l.rcv.(state := ApmrClosed),
    inQ := if l.rcv.state != ApmrClosed then Missing else l.inQ)
  }

  function CloseAlarm(cfg: Config, clock: nat, l: Line, code: nat): Out {
    if l.snd.state == ApmsClosed then Out(l, clock, true, Fine)
    else Transmit(cfg, clock, l, MakeErr(l.snd, l.rcv, ERR_PROTOCOL, code))
  }

  /** Close both priorities; an open low-priority APMS sends an ERR PDU in between. */
  function CloseAr(cfg: Config, ar: Ar): Ar {
    var out := CloseAlarm(cfg, ar.clock, CloseAlpmx(ar.low), ar.err.code);
    ar.(low := CloseApmx(out.line), high := CloseApmx(CloseAlpmx(ar.high)), listening := false, clock := out.clock)
  }

  /** A cleared line. The scheduler keeps its entries. */
  function ReleaseLine(l: Line): Line {
    BLANK.(timers := l.timers, hist := l.hist)
  }

  /** CMRPC clears the AR record. */
  function ReleaseAr(ar: Ar): Ar {
    ar.(low := ReleaseLine(ar.low), high := ReleaseLine(ar.high), enabled := false, err := Err(0, 0))
  }

  /** An abort of the AR: CMSU closes the alarm machines, then CMRPC clears the record. */
  function AbortAr(cfg: Config, ar: Ar): Ar {
    ReleaseAr(CloseAr(cfg, ar))
  }

  /** Store a handler's result; an error indication aborts the AR, and reading on through a cleared link is a fault. */
  function Finish(cfg: Config, ar: Ar, p: Prio, out: Out): Ar {
    var ar1 := ar.With(p, out.line).(clock := out.clock);
    match out.trouble
    case Fine => ar1
    case Noted(err) => ar1.(err := err)
    case Abort(err, readsOn) =>
      var ar2 := AbortAr(cfg, ar1.(err := err));
      ar2.(faulted := ar2.faulted || (readsOn && !ar2.At(p).link))
  }

  function AlpmxRefusal(l: Line): Option<Err> {
    if l.alpmi == AlpmiWStart && l.alpmr == AlpmrWStart then None
    else if l.alpmi != AlpmiWStart then Some(Err(ERR_ALPMI, WRONG_STATE))
    else Some(Err(ERR_ALPMR, WRONG_STATE))
  }

  function ApmxRefusal(l: Line): Option<Err> {
    if l.snd.state != ApmsClosed then Some(Err(ERR_APMS, INVALID_STATE))
    else if l.rcv.state != ApmrClosed then Some(Err(ERR_APMR, INVALID_STATE))
    else None
  }

  function ActivateAlpmx(l: Line): Line {
    if AlpmxRefusal(l).Some? then l else
    l.(seqNo := 0, prevSeqNo := 0xffff, alpmr := AlpmrWNotify, alpmi := AlpmiWAlarm,
    hist := l.hist.(notes := [], replies := []))
  }

  function ActivateApmx(l: Line): Line {
    if ApmxRefusal(l).Some? then l else
    l.(snd := Sender(ApmsOpen, 0, l.snd.saved, 0, None), rcv := Receiver(ApmrOpen, 0),
    inQ := Present([]), link := true, armed := false, hist := l.hist.(sent := []))
  }

  function ActivateLine(l: Line): Line {
    ActivateApmx(ActivateAlpmx(ResetOut(l).(outQ := Present([]))))
  }

  function Latest(err: Err, refusal: Option<Err>): Err {
    if refusal.Some? then refusal.value else err
  }

  function ActivateAr(ar: Ar): Ar {
    ar.(low := ActivateLine(ar.low), high := ActivateLine(ar.high), listening := true,
    err := Latest(Latest(Latest(Latest(ar.err,
           AlpmxRefusal(ar.low)), AlpmxRefusal(ar.high)), ApmxRefusal(ar.low)), ApmxRefusal(ar.high)))
  }

  /** pf_alarm_activate returns 0. */
  predicate ActivationSucceeds(ar: Ar) {
    && AlpmxRefusal(ar.low).None? && AlpmxRefusal(ar.high).None?
    && ApmxRefusal(ar.low).None? && ApmxRefusal(ar.high).None?
  }

  /** The frame handler posts a frame to the receive queue; true when the frame is taken over. */
  predicate TakesFrame(cfg: Config, l: Line) {
    l.inQ.Present? && |l.inQ.items| < cfg.capacity
  }

  function PostFrame(cfg: Config, l: Line, msg: RxMessage): Line {
    if TakesFrame(cfg, l) then l.(inQ := Present(l.inQ.items + [msg])) else l
  }

  predicate HasFrame(l: Line) {
    l.rcv.state != ApmrClosed && l.inQ.Present? && l.inQ.items != []
  }

  /** The line after its oldest received frame has been taken. */
  function DropFrame(l: Line): Line {
    if l.inQ.Present? && l.inQ.items != [] then l.(inQ := Present(l.inQ.items[1..])) else l
  }

  /** One turn of the receive loop; the flag is false when the loop must stop. */
  function Poll(cfg: Config, ar: Ar, p: Prio): (Ar, bool) {
    var l := ar.At(p);
    if !HasFrame(l) then (ar, true) else
    var out := Process(cfg, ar.clock, DropFrame(l), p, l.inQ.items[0].frame);
    (Finish(cfg, ar, p, out), out.ok)
  }

  function Backlog(l: Line): nat {
    if HasFrame(l) then |l.inQ.items| else 0
  }

  predicate SameQueues(l: Line, l': Line) {
    l'.inQ == l.inQ && l'.outQ == l.outQ && l'.timers == l.timers
  }

  lemma DeliverKeepsQueues(cfg: Config, clock: nat, l: Line, p: Prio, rx: Rx)
    ensures SameQueues(l, Deliver(cfg, clock, l, p, rx).line)
  {
    assert SameQueues(l, AcceptData(cfg, clock, l, rx.ackSeq).line);
  }

  lemma DataIndKeepsQueues(cfg: Config, clock: nat, l: Line, p: Prio, rx: Rx)
    ensures SameQueues(l, DataInd(cfg, clock, l, p, rx).line)
  {
    hide Deliver, Judge, BlockTypeAck, BlockTypeNotify;
    DeliverKeepsQueues(cfg, clock, l, p, rx);
    assert SameQueues(l, TakeAck(l, rx.ackSeq));
  }

  lemma ProcessKeepsQueues(cfg: Config, clock: nat, l: Line, p: Prio, rx: Rx)
    ensures SameQueues(l, Process(cfg, clock, l, p, rx).line)
  {
    hide DataInd;
    DataIndKeepsQueues(cfg, clock, l, p, rx);
    assert SameQueues(l, TakeAck(l, rx.ackSeq));
  }

  lemma PollShrinks(cfg: Config, ar: Ar, p: Prio)
    requires HasFrame(ar.At(p))
    ensures Backlog(Poll(cfg, ar, p).0.At(p)) < Backlog(ar.At(p))
  {
    var l := ar.At(p);
    ProcessKeepsQueues(cfg, ar.clock, DropFrame(l), p, l.inQ.items[0].frame);
  }

  /** The receive loop of one priority. */
  function PollAll(cfg: Config, ar: Ar, p: Prio): (Ar, bool)
    decreases Backlog(ar.At(p))
  {
    if !HasFrame(ar.At(p)) then (ar, true) else
    PollShrinks(cfg, ar, p);
    var (ar', ok) := Poll(cfg, ar, p);
    if ok then PollAll(cfg, ar', p) else (ar', false)
  }

  predicate CanDispatch(l: Line) {
    l.link && l.alpmi == AlpmiWAlarm && l.outQ.Present? && l.outQ.items != []
  }

  /** The line after its oldest waiting alarm has been taken. */
  function DropAlarm(l: Line): Line {
    if l.outQ.Present? && l.outQ.items != [] then l.(outQ := Present(l.outQ.items[1..])) else l
  }

  function DispatchLine(cfg: Config, ar: Ar, p: Prio): Ar
    requires CanDispatch(ar.At(p))
  {
    Finish(cfg, ar, p, SendInternal(cfg, ar.clock, DropAlarm(ar.At(p)), ar.At(p).outQ.items[0]))
  }

  /** The transmit half of the periodic function: at most one alarm, high priority first. Each ALPMX is looked up
      through its APMX, which an AR that was never activated has not linked. */
  function Dispatch(cfg: Config, ar: Ar): Ar {
    if !ar.enabled then ar
    else if !ar.high.link then ar.(faulted := true)
    else if CanDispatch(ar.high) then DispatchLine(cfg, ar, High)
    else if !ar.low.link then ar.(faulted := true)
    else if CanDispatch(ar.low) then DispatchLine(cfg, ar, Low)
    else ar
  }

  /** The receive half of the periodic function; a failure at low priority keeps the high one from its turn. */
  function ReceiveHalf(cfg: Config, ar: Ar): (Ar, bool) {
    var (ar1, ok) := PollAll(cfg, ar, Low);
    if ok then PollAll(cfg, ar1, High) else (ar1, false)
  }

  function PollBoth(cfg: Config, ar: Ar): Ar {
    ReceiveHalf(cfg, ar).0
  }

  function Periodic(cfg: Config, ar: Ar): Ar {
    Dispatch(cfg, PollBoth(cfg, ar))
  }

  /** The application queues an alarm. */
  predicate AcceptsAlarm(cfg: Config, ar: Ar, p: Prio, alarm: Alarm) {
    && ar.enabled && |alarm.payload| <= cfg.maxPayload
    && ar.At(p).outQ.Present? && |ar.At(p).outQ.items| < cfg.capacity
  }

  function Enqueue(l: Line, alarm: Alarm): Line
    requires l.outQ.Present?
  {
    l.(outQ := Present(l.outQ.items + [alarm]), hist := l.hist.(posted := l.hist.posted + [alarm]))
  }

  function PostAlarm(cfg: Config, ar: Ar, p: Prio, alarm: Alarm): Ar {
    if AcceptsAlarm(cfg, ar, p, alarm) then ar.With(p, Enqueue(ar.At(p), alarm)) else ar
  }

  /** The application acknowledges an alarm. It always goes out with high priority, and ALPMR ends in
      W_TACK whatever became of the request. */
  function AckAlarm(cfg: Config, ar: Ar, argument: AlarmArgument, status: nat): Ar {
    if ar.high.alpmr != AlpmrWUserAck then ar.(err := Err(ERR_ALPMI, WRONG_STATE)) else
    var l := TakeUserAck(ar.high, argument, status);
    var ar1 := Finish(cfg, ar, High, Request(cfg, ar.clock, l, AlarmAck(argument, status)));
    if ar1.faulted then ar1 else ar1.(high := ar1.high.(alpmr := AlpmrWTack))
  }

  datatype Event =
    | FrameIn(prio: Prio, msg: RxMessage)   // the frame handler runs
    | Turn(prio: Prio)                      // one turn of the receive loop
    | Send                                  // the transmit half of the periodic function
    | TimerExpires(prio: Prio)
    | UserAlarm(prio: Prio, alarm: Alarm)
    | UserAck(argument: AlarmArgument, status: nat)
    | Activation
    | Aborted                               // another part of the stack aborts the AR
    | SetEnabled(on: bool)

  /** One event. A fault ends what the model says: nothing follows it. */
  function Step(cfg: Config, ar: Ar, e: Event): Ar {
    if ar.faulted then ar else
    match e
    case FrameIn(p, msg) => if ar.listening then ar.With(p, PostFrame(cfg, ar.At(p), msg)) else ar
    case Turn(p) => Poll(cfg, ar, p).0
    case Send => Dispatch(cfg, ar)
    case TimerExpires(p) => Finish(cfg, ar, p, Fire(cfg, ar.clock, ar.At(p)))
    case UserAlarm(p, alarm) => PostAlarm(cfg, ar, p, alarm)
    case UserAck(argument, status) => AckAlarm(cfg, ar, argument, status)
    case Activation => ActivateAr(ar)
    case Aborted => AbortAr(cfg, ar)
    case SetEnabled(on) => ar.(enabled := on)
  }

  function Run(cfg: Config, ar: Ar, events: seq<Event>): Ar
    decreases |events|
  {
    if events == [] then ar else Run(cfg, Step(cfg, ar, events[0]), events[1..])
  }

  const BLANK := Line(Sender(ApmsClosed, 0, None, 0, None), Receiver(ApmrClosed, 0), false, AlpmiWStart, AlpmrWStart,
                      0, 0, 0, false, Missing, Missing, History([], [], [], [], []))

  /** A zeroed AR record. */
  const FRESH := Ar(BLANK, BLANK, false, false, Err(0, 0), 0, false)
}
