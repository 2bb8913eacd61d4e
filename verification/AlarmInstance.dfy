/**
  The alarm transport of one AR as the C code has it: records that the handlers update in place.
  Every method is proved to do to the state what the function of the same purpose in module
  AlarmModel does to its value.  A ghost journal keeps the events that have happened, and Valid()
  says that the state is the one the model reaches by them; so every result about runs holds for
  the records (RunResultsHold).
*/
module AlarmInstance {
  import opened Wrappers
  import opened SequenceNumbers
  import opened Apmx
  import opened AlarmModel
  import opened AlarmQueues
  import opened FrameBuffers
  import opened AlarmInvariants
  import AlarmReception
  import AlarmSending
  import AlarmTheorems

  /** A frame kept for retransmission, in its buffer. */
  datatype Kept = Kept(buf: nat, tx: Tx)

  function KeptTx(rta: Option<Kept>): Option<Tx> {
    if rta.Some? then Some(rta.value.tx) else None
  }

  ghost function BufferOf(msg: Option<RxMessage>): set<nat> {
    if msg.Some? then {msg.value.buf} else {}
  }

  /** Everything the AR holds for one priority: an APMX, an ALPMX and the two queues. */
  class PriorityLevel {
    const prio: Prio
    const inQ: ReceiveQueue
    const outQ: SendQueue

    var linked: bool // the pointer back to the AR is set
    var alpmxLinked: bool // the pointer from the APMX to its ALPMX is set
    var apmsState: ApmsState
    var apmrState: ApmrState
    var sendSeqCount: nat
    var sendSeqCountO: nat
    var expSeqCount: nat
    var expSeqCountO: nat
    var rta: Option<Kept>
    var resendCounter: nat
    var timerArmed: bool // the handle refers to the timer started last
    var timersPending: nat // entries of the scheduler that call back for this APMX

    var alpmiState: AlpmiState
    var alpmrState: AlpmrState
    var sequenceNumber: nat
    var prevSequenceNumber: nat

    ghost var acked: nat
    ghost var accepted: nat
    ghost var flight: Option<Body>
    ghost var hist: History

    /** The two queues are well-formed. */
    ghost predicate QueuesValid()
      reads inQ, inQ.acc, inQ.items, outQ, outQ.acc, outQ.items
    {
      inQ.Valid() && outQ.Valid()
    }

    /** The counters are those of the PDUs counted, and the saved buffer is not also queued. */
    ghost predicate Tidy()
      reads this, inQ
    {
      && inQ.acc != outQ.acc
      && (linked <==> apmsState != ApmsClosed) && (linked ==> alpmxLinked)
      && (apmrState == ApmrClosed ==> inQ.contents == [])
      && (apmsState != ApmsClosed ==>
            && sendSeqCount == SeqOf(acked) && sendSeqCountO == SeqOf(acked - 1)
            && expSeqCount == SeqOf(accepted) && expSeqCountO == SeqOf(accepted - 1))
      && (rta.Some? ==> rta.value.buf !in Buffers(inQ.contents))
    }

    ghost function View(): Line
      reads this, inQ, inQ.acc, outQ, outQ.acc
    {
      Line(Sender(apmsState, acked, KeptTx(rta), resendCounter, flight), Receiver(apmrState, accepted),
           alpmxLinked, alpmiState, alpmrState, sequenceNumber, prevSequenceNumber, timersPending, timerArmed,
           inQ.View(), outQ.View(), hist)
    }

    /** The frame buffers this level owns. */
    ghost function Owned(): set<nat>
      reads this, inQ
    {
      Buffers(inQ.contents) + (if rta.Some? then {rta.value.buf} else {})
    }

    /** The level is consistent, and the buffers in use are its own and the `foreign` ones. */
    ghost predicate Sound(pool: BufferPool, foreign: set<nat>)
      reads this, inQ, pool
    {
      Tidy() && pool.Valid() && Owned() !! foreign && pool.live == Owned() + foreign
    }

    constructor (prio: Prio, capacity: nat)
      requires 0 < capacity <= 0xffff
      ensures QueuesValid() && Tidy() && fresh({this, inQ, inQ.acc, inQ.items, outQ, outQ.acc, outQ.items})
              && this.prio == prio
      ensures View() == BLANK && Owned() == {}
      ensures inQ.acc.capacity == outQ.acc.capacity == capacity
    {
      this.prio := prio;
      inQ := new ReceiveQueue(capacity);
      outQ := new SendQueue(capacity);
      linked, alpmxLinked, apmsState, apmrState := false, false, ApmsClosed, ApmrClosed;
      sendSeqCount, sendSeqCountO, expSeqCount, expSeqCountO := 0, 0, 0, 0;
      rta, resendCounter, timerArmed, timersPending := None, 0, false, 0;
      alpmiState, alpmrState, sequenceNumber, prevSequenceNumber := AlpmiWStart, AlpmrWStart, 0, 0;
      acked, accepted, flight, hist := 0, 0, None, History([], [], [], [], []);
    }

    /** Keep a sent frame that wants a TACK, unless one is kept already; free any other. */
    method KeepOrFree(pool: BufferPool, ghost foreign: set<nat>, buf: nat, tx: Tx)
      requires Sound(pool, foreign + {buf}) && buf !in foreign
      modifies `rta, pool
      ensures Sound(pool, foreign)
      ensures KeptTx(rta) == if tx.tack then Keep(old(KeptTx(rta)), true, tx) else old(KeptTx(rta))
    {
      if tx.tack && rta.None? {
        rta := Some(Kept(buf, tx));
      } else {
        pool.Free(buf);
      }
    }

    /** Build and send one frame; a frame that wants a TACK is kept, any other is freed at once. */
    method ADataReq(cfg: Config, pool: BufferPool, ghost foreign: set<nat>, moment: nat, tx: Tx) returns (ok: bool)
      requires Sound(pool, foreign)
      modifies `rta, `hist, pool
      ensures Sound(pool, foreign)
      ensures ok <==> cfg.env.alloc(moment) && cfg.env.send(moment)
      ensures View() == (var l := Log(old(View()), tx, cfg.env.alloc(moment));
                         if tx.tack then l.(snd := l.snd.(saved := Keep(l.snd.saved, cfg.env.alloc(moment), tx)))
                         else l)
    {
      ok := false;
      var buf := pool.Alloc(cfg.env.alloc(moment));
      if buf.Some? {
        hist := hist.(sent := hist.sent + [Sent(acked, tx)]);
        ok := cfg.env.send(moment);
        KeepOrFree(pool, foreign, buf.value, tx);
      }
    }

    /** Send the transport acknowledgement. */
    method ApmrSendAck(cfg: Config, pool: BufferPool, ghost foreign: set<nat>, moment: nat) returns (ok: bool)
      requires Sound(pool, foreign) && apmsState != ApmsClosed
      modifies `rta, `hist, pool
      ensures Sound(pool, foreign)
      ensures var l := old(View()); var out := Transmit(cfg, moment, l, MakeAck(l.snd, l.rcv));
              View() == out.line && ok == out.ok
    {
      ok := ADataReq(cfg, pool, foreign, moment, Tx(AckPdu, false, sendSeqCountO, expSeqCountO, None));
    }

    method ApmrSendNack(cfg: Config, pool: BufferPool, ghost foreign: set<nat>, moment: nat) returns (ok: bool)
      requires Sound(pool, foreign) && apmsState != ApmsClosed
      modifies `rta, `hist, pool
      ensures Sound(pool, foreign)
      ensures var l := old(View()); var out := Transmit(cfg, moment, l, MakeNack(l.snd, l.rcv));
              View() == out.line && ok == out.ok
    {
      ok := ADataReq(cfg, pool, foreign, moment, Tx(NackPdu, false, sendSeqCountO, expSeqCountO, None));
    }

    /** Free the saved frame, if any. */
    method FreeSaved(pool: BufferPool, ghost foreign: set<nat>)
      requires Sound(pool, foreign)
      modifies `rta, pool
      ensures Sound(pool, foreign)
      ensures View() == old(View()).(snd := old(View()).snd.(saved := None))
    {
      if rta.Some? {
        var buf := rta.value.buf;
        rta := None;
        pool.Free(buf);
      }
    }

    /** ALPMR is told that a TACK has come. */
    method AlpmrPositiveCnf()
      requires Tidy() && alpmxLinked
      modifies `alpmrState, `hist
      ensures Tidy() && Owned() == old(Owned())
      ensures View() == (if old(alpmrState) == AlpmrWTack
                         then old(View()).(alpmr := AlpmrWNotify,
                                           hist := old(hist).(replies := old(hist).replies + [AckConfirmed]))
                         else old(View()))
    {
      if alpmrState == AlpmrWTack {
        hist := hist.(replies := hist.replies + [AckConfirmed]);
        alpmrState := AlpmrWNotify;
      }
    }

    /** Step the send counters past the acknowledged PDU. */
    method StepSendCount()
      requires Tidy() && apmsState != ApmsClosed
      modifies `sendSeqCount, `sendSeqCountO, `acked
      ensures Tidy()
      ensures View() == old(View()).(snd := old(View()).snd.(acked := old(acked) + 1))
    {
      NextSeqIsNextPdu(acked);
      sendSeqCountO := sendSeqCount;
      sendSeqCount := NextSeq(sendSeqCount);
      acked := acked + 1;
    }

    /** Step the receive counters past the accepted PDU. */
    method StepExpCount()
      requires Tidy() && apmsState != ApmsClosed
      modifies `expSeqCount, `expSeqCountO, `accepted
      ensures Tidy()
      ensures View() == old(View()).(rcv := Accept(old(View()).rcv))
    {
      NextSeqIsNextPdu(accepted);
      expSeqCountO := expSeqCount;
      expSeqCount := NextSeq(expSeqCount);
      accepted := accepted + 1;
    }

    /** The TACK of the outstanding PDU has come. */
    method TakeTack(pool: BufferPool, ghost foreign: set<nat>)
      requires Sound(pool, foreign) && apmsState == ApmsWTack
      modifies `sendSeqCount, `sendSeqCountO, `acked, `rta, `apmsState, `alpmrState, `hist, pool
      ensures Sound(pool, foreign)
      ensures View() == TakeAck(old(View()), SeqOf(old(acked)))
    {
      hide ReceiveQueue.View, SendQueue.View, ReceiveQueue.Valid, SendQueue.Valid, Buffers;
      StepSendCount();
      FreeSaved(pool, foreign);
      AlpmrPositiveCnf();
      apmsState := ApmsOpen;
    }

    /** APMS checks the ack number of an incoming ACK or DATA PDU. */
    method ApmsADataInd(pool: BufferPool, ghost foreign: set<nat>, pdu: PduType, ackSeq: nat)
      requires Sound(pool, foreign) && (pdu == AckPdu || pdu == DataPdu)
      modifies `sendSeqCount, `sendSeqCountO, `acked, `rta, `apmsState, `alpmrState, `hist, pool
      ensures Sound(pool, foreign)
      ensures View() == TakeAck(old(View()), ackSeq)
    {
      if pdu == AckPdu || pdu == DataPdu {
        if apmsState == ApmsWTack && ackSeq == sendSeqCount {
          TakeTack(pool, foreign);
        }
      }
    }

    /** An alarm acknowledgement from the controller confirms the alarm ALPMI has sent. */
    method AlpmiApmrADataInd(status: nat)
      requires Tidy() && alpmxLinked
      modifies `alpmiState, `hist
      ensures Tidy() && Owned() == old(Owned())
      ensures View() == ConfirmAlarm(old(View()), status)
    {
      if alpmiState == AlpmiWAck {
        alpmiState := AlpmiWAlarm;
        hist := hist.(notes := hist.notes + [Confirmed(status)]);
      }
    }

    /** Start the resend timer; the handle then refers to the new timer, or to none. */
    method StartTimer(cfg: Config, moment: nat) returns (ok: bool)
      modifies `timersPending, `timerArmed
      ensures ok == timerArmed == cfg.env.timer(moment)
      ensures timersPending == old(timersPending) + (if ok then 1 else 0)
    {
      ok := cfg.env.timer(moment);
      timerArmed := ok;
      if ok { timersPending := timersPending + 1; }
    }

    /** Build, send and keep a DATA PDU. */
    method SendData(cfg: Config, pool: BufferPool, ghost foreign: set<nat>, moment: nat, body: Body) returns (ok: bool)
      requires Sound(pool, foreign) && apmsState == ApmsOpen
      modifies `rta, `hist, `resendCounter, `apmsState, `flight, pool
      ensures Sound(pool, foreign)
      ensures ok <==> cfg.env.alloc(moment) && cfg.env.send(moment)
      ensures var l := old(View()); var tx := MakeData(l.snd, l.rcv, body);
              View() == Log(l, tx, cfg.env.alloc(moment)).(snd := Launch(l.snd, tx, cfg.env.alloc(moment), cfg.retries))
    {
      hide ReceiveQueue.View, SendQueue.View, ReceiveQueue.Valid, SendQueue.Valid, Buffers;
      ok := ADataReq(cfg, pool, foreign, moment, Tx(DataPdu, true, sendSeqCount, expSeqCountO, Some(body)));
      resendCounter := cfg.retries;
      apmsState, flight := ApmsWTack, Some(body);
    }

    /** Send a DATA PDU with APMS in state OPEN and wait for its TACK. */
    method ApmsSendData(cfg: Config, pool: BufferPool, ghost foreign: set<nat>, moment: nat, body: Body)
      returns (ok: bool)
      requires Sound(pool, foreign) && apmsState == ApmsOpen
      modifies `rta, `hist, `resendCounter, `apmsState, `flight, `timersPending, `timerArmed, pool
      ensures Sound(pool, foreign)
      ensures var out := Request(cfg, moment, old(View()), body); View() == out.line && ok == out.ok
    {
      ok := SendData(cfg, pool, foreign, moment, body);
      var started := StartTimer(cfg, moment);
      if !started { ok := false; }
    }

    /** Empty the send queue, destroy its mutex, and reset ALPMI and ALPMR. */
    method CloseAlpmx()
      requires QueuesValid() && Tidy()
      modifies outQ, outQ.acc, outQ.items, `hist, `alpmiState, `alpmrState
      ensures QueuesValid() && Tidy() && Owned() == old(Owned())
      ensures View() == AlarmModel.CloseAlpmx(old(View()))
    {
      hide ReceiveQueue.View, ReceiveQueue.Valid, Buffers, SeqOf;
      ghost var available := outQ.acc.mutex;
      outQ.ResetAndDestroy();
      alpmiState, alpmrState := AlpmiWStart, AlpmrWStart;
      if available { hist := hist.(posted := hist.handed); }
    }

    /** Create the mutex of the send queue if needed and empty it. */
    method OpenSendQueue()
      requires outQ.Valid() && Tidy()
      modifies outQ, outQ.acc, outQ.items, `hist
      ensures outQ.Valid() && Tidy()
      ensures View() == ResetOut(old(View())).(outQ := Present([]))
    {
      outQ.Create();
      outQ.Reset();
      hist := hist.(posted := hist.handed);
    }

    /** Cut the link to the AR and stop the timer the handle refers to. */
    method CloseApms()
      requires Tidy()
      modifies `linked, `apmsState, `timerArmed, `timersPending
      ensures Tidy() && Owned() == old(Owned())
      ensures View() == (var l := old(View());
                         l.(timers := if l.snd.state != ApmsClosed && l.armed && l.timers > 0 then l.timers - 1
                                      else l.timers,
                         armed := if l.snd.state != ApmsClosed then false else l.armed,
                         snd := l.snd.(state := ApmsClosed)))
    {
      if apmsState != ApmsClosed {
        if timerArmed {
          if timersPending > 0 { timersPending := timersPending - 1; }
          timerArmed := false;
        }
        linked := false;
        apmsState := ApmsClosed;
      }
    }

    /** Drop the received frames. */
    method CloseApmr(pool: BufferPool, ghost foreign: set<nat>)
      requires Sound(pool, foreign) && inQ.Valid()
      modifies `apmrState, inQ, inQ.acc, inQ.items, pool
      ensures Sound(pool, foreign) && inQ.Valid()
      ensures inQ.contents == [] && rta == old(rta)
      ensures View() == (var l := old(View());
                         l.(rcv := l.rcv.(state := ApmrClosed),
                            inQ := if l.rcv.state != ApmrClosed then Missing else l.inQ))
    {
      if apmrState != ApmrClosed {
        apmrState := ApmrClosed;
        inQ.ResetAndDestroy(pool);
      }
    }

    /** The APMX part of closing: timer, saved frame, received frames. */
    method CloseApmx(pool: BufferPool, ghost foreign: set<nat>)
      requires Sound(pool, foreign) && QueuesValid()
      modifies `linked, `apmsState, `apmrState, `rta, `timerArmed, `timersPending, inQ, inQ.acc, inQ.items, pool
      ensures Sound(pool, foreign) && QueuesValid()
      ensures Owned() == {}
      ensures View() == AlarmModel.CloseApmx(old(View()))
    {
      CloseApms();
      FreeSaved(pool, foreign);
      CloseApmr(pool, foreign);
    }

    /** Take an in-sequence DATA PDU: look at its ack number, count it and acknowledge it. */
    method AcceptData(cfg: Config, pool: BufferPool, ghost foreign: set<nat>, moment: nat, ackSeq: nat)
      returns (ok: bool)
      requires Sound(pool, foreign) && apmsState != ApmsClosed
      modifies `sendSeqCount, `sendSeqCountO, `acked, `expSeqCount, `expSeqCountO, `accepted,
               `rta, `apmsState, `alpmrState, `hist, pool
      ensures Sound(pool, foreign)
      ensures var out := AlarmModel.AcceptData(cfg, moment, old(View()), ackSeq); View() == out.line && ok == out.ok
    {
      ApmsADataInd(pool, foreign, DataPdu, ackSeq);
      StepExpCount();
      ok := ApmrSendAck(cfg, pool, foreign, moment);
    }

    /** Take a repeated DATA PDU: look at its ack number and acknowledge it again. */
    method RepeatAck(cfg: Config, pool: BufferPool, ghost foreign: set<nat>, moment: nat, ackSeq: nat)
      requires Sound(pool, foreign) && apmsState != ApmsClosed
      modifies `sendSeqCount, `sendSeqCountO, `acked, `expSeqCount, `expSeqCountO, `accepted,
               `rta, `apmsState, `alpmrState, `hist, pool
      ensures Sound(pool, foreign)
      ensures View() == AlarmModel.RepeatAck(cfg, moment, old(View()), ackSeq).line
    {
      ApmsADataInd(pool, foreign, DataPdu, ackSeq);
      var ok := ApmrSendAck(cfg, pool, foreign, moment);
    }

    /** Hand an acknowledged PDU to ALPMI; APMR is in WCNF meanwhile. */
    method DeliverAlarmAck(status: nat)
      requires Tidy() && apmrState == ApmrOpen && alpmxLinked
      modifies `apmrState, `alpmiState, `hist
      ensures Tidy() && Owned() == old(Owned())
      ensures View() == ConfirmAlarm(old(View()), status)
    {
      apmrState := ApmrWCnf;
      AlpmiApmrADataInd(status);
      apmrState := ApmrOpen;
    }

    /** Indicate an alarm to the application. */
    method Indicate(told: Told)
      requires Tidy() && alpmrState == AlpmrWNotify && alpmxLinked
      modifies `alpmrState, `hist
      ensures Tidy() && Owned() == old(Owned())
      ensures View() == IndicateAlarm(old(View()), 0, told).line
    {
      alpmrState := AlpmrWUserAck;
      hist := hist.(replies := hist.replies + [Indicated(told)]);
    }

    /** Take the oldest received frame; its buffer then belongs to the caller. */
    method FetchFrame(pool: BufferPool, ghost foreign: set<nat>) returns (msg: Option<RxMessage>)
      requires Sound(pool, foreign) && QueuesValid()
      modifies inQ, inQ.acc, inQ.items
      ensures QueuesValid() && Tidy() && rta == old(rta)
      ensures msg.Some? <==> old(View()).inQ.Present? && old(View()).inQ.items != []
      ensures msg.Some? ==> msg.value == old(View()).inQ.items[0] && msg.value.buf !in foreign
      ensures View() == DropFrame(old(View()))
      ensures Sound(pool, foreign + BufferOf(msg))
      ensures old(Owned()) == Owned() + BufferOf(msg)
    {
      ghost var before := inQ.contents;
      msg := inQ.Fetch();
      if before != [] {
        BuffersDrop(before);
      }
    }

    /** Queue a received frame; its buffer then belongs to the queue. */
    method PostFrame(cfg: Config, pool: BufferPool, ghost foreign: set<nat>, msg: RxMessage) returns (ok: bool)
      requires Sound(pool, foreign) && msg.buf in foreign && QueuesValid() && inQ.acc.capacity == cfg.capacity
      requires inQ.acc.mutex ==> apmrState != ApmrClosed
      modifies inQ, inQ.acc, inQ.items
      ensures QueuesValid() && ok == TakesFrame(cfg, old(View()))
      ensures View() == AlarmModel.PostFrame(cfg, old(View()), msg)
      ensures Sound(pool, if ok then foreign - {msg.buf} else foreign)
    {
      ghost var before := inQ.contents;
      ok := inQ.Post(msg);
      BuffersAppend(before, msg);
    }

    /** Take the oldest waiting alarm. */
    method FetchAlarm() returns (alarm: Option<Alarm>)
      requires Tidy() && QueuesValid()
      modifies outQ, outQ.acc, outQ.items
      ensures Tidy() && QueuesValid()
      ensures alarm.Some? <==> old(View()).outQ.Present? && old(View()).outQ.items != []
      ensures alarm.Some? ==> alarm.value == old(View()).outQ.items[0]
      ensures View() == DropAlarm(old(View())) && Owned() == old(Owned())
    {
      alarm := outQ.Fetch();
    }

    /** Queue an alarm for sending. */
    method PostAlarm(cfg: Config, alarm: Alarm) returns (ok: bool)
      requires Tidy() && QueuesValid() && outQ.acc.capacity == cfg.capacity
      modifies outQ, outQ.acc, outQ.items, `hist
      ensures Tidy() && QueuesValid()
      ensures var l := old(View());
              && ok == (l.outQ.Present? && |l.outQ.items| < cfg.capacity)
              && View() == (if ok then Enqueue(l, alarm) else l) && Owned() == old(Owned())
    {
      ok := outQ.Post(alarm);
      if ok { hist := hist.(posted := hist.posted + [alarm]); }
    }

    /** Give an alarm its sequence number. */
    method NumberAlarm(alarm: Alarm) returns (number: nat)
      requires Tidy()
      modifies `sequenceNumber, `prevSequenceNumber, `hist
      ensures Tidy() && Owned() == old(Owned())
      ensures number == old(sequenceNumber) && View() == HandOver(old(View()), alarm)
    {
      number := sequenceNumber;
      prevSequenceNumber := sequenceNumber;
      sequenceNumber := (sequenceNumber + 1) % SEQUENCE_LIMIT;
      hist := hist.(handed := hist.handed + [alarm]);
    }

    /** Count an alarm acknowledgement of the application. */
    method NumberUserAck(argument: AlarmArgument, status: nat)
      requires Tidy()
      modifies `sequenceNumber, `prevSequenceNumber, `hist
      ensures Tidy() && Owned() == old(Owned())
      ensures View() == TakeUserAck(old(View()), argument, status)
    {
      prevSequenceNumber := sequenceNumber;
      sequenceNumber := (sequenceNumber + 1) % SEQUENCE_LIMIT;
      hist := hist.(replies := hist.replies + [Acknowledged(argument, status)]);
    }

    /** ALPMI waits for the confirmation of the alarm just sent. */
    method SetAwaitAck(alarm: Alarm)
      requires Tidy()
      modifies `alpmiState, `hist
      ensures Tidy() && Owned() == old(Owned())
      ensures View() == AwaitAck(old(View()), alarm)
    {
      alpmiState := AlpmiWAck;
      hist := hist.(notes := hist.notes + [Notified(alarm)]);
    }

    /** Start ALPMI and ALPMR, or refuse. */
    method ActivateAlpmx() returns (refusal: Option<Err>)
      requires Tidy()
      modifies `prevSequenceNumber, `sequenceNumber, `alpmrState, `alpmiState, `hist
      ensures Tidy() && Owned() == old(Owned())
      ensures refusal == AlpmxRefusal(old(View())) && View() == AlarmModel.ActivateAlpmx(old(View()))
    {
      hide ReceiveQueue.View, SendQueue.View, ReceiveQueue.Valid, SendQueue.Valid, Buffers;
      refusal := None;
      if alpmiState == AlpmiWStart && alpmrState == AlpmrWStart {
        prevSequenceNumber, sequenceNumber := 0xffff, 0;
        alpmrState, alpmiState := AlpmrWNotify, AlpmiWAlarm;
        hist := hist.(notes := [], replies := []);
      } else if alpmiState != AlpmiWStart {
        refusal := Some(Err(ERR_ALPMI, WRONG_STATE));
      } else {
        refusal := Some(Err(ERR_ALPMR, WRONG_STATE));
      }
    }

    /** Open the receive queue. */
    method OpenReceiveQueue(pool: BufferPool, ghost foreign: set<nat>)
      requires Sound(pool, foreign) && QueuesValid()
      modifies inQ, inQ.acc, inQ.items, pool
      ensures Sound(pool, foreign) && QueuesValid()
      ensures View() == old(View()).(inQ := Present([]))
    {
      inQ.Create();
      inQ.Reset(pool);
    }

    /** Start APMS and APMR with their start counters, or refuse. */
    method ActivateApmx(pool: BufferPool, ghost foreign: set<nat>) returns (refusal: Option<Err>)
      requires Sound(pool, foreign) && QueuesValid()
      modifies this, inQ, inQ.acc, inQ.items, pool
      ensures Sound(pool, foreign) && QueuesValid()
      ensures refusal == ApmxRefusal(old(View())) && View() == AlarmModel.ActivateApmx(old(View()))
    {
      refusal := None;
      if apmsState != ApmsClosed {
        refusal := Some(Err(ERR_APMS, INVALID_STATE));
      } else if apmrState != ApmrClosed {
        refusal := Some(Err(ERR_APMR, INVALID_STATE));
      } else {
        OpenReceiveQueue(pool, foreign);
        StartApmx();
      }
    }

    /** The counters of a new connection; they count once APMS is linked. */
    method StartCounters()
      requires Tidy() && apmsState == ApmsClosed
      modifies `sendSeqCount, `sendSeqCountO, `expSeqCount, `expSeqCountO, `resendCounter
      ensures Tidy() && Owned() == old(Owned())
      ensures sendSeqCount == expSeqCount == 0xffff && sendSeqCountO == expSeqCountO == 0xfffe
      ensures View() == old(View()).(snd := old(View()).snd.(resend := 0))
    {
      hide ReceiveQueue.View, SendQueue.View, ReceiveQueue.Valid, SendQueue.Valid, Buffers;
      sendSeqCount := 0xffff;
      sendSeqCountO := 0xfffe;
      expSeqCount := 0xffff;
      expSeqCountO := 0xfffe;
      resendCounter := 0;
    }

    /** Nothing is counted yet. */
    ghost method ForgetPdus()
      requires Tidy() && apmsState == ApmsClosed
      modifies `acked, `accepted, `flight, `hist
      ensures Tidy() && Owned() == old(Owned())
      ensures View() == old(View()).(snd := old(View()).snd.(acked := 0, flight := None),
                                     rcv := old(View()).rcv.(accepted := 0), hist := old(hist).(sent := []))
    {
      acked := 0;
      accepted := 0;
      flight := None;
      hist := hist.(sent := []);
    }

    method OpenApmx()
      requires Tidy() && apmsState == ApmsClosed && acked == accepted == 0
      requires sendSeqCount == expSeqCount == 0xffff && sendSeqCountO == expSeqCountO == 0xfffe
      modifies `linked, `alpmxLinked, `timerArmed, `apmsState, `apmrState
      ensures Tidy() && Owned() == old(Owned())
      ensures View() == old(View()).(snd := old(View()).snd.(state := ApmsOpen), rcv := Receiver(ApmrOpen, 0),
              link := true,
                                     armed := false)
    {
      hide ReceiveQueue.View, SendQueue.View, ReceiveQueue.Valid, SendQueue.Valid, Buffers;
      linked := true;
      alpmxLinked := true;
      timerArmed := false;
      apmsState := ApmsOpen;
      apmrState := ApmrOpen;
    }

    method StartApmx()
      requires Tidy() && apmsState == ApmsClosed
      modifies this
      ensures Tidy() && Owned() == old(Owned())
      ensures View() == old(View()).(snd := Sender(ApmsOpen, 0, old(View()).snd.saved, 0, None),
              rcv := Receiver(ApmrOpen, 0),
                                     link := true, armed := false, hist := old(hist).(sent := []))
    {
      StartCounters();
      ForgetPdus();
      OpenApmx();
    }

    /** Clear the states and links of the APMX. */
    method ReleaseStates()
      requires Tidy() && inQ.contents == []
      modifies `linked, `alpmxLinked, `apmsState, `apmrState, `resendCounter, `timerArmed
      ensures Tidy() && Owned() == old(Owned()) && apmsState == ApmsClosed && !alpmxLinked
      ensures var l := old(View());
              View() == l.(snd := l.snd.(state := ApmsClosed, resend := 0), rcv := l.rcv.(state := ApmrClosed),
                           link := false, armed := false)
    {
      linked, alpmxLinked, apmsState, apmrState := false, false, ApmsClosed, ApmrClosed;
      resendCounter, timerArmed := 0, false;
    }

    /** Clear the counters of the APMX. */
    method ReleaseCounters()
      requires Tidy() && apmsState == ApmsClosed
      modifies `acked, `accepted, `flight, `sendSeqCount, `sendSeqCountO, `expSeqCount, `expSeqCountO
      ensures Tidy() && Owned() == old(Owned())
      ensures var l := old(View());
              View() == l.(snd := l.snd.(acked := 0, flight := None), rcv := l.rcv.(accepted := 0))
    {
      hide ReceiveQueue.View, SendQueue.View, Buffers, SeqOf;
      ReleaseNumbers();
      acked, accepted, flight := 0, 0, None;
    }

    method ReleaseNumbers()
      requires Tidy() && apmsState == ApmsClosed
      modifies `sendSeqCount, `sendSeqCountO, `expSeqCount, `expSeqCountO
      ensures Tidy() && Owned() == old(Owned()) && View() == old(View())
    {
      hide ReceiveQueue.View, SendQueue.View, Buffers, SeqOf;
      sendSeqCount, sendSeqCountO, expSeqCount, expSeqCountO := 0, 0, 0, 0;
    }

    /** Clear the ALPMX. */
    method ReleaseAlpmx()
      requires Tidy()
      modifies `alpmiState, `alpmrState, `sequenceNumber, `prevSequenceNumber
      ensures Tidy() && Owned() == old(Owned())
      ensures View() == old(View()).(alpmi := AlpmiWStart, alpmr := AlpmrWStart, seqNo := 0, prevSeqNo := 0)
    {
      alpmiState, alpmrState, sequenceNumber, prevSequenceNumber := AlpmiWStart, AlpmrWStart, 0, 0;
    }

    method ReleaseQueues()
      requires QueuesValid() && Tidy() && inQ.contents == []
      modifies inQ, inQ.acc, inQ.items, outQ, outQ.acc, outQ.items
      ensures QueuesValid() && Tidy() && Owned() == old(Owned())
      ensures View() == old(View()).(inQ := Missing, outQ := Missing)
    {
      inQ.Clear();
      outQ.Clear();
    }

    /** Clear the record of a level that owns no buffer. The scheduler keeps its entries. */
    method Release(pool: BufferPool, ghost foreign: set<nat>)
      requires QueuesValid() && Sound(pool, foreign) && Owned() == {} && inQ.contents == [] && rta.None?
      modifies this, inQ, inQ.acc, inQ.items, outQ, outQ.acc, outQ.items
      ensures QueuesValid() && Sound(pool, foreign) && Owned() == {} && !alpmxLinked
      ensures View() == ReleaseLine(old(View()))
    {
      ReleaseStates();
      ReleaseCounters();
      ReleaseAlpmx();
      ReleaseQueues();
    }

    /** The resend timer fires: resend, give up, or clean up. */
    method TimerFires(cfg: Config, pool: BufferPool, ghost foreign: set<nat>, moment: nat)
      returns (resent: bool, mustClose: bool)
      requires Sound(pool, foreign) && timersPending > 0
      modifies this, pool
      ensures Sound(pool, foreign)
      ensures var out := Fire(cfg, moment, old(View()));
              View() == out.line && mustClose == out.trouble.Abort?
              && out.clock == (if resent then moment + 1 else moment)
      ensures mustClose ==> linked
    {
      hide ReceiveQueue.View, SendQueue.View, ReceiveQueue.Valid, SendQueue.Valid, Buffers;
      resent, mustClose := false, false;
      timerArmed, timersPending := false, timersPending - 1;
      if apmsState == ApmsWTack {
        if rta.None? {
        } else if resendCounter > 0 {
          Retransmit(cfg, moment);
          resent := true;
        } else {
          apmsState := ApmsOpen;
          mustClose := true;
        }
      } else {
        FreeSaved(pool, foreign);
      }
    }

    /** Hand the saved frame to the network once more and restart the timer. */
    method Retransmit(cfg: Config, moment: nat)
      requires Tidy() && apmsState == ApmsWTack && rta.Some? && resendCounter > 0
      modifies `resendCounter, `hist, `timersPending, `timerArmed
      ensures Tidy() && Owned() == old(Owned())
      ensures View() == Fire(cfg, moment, old(View()).(timers := old(timersPending) + 1)).line
    {
      hide ReceiveQueue.View, SendQueue.View, ReceiveQueue.Valid, SendQueue.Valid, Buffers;
      resendCounter := resendCounter - 1;
      hist := hist.(sent := hist.sent + [Sent(acked, rta.value.tx)]);
      var started := StartTimer(cfg, moment);
    }
  }

  /** Indicating an alarm with APMR in the passing state WCNF. */
  lemma IndicatingJammed(cfg: Config, ar: Ar, p: Prio, told: Told)
    requires ar.At(p).rcv.state == ApmrOpen
    ensures var l := ar.At(p);
            var out, out' := IndicateAlarm(l, ar.clock, told), IndicateAlarm(Jam(l), ar.clock, told);
            var ar' := Finish(cfg, ar.With(p, Jam(l)), p, out');
            && out'.ok == out.ok
            && (out.ok ==> ar'.At(p).rcv.state == ApmrWCnf)
            && Finish(cfg, ar, p, Out(Jam(l), ar.clock, false, Fine)) == ar.With(p, Jam(l))
            && (out.ok ==> ar'.With(p, ar'.At(p).(rcv := ar'.At(p).rcv.(state := ApmrOpen))) == Finish(cfg, ar, p, out))
            && (!out.ok ==> ar' == Finish(cfg, ar, p, out.(line := Jam(l))))
  {
  }

  /** Delivering is acknowledging followed by handing over. */
  lemma DeliverInTwo(cfg: Config, ar: Ar, p: Prio, rx: Rx)
    ensures var ack, out := AcceptData(cfg, ar.clock, ar.At(p), rx.ackSeq), Deliver(cfg, ar.clock, ar.At(p), p, rx);
            var ar1 := ar.With(p, ack.line).(clock := ack.clock);
            var hand := if rx.blockType == BlockTypeAck(p)
                        then Out(ConfirmAlarm(ack.line, rx.status), ack.clock, true, Fine)
                        else DeliverNotification(ack.line, ack.clock, rx);
            && (!ack.ok ==> out.ok == ack.ok && Finish(cfg, ar, p, out) == ar1)
            && (ack.ok ==> out.ok == hand.ok && Finish(cfg, ar1, p, hand) == Finish(cfg, ar, p, out))
  {
  }

  /** Taking a frame from the queue and processing it is one turn of the loop. */
  lemma FetchedThenProcessed(cfg: Config, ar: Ar, p: Prio)
    requires ar.At(p).rcv.state != ApmrClosed
    ensures var l, l' := ar.At(p), DropFrame(ar.At(p));
            && ar.With(p, l').At(p) == l' && ar.With(p, l').clock == ar.clock
            && (HasFrame(l) <==> l.inQ.Present? && l.inQ.items != [])
            && (!HasFrame(l) ==> ar.With(p, l') == ar)
            && (HasFrame(l) ==>
                  var out := Process(cfg, ar.clock, l', p, l.inQ.items[0].frame);
                  Poll(cfg, ar, p) == (Finish(cfg, ar.With(p, l'), p, out), out.ok))
  {
  }

  /** Sending an alarm is numbering it, requesting it from APMS and noting that it waits. */
  lemma SendInThree(cfg: Config, ar: Ar, p: Prio, alarm: Alarm)
    ensures var l, l1 := ar.At(p), HandOver(ar.At(p), alarm);
            var body := Notification(alarm, l.seqNo);
            var out, out1 := SendInternal(cfg, ar.clock, l, alarm), Request(cfg, ar.clock, l1, body);
            var ar1 := ar.With(p, l1);
            && ar1.At(p) == l1 && ar1.clock == ar.clock && out.ok == out1.ok
            && (!out1.ok ==> Finish(cfg, ar1, p, out1) == Finish(cfg, ar, p, out))
            && (out1.ok ==> var ar2 := Finish(cfg, ar1, p, out1);
                            ar2.With(p, AwaitAck(ar2.At(p), alarm)) == Finish(cfg, ar, p, out))
  {
  }

  /** Dispatching is taking an alarm from the queue and sending it. */
  lemma DispatchInTwo(cfg: Config, ar: Ar, p: Prio)
    requires ar.At(p).alpmi == AlpmiWAlarm && ar.At(p).link
    ensures var l, l' := ar.At(p), DropAlarm(ar.At(p));
            && ar.With(p, l').At(p) == l' && ar.With(p, l').clock == ar.clock
            && (CanDispatch(l) <==> l.outQ.Present? && l.outQ.items != [])
            && (!CanDispatch(l) ==> ar.With(p, l') == ar)
            && (CanDispatch(l) ==>
                  Finish(cfg, ar.With(p, l'), p, SendInternal(cfg, ar.clock, l', l.outQ.items[0])) ==
                    DispatchLine(cfg, ar, p))
  {
  }

  /** Acknowledging an alarm is numbering, requesting, and writing W_TACK unless that faulted. */
  lemma AckInThree(cfg: Config, ar: Ar, argument: AlarmArgument, status: nat)
    requires ar.high.alpmr == AlpmrWUserAck
    ensures var ar1 := ar.With(High, TakeUserAck(ar.high, argument, status));
            var out := Request(cfg, ar.clock, TakeUserAck(ar.high, argument, status), Body.AlarmAck(argument, status));
            var ar2 := Finish(cfg, ar1, High, out);
            && ar1.clock == ar.clock && ar1.At(High) == TakeUserAck(ar.high, argument, status)
            && AckAlarm(cfg, ar, argument, status)
               == (if ar2.faulted then ar2 else ar2.With(High, ar2.At(High).(alpmr := AlpmrWTack)))
            && (out.ok && !ar.faulted ==> AckAlarm(cfg, ar, argument, status).high.snd.state == ApmsWTack)
  {
  }

  lemma PostFrameKeeps(cfg: Config, ar: Ar, p: Prio, msg: RxMessage)
    requires Inv(cfg, ar)
    ensures Inv(cfg, ar.With(p, PostFrame(cfg, ar.At(p), msg)))
  {
    PostFrameOk(cfg, ar.At(p), msg);
  }

  /** Activation is opening the send queues, then all ALPMX, then all APMX. */
  lemma ActivateInThree(ar: Ar)
    ensures var a1 := ar.(low := ResetOut(ar.low).(outQ := Present([])),
                          high := ResetOut(ar.high).(outQ := Present([])));
            var a2 := a1.(low := ActivateAlpmx(a1.low), high := ActivateAlpmx(a1.high),
                          err := Latest(Latest(a1.err, AlpmxRefusal(a1.low)), AlpmxRefusal(a1.high)));
            var a3 := a2.(low := ActivateApmx(a2.low), high := ActivateApmx(a2.high), listening := true,
                          err := Latest(Latest(a2.err, ApmxRefusal(a2.low)), ApmxRefusal(a2.high)));
            && a3 == ActivateAr(ar)
            && (ActivationSucceeds(ar) <==>
                AlpmxRefusal(a1.low).None? && AlpmxRefusal(a1.high).None? && ApmxRefusal(a2.low).None?
                  && ApmxRefusal(a2.high).None?)
  {
    RefusalsIndependent(ar.low);
    RefusalsIndependent(ar.high);
  }

  lemma RefusalsIndependent(l: Line)
    ensures var l1 := ResetOut(l).(outQ := Present([]));
            AlpmxRefusal(l1) == AlpmxRefusal(l) && ApmxRefusal(ActivateAlpmx(l1)) == ApmxRefusal(l)
  {
  }

  lemma AbortArKeeps(cfg: Config, ar: Ar)
    requires Inv(cfg, ar)
    ensures Inv(cfg, AbortAr(cfg, ar))
  {
    AbortArOk(cfg, ar);
  }

  lemma FiringKeeps(cfg: Config, ar: Ar, p: Prio)
    requires Inv(cfg, ar)
    ensures Inv(cfg, Finish(cfg, ar, p, Fire(cfg, ar.clock, ar.At(p))))
  {
    FireOk(cfg, ar.clock, ar.At(p));
    FinishOk(cfg, ar, p, Fire(cfg, ar.clock, ar.At(p)));
  }

  /** The events that have happened to an AR. */
  class Journal {
    ghost var past: seq<Event>

    constructor ()
      ensures past == []
    {
      past := [];
    }
  }

  class AlarmInstance {
    const cfg: Config
    const pool: BufferPool
    const low: PriorityLevel
    const high: PriorityLevel
    const journal: Journal

    var enabled: bool
    var listening: bool // the frame handlers are registered
    var errCls: nat
    var errCode: nat
    var moment: nat // selects what the environment does next
    var faulted: bool // a handler has read through a link of the cleared record

    ghost var outside: set<nat> // buffers in use that belong to somebody else

    /** The objects are separate, and the levels of the right kind. */
    ghost predicate Shape() {
      && low.prio == Low && high.prio == High
      && low != high && low.inQ != high.inQ && low.outQ != high.outQ
      && low.inQ.items != high.inQ.items && low.outQ.items != high.outQ.items
      && low.inQ.acc != high.inQ.acc && low.inQ.acc != high.outQ.acc
      && low.outQ.acc != high.inQ.acc && low.outQ.acc != high.outQ.acc
      && low.inQ.acc.capacity == low.outQ.acc.capacity == cfg.capacity
      && high.inQ.acc.capacity == high.outQ.acc.capacity == cfg.capacity
    }

    /** Every frame buffer in use has exactly one owner, and everything is well-formed. */
    ghost predicate Structure()
      reads this, pool, low, low.inQ, low.inQ.acc, low.inQ.items, low.outQ, low.outQ.acc, low.outQ.items,
            high, high.inQ, high.inQ.acc, high.inQ.items, high.outQ, high.outQ.acc, high.outQ.items
    {
      && Shape()
      && low.QueuesValid() && high.QueuesValid()
      && low.Sound(pool, high.Owned() + outside)
      && high.Sound(pool, low.Owned() + outside)
    }

    ghost function State(): Ar
      reads this, low, low.inQ, low.inQ.acc, low.outQ, low.outQ.acc, high, high.inQ, high.inQ.acc, high.outQ,
          high.outQ.acc
    {
      Ar(low.View(), high.View(), enabled, listening, Err(errCls, errCode), moment, faulted)
    }

    /** Buffers in use that do not belong to level `x`. */
    ghost function Foreign(x: PriorityLevel): set<nat>
      reads this, low, low.inQ, high, high.inQ
    {
      (if x == low then high.Owned() else low.Owned()) + outside
    }

    ghost predicate Steady()
      reads this, pool, low, low.inQ, low.inQ.acc, low.inQ.items, low.outQ, low.outQ.acc, low.outQ.items,
            high, high.inQ, high.inQ.acc, high.inQ.items, high.outQ, high.outQ.acc, high.outQ.items
    {
      Structure() && Inv(cfg, State())
    }

    /** The AR is in the state that its past has led to. */
    ghost predicate Valid()
      reads this, pool, low, low.inQ, low.inQ.acc, low.inQ.items, low.outQ, low.outQ.acc, low.outQ.items,
            high, high.inQ, high.inQ.acc, high.inQ.items, high.outQ, high.outQ.acc, high.outQ.items, journal
    {
      Steady() && State() == Run(cfg, FRESH, journal.past)
    }

    /** All objects of the AR. */
    ghost function Repr(): set<object> {
      {this, pool, low, low.inQ, low.inQ.acc, low.inQ.items, low.outQ, low.outQ.acc, low.outQ.items,
       high, high.inQ, high.inQ.acc, high.inQ.items, high.outQ, high.outQ.acc, high.outQ.items}
    }

    ghost function Other(x: PriorityLevel): PriorityLevel {
      if x == low then high else low
    }

    /** When only level `x` has changed, and consistently so, the whole is consistent again. */
    twostate lemma LevelChanged(x: PriorityLevel)
      requires old(Structure()) && (x == low || x == high)
      requires x.QueuesValid() && x.Sound(pool, old(Foreign(x)))
      requires var y := Other(x); unchanged(y, y.inQ, y.inQ.acc, y.inQ.items, y.outQ, y.outQ.acc, y.outQ.items)
      requires outside == old(outside)
      ensures Structure() && Foreign(x) == old(Foreign(x))
      ensures State() == old(State()).With(x.prio, x.View()).(enabled := enabled, listening := listening,
                                                              err := Err(errCls, errCode), clock := moment,
                                                              faulted := faulted)
    {
      var y := Other(x);
      assert y.QueuesValid() && y.Tidy() && y.Owned() == old(y.Owned()) && y.View() == old(y.View());
      assert y.Sound(pool, x.Owned() + outside);
    }

    /** Nothing but level `x` has changed. */
    twostate lemma OnlyLevelChanged(x: PriorityLevel)
      requires old(Structure()) && (x == low || x == high)
      requires x.QueuesValid() && x.Sound(pool, old(Foreign(x)))
      requires var y := Other(x); unchanged(y, y.inQ, y.inQ.acc, y.inQ.items, y.outQ, y.outQ.acc, y.outQ.items)
      requires unchanged(this)
      ensures Structure() && State() == old(State()).With(x.prio, x.View())
    {
      LevelChanged(x);
    }

    /** Buffers that level `x` has let go belong to the outside from now on. */
    ghost method HandOut(x: PriorityLevel, bufs: set<nat>)
      requires Shape() && (x == low || x == high)
      requires x.QueuesValid() && Other(x).QueuesValid() && Other(x).Tidy()
      requires Other(x).Owned() * outside == {} && bufs * Foreign(x) == {}
      requires x.Sound(pool, Foreign(x) + bufs)
      modifies this`outside
      ensures Structure() && outside == old(outside) + bufs && State() == old(State())
    {
      hide PriorityLevel.QueuesValid, PriorityLevel.View;
      outside := outside + bufs;
      assert Other(x).Sound(pool, x.Owned() + outside);
    }

    /** Level `x` is the line of its priority, and is linked to the AR unless closed. */
    lemma AtLevel(x: PriorityLevel)
      requires Structure() && (x == low || x == high)
      ensures x.prio == (if x == low then Low else High) && low != high && (x.linked ==> x.alpmxLinked)
      ensures State().At(x.prio) == x.View() && (x.linked <==> x.apmsState != ApmsClosed)
      ensures x.View().link == x.alpmxLinked && x.View().alpmi == x.alpmiState
      ensures x.View().alpmr == x.alpmrState && x.View().rcv == Receiver(x.apmrState, x.accepted)
      ensures State().clock == moment
      ensures x.apmsState != ApmsClosed ==>
              x.expSeqCount == SeqOf(x.accepted) && x.expSeqCountO == SeqOf(x.accepted - 1)
    {
    }

    lemma Assembled()
      requires Shape() && low.QueuesValid() && high.QueuesValid() && low.Tidy() && high.Tidy()
      requires low.Owned() == high.Owned() == {} && pool.Valid() && outside == pool.live
      requires low.View() == high.View() == BLANK && !enabled && !listening && !faulted
      requires errCls == errCode == moment == 0 && journal.past == []
      ensures Valid() && State() == FRESH
    {
      FreshOk(cfg);
    }

    constructor (cfg: Config, pool: BufferPool)
      requires 0 < cfg.capacity <= 0xffff && pool.Valid()
      ensures Valid() && State() == FRESH && this.pool == pool && this.cfg == cfg
      ensures outside == pool.live == old(pool.live)
    {
      this.cfg, this.pool := cfg, pool;
      low := new PriorityLevel(Low, cfg.capacity);
      high := new PriorityLevel(High, cfg.capacity);
      enabled, listening, errCls, errCode, moment, faulted := false, false, 0, 0, 0, false;
      journal := new Journal();
      outside := pool.live;
      new;
      hide PriorityLevel.QueuesValid, PriorityLevel.Tidy, PriorityLevel.View, PriorityLevel.Owned, Valid, State;
      Assembled();
    }

    /** The environment has been asked once more. */
    method Tick()
      requires Structure()
      modifies this`moment
      ensures Structure() && moment == old(moment) + 1
      ensures State() == old(State()).(clock := moment)
    {
      moment := moment + 1;
    }

    // ---------------------------------------------------------------- closing

    /** Tell the controller with a low-priority ERR PDU that the connection ends. */
    method SendCloseAlarm()
      requires Structure()
      modifies this`moment, low`rta, low`hist, pool
      ensures Structure() && outside == old(outside)
      ensures var out := CloseAlarm(cfg, old(moment), old(low.View()), errCode);
              low.View() == out.line && moment == out.clock
      ensures high.View() == old(high.View())
    {
      hide PriorityLevel.QueuesValid;
      if low.apmsState != ApmsClosed {
        var sent := low.ADataReq(cfg, pool, Foreign(low), moment,
          Tx(ErrPdu, false, low.sendSeqCount, low.expSeqCountO, Some(ErrorStatus(ERR_PROTOCOL, errCode))));
        LevelChanged(low);
        Tick();
      }
    }

    /** Unregister the frame handlers. */
    method StopListening()
      requires Structure()
      modifies this`listening
      ensures Structure() && !listening
      ensures low.View() == old(low.View()) && high.View() == old(high.View())
    {
      listening := false;
    }

    /** Close the send queue, ALPMI and ALPMR of one level. */
    method CloseAlpmx(x: PriorityLevel)
      requires Structure() && (x == low || x == high)
      modifies x`hist, x`alpmiState, x`alpmrState, x.outQ, x.outQ.acc, x.outQ.items
      ensures Structure() && outside == old(outside)
      ensures x.View() == AlarmModel.CloseAlpmx(old(x.View())) && Other(x).View() == old(Other(x).View())
    {
      hide PriorityLevel.View, AlarmModel.CloseAlpmx;
      x.CloseAlpmx();
      OnlyLevelChanged(x);
    }

    /** Close APMS and APMR of one level. */
    method CloseApmx(x: PriorityLevel)
      requires Structure() && (x == low || x == high)
      modifies x, x.inQ, x.inQ.acc, x.inQ.items, x.outQ, x.outQ.acc, x.outQ.items, pool
      ensures Structure() && outside == old(outside)
      ensures x.View() == AlarmModel.CloseApmx(old(x.View())) && Other(x).View() == old(Other(x).View())
      ensures x.Owned() == {}
      ensures Other(x).Owned() == old(Other(x).Owned())
    {
      hide PriorityLevel.QueuesValid, PriorityLevel.View, PriorityLevel.Tidy;
      x.CloseApmx(pool, Foreign(x));
      OnlyLevelChanged(x);
    }

    method CloseAllAlpmx()
      requires Structure()
      modifies low`hist, low`alpmiState, low`alpmrState, low.outQ, low.outQ.acc, low.outQ.items,
               high`hist, high`alpmiState, high`alpmrState, high.outQ, high.outQ.acc, high.outQ.items
      ensures Structure() && outside == old(outside)
      ensures low.View() == AlarmModel.CloseAlpmx(old(low.View()))
              && high.View() == AlarmModel.CloseAlpmx(old(high.View()))
    {
      hide Structure;
      CloseAlpmx(low);
      CloseAlpmx(high);
    }

    method CloseAllApmx()
      requires Structure()
      modifies pool, low, low.inQ, low.inQ.acc, low.inQ.items, low.outQ, low.outQ.acc, low.outQ.items,
               high, high.inQ, high.inQ.acc, high.inQ.items, high.outQ, high.outQ.acc, high.outQ.items
      ensures Structure() && outside == old(outside)
      ensures low.Owned() == high.Owned() == {}
      ensures low.View() == AlarmModel.CloseApmx(old(low.View()))
              && high.View() == AlarmModel.CloseApmx(old(high.View()))
    {
      hide Structure;
      CloseApmx(low);
      CloseApmx(high);
    }

    /** Send the ERR PDU, stop listening and close both APMX. */
    method Disconnect()
      requires Structure()
      modifies Repr()
      ensures Structure() && outside == old(outside) && enabled == old(enabled) && !listening && faulted == old(faulted)
      ensures errCls == old(errCls) && errCode == old(errCode)
      ensures low.Owned() == high.Owned() == {}
      ensures var out := CloseAlarm(cfg, old(moment), old(low.View()), errCode);
              low.View() == AlarmModel.CloseApmx(out.line) && moment == out.clock
      ensures high.View() == AlarmModel.CloseApmx(old(high.View()))
    {
      hide Structure;
      SendCloseAlarm();
      StopListening();
      CloseAllApmx();
    }

    /** pf_alarm_close. */
    method Close()
      requires Structure()
      modifies Repr()
      ensures Structure() && outside == old(outside)
      ensures low.Owned() == high.Owned() == {}
      ensures State() == CloseAr(cfg, old(State()))
    {
      hide Structure;
      CloseAllAlpmx();
      Disconnect();
    }

    /** Clear the record of one level. */
    method ReleaseLevel(x: PriorityLevel)
      requires Structure() && (x == low || x == high) && x.Owned() == {}
      modifies x, x.inQ, x.inQ.acc, x.inQ.items, x.outQ, x.outQ.acc, x.outQ.items
      ensures Structure() && outside == old(outside) && !x.alpmxLinked && x.Owned() == {}
      ensures x.View() == ReleaseLine(old(x.View())) && Other(x).View() == old(Other(x).View())
      ensures Other(x).Owned() == old(Other(x).Owned()) && Other(x).alpmxLinked == old(Other(x).alpmxLinked)
    {
      hide PriorityLevel.View, PriorityLevel.QueuesValid, PriorityLevel.Tidy, ReleaseLine;
      NothingOwned(x);
      ReleaseOne(x);
      assert Other(x).Owned() == old(Other(x).Owned());
    }

    method ReleaseOne(x: PriorityLevel)
      requires Structure() && (x == low || x == high) && x.Owned() == {} && x.inQ.contents == [] && x.rta.None?
      modifies x, x.inQ, x.inQ.acc, x.inQ.items, x.outQ, x.outQ.acc, x.outQ.items
      ensures Structure() && !x.alpmxLinked && x.Owned() == {}
      ensures State() == old(State()).With(x.prio, ReleaseLine(old(x.View())))
      ensures var y := Other(x); unchanged(y, y.inQ, y.inQ.acc, y.inQ.items, y.outQ, y.outQ.acc, y.outQ.items)
    {
      hide PriorityLevel.View, PriorityLevel.QueuesValid, PriorityLevel.Tidy, PriorityLevel.Owned, ReleaseLine;
      x.Release(pool, Foreign(x));
      OnlyLevelChanged(x);
    }

    lemma NothingOwned(x: PriorityLevel)
      requires Structure() && (x == low || x == high) && x.Owned() == {}
      ensures x.inQ.contents == [] && x.rta.None?
    {
      assert Buffers(x.inQ.contents) == {};
    }

    method ReleaseLevels()
      requires Structure() && low.Owned() == high.Owned() == {}
      modifies low, low.inQ, low.inQ.acc, low.inQ.items, low.outQ, low.outQ.acc, low.outQ.items,
               high, high.inQ, high.inQ.acc, high.inQ.items, high.outQ, high.outQ.acc, high.outQ.items
      ensures Structure() && outside == old(outside) && !low.alpmxLinked && !high.alpmxLinked
      ensures low.Owned() == high.Owned() == {}
      ensures low.View() == ReleaseLine(old(low.View())) && high.View() == ReleaseLine(old(high.View()))
    {
      AtLevel(low);
      hide Structure, ReleaseLine;
      ReleaseLevel(low);
      ReleaseLevel(high);
    }

    method ReleaseFields()
      requires Structure()
      modifies this`enabled, this`errCls, this`errCode
      ensures Structure() && State() == old(State()).(enabled := false, err := Err(0, 0))
    {
      hide ReceiveQueue.View, SendQueue.View, ReceiveQueue.Valid, SendQueue.Valid, Buffers;
      enabled, errCls, errCode := false, 0, 0;
    }

    /** CMRPC clears the AR record. */
    method Release()
      requires Structure() && low.Owned() == high.Owned() == {}
      modifies this`enabled, this`errCls, this`errCode,
               low, low.inQ, low.inQ.acc, low.inQ.items, low.outQ, low.outQ.acc, low.outQ.items,
               high, high.inQ, high.inQ.acc, high.inQ.items, high.outQ, high.outQ.acc, high.outQ.items
      ensures Structure() && outside == old(outside) && !low.alpmxLinked && !high.alpmxLinked
      ensures low.Owned() == high.Owned() == {}
      ensures State() == ReleaseAr(old(State()))
    {
      hide Structure, ReleaseLine;
      ReleaseLevels();
      ReleaseFields();
    }

    /** An abort of the AR: CMSU closes the alarm machines, then CMRPC clears the record. */
    method Abort()
      requires Structure()
      modifies Repr()
      ensures Structure() && outside == old(outside) && !low.alpmxLinked && !high.alpmxLinked
      ensures low.Owned() == high.Owned() == {}
      ensures State() == AbortAr(cfg, old(State()))
    {
      hide Structure, CloseAr, ReleaseAr;
      Close();
      Release();
    }

    /** Write an error to the AR. */
    method SetError(cls: nat, code: nat)
      requires Structure()
      modifies this`errCls, this`errCode
      ensures Structure() && State() == old(State()).(err := Err(cls, code))
    {
      errCls, errCode := cls, code;
    }

    /** An error indication to CMSU, which aborts the AR at once. The AR is reached through `x`. */
    method ErrorInd(x: PriorityLevel, cls: nat, code: nat)
      requires Structure() && (x == low || x == high) && x.linked
      modifies Repr()
      ensures Structure() && outside == old(outside) && !x.alpmxLinked
      ensures State() == AbortAr(cfg, old(State()).(err := Err(cls, code)))
    {
      hide Structure, AbortAr;
      SetError(cls, code);
      Abort();
    }

    // ------------------------------------------------------- APMS and its users

    /** ALPMI gets a negative confirmation. */
    method AlpmiNegativeCnf(x: PriorityLevel)
      requires Structure() && (x == low || x == high) && x.linked && x.alpmxLinked
      modifies Repr()
      ensures Structure() && outside == old(outside) && !x.alpmxLinked
      ensures State() == AbortAr(cfg, old(State()).(err := Err(ERR_ALPMI, ALPMI_INVALID)))
    {
      hide Structure, AbortAr;
      ErrorInd(x, ERR_ALPMI, ALPMI_INVALID);
    }

    /** ALPMR gets a negative confirmation: it is looked up through the link, which must not have been cleared. */
    method AlpmrNegativeCnf(x: PriorityLevel)
      requires Structure() && (x == low || x == high) && (x.alpmxLinked && x.alpmrState != AlpmrWStart ==> x.linked)
      modifies Repr()
      ensures Structure() && outside == old(outside)
      ensures State() == (if !old(x.alpmxLinked) then old(State()).(faulted := true)
                          else if old(x.alpmrState) == AlpmrWStart then old(State())
                          else AbortAr(cfg, old(State()).(err := Err(ERR_ALPMR, ALPMR_INVALID))))
    {
      hide Structure, AbortAr;
      if !x.alpmxLinked {
        Fault();
      } else if x.alpmrState != AlpmrWStart {
        ErrorInd(x, ERR_ALPMR, ALPMR_INVALID);
      }
    }

    /** A handler reads through a link of the cleared record. */
    method Fault()
      requires Structure()
      modifies this`faulted
      ensures Structure() && State() == old(State()).(faulted := true)
    {
      faulted := true;
    }

    method SendFirst(x: PriorityLevel, body: Body) returns (ok: bool)
      requires Structure() && (x == low || x == high) && x.apmsState == ApmsOpen
      modifies x`rta, x`hist, x`resendCounter, x`apmsState, x`flight, x`timersPending, x`timerArmed, pool
      ensures Structure()
      ensures var out := Request(cfg, moment, old(x.View()), body);
              State() == old(State()).With(x.prio, out.line) && ok == out.ok
    {
      hide PriorityLevel.QueuesValid, PriorityLevel.View, PriorityLevel.Tidy;
      ok := x.ApmsSendData(cfg, pool, Foreign(x), moment, body);
      OnlyLevelChanged(x);
    }

    /** APMS_A_Data.req in state OPEN. */
    method SendOpen(x: PriorityLevel, body: Body) returns (ok: bool)
      requires Structure() && (x == low || x == high) && x.apmsState == ApmsOpen
      modifies this`moment, x`rta, x`hist, x`resendCounter, x`apmsState, x`flight, x`timersPending, x`timerArmed, pool
      ensures Structure() && outside == old(outside)
      ensures var out := Request(cfg, old(moment), old(x.View()), body);
              State() == old(State()).With(x.prio, out.line).(clock := old(moment) + 1) && ok == out.ok
    {
      hide Structure;
      ok := SendFirst(x, body);
      Tick();
    }

    /** APMS_A_Data.req in another state: both users get a negative confirmation. The first aborts the AR, so that the
        second finds no ALPMX. */
    method RefuseRequest(x: PriorityLevel)
      requires Structure() && (x == low || x == high) && x.linked
      modifies Repr()
      ensures Structure() && outside == old(outside)
      ensures State() == AbortAr(cfg, old(State()).(err := Err(ERR_ALPMI, ALPMI_INVALID))).(faulted := true)
    {
      AtLevel(x);
      hide Structure, AbortAr;
      AlpmiNegativeCnf(x);
      AlpmrNegativeCnf(x);
    }

    /** APMS_A_Data.req: send a DATA PDU, or abort the AR and fault when APMS is not OPEN. */
    method ApmsRequest(x: PriorityLevel, body: Body) returns (ok: bool)
      requires Structure() && (x == low || x == high) && x.linked
      modifies Repr()
      ensures Structure() && outside == old(outside)
      ensures var out := Request(cfg, old(moment), old(x.View()), body);
              State() == Finish(cfg, old(State()), x.prio, out) && ok == out.ok
    {
      hide Structure;
      AtLevel(x);
      if x.apmsState != ApmsOpen {
        ok := false;
        RefuseRequest(x);
      } else {
        ok := SendOpen(x, body);
      }
    }

    method ExpireNow(x: PriorityLevel) returns (resent: bool, mustClose: bool)
      requires Structure() && (x == low || x == high) && x.timersPending > 0
      modifies x, pool
      ensures Structure() && outside == old(outside) && (mustClose ==> x.linked)
      ensures var out := Fire(cfg, moment, old(x.View()));
              && State() == old(State()).With(x.prio, out.line) && mustClose == out.trouble.Abort?
              && out.clock == (if resent then moment + 1 else moment)
    {
      hide PriorityLevel.QueuesValid, PriorityLevel.View, PriorityLevel.Tidy, Fire;
      resent, mustClose := x.TimerFires(cfg, pool, Foreign(x), moment);
      OnlyLevelChanged(x);
    }

    /** The timer part of a timeout: true when the AR must be closed. */
    method Expire(x: PriorityLevel) returns (mustClose: bool)
      requires Structure() && (x == low || x == high) && x.timersPending > 0
      modifies this`moment, x, pool
      ensures Structure() && outside == old(outside) && (mustClose ==> x.linked)
      ensures var out := Fire(cfg, old(moment), old(x.View()));
              State() == old(State()).With(x.prio, out.line).(clock := out.clock) && mustClose == out.trouble.Abort?
    {
      hide Structure;
      var resent;
      resent, mustClose := ExpireNow(x);
      if resent { Tick(); }
    }

    /** pf_alarm_apms_timeout: the scheduler calls back. */
    method ApmsTimeout(x: PriorityLevel)
      requires Structure() && (x == low || x == high) && x.timersPending > 0
      modifies Repr()
      ensures Structure() && outside == old(outside)
      ensures State() == Finish(cfg, old(State()), x.prio, Fire(cfg, old(moment), old(x.View())))
    {
      hide Structure;
      var mustClose := Expire(x);
      if mustClose {
        ErrorInd(x, ERR_APMS, SEND_CNF_NEG);
      }
    }

    // ----------------------------------------------------- APMR and its users

    /** APMR passes through or stays in a state other than CLOSED. */
    method SetApmr(x: PriorityLevel, state: ApmrState)
      requires Structure() && (x == low || x == high) && x.apmrState != ApmrClosed && state != ApmrClosed
      modifies x`apmrState
      ensures Structure() && outside == old(outside)
      ensures State() == old(State()).With(x.prio, old(x.View()).(rcv := old(x.View()).rcv.(state := state)))
    {
      hide ReceiveQueue.View, SendQueue.View, ReceiveQueue.Valid, SendQueue.Valid, Buffers;
      x.apmrState := state;
      OnlyLevelChanged(x);
    }

    /** Indicate an alarm to the application. */
    method Indicate(x: PriorityLevel, told: Told)
      requires Structure() && (x == low || x == high) && x.alpmrState == AlpmrWNotify && x.alpmxLinked
      modifies x`alpmrState, x`hist
      ensures Structure()
      ensures State() == old(State()).With(x.prio, IndicateAlarm(old(x.View()), 0, told).line)
    {
      x.Indicate(told);
      OnlyLevelChanged(x);
    }

    /** An alarm notification reaches ALPMR: indicate it, or close the AR if one is already in hand. */
    method AlpmrApmrADataInd(x: PriorityLevel, told: Told) returns (ok: bool)
      requires Structure() && (x == low || x == high) && x.linked
      modifies Repr()
      ensures Structure() && outside == old(outside)
      ensures var out := IndicateAlarm(old(x.View()), old(moment), told);
              State() == Finish(cfg, old(State()), x.prio, out) && ok == out.ok
    {
      hide PriorityLevel.QueuesValid, PriorityLevel.View, PriorityLevel.Tidy;
      hide Structure, AbortAr;
      AtLevel(x);
      ok := true;
      match x.alpmrState {
        case AlpmrWStart =>
        case AlpmrWNotify => Indicate(x, told);
        case _ =>
          ok := false;
          ErrorInd(x, ERR_PROTOCOL, PROTOCOL_VIOLATION);
      }
    }

    method AcceptNow(x: PriorityLevel, ackSeq: nat) returns (ok: bool)
      requires Structure() && (x == low || x == high) && x.apmsState != ApmsClosed
      modifies x`sendSeqCount, x`sendSeqCountO, x`acked, x`expSeqCount, x`expSeqCountO, x`accepted,
               x`rta, x`apmsState, x`alpmrState, x`hist, pool
      ensures Structure()
      ensures var out := AlarmModel.AcceptData(cfg, moment, old(x.View()), ackSeq);
              State() == old(State()).With(x.prio, out.line) && ok == out.ok
    {
      hide PriorityLevel.QueuesValid, PriorityLevel.View, PriorityLevel.Tidy;
      ok := x.AcceptData(cfg, pool, Foreign(x), moment, ackSeq);
      OnlyLevelChanged(x);
    }

    /** Count and acknowledge an in-sequence DATA PDU. */
    method AcceptData(x: PriorityLevel, ackSeq: nat) returns (ok: bool)
      requires Structure() && (x == low || x == high) && x.apmsState != ApmsClosed
      modifies this`moment, x`sendSeqCount, x`sendSeqCountO, x`acked, x`expSeqCount, x`expSeqCountO, x`accepted,
               x`rta, x`apmsState, x`alpmrState, x`hist, pool
      ensures Structure() && outside == old(outside)
      ensures var out := AlarmModel.AcceptData(cfg, old(moment), old(x.View()), ackSeq);
              State() == old(State()).With(x.prio, out.line).(clock := out.clock) && ok == out.ok && out.trouble == Fine
    {
      hide Structure;
      ok := AcceptNow(x, ackSeq);
      Tick();
    }

    method RepeatNow(x: PriorityLevel, ackSeq: nat)
      requires Structure() && (x == low || x == high) && x.apmsState != ApmsClosed
      modifies x`sendSeqCount, x`sendSeqCountO, x`acked, x`expSeqCount, x`expSeqCountO, x`accepted,
               x`rta, x`apmsState, x`alpmrState, x`hist, pool
      ensures Structure()
      ensures State() == old(State()).With(x.prio, AlarmModel.RepeatAck(cfg, moment, old(x.View()), ackSeq).line)
    {
      hide PriorityLevel.QueuesValid, PriorityLevel.View, PriorityLevel.Tidy;
      x.RepeatAck(cfg, pool, Foreign(x), moment, ackSeq);
      OnlyLevelChanged(x);
    }

    /** Acknowledge a repeated DATA PDU again. */
    method RepeatAck(x: PriorityLevel, ackSeq: nat)
      requires Structure() && (x == low || x == high) && x.apmsState != ApmsClosed
      modifies this`moment, x`sendSeqCount, x`sendSeqCountO, x`acked, x`expSeqCount, x`expSeqCountO, x`accepted,
               x`rta, x`apmsState, x`alpmrState, x`hist, pool
      ensures Structure() && outside == old(outside)
      ensures var out := AlarmModel.RepeatAck(cfg, old(moment), old(x.View()), ackSeq);
              State() == Finish(cfg, old(State()), x.prio, out) && out.ok
    {
      hide Structure;
      RepeatNow(x, ackSeq);
      Tick();
    }

    method RefuseNow(x: PriorityLevel)
      requires Structure() && (x == low || x == high) && x.apmsState != ApmsClosed
      modifies x`rta, x`hist, pool
      ensures Structure()
      ensures State() == old(State()).With(x.prio, RefuseData(cfg, moment, old(x.View())).line)
    {
      hide PriorityLevel.QueuesValid, PriorityLevel.View, PriorityLevel.Tidy;
      var ok := x.ApmrSendNack(cfg, pool, Foreign(x), moment);
      OnlyLevelChanged(x);
    }

    /** Answer a DATA PDU that is out of sequence with NACK. */
    method SendNack(x: PriorityLevel)
      requires Structure() && (x == low || x == high) && x.apmsState != ApmsClosed
      modifies this`moment, this`errCls, this`errCode, x`rta, x`hist, pool
      ensures Structure() && outside == old(outside)
      ensures var out := RefuseData(cfg, old(moment), old(x.View()));
              State() == Finish(cfg, old(State()), x.prio, out) && out.ok
    {
      hide AbortAr, Log, MakeNack;
      hide Structure;
      SetError(ERR_PROTOCOL, CODE_SEQ);
      RefuseNow(x);
      Tick();
    }

    /** Hand an acknowledged PDU to ALPMI; APMR is in WCNF meanwhile. */
    method DeliverAlarmAck(x: PriorityLevel, status: nat)
      requires Structure() && (x == low || x == high) && x.apmrState == ApmrOpen && x.alpmxLinked
      modifies x`apmrState, x`alpmiState, x`hist
      ensures Structure() && outside == old(outside)
      ensures State() == old(State()).With(x.prio, ConfirmAlarm(old(x.View()), status))
    {
      x.DeliverAlarmAck(status);
      OnlyLevelChanged(x);
    }

    /** Hand an acknowledged PDU to ALPMR; APMR stays in WCNF when that fails. */
    method DeliverNotification(x: PriorityLevel, rx: Rx) returns (ok: bool)
      requires Structure() && (x == low || x == high) && x.apmrState == ApmrOpen && x.linked
      modifies Repr()
      ensures Structure() && outside == old(outside)
      ensures var out := AlarmModel.DeliverNotification(old(x.View()), old(moment), rx);
              State() == Finish(cfg, old(State()), x.prio, out) && ok == out.ok
    {
      hide Structure, Finish, IndicateAlarm;
      AtLevel(x);
      IndicatingJammed(cfg, State(), x.prio, rx.told);
      SetApmr(x, ApmrWCnf);
      AtLevel(x);
      ok := false;
      if rx.parsed {
        ok := AlpmrApmrADataInd(x, rx.told);
      }
      AtLevel(x);
      if ok {
        SetApmr(x, ApmrOpen);
      }
    }

    /** Hand an acknowledged PDU to its user. */
    method DeliverAccepted(x: PriorityLevel, rx: Rx) returns (ok: bool)
      requires Structure() && (x == low || x == high) && x.apmrState == ApmrOpen && x.linked
      modifies Repr()
      ensures Structure() && outside == old(outside)
      ensures var out := if rx.blockType == BlockTypeAck(x.prio)
                         then Out(ConfirmAlarm(old(x.View()), rx.status), old(moment), true, Fine)
                         else AlarmModel.DeliverNotification(old(x.View()), old(moment), rx);
              State() == Finish(cfg, old(State()), x.prio, out) && ok == out.ok
    {
      AtLevel(x);
      hide Structure, ConfirmAlarm, AlarmModel.DeliverNotification;
      ok := true;
      if rx.blockType == BlockTypeAck(x.prio) {
        DeliverAlarmAck(x, rx.status);
      } else {
        ok := DeliverNotification(x, rx);
      }
    }

    /** An in-sequence DATA PDU of a known block type: acknowledge it, then deliver it. */
    method Deliver(x: PriorityLevel, rx: Rx) returns (ok: bool)
      requires Structure() && (x == low || x == high) && x.apmrState == ApmrOpen && x.apmsState != ApmsClosed
               && x.linked
      modifies Repr()
      ensures Structure() && outside == old(outside)
      ensures var out := AlarmModel.Deliver(cfg, old(moment), old(x.View()), x.prio, rx);
              State() == Finish(cfg, old(State()), x.prio, out) && ok == out.ok
    {
      hide Structure, Finish, AlarmModel.AcceptData, AlarmModel.DeliverNotification, ConfirmAlarm;
      AtLevel(x);
      ghost var ack := AlarmModel.AcceptData(cfg, moment, x.View(), rx.ackSeq);
      DeliverInTwo(cfg, State(), x.prio, rx);
      ok := AcceptData(x, rx.ackSeq);
      AtLevel(x);
      if ok {
        ok := DeliverAccepted(x, rx);
      }
    }

    /** APMR in state OPEN compares the number of a DATA PDU with its two counters. */
    method JudgeData(x: PriorityLevel, rx: Rx) returns (ok: bool)
      requires Structure() && (x == low || x == high) && x.apmrState == ApmrOpen && x.linked
               && x.apmsState != ApmsClosed && rx.tack
      modifies Repr()
      ensures Structure() && outside == old(outside)
      ensures var out := DataInd(cfg, old(moment), old(x.View()), x.prio, rx);
              State() == Finish(cfg, old(State()), x.prio, out) && ok == out.ok
    {
      hide PriorityLevel.QueuesValid, PriorityLevel.View, PriorityLevel.Tidy;
      hide Structure, AlarmModel.Deliver, AlarmModel.RepeatAck, RefuseData, AbortAr, SeqOf;
      AtLevel(x);
      ok := true;
      if rx.sendSeq == x.expSeqCount {
        if rx.blockType == BlockTypeAck(x.prio) || rx.blockType == BlockTypeNotify(x.prio) {
          ok := Deliver(x, rx);
        } else {
          ok := false;
          ErrorInd(x, ERR_PROTOCOL, ALARM_IND_ERROR);
        }
      } else if rx.sendSeq == x.expSeqCountO {
        RepeatAck(x, rx.ackSeq);
      } else {
        SendNack(x);
      }
    }

    /** APMR: A_Data_ind, for a DATA PDU from the receive queue. */
    method ApmrADataInd(x: PriorityLevel, rx: Rx) returns (ok: bool)
      requires Structure() && (x == low || x == high) && (x.apmrState != ApmrClosed ==> x.linked)
      modifies Repr()
      ensures Structure() && outside == old(outside)
      ensures var out := DataInd(cfg, old(moment), old(x.View()), x.prio, rx);
              State() == Finish(cfg, old(State()), x.prio, out) && ok == out.ok
    {
      hide Structure, Judge, AlarmModel.Deliver, AlarmModel.RepeatAck, RefuseData, AbortAr;
      AtLevel(x);
      match x.apmrState {
        case ApmrClosed => ok := true;
        case ApmrWCnf => ok := false;
        case ApmrOpen =>
          if !rx.tack {
            ok := true;
          } else {
            ok := JudgeData(x, rx);
          }
      }
    }

    /** One frame from the receive queue. */
    method ProcessFrame(x: PriorityLevel, rx: Rx) returns (ok: bool)
      requires Structure() && (x == low || x == high) && x.apmrState != ApmrClosed && x.linked
      modifies Repr()
      ensures Structure() && outside == old(outside)
      ensures var out := Process(cfg, old(moment), old(x.View()), x.prio, rx);
              State() == Finish(cfg, old(State()), x.prio, out) && ok == out.ok
    {
      hide PriorityLevel.QueuesValid, PriorityLevel.View, PriorityLevel.Tidy;
      hide Structure, DataInd, AbortAr, TakeAck;
      AtLevel(x);
      ok := true;
      if rx.version == 1 {
        match rx.pdu {
          case AckPdu =>
            if rx.varPartLen == 0 { CheckAck(x, rx.ackSeq); }
          case NackPdu =>
          case DataPdu =>
            ok := ApmrADataInd(x, rx);
          case ErrPdu =>
            if rx.varPartLen == 4 {
              if x.apmrState == ApmrOpen {
                ErrorInd(x, rx.errCls, rx.errCode);
              } else {
                ErrorInd(x, ERR_APMR, INVALID_STATE);
              }
            }
          case ReservedPdu =>
        }
      }
    }

    /** APMS checks the ack number of an ACK PDU. */
    method CheckAck(x: PriorityLevel, ackSeq: nat)
      requires Structure() && (x == low || x == high)
      modifies x`sendSeqCount, x`sendSeqCountO, x`acked, x`rta, x`apmsState, x`alpmrState, x`hist, pool
      ensures Structure()
      ensures State() == old(State()).With(x.prio, TakeAck(old(x.View()), ackSeq))
    {
      hide PriorityLevel.QueuesValid, PriorityLevel.View, PriorityLevel.Tidy;
      x.ApmsADataInd(pool, Foreign(x), AckPdu, ackSeq);
      OnlyLevelChanged(x);
    }

    // ------------------------------------------------------- the receive loop

    method FetchNow(x: PriorityLevel) returns (msg: Option<RxMessage>)
      requires Structure() && (x == low || x == high)
      modifies this`outside, x.inQ, x.inQ.acc, x.inQ.items
      ensures Structure()
      ensures msg.Some? <==> old(x.View()).inQ.Present? && old(x.View()).inQ.items != []
      ensures msg.Some? ==> msg.value == old(x.View()).inQ.items[0] && msg.value.buf !in old(outside)
      ensures outside == old(outside) + BufferOf(msg)
      ensures x.View() == DropFrame(old(x.View()))
    {
      hide PriorityLevel.QueuesValid, PriorityLevel.View, PriorityLevel.Tidy;
      hide DropFrame;
      msg := x.FetchFrame(pool, Foreign(x));
      HandOut(x, BufferOf(msg));
    }

    /** Take the oldest received frame; its buffer moves out of the level. */
    method FetchFrame(x: PriorityLevel) returns (msg: Option<RxMessage>)
      requires Structure() && (x == low || x == high)
      modifies this`outside, x.inQ, x.inQ.acc, x.inQ.items
      ensures Structure()
      ensures msg.Some? <==> old(x.View()).inQ.Present? && old(x.View()).inQ.items != []
      ensures msg.Some? ==> msg.value == old(x.View()).inQ.items[0] && msg.value.buf !in old(outside)
      ensures outside == old(outside) + BufferOf(msg)
      ensures State() == old(State()).With(x.prio, DropFrame(old(x.View())))
    {
      hide DropFrame;
      msg := FetchNow(x);
    }

    /** Free the buffer of a processed frame. */
    method FreeFrame(buf: nat)
      requires Structure() && buf in outside
      modifies this`outside, pool
      ensures Structure() && State() == old(State()) && outside == old(outside) - {buf}
    {
      hide ReceiveQueue.View, SendQueue.View, ReceiveQueue.Valid, SendQueue.Valid, Buffers;
      pool.Free(buf);
      outside := outside - {buf};
    }

    /** Process a frame that has been taken from the queue, and free it whatever that did to the AR. */
    method ProcessAndFree(x: PriorityLevel, msg: RxMessage) returns (ok: bool)
      requires Structure() && (x == low || x == high) && x.apmrState != ApmrClosed && x.linked && msg.buf in outside
      modifies Repr()
      ensures Structure() && outside == old(outside) - {msg.buf}
      ensures var out := Process(cfg, old(moment), old(x.View()), x.prio, msg.frame);
              State() == Finish(cfg, old(State()), x.prio, out) && ok == out.ok
    {
      hide Structure, Process, Finish;
      AtLevel(x);
      ok := ProcessFrame(x, msg.frame);
      FreeFrame(msg.buf);
    }

    /** One turn of the receive loop; the frame is freed whatever its processing did to the AR. */
    method Turn(x: PriorityLevel) returns (got: bool, ok: bool)
      requires Structure() && (x == low || x == high) && x.apmrState != ApmrClosed && x.linked
      modifies Repr()
      ensures Structure() && outside == old(outside)
      ensures got == HasFrame(old(x.View()))
      ensures if got then (State(), ok) == Poll(cfg, old(State()), x.prio) else State() == old(State()) && ok
    {
      hide Structure, Process, Poll, Finish, DropFrame, HasFrame;
      AtLevel(x);
      got, ok := false, true;
      FetchedThenProcessed(cfg, State(), x.prio);
      var msg := FetchFrame(x);
      if msg.Some? {
        got := true;
        ok := ProcessAndFree(x, msg.value);
      }
    }

    lemma Linked(x: PriorityLevel)
      requires Steady() && (x == low || x == high)
      ensures x.apmsState != ApmsClosed <==> x.apmrState != ApmrClosed
      ensures x.alpmiState != AlpmiWStart ==> x.apmsState != ApmsClosed
      ensures x.alpmrState == AlpmrWUserAck ==> x.apmsState != ApmsClosed
      ensures x.linked <==> x.apmsState != ApmsClosed
    {
    }

    /** Process the received frames of one level until none is left, processing fails, or the AR is closed. */
    method PollQueue(x: PriorityLevel) returns (ok: bool)
      requires Steady() && (x == low || x == high)
      modifies Repr()
      ensures Steady() && outside == old(outside)
      ensures (State(), ok) == PollAll(cfg, old(State()), x.prio)
    {
      hide Structure, Poll, Inv;
      ok := true;
      ghost var start := State();
      var more := true;
      while more
        invariant Steady() && outside == old(outside)
        invariant more ==> ok && PollAll(cfg, State(), x.prio) == PollAll(cfg, start, x.prio)
        invariant !more ==> PollAll(cfg, start, x.prio) == (State(), ok)
        decreases more, Backlog(State().At(x.prio))
      {
        AtLevel(x);
        Linked(x);
        more := false;
        if x.apmrState != ApmrClosed {
          PollOk(cfg, State(), x.prio);
          if HasFrame(State().At(x.prio)) { PollShrinks(cfg, State(), x.prio); }
          more, ok := Turn(x);
          more := more && ok;
        }
      }
    }

    /** pf_alarm_apmr_periodic: low priority first; a failure, which the result tells, ends the whole round. */
    method ApmrPeriodic() returns (ok: bool)
      requires Steady()
      modifies Repr()
      ensures Steady() && outside == old(outside)
      ensures (State(), ok) == ReceiveHalf(cfg, old(State()))
    {
      hide Structure, PollAll, Inv;
      AtLevel(low);
      AtLevel(high);
      ok := true;
      var ix := 0;
      while ok && ix < 2
        invariant 0 <= ix <= 2
        invariant Steady() && outside == old(outside)
        invariant ix == 0 ==> ok && State() == old(State())
        invariant ix == 1 ==> (State(), ok) == PollAll(cfg, old(State()), Low)
        invariant ix == 2 ==> PollAll(cfg, old(State()), Low).1
        invariant ix == 2 ==> (State(), ok) == PollAll(cfg, PollAll(cfg, old(State()), Low).0, High)
      {
        AtLevel(low);
        AtLevel(high);
        ok := PollQueue(if ix == 0 then low else high);
        ix := ix + 1;
      }
    }

    // -------------------------------------------------------- sending alarms

    method TakeAlarm(x: PriorityLevel) returns (alarm: Option<Alarm>)
      requires Structure() && (x == low || x == high)
      modifies x.outQ, x.outQ.acc, x.outQ.items
      ensures Structure() && outside == old(outside)
      ensures alarm.Some? <==> old(x.View()).outQ.Present? && old(x.View()).outQ.items != []
      ensures alarm.Some? ==> alarm.value == old(x.View()).outQ.items[0]
      ensures State() == old(State()).With(x.prio, DropAlarm(old(x.View())))
    {
      hide PriorityLevel.QueuesValid, PriorityLevel.View, PriorityLevel.Tidy;
      hide DropAlarm;
      alarm := x.FetchAlarm();
      OnlyLevelChanged(x);
    }

    method NumberAlarm(x: PriorityLevel, alarm: Alarm) returns (number: nat)
      requires Structure() && (x == low || x == high)
      modifies x`sequenceNumber, x`prevSequenceNumber, x`hist
      ensures Structure() && number == old(x.sequenceNumber)
      ensures State() == old(State()).With(x.prio, HandOver(old(x.View()), alarm))
    {
      hide HandOver;
      number := x.NumberAlarm(alarm);
      OnlyLevelChanged(x);
    }

    method SetAwaitAck(x: PriorityLevel, alarm: Alarm)
      requires Structure() && (x == low || x == high)
      modifies x`alpmiState, x`hist
      ensures Structure()
      ensures State() == old(State()).With(x.prio, AwaitAck(old(x.View()), alarm))
    {
      hide AwaitAck;
      x.SetAwaitAck(alarm);
      OnlyLevelChanged(x);
    }

    /** pf_alarm_send_internal: number an alarm, hand it to APMS and wait for its confirmation. */
    method SendInternal(x: PriorityLevel, alarm: Alarm) returns (ok: bool)
      requires Structure() && (x == low || x == high) && x.linked
      modifies Repr()
      ensures Structure() && outside == old(outside)
      ensures var out := AlarmModel.SendInternal(cfg, old(moment), old(x.View()), alarm);
              State() == Finish(cfg, old(State()), x.prio, out) && ok == out.ok
    {
      hide Structure, Finish, HandOver, AwaitAck, Request;
      AtLevel(x);
      SendInThree(cfg, State(), x.prio, alarm);
      var number := NumberAlarm(x, alarm);
      AtLevel(x);
      ok := ApmsRequest(x, Notification(alarm, number));
      AtLevel(x);
      if ok {
        SetAwaitAck(x, alarm);
      }
    }

    /** Hand over the oldest waiting alarm of a level whose ALPMI is ready, if there is one. */
    method TryDispatch(x: PriorityLevel) returns (found: bool)
      requires Structure() && (x == low || x == high) && x.linked && x.alpmiState == AlpmiWAlarm
      modifies Repr()
      ensures Structure() && outside == old(outside)
      ensures found == CanDispatch(old(x.View()))
      ensures State() == if found then DispatchLine(cfg, old(State()), x.prio) else old(State())
    {
      hide Structure, Finish, AlarmModel.SendInternal;
      AtLevel(x);
      DispatchInTwo(cfg, State(), x.prio);
      var alarm := TakeAlarm(x);
      AtLevel(x);
      found := alarm.Some?;
      if found {
        var ok := SendInternal(x, alarm.value);
      }
    }

    /** pf_alarm_almpi_periodic: at most one alarm per call, high priority first. */
    method AlmpiPeriodic()
      requires Steady()
      modifies Repr()
      ensures Steady() && outside == old(outside)
      ensures State() == Dispatch(cfg, old(State()))
    {
      hide Structure, Inv, DispatchLine;
      DispatchOk(cfg, State());
      AtLevel(low);
      AtLevel(high);
      if enabled {
        var prio := 1;
        var done := false;
        while prio >= 0 && !done
          invariant -1 <= prio <= 1
          invariant Structure() && outside == old(outside)
          invariant !done ==> State() == old(State()) && Inv(cfg, State())
          invariant !done && prio < 1 ==> old(State()).high.link && !CanDispatch(old(State()).high)
          invariant !done && prio < 0 ==> old(State()).low.link && !CanDispatch(old(State()).low)
          invariant done ==> State() == Dispatch(cfg, old(State()))
          decreases prio
        {
          var x := if prio == 1 then high else low;
          AtLevel(x);
          Linked(x);
          if !x.alpmxLinked {
            Fault();
            done := true;
          } else if x.alpmiState == AlpmiWAlarm {
            done := TryDispatch(x);
          }
          prio := prio - 1;
        }
      }
    }

    method PostToQueue(x: PriorityLevel, alarm: Alarm) returns (ok: bool)
      requires Structure() && (x == low || x == high)
      modifies x.outQ, x.outQ.acc, x.outQ.items, x`hist
      ensures Structure() && outside == old(outside)
      ensures var l := old(x.View());
              && ok == (l.outQ.Present? && |l.outQ.items| < cfg.capacity)
              && State() == (if ok then old(State()).With(x.prio, Enqueue(l, alarm)) else old(State()))
    {
      hide PriorityLevel.QueuesValid, PriorityLevel.View, PriorityLevel.Tidy;
      hide Enqueue;
      ok := x.PostAlarm(cfg, alarm);
      OnlyLevelChanged(x);
    }

    method NumberUserAck(argument: AlarmArgument, status: nat)
      requires Structure()
      modifies high`sequenceNumber, high`prevSequenceNumber, high`hist
      ensures Structure()
      ensures State() == old(State()).With(High, TakeUserAck(old(high.View()), argument, status))
    {
      hide TakeUserAck;
      high.NumberUserAck(argument, status);
      OnlyLevelChanged(high);
    }

    method SetWTack()
      requires Structure()
      modifies high`alpmrState
      ensures Structure()
      ensures State() == old(State()).With(High, old(high.View()).(alpmr := AlpmrWTack))
    {
      high.alpmrState := AlpmrWTack;
      OnlyLevelChanged(high);
    }

    // ---------------------------------------------- activation, frames, timers

    method OpenSendQueue(x: PriorityLevel)
      requires Structure() && (x == low || x == high)
      modifies x.outQ, x.outQ.acc, x.outQ.items, x`hist
      ensures Structure() && outside == old(outside)
      ensures State() == old(State()).With(x.prio, ResetOut(old(x.View())).(outQ := Present([])))
    {
      hide ResetOut;
      hide PriorityLevel.View;
      x.OpenSendQueue();
      OnlyLevelChanged(x);
    }

    method NoteRefusal(refusal: Option<Err>)
      requires Structure()
      modifies this`errCls, this`errCode
      ensures Structure() && State() == old(State()).(err := Latest(old(State()).err, refusal))
    {
      if refusal.Some? {
        SetError(refusal.value.cls, refusal.value.code);
      }
    }

    method StartAlpmx(x: PriorityLevel) returns (refusal: Option<Err>)
      requires Structure() && (x == low || x == high)
      modifies x`prevSequenceNumber, x`sequenceNumber, x`alpmrState, x`alpmiState, x`hist
      ensures Structure() && refusal == AlpmxRefusal(old(x.View()))
      ensures State() == old(State()).With(x.prio, AlarmModel.ActivateAlpmx(old(x.View())))
    {
      hide AlarmModel.ActivateAlpmx, AlpmxRefusal;
      refusal := x.ActivateAlpmx();
      OnlyLevelChanged(x);
    }

    /** Start ALPMI and ALPMR of one level, or note the refusal. */
    method ActivateAlpmx(x: PriorityLevel) returns (ok: bool)
      requires Structure() && (x == low || x == high)
      modifies this`errCls, this`errCode, x`prevSequenceNumber, x`sequenceNumber, x`alpmrState, x`alpmiState, x`hist
      ensures Structure() && outside == old(outside) && ok == AlpmxRefusal(old(x.View())).None?
      ensures State() == old(State()).With(x.prio, AlarmModel.ActivateAlpmx(old(x.View())))
                         .(err := Latest(old(State()).err, AlpmxRefusal(old(x.View()))))
    {
      hide Structure, AlarmModel.ActivateAlpmx, AlpmxRefusal, Latest;
      var refusal := StartAlpmx(x);
      NoteRefusal(refusal);
      ok := refusal.None?;
    }

    method StartApmx(x: PriorityLevel) returns (refusal: Option<Err>)
      requires Structure() && (x == low || x == high)
      modifies x, x.inQ, x.inQ.acc, x.inQ.items, pool
      ensures Structure() && refusal == ApmxRefusal(old(x.View()))
      ensures State() == old(State()).With(x.prio, AlarmModel.ActivateApmx(old(x.View())))
    {
      hide PriorityLevel.QueuesValid, PriorityLevel.View, PriorityLevel.Tidy;
      hide AlarmModel.ActivateApmx, ApmxRefusal;
      refusal := x.ActivateApmx(pool, Foreign(x));
      OnlyLevelChanged(x);
    }

    /** Start APMS and APMR of one level, or note the refusal. */
    method ActivateApmx(x: PriorityLevel) returns (ok: bool)
      requires Structure() && (x == low || x == high)
      modifies this`errCls, this`errCode, x, x.inQ, x.inQ.acc, x.inQ.items, pool
      ensures Structure() && outside == old(outside) && ok == ApmxRefusal(old(x.View())).None?
      ensures State() == old(State()).With(x.prio, AlarmModel.ActivateApmx(old(x.View())))
                         .(err := Latest(old(State()).err, ApmxRefusal(old(x.View()))))
    {
      hide Structure, AlarmModel.ActivateApmx, ApmxRefusal, Latest;
      var refusal := StartApmx(x);
      NoteRefusal(refusal);
      ok := refusal.None?;
    }

    method Listen()
      requires Structure()
      modifies this`listening
      ensures Structure() && State() == old(State()).(listening := true)
    {
      listening := true;
    }

    method OpenSendQueues()
      requires Structure()
      modifies low.outQ, low.outQ.acc, low.outQ.items, low`hist, high.outQ, high.outQ.acc, high.outQ.items, high`hist
      ensures Structure() && outside == old(outside)
      ensures State() == (var ar := old(State());
                          ar.(low := ResetOut(ar.low).(outQ := Present([])),
                              high := ResetOut(ar.high).(outQ := Present([]))))
    {
      hide Structure, ResetOut;
      AtLevel(low);
      AtLevel(high);
      OpenSendQueue(low);
      AtLevel(low);
      AtLevel(high);
      OpenSendQueue(high);
      AtLevel(low);
      AtLevel(high);
    }

    method ActivateAllAlpmx() returns (ok: bool)
      requires Structure()
      modifies Repr()
      ensures Structure() && outside == old(outside)
      ensures ok == (AlpmxRefusal(old(State()).low).None? && AlpmxRefusal(old(State()).high).None?)
      ensures State() == (var ar := old(State());
                          ar.(low := AlarmModel.ActivateAlpmx(ar.low), high := AlarmModel.ActivateAlpmx(ar.high),
                          err := Latest(Latest(ar.err, AlpmxRefusal(ar.low)), AlpmxRefusal(ar.high))))
    {
      hide Structure, AlpmxRefusal, AlarmModel.ActivateAlpmx, Latest;
      AtLevel(low);
      AtLevel(high);
      var okLow := ActivateAlpmx(low);
      AtLevel(low);
      AtLevel(high);
      var okHigh := ActivateAlpmx(high);
      ok := okLow && okHigh;
    }

    method ActivateAllApmx() returns (ok: bool)
      requires Structure()
      modifies Repr()
      ensures Structure() && outside == old(outside)
      ensures ok == (ApmxRefusal(old(State()).low).None? && ApmxRefusal(old(State()).high).None?)
      ensures State() == (var ar := old(State());
                          ar.(low := AlarmModel.ActivateApmx(ar.low), high := AlarmModel.ActivateApmx(ar.high),
                          listening := true,
                          err := Latest(Latest(ar.err, ApmxRefusal(ar.low)), ApmxRefusal(ar.high))))
    {
      hide Structure, ApmxRefusal, AlarmModel.ActivateApmx, Latest;
      AtLevel(low);
      AtLevel(high);
      var okLow := ActivateApmx(low);
      AtLevel(low);
      AtLevel(high);
      var okHigh := ActivateApmx(high);
      Listen();
      ok := okLow && okHigh;
    }

    method TakeNow(x: PriorityLevel, msg: RxMessage) returns (ok: bool)
      requires Structure() && (x == low || x == high) && msg.buf in outside
      requires x.inQ.acc.mutex ==> x.apmrState != ApmrClosed
      modifies this`outside, x.inQ, x.inQ.acc, x.inQ.items
      ensures Structure() && ok == TakesFrame(cfg, old(x.View()))
      ensures x.View() == AlarmModel.PostFrame(cfg, old(x.View()), msg)
      ensures outside == old(outside) - (if ok then {msg.buf} else {})
    {
      hide AlarmModel.PostFrame, TakesFrame;
      hide PriorityLevel.QueuesValid, PriorityLevel.View, PriorityLevel.Tidy;
      ok := x.PostFrame(cfg, pool, Foreign(x), msg);
      TakeOver(x, if ok then {msg.buf} else {});
    }

    method TakeIn(x: PriorityLevel, msg: RxMessage) returns (ok: bool)
      requires Structure() && (x == low || x == high) && msg.buf in outside
      requires x.inQ.acc.mutex ==> x.apmrState != ApmrClosed
      modifies this`outside, x.inQ, x.inQ.acc, x.inQ.items
      ensures Structure() && ok == TakesFrame(cfg, old(x.View()))
      ensures State() == old(State()).With(x.prio, AlarmModel.PostFrame(cfg, old(x.View()), msg))
      ensures outside == old(outside) - (if ok then {msg.buf} else {})
    {
      hide AlarmModel.PostFrame, TakesFrame;
      ok := TakeNow(x, msg);
    }

    /** Buffers that level `x` has taken in no longer belong to the outside. */
    ghost method TakeOver(x: PriorityLevel, bufs: set<nat>)
      requires Shape() && (x == low || x == high)
      requires x.QueuesValid() && Other(x).QueuesValid() && Other(x).Tidy()
      requires Other(x).Owned() * outside == {} && bufs <= outside
      requires x.Sound(pool, Foreign(x) - bufs)
      modifies this`outside
      ensures Structure() && outside == old(outside) - bufs && low.View() == old(low.View())
              && high.View() == old(high.View())
    {
      hide PriorityLevel.QueuesValid, PriorityLevel.View;
      ghost var foreign := Foreign(x) - bufs;
      outside := outside - bufs;
      assert foreign == Foreign(x);
      assert Other(x).Sound(pool, x.Owned() + outside);
    }

    // ------------------------------------- what happens to the AR from outside

    /** One more event belongs to the past. */
    ghost method Remember(events: seq<Event>, before: Ar)
      requires Steady() && before == Run(cfg, FRESH, journal.past) && State() == Run(cfg, before, events)
      modifies journal
      ensures Valid() && journal.past == old(journal.past) + events && State() == old(State())
    {
      AlarmTheorems.RunAppend(cfg, FRESH, journal.past, events);
      journal.past := journal.past + events;
    }

    ghost method RememberOne(e: Event, before: Ar)
      requires Steady() && before == Run(cfg, FRESH, journal.past) && State() == Step(cfg, before, e)
      modifies journal
      ensures Valid() && journal.past == old(journal.past) + [e] && State() == old(State())
    {
      hide Structure, Inv, Step;
      assert Run(cfg, Step(cfg, before, e), []) == Step(cfg, before, e);
      assert Run(cfg, before, [e]) == Run(cfg, Step(cfg, before, e), [e][1..]);
      Remember([e], before);
    }

    /** The results about runs speak about the records: whatever has happened, sends and confirmations alternate, no
        PDU was transmitted too often, an outstanding one exactly as often as retries are used up, the sequence number
        is the position of the next alarm or acknowledgement, ALPMR waits for a TACK exactly while an acknowledgement
        is outstanding, and low-priority alarms of the controller stay unacknowledged. */
    lemma RunResultsHold(x: PriorityLevel, k: nat)
      requires Valid() && (x == low || x == high)
      ensures Alternating(x.hist.notes) && Cyclic(x.hist.replies) && Copies(x.hist.sent, k) <= 1 + cfg.retries
      ensures AlarmTheorems.Healthy(cfg.env) ==> AlarmSending.Counted(cfg, x.View())
      ensures AlarmSending.Numbered(AlarmSending.BaseOf(cfg, FRESH, journal.past, x.prio, 0), x.View())
      ensures AlarmTheorems.Joint(x.View()) && AlarmTheorems.NeverAcked(low.View())
    {
      AtLevel(x);
      FreshOk(cfg);
      if AlarmTheorems.Healthy(cfg.env) { AlarmSending.RunCounted(cfg, FRESH, journal.past); }
      AlarmSending.RunNumbers(cfg, FRESH, journal.past, x.prio, 0);
      AlarmTheorems.RunJoint(cfg, FRESH, journal.past);
      AlarmTheorems.LowAlarmsNeverAcknowledged(cfg, FRESH, journal.past);
      AlarmTheorems.TransmissionsBounded(cfg, journal.past, x.prio, k);
    }

    method Enable()
      requires Valid() && !faulted
      modifies this`enabled, journal
      ensures Valid() && State() == Step(cfg, old(State()), SetEnabled(true))
              && journal.past == old(journal.past) + [SetEnabled(true)]
    {
      hide ReceiveQueue.View, SendQueue.View, ReceiveQueue.Valid, SendQueue.Valid, Buffers;
      ghost var before := State();
      enabled := true;
      RememberOne(SetEnabled(true), before);
    }

    method Disable()
      requires Valid() && !faulted
      modifies this`enabled, journal
      ensures Valid() && State() == Step(cfg, old(State()), SetEnabled(false))
              && journal.past == old(journal.past) + [SetEnabled(false)]
    {
      hide ReceiveQueue.View, SendQueue.View, ReceiveQueue.Valid, SendQueue.Valid, Buffers;
      ghost var before := State();
      enabled := false;
      RememberOne(SetEnabled(false), before);
    }

    method PostIfAllowed(x: PriorityLevel, alarm: Alarm) returns (ok: bool)
      requires Steady() && (x == low || x == high)
      modifies x.outQ, x.outQ.acc, x.outQ.items, x`hist
      ensures Steady() && outside == old(outside)
      ensures ok == AcceptsAlarm(cfg, old(State()), x.prio, alarm)
              && State() == PostAlarm(cfg, old(State()), x.prio, alarm)
    {
      hide Structure, Inv;
      AtLevel(x);
      PostAlarmOk(cfg, State(), x.prio, alarm);
      ok := false;
      if enabled {
        if |alarm.payload| <= cfg.maxPayload {
          ok := PostToQueue(x, alarm);
        }
      }
    }

    /** pf_alarm_send_alarm: queue an alarm of the application. */
    method SendAlarm(highPrio: bool, alarm: Alarm) returns (ok: bool)
      requires Valid() && !faulted
      modifies Repr(), journal
      ensures Valid() && outside == old(outside)
      ensures var p := if highPrio then High else Low; var waiting := old(State()).At(p).outQ;
              && ok == (old(enabled) && |alarm.payload| <= cfg.maxPayload
                        && waiting.Present? && |waiting.items| < cfg.capacity)
              && State().At(p).outQ == (if ok then Present(waiting.items + [alarm]) else waiting)
              && State() == Step(cfg, old(State()), UserAlarm(p, alarm))
              && journal.past == old(journal.past) + [UserAlarm(p, alarm)]
    {
      hide Steady, AcceptsAlarm, PostAlarm;
      ghost var before := State();
      LevelsAt();
      AlarmSending.PostsAtEnd(cfg, before, if highPrio then High else Low, alarm);
      ok := PostIfAllowed(if highPrio then high else low, alarm);
      RememberOne(UserAlarm(if highPrio then High else Low, alarm), before);
    }

    lemma LevelsAt()
      requires Steady()
      ensures low.prio == Low && high.prio == High && low != high
    {
    }

    lemma UserAckKeepsSender(l: Line, argument: AlarmArgument, status: nat)
      ensures TakeUserAck(l, argument, status).snd == l.snd
    {
    }

    /** Number, request, and write W_TACK. */
    method Acknowledge(argument: AlarmArgument, status: nat) returns (ok: bool)
      requires Steady() && !faulted
      modifies Repr()
      ensures Steady() && outside == old(outside)
      ensures State() == AckAlarm(cfg, old(State()), argument, status)
      ensures ok <==> old(high.alpmrState) == AlpmrWUserAck && old(high.apmsState) == ApmsOpen
                      && AlarmSending.DataGoesOut(cfg, old(moment))
    {
      hide Structure, Inv, Request, TakeUserAck, Finish;
      AtLevel(high);
      Linked(high);
      AckAlarmOk(cfg, State(), argument, status);
      if high.alpmrState == AlpmrWUserAck { AckInThree(cfg, State(), argument, status); }
      ok := false;
      if high.alpmrState == AlpmrWUserAck {
        AlarmSending.RequestSucceeds(cfg, moment, TakeUserAck(high.View(), argument, status),
                                     Body.AlarmAck(argument, status));
        UserAckKeepsSender(high.View(), argument, status);
        NumberUserAck(argument, status);
        AtLevel(high);
        ok := ApmsRequest(high, Body.AlarmAck(argument, status));
        AtLevel(high);
        if !faulted { SetWTack(); }
      } else {
        SetError(ERR_ALPMI, WRONG_STATE);
      }
    }

    /** pf_alarm_alpmr_alarm_ack: the application acknowledges an alarm, always with high priority. */
    method AlarmAck(argument: AlarmArgument, status: nat) returns (ok: bool)
      requires Valid() && !faulted
      modifies Repr(), journal
      ensures Valid() && outside == old(outside)
      ensures State() == Step(cfg, old(State()), UserAck(argument, status))
              && journal.past == old(journal.past) + [UserAck(argument, status)]
      ensures ok <==> old(high.alpmrState) == AlpmrWUserAck && old(high.apmsState) == ApmsOpen
                      && AlarmSending.DataGoesOut(cfg, old(moment))
    {
      hide Steady, AckAlarm;
      ghost var before := State();
      ok := Acknowledge(argument, status);
      RememberOne(UserAck(argument, status), before);
    }

    method ActivateMachines() returns (ok: bool)
      requires Steady()
      modifies Repr()
      ensures Steady() && outside == old(outside)
      ensures State() == ActivateAr(old(State())) && ok == ActivationSucceeds(old(State()))
    {
      hide Structure, Inv, ActivateAr, ActivationSucceeds, AlarmModel.ActivateAlpmx, AlarmModel.ActivateApmx;
      hide AlpmxRefusal, ApmxRefusal, Latest, ResetOut, Step;
      ActivationOk(cfg, State());
      ActivateInThree(State());
      OpenSendQueues();
      var ok1 := ActivateAllAlpmx();
      var ok2 := ActivateAllApmx();
      ok := ok1 && ok2;
    }

    /** pf_alarm_activate. */
    method Activate() returns (ok: bool)
      requires Valid() && !faulted
      modifies Repr(), journal
      ensures Valid() && outside == old(outside)
      ensures State() == Step(cfg, old(State()), Activation) && journal.past == old(journal.past) + [Activation]
      ensures ok == ActivationSucceeds(old(State()))
    {
      hide Steady, ActivateAr, ActivationSucceeds;
      ghost var before := State();
      ok := ActivateMachines();
      RememberOne(Activation, before);
    }

    /** Another part of the stack aborts the AR: no frame buffer of the alarm module stays in use. */
    method AbortConnection()
      requires Valid() && !faulted
      modifies Repr(), journal
      ensures Valid() && outside == old(outside) && pool.live == outside
      ensures State() == Step(cfg, old(State()), Aborted) && journal.past == old(journal.past) + [Aborted]
    {
      hide Inv, AbortAr;
      ghost var before := State();
      AbortArKeeps(cfg, State());
      Abort();
      RememberOne(Aborted, before);
    }

    method ExpireAndKeep(x: PriorityLevel)
      requires Steady() && (x == low || x == high) && x.timersPending > 0
      modifies Repr()
      ensures Steady() && outside == old(outside)
      ensures State() == Finish(cfg, old(State()), x.prio, Fire(cfg, old(moment), old(x.View())))
    {
      hide Structure, Inv, Finish, Fire;
      AtLevel(x);
      FiringKeeps(cfg, State(), x.prio);
      ApmsTimeout(x);
    }

    /** The scheduler runs a pending callback. */
    method TimerExpires(x: PriorityLevel)
      requires Valid() && !faulted && (x == low || x == high) && x.timersPending > 0
      modifies Repr(), journal
      ensures Valid() && outside == old(outside)
      ensures var e := Event.TimerExpires(x.prio);
              State() == Step(cfg, old(State()), e) && journal.past == old(journal.past) + [e]
    {
      hide Structure, Inv, Finish, Fire;
      ghost var before := State();
      AtLevel(x);
      ExpireAndKeep(x);
      RememberOne(Event.TimerExpires(x.prio), before);
    }

    method ReceiveAndSend()
      requires Steady()
      modifies Repr()
      ensures Steady() && outside == old(outside)
      ensures State() == AlarmModel.Periodic(cfg, old(State()))
    {
      hide Steady, ReceiveHalf, Dispatch;
      var ok := ApmrPeriodic();
      AlmpiPeriodic();
    }

    /** pf_alarm_periodic, for this AR: receive, then dispatch. Its past is that of the turns of both receive loops
        and one send. */
    method Periodic() returns (ghost turnsLow: nat, ghost turnsHigh: nat)
      requires Valid() && !faulted
      modifies Repr(), journal
      ensures Valid() && outside == old(outside)
      ensures State() == AlarmModel.Periodic(cfg, old(State()))
      ensures journal.past == old(journal.past) + AlarmReception.Turns(Low, turnsLow)
                              + AlarmReception.Turns(High, turnsHigh) + [Send]
      ensures AlarmReception.Round(cfg, old(State()), Low, turnsLow)
      ensures if AlarmReception.RoundFails(cfg, old(State()), Low, turnsLow) then turnsHigh == 0 else
                AlarmReception.Round(cfg, Run(cfg, old(State()), AlarmReception.Turns(Low, turnsLow)), High, turnsHigh)
    {
      hide Steady, AlarmModel.Periodic, AlarmReception.Round, AlarmReception.RoundFails, AlarmReception.Turns;
      ghost var before := State();
      turnsLow, turnsHigh := AlarmReception.PeriodicIsRun(cfg, before);
      ReceiveAndSend();
      ghost var events := AlarmReception.Turns(Low, turnsLow) + AlarmReception.Turns(High, turnsHigh) + [Send];
      Remember(events, before);
    }

    lemma QueueMeansOpen(x: PriorityLevel)
      requires Steady() && (x == low || x == high)
      ensures x.inQ.acc.mutex ==> x.apmrState != ApmrClosed
    {
    }

    method TakeAndKeep(x: PriorityLevel, msg: RxMessage) returns (ok: bool)
      requires Steady() && (x == low || x == high) && msg.buf in outside
      modifies this`outside, x.inQ, x.inQ.acc, x.inQ.items
      ensures Steady()
      ensures ok == TakesFrame(cfg, old(x.View()))
      ensures State() == old(State()).With(x.prio, AlarmModel.PostFrame(cfg, old(x.View()), msg))
      ensures outside == old(outside) - (if ok then {msg.buf} else {})
    {
      AtLevel(x);
      QueueMeansOpen(x);
      hide Structure, Inv, AlarmModel.PostFrame, TakesFrame;
      PostFrameKeeps(cfg, State(), x.prio, msg);
      ok := TakeIn(x, msg);
    }

    /** The frame handler, while it is registered: true when the alarm module takes care of the buffer, or there is
        none. */
    method FrameHandler(x: PriorityLevel, buf: Option<nat>, frameIdPos: nat, frame: Rx) returns (handled: bool)
      requires Valid() && !faulted && listening && (x == low || x == high) && (buf.Some? ==> buf.value in outside)
      modifies this`outside, journal, x.inQ, x.inQ.acc, x.inQ.items
      ensures Valid()
      ensures handled == (buf.None? || TakesFrame(cfg, old(x.View())))
      ensures buf.None? ==> State() == old(State())
      ensures buf.Some? ==> var e := FrameIn(x.prio, RxMessage(buf.value, frameIdPos, frame));
                            State() == Step(cfg, old(State()), e) && journal.past == old(journal.past) + [e]
      ensures outside == old(outside) - (if buf.Some? && handled then {buf.value} else {})
    {
      hide Structure, Inv, AlarmModel.PostFrame, TakesFrame;
      handled := true;
      if buf.Some? {
        ghost var before := State();
        var msg := RxMessage(buf.value, frameIdPos, frame);
        AtLevel(x);
        handled := TakeAndKeep(x, msg);
        RememberOne(FrameIn(x.prio, msg), before);
      }
    }

    /** The buffers in use, apart from those of others, are the queued frames and the saved frames, each once. */
    lemma BuffersAccountedFor()
      requires Structure()
      ensures var queued := Buffers(low.inQ.contents) + Buffers(high.inQ.contents);
              && pool.live - outside - queued == SavedBuffers(low) + SavedBuffers(high)
              && SavedBuffers(low) * SavedBuffers(high) == {} && queued * (SavedBuffers(low) + SavedBuffers(high)) == {}
              && Buffers(low.inQ.contents) * Buffers(high.inQ.contents) == {}
    {
    }

    ghost function SavedBuffers(x: PriorityLevel): set<nat>
      reads x
    {
      if x.rta.Some? then {x.rta.value.buf} else {}
    }

    /** The counters of an open level: the start pair or successive numbers, never equal, and a closed form. */
    lemma Counters(x: PriorityLevel)
      requires Structure() && (x == low || x == high) && x.apmsState != ApmsClosed
      ensures x.sendSeqCount == (if x.acked == 0 then 0xffff else (x.acked - 1) % 0x8000)
      ensures x.expSeqCount == (if x.accepted == 0 then 0xffff else (x.accepted - 1) % 0x8000)
      ensures (x.sendSeqCount == 0xffff && x.sendSeqCountO == 0xfffe)
              || x.sendSeqCount == (x.sendSeqCountO + 1) % 0x8000
      ensures (x.expSeqCount == 0xffff && x.expSeqCountO == 0xfffe) || x.expSeqCount == (x.expSeqCountO + 1) % 0x8000
      ensures x.sendSeqCount != x.sendSeqCountO && x.expSeqCount != x.expSeqCountO
    {
      if x.acked > 0 { NextSeqIsNextPdu(x.acked - 1); }
      if x.accepted > 0 { NextSeqIsNextPdu(x.accepted - 1); }
      NumberIdentifies(x.acked - 1, x.acked);
      NumberIdentifies(x.accepted - 1, x.accepted);
    }
  }
}
