/** The results about whole runs of the alarm transport of one AR. */
module AlarmTheorems {
  import opened Wrappers
  import opened SequenceNumbers
  import opened Apmx
  import opened AlarmModel
  import opened AlarmInvariants

  // ------------------------------------------- alarms and their confirmations

  function CountNotified(notes: seq<Note>): nat {
    if notes == [] then 0 else
    CountNotified(notes[..|notes| - 1]) + (if notes[|notes| - 1].Notified? then 1 else 0)
  }

  function CountConfirmed(notes: seq<Note>): nat {
    if notes == [] then 0 else
    CountConfirmed(notes[..|notes| - 1]) + (if notes[|notes| - 1].Confirmed? then 1 else 0)
  }

  lemma {:induction false} AlternationBalances(notes: seq<Note>)
    requires Alternating(notes)
    ensures CountNotified(notes) == CountConfirmed(notes) + |notes| % 2
  {
    if notes != [] { AlternationBalances(notes[..|notes| - 1]); }
  }

  /** Whatever the peer sends: sends and confirmations alternate, and one is outstanding exactly in W_ACK. */
  lemma ConfirmationsMatchAlarms(cfg: Config, events: seq<Event>, p: Prio)
    ensures var l := Run(cfg, FRESH, events).At(p);
            && Alternating(l.hist.notes)
            && 0 <= CountNotified(l.hist.notes) - CountConfirmed(l.hist.notes) <= 1
            && (l.alpmi != AlpmiWStart ==>
                  (l.alpmi == AlpmiWAck <==> CountNotified(l.hist.notes) == CountConfirmed(l.hist.notes) + 1))
  {
    RunOk(cfg, FRESH, events);
    AlternationBalances(Run(cfg, FRESH, events).At(p).hist.notes);
  }

  // -------------------------------------------------------- order of dispatch

  /** Alarms of one priority reach the sender in the order they were posted, each once; the rest still waits. */
  lemma DispatchedInPostOrder(cfg: Config, events: seq<Event>, p: Prio)
    ensures var l := Run(cfg, FRESH, events).At(p);
            l.hist.handed + Waiting(l) == l.hist.posted && |Waiting(l)| <= cfg.capacity
  {
    RunOk(cfg, FRESH, events);
  }

  lemma {:induction false} RunAppend(cfg: Config, ar: Ar, xs: seq<Event>, ys: seq<Event>)
    ensures Run(cfg, ar, xs + ys) == Run(cfg, Run(cfg, ar, xs), ys)
    decreases |xs|
  {
    if xs == [] {
      assert xs + ys == ys;
    } else {
      assert (xs + ys)[1..] == xs[1..] + ys;
      RunAppend(cfg, Step(cfg, ar, xs[0]), xs[1..], ys);
    }
  }

  /** The receive loop of one priority neither hands over an alarm nor faults. */
  lemma {:induction false} PollAllHandsOverNothing(cfg: Config, ar: Ar, p: Prio)
    requires !ar.faulted
    ensures var ar' := PollAll(cfg, ar, p).0;
            !ar'.faulted && ar'.high.hist.handed == ar.high.hist.handed && ar'.low.hist.handed == ar.low.hist.handed
    decreases Backlog(ar.At(p))
  {
    if HasFrame(ar.At(p)) {
      PollShrinks(cfg, ar, p);
      PollHandsOverNothing(cfg, ar, p);
      if Poll(cfg, ar, p).1 { PollAllHandsOverNothing(cfg, Poll(cfg, ar, p).0, p); }
    }
  }

  lemma PollHandsOverNothing(cfg: Config, ar: Ar, p: Prio)
    requires !ar.faulted
    ensures var ar' := Poll(cfg, ar, p).0;
            !ar'.faulted && ar'.high.hist.handed == ar.high.hist.handed && ar'.low.hist.handed == ar.low.hist.handed
  {
    hide Process, SeqOf, MakeErr;
    var l := ar.At(p);
    if HasFrame(l) { ProcessHandsOverNothing(cfg, ar.clock, DropFrame(l), p, l.inQ.items[0].frame); }
  }

  lemma DeliverHandsOverNothing(cfg: Config, clock: nat, l: Line, p: Prio, rx: Rx)
    ensures var out := Deliver(cfg, clock, l, p, rx);
            out.line.hist.handed == l.hist.handed && (out.trouble.Abort? ==> !out.trouble.readsOn)
  {
    hide SeqOf, Credits;
  }

  lemma DataIndHandsOverNothing(cfg: Config, clock: nat, l: Line, p: Prio, rx: Rx)
    ensures var out := DataInd(cfg, clock, l, p, rx);
            out.line.hist.handed == l.hist.handed && (out.trouble.Abort? ==> !out.trouble.readsOn)
  {
    hide SeqOf, Judge, Credits, Deliver;
    DeliverHandsOverNothing(cfg, clock, l, p, rx);
  }

  lemma ProcessHandsOverNothing(cfg: Config, clock: nat, l: Line, p: Prio, rx: Rx)
    ensures var out := Process(cfg, clock, l, p, rx);
            out.line.hist.handed == l.hist.handed && (out.trouble.Abort? ==> !out.trouble.readsOn)
  {
    hide SeqOf, Credits, DataInd;
    DataIndHandsOverNothing(cfg, clock, l, p, rx);
  }

  lemma PollBothHandsOverNothing(cfg: Config, ar: Ar)
    requires !ar.faulted
    ensures !PollBoth(cfg, ar).faulted
    ensures PollBoth(cfg, ar).high.hist.handed == ar.high.hist.handed
            && PollBoth(cfg, ar).low.hist.handed == ar.low.hist.handed
  {
    PollAllHandsOverNothing(cfg, ar, Low);
    PollAllHandsOverNothing(cfg, PollAll(cfg, ar, Low).0, High);
  }

  /** One call of the periodic function hands over at most one alarm, the oldest of its priority, and one of low
      priority only when, after receiving, no high-priority alarm could go. */
  lemma OneAlarmPerPeriod(cfg: Config, ar: Ar)
    requires !ar.faulted
    ensures var mid, ar' := PollBoth(cfg, ar), Periodic(cfg, ar);
            && (mid.enabled && CanDispatch(mid.high) ==>
                  && ar'.high.hist.handed == ar.high.hist.handed + [mid.high.outQ.items[0]]
                  && ar'.low.hist.handed == ar.low.hist.handed)
            && (mid.enabled && mid.high.link && !CanDispatch(mid.high) && CanDispatch(mid.low) ==>
                  && ar'.low.hist.handed == ar.low.hist.handed + [mid.low.outQ.items[0]]
                  && ar'.high.hist.handed == ar.high.hist.handed)
            && (!mid.enabled || (!CanDispatch(mid.high) && (!mid.high.link || !CanDispatch(mid.low))) ==>
                  ar'.high.hist.handed == ar.high.hist.handed && ar'.low.hist.handed == ar.low.hist.handed)
  {
    hide PollBoth;
    PollBothHandsOverNothing(cfg, ar);
    DispatchHandsOverOne(cfg, PollBoth(cfg, ar));
  }

  lemma SendHandsOver(cfg: Config, clock: nat, l: Line, alarm: Alarm)
    ensures SendInternal(cfg, clock, l, alarm).line.hist.handed == l.hist.handed + [alarm]
  {
  }

  lemma FinishKeepsHanded(cfg: Config, ar: Ar, p: Prio, out: Out)
    ensures var ar1, ar' := ar.With(p, out.line), Finish(cfg, ar, p, out);
            ar'.low.hist.handed == ar1.low.hist.handed && ar'.high.hist.handed == ar1.high.hist.handed
  {
  }

  lemma LineHandsOver(cfg: Config, ar: Ar, p: Prio)
    requires CanDispatch(ar.At(p))
    ensures var ar' := DispatchLine(cfg, ar, p); var q := if p == Low then High else Low;
            && ar'.At(p).hist.handed == ar.At(p).hist.handed + [ar.At(p).outQ.items[0]]
            && ar'.At(q).hist.handed == ar.At(q).hist.handed
  {
    hide SendInternal, Finish;
    var l := ar.At(p);
    SendHandsOver(cfg, ar.clock, DropAlarm(l), l.outQ.items[0]);
    FinishKeepsHanded(cfg, ar, p, SendInternal(cfg, ar.clock, DropAlarm(l), l.outQ.items[0]));
  }

  lemma DispatchHandsOverOne(cfg: Config, ar: Ar)
    ensures var ar' := Dispatch(cfg, ar);
            && (ar.enabled && CanDispatch(ar.high) ==>
                  && ar'.high.hist.handed == ar.high.hist.handed + [ar.high.outQ.items[0]]
                  && ar'.low.hist.handed == ar.low.hist.handed)
            && (ar.enabled && ar.high.link && !CanDispatch(ar.high) && CanDispatch(ar.low) ==>
                  && ar'.low.hist.handed == ar.low.hist.handed + [ar.low.outQ.items[0]]
                  && ar'.high.hist.handed == ar.high.hist.handed)
            && (!ar.enabled || (!CanDispatch(ar.high) && (!ar.high.link || !CanDispatch(ar.low))) ==>
                  ar'.high.hist.handed == ar.high.hist.handed && ar'.low.hist.handed == ar.low.hist.handed)
  {
    hide SendInternal, Finish, DropAlarm;
    assert ar.At(High) == ar.high && ar.At(Low) == ar.low;
    if CanDispatch(ar.high) { LineHandsOver(cfg, ar, High); }
    if CanDispatch(ar.low) { LineHandsOver(cfg, ar, Low); }
  }

  // ------------------------------------------------------------------ faults

  /** The event makes a request to an APMS that is not OPEN, or looks for alarms to send before the AR is activated. */
  predicate TouchesCleared(ar: Ar, e: Event) {
    match e
    case UserAck(_, _) => ar.high.alpmr == AlpmrWUserAck && ar.high.snd.state != ApmsOpen
    case Send =>
      && ar.enabled
      && (|| !ar.high.link
          || (if CanDispatch(ar.high) then ar.high.snd.state != ApmsOpen
              else !ar.low.link || (CanDispatch(ar.low) && ar.low.snd.state != ApmsOpen)))
    case _ => false
  }

  /** Exactly when a handler reads through the link of a cleared record. */
  lemma FaultsExactly(cfg: Config, ar: Ar, e: Event)
    requires !ar.faulted
    ensures Step(cfg, ar, e).faulted <==> TouchesCleared(ar, e)
  {
    hide Process;
    match e {
      case Turn(p) => PollHandsOverNothing(cfg, ar, p);
      case Send => assert ar.At(High) == ar.high && ar.At(Low) == ar.low;
      case _ =>
    }
  }

  /** Both priorities are open, or both are closed, and so with their links. */
  ghost predicate Together(ar: Ar) {
    && (ar.low.snd.state == ApmsClosed <==> ar.high.snd.state == ApmsClosed)
    && (ar.low.rcv.state == ApmrClosed <==> ar.high.rcv.state == ApmrClosed)
    && ar.low.link == ar.high.link
  }

  /** `l'` is open if and only if `l` is. */
  ghost predicate AsOpen(l: Line, l': Line) {
    && (l'.snd.state == ApmsClosed <==> l.snd.state == ApmsClosed)
    && (l'.rcv.state == ApmrClosed <==> l.rcv.state == ApmrClosed)
    && l'.link == l.link
  }

  lemma TakeAckAsOpen(l: Line, ackSeq: nat)
    ensures AsOpen(l, TakeAck(l, ackSeq))
  {
  }

  lemma DataIndAsOpen(cfg: Config, clock: nat, l: Line, p: Prio, rx: Rx)
    ensures AsOpen(l, DataInd(cfg, clock, l, p, rx).line)
  {
    hide SeqOf, Judge, TakeAck, BlockTypeAck, BlockTypeNotify, MakeAck, MakeNack;
    TakeAckAsOpen(l, rx.ackSeq);
  }

  lemma ProcessAsOpen(cfg: Config, clock: nat, l: Line, p: Prio, rx: Rx)
    ensures AsOpen(l, Process(cfg, clock, l, p, rx).line)
  {
    hide DataInd, TakeAck;
    DataIndAsOpen(cfg, clock, l, p, rx);
    TakeAckAsOpen(l, rx.ackSeq);
  }

  lemma HandlersAsOpen(cfg: Config, clock: nat, l: Line, body: Body, alarm: Alarm)
    ensures AsOpen(l, Request(cfg, clock, l, body).line)
    ensures AsOpen(l, SendInternal(cfg, clock, l, alarm).line)
    ensures AsOpen(l, Fire(cfg, clock, l).line) || Fire(cfg, clock, l).trouble.Abort?
  {
  }

  lemma FinishTogether(cfg: Config, ar: Ar, p: Prio, out: Out)
    requires Together(ar) && (AsOpen(ar.At(p), out.line) || out.trouble.Abort?)
    ensures Together(Finish(cfg, ar, p, out))
  {
  }

  lemma StepTogether(cfg: Config, ar: Ar, e: Event)
    requires Together(ar) && Inv(cfg, ar)
    ensures Together(Step(cfg, ar, e))
  {
    hide Process, SendInternal, Fire, AckAlarm, Finish, CloseAr;
    if ar.faulted { return; }
    match e {
      case Turn(p) =>
        var l := ar.At(p);
        if HasFrame(l) {
          ProcessAsOpen(cfg, ar.clock, DropFrame(l), p, l.inQ.items[0].frame);
          FinishTogether(cfg, ar, p, Process(cfg, ar.clock, DropFrame(l), p, l.inQ.items[0].frame));
        }
      case Send =>
        forall p | CanDispatch(ar.At(p)) ensures Together(DispatchLine(cfg, ar, p)) {
          var l := ar.At(p);
          HandlersAsOpen(cfg, ar.clock, DropAlarm(l), AlarmAck(SOME_ARGUMENT, 0), l.outQ.items[0]);
          FinishTogether(cfg, ar, p, SendInternal(cfg, ar.clock, DropAlarm(l), l.outQ.items[0]));
        }
        assert ar.At(High) == ar.high && ar.At(Low) == ar.low;
      case TimerExpires(p) =>
        HandlersAsOpen(cfg, ar.clock, ar.At(p), AlarmAck(SOME_ARGUMENT, 0), SOME_ALARM);
        FinishTogether(cfg, ar, p, Fire(cfg, ar.clock, ar.At(p)));
      case UserAck(argument, status) =>
        AckTogether(cfg, ar, argument, status);
      case Aborted => AbortTogether(cfg, ar);
      case _ =>
    }
  }

  lemma AckTogether(cfg: Config, ar: Ar, argument: AlarmArgument, status: nat)
    requires Together(ar)
    ensures Together(AckAlarm(cfg, ar, argument, status))
  {
    hide Request, Finish;
    var l, body := TakeUserAck(ar.high, argument, status), AlarmAck(argument, status);
    HandlersAsOpen(cfg, ar.clock, l, body, SOME_ALARM);
    FinishTogether(cfg, ar, High, Request(cfg, ar.clock, l, body));
  }

  lemma AbortTogether(cfg: Config, ar: Ar)
    ensures Together(AbortAr(cfg, ar))
  {
  }

  /** Over every run both priorities open and close together, and after a fault both are closed. */
  lemma {:induction false} FaultedIsClosed(cfg: Config, ar: Ar, events: seq<Event>)
    requires Inv(cfg, ar) && Together(ar)
    requires ar.faulted ==> ar.low.snd.state == ar.high.snd.state == ApmsClosed
    ensures var ar' := Run(cfg, ar, events);
            Together(ar') && (ar'.faulted ==> ar'.low.snd.state == ar'.high.snd.state == ApmsClosed)
    decreases |events|
  {
    hide Step;
    if events != [] {
      StepOk(cfg, ar, events[0]);
      StepTogether(cfg, ar, events[0]);
      FaultCloses(cfg, ar, events[0]);
      FaultedIsClosed(cfg, Step(cfg, ar, events[0]), events[1..]);
    }
  }

  lemma FaultCloses(cfg: Config, ar: Ar, e: Event)
    requires Inv(cfg, ar) && Together(ar)
    requires ar.faulted ==> ar.low.snd.state == ar.high.snd.state == ApmsClosed
    ensures Step(cfg, ar, e).faulted ==> Step(cfg, ar, e).low.snd.state == Step(cfg, ar, e).high.snd.state == ApmsClosed
  {
    hide Process;
    if !ar.faulted {
      FaultsExactly(cfg, ar, e);
      assert ar.At(High) == ar.high && ar.At(Low) == ar.low;
    }
  }

  const SOME_ALARM := Alarm(2, 0, 1, 1, 0, 0, 0, [])
  const SOME_ARGUMENT := AlarmArgument(1, 0, 1, 1, 0)
  const SOME_NOTIFICATION := Rx(1, DataPdu, true, 0xffff, 0xfffe, 24, 0x0001, true, Told(SOME_ARGUMENT, 0, []), 0, 0, 0)

  const FAULTING: seq<Event> :=
    [Activation, SetEnabled(true), UserAlarm(High, SOME_ALARM), FrameIn(High, RxMessage(0, 0, SOME_NOTIFICATION)),
     Turn(High), UserAck(SOME_ARGUMENT, 0), Send]

  /** An alarm and a notification wait, then the notification is indicated. */
  lemma NotificationIndicated(cfg: Config, a4: Ar)
    requires cfg.env.alloc(0) && cfg.env.send(0) && cfg.capacity >= 1
    requires a4 == Step(cfg, Step(cfg, Step(cfg, Step(cfg, FRESH, FAULTING[0]), FAULTING[1]), FAULTING[2]), FAULTING[3])
    ensures var ar := Step(cfg, a4, FAULTING[4]);
            && ar.high.alpmr == AlpmrWUserAck && ar.high.alpmi == AlpmiWAlarm && ar.high.snd.state == ApmsOpen
            && ar.high.outQ == Present([SOME_ALARM]) && ar.high.link && ar.enabled && !ar.faulted
  {
    assert a4.high.inQ.items == [RxMessage(0, 0, SOME_NOTIFICATION)] && a4.high.rcv == Receiver(ApmrOpen, 0);
  }

  /** A fault is reachable with everything in order: the application acknowledges an alarm, and an own alarm is
      dispatched while that acknowledgement still waits for its TACK. */
  lemma FaultReachable(cfg: Config)
    requires Healthy(cfg.env) && cfg.capacity >= 1 && forall t :: cfg.env.send(t)
    ensures Run(cfg, FRESH, FAULTING).faulted
  {
    hide Process;
    var a4 := Step(cfg, Step(cfg, Step(cfg, Step(cfg, FRESH, FAULTING[0]), FAULTING[1]), FAULTING[2]), FAULTING[3]);
    var a5 := Step(cfg, a4, FAULTING[4]);
    assert cfg.env.alloc(0) && cfg.env.send(0);
    NotificationIndicated(cfg, a4);
    assert cfg.env.alloc(a5.clock) && cfg.env.timer(a5.clock);
    var a6 := Step(cfg, a5, FAULTING[5]);
    assert a6.high.snd.state == ApmsWTack && CanDispatch(a6.high) && a6.enabled && !a6.faulted;
    FaultsExactly(cfg, a6, Send);
    RunSeven(cfg, FRESH, FAULTING);
  }

  lemma RunSeven(cfg: Config, ar: Ar, es: seq<Event>)
    requires |es| == 7
    ensures var a4 := Step(cfg, Step(cfg, Step(cfg, Step(cfg, ar, es[0]), es[1]), es[2]), es[3]);
            Run(cfg, ar, es) == Step(cfg, Step(cfg, Step(cfg, a4, es[4]), es[5]), es[6])
  {
    hide Step;
    RunLast(cfg, ar, es);
    RunLast(cfg, ar, es[..6]);
    RunLast(cfg, ar, es[..5]);
    RunLast(cfg, ar, es[..4]);
    RunLast(cfg, ar, es[..3]);
    RunLast(cfg, ar, es[..2]);
    RunLast(cfg, ar, es[..1]);
    assert es[..6][..5] == es[..5] && es[..5][..4] == es[..4] && es[..4][..3] == es[..3];
    assert es[..3][..2] == es[..2] && es[..2][..1] == es[..1] && es[..1][..0] == [];
  }

  lemma {:induction false} RunLast(cfg: Config, ar: Ar, es: seq<Event>)
    requires es != []
    ensures Run(cfg, ar, es) == Step(cfg, Run(cfg, ar, es[..|es| - 1]), es[|es| - 1])
    decreases |es|
  {
    hide Step;
    if |es| > 1 {
      RunLast(cfg, Step(cfg, ar, es[0]), es[1..]);
      assert es[..|es| - 1][1..] == es[1..][..|es| - 2];
    }
  }

  // ----------------------------------------------------------- retransmission

  /** Every DATA PDU is handed to the network at most 1 + rta_retries times, however many timers are pending. */
  lemma TransmissionsBounded(cfg: Config, events: seq<Event>, p: Prio, k: nat)
    ensures Copies(Run(cfg, FRESH, events).At(p).hist.sent, k) <= 1 + cfg.retries
  {
    RunOk(cfg, FRESH, events);
  }

  function Effort(l: Line): nat {
    l.snd.resend + l.timers
  }

  /** A firing timer lowers (retries left, pending timers), lexicographically and in sum. */
  lemma FiringDescends(cfg: Config, ar: Ar, p: Prio)
    requires ar.At(p).timers > 0 && !ar.faulted
    ensures !Step(cfg, ar, TimerExpires(p)).faulted
    ensures var l, l' := ar.At(p), Step(cfg, ar, TimerExpires(p)).At(p);
            && (l'.snd.resend < l.snd.resend || (l'.snd.resend == l.snd.resend && l'.timers < l.timers))
            && Effort(l') < Effort(l)
  {
    hide SeqOf;
  }

  /** Timer firings alone come to an end: nothing is pending after at most Effort firings. */
  lemma {:induction false} TimersDieOut(cfg: Config, ar: Ar, p: Prio, n: nat)
    requires !ar.faulted && (ar.At(p).timers == 0 || Effort(ar.At(p)) <= n)
    ensures Run(cfg, ar, seq(n, _ => TimerExpires(p))).At(p).timers == 0
    decreases n
  {
    var firings := seq(n, _ => TimerExpires(p));
    if n > 0 {
      var ar1 := Step(cfg, ar, TimerExpires(p));
      assert firings[1..] == seq(n - 1, _ => TimerExpires(p));
      if ar.At(p).timers > 0 { FiringDescends(cfg, ar, p); }
      TimersDieOut(cfg, ar1, p, n - 1);
    }
  }

  /** With buffers and timers available, an unacknowledged PDU has a saved copy and a pending timer. */
  ghost predicate Watched(l: Line) {
    l.snd.state == ApmsWTack ==> l.snd.saved.Some? && l.timers > 0
  }

  ghost predicate Healthy(env: Env) {
    forall t :: env.alloc(t) && env.timer(t)
  }

  lemma TakeAckWatched(l: Line, ackSeq: nat)
    requires Watched(l)
    ensures Watched(TakeAck(l, ackSeq))
  {
  }

  lemma DeliverWatched(cfg: Config, clock: nat, l: Line, p: Prio, rx: Rx)
    requires Watched(l)
    ensures Watched(Deliver(cfg, clock, l, p, rx).line)
  {
    hide SeqOf, Credits;
  }

  lemma DataIndWatched(cfg: Config, clock: nat, l: Line, p: Prio, rx: Rx)
    requires Watched(l)
    ensures Watched(DataInd(cfg, clock, l, p, rx).line)
  {
    hide SeqOf, Judge, Credits, Deliver;
    DeliverWatched(cfg, clock, l, p, rx);
  }

  lemma ProcessWatched(cfg: Config, clock: nat, l: Line, p: Prio, rx: Rx)
    requires Watched(l)
    ensures Watched(Process(cfg, clock, l, p, rx).line)
  {
    hide SeqOf, Credits, DataInd;
    DataIndWatched(cfg, clock, l, p, rx);
  }

  lemma FinishWatched(cfg: Config, ar: Ar, p: Prio, out: Out)
    requires Watched(ar.low) && Watched(ar.high)
    requires !out.trouble.Abort? ==> Watched(out.line)
    ensures Watched(Finish(cfg, ar, p, out).low) && Watched(Finish(cfg, ar, p, out).high)
  {
  }

  lemma StepWatched(cfg: Config, ar: Ar, e: Event)
    requires Healthy(cfg.env) && Watched(ar.low) && Watched(ar.high)
    ensures Watched(Step(cfg, ar, e).low) && Watched(Step(cfg, ar, e).high)
  {
    hide Process, SeqOf;
    if ar.faulted { return; }
    assert cfg.env.alloc(ar.clock) && cfg.env.timer(ar.clock);
    match e {
      case Turn(p) =>
        var l := ar.At(p);
        if HasFrame(l) {
          var l0 := DropFrame(l);
          ProcessWatched(cfg, ar.clock, l0, p, l.inQ.items[0].frame);
          FinishWatched(cfg, ar, p, Process(cfg, ar.clock, l0, p, l.inQ.items[0].frame));
        }
      case Send =>
        forall p | CanDispatch(ar.At(p))
          ensures Watched(DispatchLine(cfg, ar, p).low) && Watched(DispatchLine(cfg, ar, p).high) {
          var l := ar.At(p);
          FinishWatched(cfg, ar, p, SendInternal(cfg, ar.clock, DropAlarm(l), l.outQ.items[0]));
        }
        assert ar.At(High) == ar.high && ar.At(Low) == ar.low;
      case TimerExpires(p) => FinishWatched(cfg, ar, p, Fire(cfg, ar.clock, ar.At(p)));
      case UserAck(argument, status) =>
        var l := TakeUserAck(ar.high, argument, status);
        FinishWatched(cfg, ar, High, Request(cfg, ar.clock, l, AlarmAck(argument, status)));
      case _ =>
    }
  }

  lemma {:induction false} RunWatched(cfg: Config, ar: Ar, events: seq<Event>)
    requires Healthy(cfg.env) && Watched(ar.low) && Watched(ar.high)
    ensures Watched(Run(cfg, ar, events).low) && Watched(Run(cfg, ar, events).high)
    decreases |events|
  {
    if events != [] {
      StepWatched(cfg, ar, events[0]);
      RunWatched(cfg, Step(cfg, ar, events[0]), events[1..]);
    }
  }

  lemma {:induction false} FiringsClose(cfg: Config, ar: Ar, p: Prio, n: nat)
    requires Healthy(cfg.env) && ar.At(p).snd.state == ApmsWTack && ar.At(p).snd.saved.Some? && ar.At(p).timers > 0
    requires n == ar.At(p).snd.resend && !ar.faulted
    ensures Run(cfg, ar, seq(n + 1, _ => TimerExpires(p))).At(p).snd.state == ApmsClosed
    decreases n
  {
    var firings := seq(n + 1, _ => TimerExpires(p));
    assert firings[0] == TimerExpires(p);
    assert firings[1..] == seq(n, _ => TimerExpires(p));
    assert cfg.env.timer(ar.clock);
    var ar1 := Step(cfg, ar, TimerExpires(p));
    if n == 0 {
      assert Run(cfg, ar1, []) == ar1;
    } else {
      FiringsClose(cfg, ar1, p, n - 1);
    }
  }

  /** A silent peer: from every reachable W_TACK state, one firing more than the retries left closes the AR. */
  lemma SilentPeerClosesAr(cfg: Config, events: seq<Event>, p: Prio)
    requires Healthy(cfg.env) && Run(cfg, FRESH, events).At(p).snd.state == ApmsWTack
    ensures var ar := Run(cfg, FRESH, events);
            Run(cfg, ar, seq(ar.At(p).snd.resend + 1, _ => TimerExpires(p))).At(p).snd.state == ApmsClosed
  {
    RunWatched(cfg, FRESH, events);
    FaultedIsClosed(cfg, FRESH, events);
    var ar := Run(cfg, FRESH, events);
    FiringsClose(cfg, ar, p, ar.At(p).snd.resend);
  }

  // -------------------------------------- who gets the transport acknowledgement

  ghost predicate AckInFlight(l: Line) {
    l.snd.state == ApmsWTack && l.snd.flight.Some? && l.snd.flight.value.AlarmAck?
  }

  /** ALPMR waits for a TACK exactly while an alarm acknowledgement is outstanding in APMS. */
  ghost predicate Joint(l: Line) {
    l.alpmr == AlpmrWTack <==> AckInFlight(l)
  }

  lemma TakeAckJoint(l: Line, ackSeq: nat)
    requires Joint(l)
    ensures Joint(TakeAck(l, ackSeq))
  {
  }

  lemma DeliverJoint(cfg: Config, clock: nat, l: Line, p: Prio, rx: Rx)
    requires Joint(l)
    ensures Joint(Deliver(cfg, clock, l, p, rx).line)
  {
    hide SeqOf, Credits;
  }

  lemma DataIndJoint(cfg: Config, clock: nat, l: Line, p: Prio, rx: Rx)
    requires Joint(l)
    ensures Joint(DataInd(cfg, clock, l, p, rx).line)
  {
    hide SeqOf, Judge, Credits, Deliver;
    DeliverJoint(cfg, clock, l, p, rx);
  }

  lemma ProcessJoint(cfg: Config, clock: nat, l: Line, p: Prio, rx: Rx)
    requires Joint(l)
    ensures Joint(Process(cfg, clock, l, p, rx).line)
  {
    hide SeqOf, Credits, DataInd;
    DataIndJoint(cfg, clock, l, p, rx);
  }

  lemma FinishJoint(cfg: Config, ar: Ar, p: Prio, out: Out)
    requires Joint(ar.low) && Joint(ar.high)
    requires !out.trouble.Abort? ==> Joint(out.line)
    ensures Joint(Finish(cfg, ar, p, out).low) && Joint(Finish(cfg, ar, p, out).high)
  {
  }

  lemma HandlersJoint(cfg: Config, clock: nat, l: Line, alarm: Alarm)
    requires Joint(l)
    ensures Joint(Fire(cfg, clock, l).line) || Fire(cfg, clock, l).trouble.Abort?
    ensures Joint(SendInternal(cfg, clock, l, alarm).line)
  {
  }

  lemma AckJoint(cfg: Config, ar: Ar, argument: AlarmArgument, status: nat)
    requires Joint(ar.low) && Joint(ar.high) && !ar.faulted
    ensures Joint(AckAlarm(cfg, ar, argument, status).low) && Joint(AckAlarm(cfg, ar, argument, status).high)
  {
  }

  lemma StepJoint(cfg: Config, ar: Ar, e: Event)
    requires Joint(ar.low) && Joint(ar.high)
    ensures Joint(Step(cfg, ar, e).low) && Joint(Step(cfg, ar, e).high)
  {
    hide Process, SendInternal, Fire, AckAlarm, Finish;
    if ar.faulted { return; }
    match e {
      case Turn(p) =>
        var l := ar.At(p);
        if HasFrame(l) {
          var l0 := DropFrame(l);
          ProcessJoint(cfg, ar.clock, l0, p, l.inQ.items[0].frame);
          FinishJoint(cfg, ar, p, Process(cfg, ar.clock, l0, p, l.inQ.items[0].frame));
        }
      case Send =>
        forall p | CanDispatch(ar.At(p))
          ensures Joint(DispatchLine(cfg, ar, p).low) && Joint(DispatchLine(cfg, ar, p).high)
        {
          var l := ar.At(p);
          HandlersJoint(cfg, ar.clock, DropAlarm(l), l.outQ.items[0]);
          FinishJoint(cfg, ar, p, SendInternal(cfg, ar.clock, DropAlarm(l), l.outQ.items[0]));
        }
        assert ar.At(High) == ar.high && ar.At(Low) == ar.low;
      case TimerExpires(p) =>
        HandlersJoint(cfg, ar.clock, ar.At(p), SOME_ALARM);
        FinishJoint(cfg, ar, p, Fire(cfg, ar.clock, ar.At(p)));
      case UserAck(argument, status) => AckJoint(cfg, ar, argument, status);
      case _ =>
    }
  }

  lemma {:induction false} RunJoint(cfg: Config, ar: Ar, events: seq<Event>)
    requires Joint(ar.low) && Joint(ar.high)
    ensures Joint(Run(cfg, ar, events).low) && Joint(Run(cfg, ar, events).high)
    decreases |events|
  {
    if events != [] {
      StepJoint(cfg, ar, events[0]);
      RunJoint(cfg, Step(cfg, ar, events[0]), events[1..]);
    }
  }

  /** In every run a TACK confirms an alarm acknowledgement to ALPMR exactly when one is outstanding. */
  lemma TackCreditedToItsMachine(cfg: Config, events: seq<Event>, p: Prio, ackSeq: nat)
    requires Credits(Run(cfg, FRESH, events).At(p).snd, ackSeq)
    ensures var l := Run(cfg, FRESH, events).At(p);
            TakeAck(l, ackSeq).hist.replies == l.hist.replies + (if AckInFlight(l) then [AckConfirmed] else [])
  {
    RunOk(cfg, FRESH, events);
    RunJoint(cfg, FRESH, events);
  }

  // ----------------------------------------------------------------- recovery

  ghost predicate ClosedDown(l: Line) {
    && l.snd.state == ApmsClosed && l.snd.saved == None && l.rcv.state == ApmrClosed
    && l.alpmi == AlpmiWStart && l.alpmr == AlpmrWStart
    && l.outQ == Missing && !l.armed
  }

  ghost predicate Initial(l: Line) {
    && l.snd == Sender(ApmsOpen, 0, None, 0, None) && l.rcv == Receiver(ApmrOpen, 0)
    && l.alpmi == AlpmiWAlarm && l.alpmr == AlpmrWNotify
    && l.seqNo == 0 && l.prevSeqNo == 0xffff
    && l.inQ == Present([]) && l.outQ == Present([]) && !l.armed && l.link
    && l.hist.notes == [] && l.hist.replies == []
  }

  /** A successful activation sets up both priorities and the frame handlers, and touches nothing else. */
  ghost predicate SetUp(ar: Ar, ar': Ar) {
    && Initial(ar'.low) && Initial(ar'.high) && ar' == ar.(low := ar'.low, high := ar'.high, listening := true)
    && ar'.low.timers == ar.low.timers && ar'.high.timers == ar.high.timers
    && ar'.low.hist.sent == ar'.high.hist.sent == []
    && ar'.low.hist.handed == ar.low.hist.handed && ar'.high.hist.handed == ar.high.hist.handed
  }

  /** From every reachable state, close takes everything down, and after it as well as after the clearing of the
      record that follows it in an abort, activate starts afresh. */
  lemma CloseThenActivate(cfg: Config, events: seq<Event>)
    ensures var ar := CloseAr(cfg, Run(cfg, FRESH, events)); var cleared := ReleaseAr(ar);
            && ClosedDown(ar.low) && ClosedDown(ar.high) && ar.low.inQ == ar.high.inQ == Missing && !ar.listening
            && ActivationSucceeds(ar) && ActivationSucceeds(cleared)
            && SetUp(ar, ActivateAr(ar)) && SetUp(cleared, ActivateAr(cleared))
  {
    var ar := Run(cfg, FRESH, events);
    RunOk(cfg, FRESH, events);
    CloseArOk(cfg, ar);
  }

  // ---------------------------------------------------------- dead ends of APMR and ALPMR

  /** Exactly which frame sends APMR into WCNF for good: an in-sequence notification that cannot be parsed. */
  predicate JamsReceiver(cfg: Config, clock: nat, l: Line, p: Prio, rx: Rx) {
    && rx.version == 1 && rx.pdu == DataPdu && rx.tack && Judge(l.rcv, rx.sendSeq) == Fresh
    && rx.blockType == BlockTypeNotify(p) && !rx.parsed
    && cfg.env.alloc(clock) && cfg.env.send(clock)
  }

  lemma JammedExactly(cfg: Config, clock: nat, l: Line, p: Prio, rx: Rx)
    requires l.rcv.state == ApmrOpen
    ensures var out := Process(cfg, clock, l, p, rx);
            out.line.rcv.state == ApmrWCnf && !out.trouble.Abort? <==> JamsReceiver(cfg, clock, l, p, rx)
  {
    hide SeqOf;
    BlockTypesDiffer(p);
  }

  lemma BlockTypesDiffer(p: Prio)
    ensures BlockTypeAck(p) != BlockTypeNotify(p)
  {
  }

  /** What the application has seen so far. */
  function Seen(l: Line): (seq<Note>, seq<Reply>) {
    (l.hist.notes, l.hist.replies)
  }

  /** An in-sequence notification or alarm acknowledgement that its machine waits for. */
  predicate Awaited(l: Line, p: Prio, rx: Rx) {
    && l.rcv.state == ApmrOpen && rx.version == 1 && rx.pdu == DataPdu && rx.tack && Judge(l.rcv, rx.sendSeq) == Fresh
    && (if rx.blockType == BlockTypeAck(p) then l.alpmi == AlpmiWAck
        else rx.blockType == BlockTypeNotify(p) && rx.parsed && TakeAck(l, rx.ackSeq).alpmr == AlpmrWNotify)
  }

  /** The expected number advances before the acknowledgement is sent. An awaited PDU therefore reaches the application
      exactly when the local send succeeds; otherwise a retransmission is only acknowledged, and the PDU is lost. */
  lemma SwallowedExactly(cfg: Config, clock: nat, later: nat, l: Line, p: Prio, rx: Rx)
    requires Awaited(l, p, rx)
    ensures var out := Process(cfg, clock, l, p, rx);
            && out.line.rcv.accepted == l.rcv.accepted + 1
            && (out.ok <==> cfg.env.alloc(clock) && cfg.env.send(clock))
            && (out.ok <==> Seen(out.line) != Seen(TakeAck(l, rx.ackSeq)))
            && (!out.ok ==> var again := Process(cfg, later, out.line, p, rx);
                            again.ok && again.line.rcv == out.line.rcv && Seen(again.line) == Seen(out.line))
  {
    hide SeqOf;
    AcceptedOnlyOnce(l.rcv);
    VerdictsExclude(l.rcv);
    var out := Process(cfg, clock, l, p, rx);
    BlockTypesDiffer(p);
    TakeAckSpent(l, rx.ackSeq);
    var before, after := Seen(TakeAck(l, rx.ackSeq)), Seen(out.line);
    assert out.ok ==> |after.0| + |after.1| == |before.0| + |before.1| + 1;
  }

  /** An acknowledgement credits once. */
  lemma TakeAckSpent(l: Line, ackSeq: nat)
    ensures TakeAck(TakeAck(l, ackSeq), ackSeq) == TakeAck(l, ackSeq)
  {
  }

  /** What a handler's result does to the receiver and the responder of a line. */
  lemma HandlersKeep(cfg: Config, clock: nat, l: Line, p: Prio, rx: Rx, body: Body, alarm: Alarm)
    ensures Request(cfg, clock, l, body).line.rcv == l.rcv && Request(cfg, clock, l, body).line.alpmr == l.alpmr
    ensures Fire(cfg, clock, l).line.rcv == l.rcv && Fire(cfg, clock, l).line.alpmr == l.alpmr
    ensures SendInternal(cfg, clock, l, alarm).line.rcv == l.rcv
            && SendInternal(cfg, clock, l, alarm).line.alpmr == l.alpmr
    ensures l.rcv.state == ApmrWCnf ==> Process(cfg, clock, l, p, rx).line.rcv == l.rcv
  {
  }

  lemma ProcessKeepsUserAck(cfg: Config, clock: nat, l: Line, p: Prio, rx: Rx)
    requires l.alpmr == AlpmrWUserAck
    ensures Process(cfg, clock, l, p, rx).line.alpmr == AlpmrWUserAck
  {
  }

  /** `l'` has kept the receiver of `l`, or has been closed. */
  ghost predicate ReceiverKept(l: Line, l': Line) {
    l'.rcv == l.rcv || l'.rcv.state == ApmrClosed
  }

  /** `l'` still has a responder in W_USER_ACK, or has been closed. */
  ghost predicate StillUserAck(l': Line) {
    l'.alpmr == AlpmrWUserAck || (l'.alpmr == AlpmrWStart && l'.snd.state == ApmsClosed)
  }

  lemma FinishKeeps(cfg: Config, ar: Ar, q: Prio, out: Out, p: Prio)
    requires ReceiverKept(ar.At(p), ar.With(q, out.line).At(p))
    ensures ReceiverKept(ar.At(p), Finish(cfg, ar, q, out).At(p))
    ensures ar.With(q, out.line).low.alpmr == AlpmrWUserAck ==> StillUserAck(Finish(cfg, ar, q, out).low)
  {
  }

  lemma FinishKeepsUserAck(cfg: Config, ar: Ar, q: Prio, out: Out)
    requires ar.With(q, out.line).low.alpmr == AlpmrWUserAck
    ensures StillUserAck(Finish(cfg, ar, q, out).low)
  {
  }

  lemma TurnKeeps(cfg: Config, ar: Ar, q: Prio, p: Prio)
    ensures ar.At(p).rcv.state == ApmrWCnf ==> ReceiverKept(ar.At(p), Poll(cfg, ar, q).0.At(p))
    ensures ar.low.alpmr == AlpmrWUserAck ==> StillUserAck(Poll(cfg, ar, q).0.low)
  {
    var l := ar.At(q);
    if HasFrame(l) {
      var rx := l.inQ.items[0].frame;
      var out := Process(cfg, ar.clock, DropFrame(l), q, rx);
      HandlersKeep(cfg, ar.clock, DropFrame(l), q, rx, AlarmAck(SOME_ARGUMENT, 0), SOME_ALARM);
      if ar.low.alpmr == AlpmrWUserAck {
        if q == Low { ProcessKeepsUserAck(cfg, ar.clock, DropFrame(l), q, rx); }
        FinishKeepsUserAck(cfg, ar, q, out);
      }
      if ar.At(p).rcv.state == ApmrWCnf { FinishKeeps(cfg, ar, q, out, p); }
    }
  }

  lemma DispatchKeeps(cfg: Config, ar: Ar, q: Prio, p: Prio)
    requires CanDispatch(ar.At(q))
    ensures ReceiverKept(ar.At(p), DispatchLine(cfg, ar, q).At(p))
    ensures ar.low.alpmr == AlpmrWUserAck ==> StillUserAck(DispatchLine(cfg, ar, q).low)
  {
    var l := ar.At(q);
    HandlersKeep(cfg, ar.clock, DropAlarm(l), q, SOME_NOTIFICATION, AlarmAck(SOME_ARGUMENT, 0), l.outQ.items[0]);
    FinishKeeps(cfg, ar, q, SendInternal(cfg, ar.clock, DropAlarm(l), l.outQ.items[0]), p);
  }

  lemma ExpiryKeeps(cfg: Config, ar: Ar, q: Prio, p: Prio)
    ensures ReceiverKept(ar.At(p), Step(cfg, ar, TimerExpires(q)).At(p))
    ensures ar.low.alpmr == AlpmrWUserAck ==> StillUserAck(Step(cfg, ar, TimerExpires(q)).low)
  {
    HandlersKeep(cfg, ar.clock, ar.At(q), q, SOME_NOTIFICATION, AlarmAck(SOME_ARGUMENT, 0), SOME_ALARM);
    FinishKeeps(cfg, ar, q, Fire(cfg, ar.clock, ar.At(q)), p);
  }

  lemma AckKeeps(cfg: Config, ar: Ar, argument: AlarmArgument, status: nat, p: Prio)
    ensures ReceiverKept(ar.At(p), AckAlarm(cfg, ar, argument, status).At(p))
    ensures ar.low.alpmr == AlpmrWUserAck ==> StillUserAck(AckAlarm(cfg, ar, argument, status).low)
  {
    var body := AlarmAck(argument, status);
    HandlersKeep(cfg, ar.clock, TakeUserAck(ar.high, argument, status), High, SOME_NOTIFICATION, body, SOME_ALARM);
    FinishKeeps(cfg, ar, High, Request(cfg, ar.clock, TakeUserAck(ar.high, argument, status), body), p);
  }

  lemma JamKept(cfg: Config, ar: Ar, e: Event, p: Prio)
    requires ar.At(p).rcv.state == ApmrWCnf
    ensures ReceiverKept(ar.At(p), Step(cfg, ar, e).At(p))
  {
    if ar.faulted { return; }
    match e {
      case Turn(q) => TurnKeeps(cfg, ar, q, p);
      case Send =>
        assert ar.At(High) == ar.high && ar.At(Low) == ar.low;
        if CanDispatch(ar.high) { DispatchKeeps(cfg, ar, High, p); }
        if CanDispatch(ar.low) { DispatchKeeps(cfg, ar, Low, p); }
      case TimerExpires(q) => ExpiryKeeps(cfg, ar, q, p);
      case UserAck(argument, status) => AckKeeps(cfg, ar, argument, status, p);
      case Activation => ActivationKeepsJam(ar.low); ActivationKeepsJam(ar.high);
      case _ =>
    }
  }

  /** A jammed receiver accepts nothing more in any run, unless some event of the run closes it. */
  lemma {:induction false} JammedStaysJammed(cfg: Config, ar: Ar, events: seq<Event>, p: Prio)
    requires ar.At(p).rcv.state == ApmrWCnf
    requires forall k :: 0 <= k <= |events| ==> Run(cfg, ar, events[..k]).At(p).rcv.state != ApmrClosed
    ensures Run(cfg, ar, events).At(p).rcv == ar.At(p).rcv
    decreases |events|
  {
    if events != [] {
      var ar1 := Step(cfg, ar, events[0]);
      JamKept(cfg, ar, events[0], p);
      assert events[..1][1..] == [] && events[..1][0] == events[0];
      assert Run(cfg, ar, events[..1]) == Run(cfg, ar1, events[..1][1..]) == ar1;
      forall k | 0 <= k <= |events[1..]| ensures Run(cfg, ar1, events[1..][..k]).At(p).rcv.state != ApmrClosed {
        assert events[..k + 1][1..] == events[1..][..k];
        assert Run(cfg, ar, events[..k + 1]) == Run(cfg, ar1, events[1..][..k]);
      }
      JammedStaysJammed(cfg, ar1, events[1..], p);
    }
  }

  lemma ActivationKeepsJam(l: Line)
    ensures l.rcv.state == ApmrWCnf ==> ActivateLine(l).rcv == l.rcv
  {
  }

  /** Alarm acknowledgements always go out with high priority: a low-priority notification once indicated is
      never acknowledged; the responder leaves W_USER_ACK only when the AR closes. */
  lemma LowResponderStuck(cfg: Config, ar: Ar, e: Event)
    requires ar.low.alpmr == AlpmrWUserAck
    ensures StillUserAck(Step(cfg, ar, e).low)
  {
    if ar.faulted { return; }
    match e {
      case Turn(q) => TurnKeeps(cfg, ar, q, Low);
      case Send =>
        assert ar.At(High) == ar.high && ar.At(Low) == ar.low;
        if CanDispatch(ar.high) { DispatchKeeps(cfg, ar, High, Low); }
        if CanDispatch(ar.low) { DispatchKeeps(cfg, ar, Low, Low); }
      case TimerExpires(q) => ExpiryKeeps(cfg, ar, q, Low);
      case UserAck(argument, status) => AckKeeps(cfg, ar, argument, status, Low);
      case Activation => ActivationKeepsUserAck(ar.low);
      case _ =>
    }
  }

  lemma ActivationKeepsUserAck(l: Line)
    requires l.alpmr == AlpmrWUserAck
    ensures ActivateLine(l).alpmr == AlpmrWUserAck
  {
  }

  /** The low-priority responder has indicated at most one alarm and acknowledged none. */
  ghost predicate NeverAcked(l: Line) {
    && l.alpmr != AlpmrWTack
    && |l.hist.replies| <= 1 && (l.hist.replies != [] ==> l.hist.replies[0].Indicated?)
    && (l.alpmr == AlpmrWNotify ==> l.hist.replies == [])
  }

  lemma DeliverNeverAcked(cfg: Config, clock: nat, l: Line, p: Prio, rx: Rx)
    requires NeverAcked(l)
    ensures NeverAcked(Deliver(cfg, clock, l, p, rx).line)
  {
    hide SeqOf, Credits;
  }

  lemma DataIndNeverAcked(cfg: Config, clock: nat, l: Line, p: Prio, rx: Rx)
    requires NeverAcked(l)
    ensures NeverAcked(DataInd(cfg, clock, l, p, rx).line)
  {
    hide SeqOf, Judge, Credits, Deliver;
    DeliverNeverAcked(cfg, clock, l, p, rx);
  }

  lemma ProcessNeverAcked(cfg: Config, clock: nat, l: Line, p: Prio, rx: Rx)
    requires NeverAcked(l)
    ensures NeverAcked(Process(cfg, clock, l, p, rx).line)
  {
    hide SeqOf, Credits, DataInd;
    DataIndNeverAcked(cfg, clock, l, p, rx);
  }

  lemma HandlersNeverAcked(cfg: Config, clock: nat, l: Line, alarm: Alarm)
    requires NeverAcked(l)
    ensures NeverAcked(Fire(cfg, clock, l).line) && NeverAcked(SendInternal(cfg, clock, l, alarm).line)
  {
  }

  lemma FinishNeverAcked(cfg: Config, ar: Ar, q: Prio, out: Out)
    requires NeverAcked(ar.With(q, out.line).low)
    ensures NeverAcked(Finish(cfg, ar, q, out).low)
  {
  }

  lemma StepNeverAcked(cfg: Config, ar: Ar, e: Event)
    requires NeverAcked(ar.low)
    ensures NeverAcked(Step(cfg, ar, e).low)
  {
    hide Process, SeqOf;
    if ar.faulted { return; }
    assert ar.At(High) == ar.high && ar.At(Low) == ar.low;
    match e {
      case Turn(q) =>
        var l := ar.At(q);
        if HasFrame(l) {
          var out := Process(cfg, ar.clock, DropFrame(l), q, l.inQ.items[0].frame);
          if q == Low { ProcessNeverAcked(cfg, ar.clock, DropFrame(l), q, l.inQ.items[0].frame); }
          FinishNeverAcked(cfg, ar, q, out);
        }
      case Send =>
        forall q | CanDispatch(ar.At(q)) ensures NeverAcked(DispatchLine(cfg, ar, q).low) {
          var l := ar.At(q);
          if q == Low { HandlersNeverAcked(cfg, ar.clock, DropAlarm(l), l.outQ.items[0]); }
          FinishNeverAcked(cfg, ar, q, SendInternal(cfg, ar.clock, DropAlarm(l), l.outQ.items[0]));
        }
      case TimerExpires(q) =>
        if q == Low { HandlersNeverAcked(cfg, ar.clock, ar.low, SOME_ALARM); }
        FinishNeverAcked(cfg, ar, q, Fire(cfg, ar.clock, ar.At(q)));
      case UserAck(argument, status) =>
        FinishNeverAcked(cfg, ar, High,
          Request(cfg, ar.clock, TakeUserAck(ar.high, argument, status), AlarmAck(argument, status)));
      case _ =>
    }
  }

  /** In no run is a low-priority alarm of the controller ever acknowledged by the application, nor a second one
      indicated. */
  lemma {:induction false} LowAlarmsNeverAcknowledged(cfg: Config, ar: Ar, events: seq<Event>)
    requires NeverAcked(ar.low)
    ensures NeverAcked(Run(cfg, ar, events).low)
    decreases |events|
  {
    if events != [] {
      StepNeverAcked(cfg, ar, events[0]);
      LowAlarmsNeverAcknowledged(cfg, Step(cfg, ar, events[0]), events[1..]);
    }
  }

  /** An abort closes both priorities and, given a buffer, tells the controller the error code. */
  lemma AbortTellsController(cfg: Config, ar: Ar)
    requires ar.low.snd.state != ApmsClosed && cfg.env.alloc(ar.clock)
    ensures var ar' := AbortAr(cfg, ar); var sent := ar'.low.hist.sent;
            && ar'.low.snd.state == ar'.high.snd.state == ApmsClosed
            && sent == ar.low.hist.sent + [Sent(ar.low.snd.acked,
                 Tx(ErrPdu, false, SeqOf(ar.low.snd.acked), SeqOf(ar.low.rcv.accepted - 1),
                    Some(ErrorStatus(0xfd, ar.err.code))))]
            && ar'.high.hist.sent == ar.high.hist.sent
  {
    hide SeqOf;
  }

  /** A well-formed in-sequence notification while the previous one is with the application is a protocol violation. */
  lemma SecondNotificationViolates(cfg: Config, clock: nat, l: Line, p: Prio, rx: Rx)
    requires l.alpmr == AlpmrWUserAck && l.rcv.state == ApmrOpen && Judge(l.rcv, rx.sendSeq) == Fresh
    requires rx.version == 1 && rx.pdu == DataPdu && rx.tack && rx.parsed && rx.blockType == BlockTypeNotify(p)
    requires cfg.env.alloc(clock) && cfg.env.send(clock)
    ensures var out := Process(cfg, clock, l, p, rx);
            && out.trouble == Abort(Err(ERR_PROTOCOL, PROTOCOL_VIOLATION), false)
            && out.clock == clock + 1 && (l.snd.state != ApmsClosed ==> out.line.snd.state != ApmsClosed)
  {
    hide SeqOf;
    BlockTypesDiffer(p);
  }

  /** The next well-formed low-priority notification therefore aborts the AR, and the controller is told why. */
  lemma SecondLowNotificationAborts(cfg: Config, ar: Ar)
    requires HasFrame(ar.low) && ar.low.alpmr == AlpmrWUserAck && ar.low.rcv.state == ApmrOpen
    requires ar.low.snd.state != ApmsClosed
    requires var rx := ar.low.inQ.items[0].frame;
             && rx.version == 1 && rx.pdu == DataPdu && rx.tack && rx.parsed
             && rx.blockType == BlockTypeNotify(Low) && Judge(ar.low.rcv, rx.sendSeq) == Fresh
    requires cfg.env.alloc(ar.clock) && cfg.env.send(ar.clock) && cfg.env.alloc(ar.clock + 1)
    ensures var ar' := Poll(cfg, ar, Low).0; var sent := ar'.low.hist.sent;
            && ar'.low.snd.state == ar'.high.snd.state == ApmsClosed
            && sent != [] && sent[|sent| - 1].tx.pdu == ErrPdu
            && sent[|sent| - 1].tx.body == Some(ErrorStatus(ERR_PROTOCOL, PROTOCOL_VIOLATION))
  {
    hide Process, AbortAr;
    var rx := ar.low.inQ.items[0].frame;
    SecondNotificationViolates(cfg, ar.clock, DropFrame(ar.low), Low, rx);
    var out := Process(cfg, ar.clock, DropFrame(ar.low), Low, rx);
    AbortTellsController(cfg, ar.With(Low, out.line).(clock := out.clock, err := out.trouble.err));
  }
}
