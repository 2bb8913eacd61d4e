/**
  Two ARs joined by their lossy channels, one priority each: APMS, APMR, ALPMI and ALPMR of both
  sides run as in the C code.  As long as no handler raises an error indication, the pair does
  what the endpoints of module Transport do.  ALPMI and ALPMR let at most one alarm and one alarm
  acknowledgement be outstanding, so no frozen acknowledgement ever gets old, and the delivery
  promise holds without any premise on the run: alarms are indicated in the order in which they
  were handed over, each once, and so are their acknowledgements.
*/
module EndToEnd {
  import opened Wrappers
  import opened SequenceNumbers
  import opened Apmx
  import opened AlarmModel
  import opened AlarmInvariants
  import opened AlarmTheorems
  import AlarmSending
  import Transport

  /** What the receiving application is told about an alarm. */
  function ToldOf(alarm: Alarm, number: nat): Told {
    Told(AlarmArgument(alarm.alarmType, alarm.api, alarm.slot, alarm.subslot, number), alarm.usi, alarm.payload)
  }

  const NOTHING_TOLD := Told(AlarmArgument(0, 0, 0, 0, 0), 0, [])

  /** The frame `tx` as the peer parses it. */
  function Parsed(tx: Tx, p: Prio): Rx {
    match tx.body
    case Some(Notification(alarm, number)) =>
      Rx(1, tx.pdu, tx.tack, tx.sendSeq, tx.ackSeq, 0, BlockTypeNotify(p), true, ToldOf(alarm, number), 0, 0, 0)
    case Some(AlarmAck(_, status)) =>
      Rx(1, tx.pdu, tx.tack, tx.sendSeq, tx.ackSeq, 0, BlockTypeAck(p), true, NOTHING_TOLD, status, 0, 0)
    case _ =>
      Rx(1, tx.pdu, tx.tack, tx.sendSeq, tx.ackSeq, 0, 0, true, NOTHING_TOLD, 0, 0, 0)
  }

  /** `out` and `inc` are the frames under way from and to the left side. */
  datatype Pair = Pair(left: Line, right: Line, out: seq<Tx>, inc: seq<Tx>, clock: nat)

  function Swap(s: Pair): Pair {
    Pair(s.right, s.left, s.inc, s.out, s.clock)
  }

  /** The frames handed to the network on the way from `l` to `l'`. */
  function NewFrames(l: Line, l': Line): seq<Tx> {
    if |l.hist.sent| < |l'.hist.sent| then [l'.hist.sent[|l.hist.sent|].tx] else []
  }

  /** ALPMI sends an alarm, or the application acknowledges one. */
  function Launching(cfg: Config, clock: nat, l: Line, body: Body): Out {
    match body
    case Notification(alarm, _) => SendInternal(cfg, clock, l, alarm)
    case AlarmAck(argument, status) =>
      var out := Request(cfg, clock, TakeUserAck(l, argument, status), body);
      out.(line := out.line.(alpmr := AlpmrWTack))
    case ErrorStatus(_, _) => Out(l, clock, false, Fine)
  }

  /** The machine behind `body` is ready for it. Alarm acknowledgements exist in high priority only. */
  predicate CanLaunch(p: Prio, l: Line, body: Body) {
    match body
    case Notification(_, number) => l.alpmi == AlpmiWAlarm && number == l.seqNo
    case AlarmAck(_, _) => p == High && l.alpmr == AlpmrWUserAck
    case ErrorStatus(_, _) => false
  }

  /** The handler that a deed of the left side runs. */
  function Handle(cfg: Config, p: Prio, s: Pair, d: Transport.Deed): Out {
    match d
    case Submit(body, _) => Launching(cfg, s.clock, s.left, body)
    case Resend => Fire(cfg, s.clock, s.left)
    case Receive => if s.inc == [] then Out(s.left, s.clock, true, Fine)
                    else Process(cfg, s.clock, s.left, p, Parsed(s.inc[0], p))
    case _ => Out(s.left, s.clock, true, Fine)
  }

  function Perform(cfg: Config, p: Prio, s: Pair, d: Transport.Deed): Pair {
    var h := Handle(cfg, p, s, d);
    match d
    case Lose(at) => if at < |s.out| then s.(out := s.out[..at] + s.out[at + 1..]) else s
    case Duplicate(at) => if at < |s.out| then s.(out := s.out[..at] + [s.out[at]] + s.out[at..]) else s
    case _ => Pair(h.line, s.right, s.out + NewFrames(s.left, h.line),
                   if d.Receive? && s.inc != [] then s.inc[1..] else s.inc, h.clock)
  }

  function Step(cfg: Config, p: Prio, s: Pair, a: Transport.Action): Pair {
    if a.byPeer then Swap(Perform(cfg, p, Swap(s), a.deed)) else Perform(cfg, p, s, a.deed)
  }

  function Run(cfg: Config, p: Prio, s: Pair, actions: seq<Transport.Action>): Pair
    decreases |actions|
  {
    if actions == [] then s else Run(cfg, p, Step(cfg, p, s, actions[0]), actions[1..])
  }

  /** The deed succeeds, raises no error indication, and a resend is caused by a pending timer. */
  ghost predicate Smooth(cfg: Config, p: Prio, s: Pair, d: Transport.Deed) {
    && Handle(cfg, p, s, d).ok && !Handle(cfg, p, s, d).trouble.Abort?
    && (d.Submit? ==> d.retries == cfg.retries && CanLaunch(p, s.left, d.body))
    && (d.Resend? ==> s.left.timers > 0)
  }

  ghost predicate SmoothRun(cfg: Config, p: Prio, s: Pair, actions: seq<Transport.Action>)
    decreases |actions|
  {
    actions != [] ==>
      && Smooth(cfg, p, if actions[0].byPeer then Swap(s) else s, actions[0].deed)
      && SmoothRun(cfg, p, Step(cfg, p, s, actions[0]), actions[1..])
  }

  ghost predicate SameMachines(e: Transport.Endpoint, l: Line) {
    e.snd == l.snd && e.rcv == l.rcv
  }

  ghost predicate SameFrames(packets: seq<Transport.Packet>, txs: seq<Tx>) {
    |packets| == |txs| && forall i :: 0 <= i < |txs| ==> packets[i].tx == txs[i]
  }

  ghost predicate Simulates(n: Transport.Net, s: Pair) {
    && SameMachines(n.me, s.left) && SameMachines(n.peer, s.right)
    && SameFrames(n.out, s.out) && SameFrames(n.inc, s.inc)
  }

  /** `rx` is `tx` as the peer parses it. */
  predicate ParsedAs(rx: Rx, tx: Tx, p: Prio) {
    && rx.version == 1 && rx.pdu == tx.pdu && rx.tack == tx.tack && rx.sendSeq == tx.sendSeq && rx.ackSeq == tx.ackSeq
    && rx.varPartLen == 0 && rx.parsed
    && (tx.body.Some? && tx.body.value.Notification? ==>
          rx.blockType == BlockTypeNotify(p) && rx.told == ToldOf(tx.body.value.alarm, tx.body.value.sequenceNumber))
    && (tx.body.Some? && tx.body.value.AlarmAck? ==>
      rx.blockType == BlockTypeAck(p) && rx.status == tx.body.value.status)
  }

  lemma ParsedIsParsedAs(tx: Tx, p: Prio)
    ensures ParsedAs(Parsed(tx, p), tx, p)
  {
  }

  /** A frame as APMS and APMR send them. */
  predicate Regular(tx: Tx) {
    tx.pdu == AckPdu || (tx.pdu == DataPdu && tx.tack && tx.body.Some? && !tx.body.value.ErrorStatus?)
  }

  /** Delivering without trouble counts the PDU and acknowledges it. */
  lemma DeliveringRefines(cfg: Config, clock: nat, l: Line, p: Prio, rx: Rx)
    requires Deliver(cfg, clock, l, p, rx).ok && cfg.env.alloc(clock)
    ensures var l', l1 := Deliver(cfg, clock, l, p, rx).line, TakeAck(l, rx.ackSeq);
            && l'.snd == l1.snd && l'.rcv == Accept(l.rcv)
            && l'.hist.sent == l1.hist.sent + [Sent(l1.snd.acked, MakeAck(l1.snd, Accept(l.rcv)))]
  {
    hide SeqOf, TakeAck;
  }

  /** What a line does with a frame is what an endpoint does, and it sends the same reply. */
  lemma ReceivingRefines(cfg: Config, clock: nat, l: Line, p: Prio, e: Transport.Endpoint, tx: Tx, rx: Rx)
    requires SameMachines(e, l) && l.rcv.state == ApmrOpen && Regular(tx) && ParsedAs(rx, tx, p)
    requires Process(cfg, clock, l, p, rx).ok && !Process(cfg, clock, l, p, rx).trouble.Abort?
    requires Healthy(cfg.env)
    ensures var out := Process(cfg, clock, l, p, rx);
            var (e', reply) := Transport.Intake(e, tx);
            && SameMachines(e', out.line) && |reply| <= 1
            && out.line.hist.sent == l.hist.sent + (if reply == [] then [] else [Sent(e'.snd.acked, reply[0].tx)])
  {
    hide SeqOf, Deliver, Judge;
    assert cfg.env.alloc(clock);
    assert TakeAck(l, tx.ackSeq).snd == Credit(l.snd, tx.ackSeq) && TakeAck(l, tx.ackSeq).hist.sent == l.hist.sent;
    if tx.pdu == DataPdu && Judge(l.rcv, tx.sendSeq) == Fresh { DeliveringRefines(cfg, clock, l, p, rx); }
  }

  lemma LaunchingRefines(cfg: Config, clock: nat, p: Prio, l: Line, body: Body)
    requires CanLaunch(p, l, body) && l.snd.state == ApmsOpen && cfg.env.alloc(clock)
    ensures var out, tx := Launching(cfg, clock, l, body), MakeData(l.snd, l.rcv, body);
            && out.line.snd == Launch(l.snd, tx, true, cfg.retries) && out.line.rcv == l.rcv
            && out.line.hist.sent == l.hist.sent + [Sent(l.snd.acked, tx)]
  {
  }

  lemma ResendingRefines(cfg: Config, clock: nat, l: Line)
    requires l.timers > 0 && (l.snd.saved.Some? <==> l.snd.state == ApmsWTack) && !Fire(cfg, clock, l).trouble.Abort?
    ensures var out := Fire(cfg, clock, l).line; var resent := l.snd.state == ApmsWTack;
            && out.snd == (if resent then l.snd.(resend := l.snd.resend - 1) else l.snd) && out.rcv == l.rcv
            && (resent ==> l.snd.resend > 0)
            && out.hist.sent == l.hist.sent + (if resent then [Sent(l.snd.acked, l.snd.saved.value)] else [])
  {
  }

  lemma SubmissionRefines(cfg: Config, p: Prio, n: Transport.Net, s: Pair, body: Body)
    requires Healthy(cfg.env) && Simulates(n, s) && Smooth(cfg, p, s, Transport.Submit(body, cfg.retries))
    ensures Simulates(Transport.Submission(n, body, cfg.retries),
            Perform(cfg, p, s, Transport.Submit(body, cfg.retries)))
  {
    hide Launching, Launch, MakeData;
    assert cfg.env.alloc(s.clock);
    LaunchesOpen(cfg, s.clock, s.left, body);
    LaunchingRefines(cfg, s.clock, p, s.left, body);
  }

  lemma RetransmissionRefines(cfg: Config, p: Prio, n: Transport.Net, s: Pair)
    requires Transport.Inv(n) && Simulates(n, s) && Smooth(cfg, p, s, Transport.Resend)
    ensures Simulates(Transport.Retransmission(n), Perform(cfg, p, s, Transport.Resend))
  {
    hide Fire, Transport.ChannelOk;
    ResendingRefines(cfg, s.clock, s.left);
  }

  /** The users submit alarms and alarm acknowledgements only. */
  ghost predicate NoErrors(n: Transport.Net) {
    forall b :: b in n.peer.submitted ==> !b.ErrorStatus?
  }

  lemma RegularFrames(n: Transport.Net)
    requires Transport.Core(n) && NoErrors(n) && n.inc != []
    ensures Regular(n.inc[0].tx)
  {
    assert Transport.PacketOk(n.peer, n.me, n.inc[0]);
  }

  lemma ReceptionRefines(cfg: Config, p: Prio, n: Transport.Net, s: Pair)
    requires Healthy(cfg.env) && Transport.Inv(n) && Simulates(n, s) && Smooth(cfg, p, s, Transport.Receive)
    requires NoErrors(n)
    ensures Simulates(Transport.Reception(n), Perform(cfg, p, s, Transport.Receive))
  {
    hide Process, Transport.Intake;
    if s.inc != [] {
      assert Transport.PacketOk(n.peer, n.me, n.inc[0]);
      ParsedIsParsedAs(s.inc[0], p);
      RegularFrames(n);
      ReceivingRefines(cfg, s.clock, s.left, p, n.me, s.inc[0], Parsed(s.inc[0], p));
    }
  }

  lemma DeedRefines(cfg: Config, p: Prio, n: Transport.Net, s: Pair, d: Transport.Deed)
    requires Healthy(cfg.env) && Transport.Inv(n) && Simulates(n, s) && Smooth(cfg, p, s, d) && NoErrors(n)
    ensures Simulates(Transport.Perform(n, d), Perform(cfg, p, s, d))
  {
    match d {
      case Submit(body, retries) => SubmissionRefines(cfg, p, n, s, body);
      case Resend => RetransmissionRefines(cfg, p, n, s);
      case Receive => ReceptionRefines(cfg, p, n, s);
      case _ =>
    }
  }

  lemma LaunchesOpen(cfg: Config, clock: nat, l: Line, body: Body)
    ensures Launching(cfg, clock, l, body).ok ==> l.snd.state == ApmsOpen
  {
  }

  /** No handler hands more than one frame to the network. */
  lemma AtMostOneFrame(cfg: Config, p: Prio, s: Pair, d: Transport.Deed)
    ensures |Handle(cfg, p, s, d).line.hist.sent| <= |s.left.hist.sent| + 1
  {
    hide Process;
    if s.inc != [] { ProcessSendsOne(cfg, s.clock, s.left, p, Parsed(s.inc[0], p)); }
  }

  lemma ProcessSendsOne(cfg: Config, clock: nat, l: Line, p: Prio, rx: Rx)
    ensures |Process(cfg, clock, l, p, rx).line.hist.sent| <= |l.hist.sent| + 1
  {
    hide SeqOf, Judge, TakeAck, BlockTypeAck, BlockTypeNotify;
    assert TakeAck(l, rx.ackSeq).hist.sent == l.hist.sent by { TakeAckSendsNothing(l, rx.ackSeq); }
  }

  lemma TakeAckSendsNothing(l: Line, ackSeq: nat)
    ensures TakeAck(l, ackSeq).hist.sent == l.hist.sent
  {
  }

  // ------------------------------------------------------------- contents

  /** The alarms among the bodies sent. */
  function Alarms(bodies: seq<Body>): seq<Alarm> {
    if bodies == [] then [] else
    var b := bodies[|bodies| - 1];
    Alarms(bodies[..|bodies| - 1]) + (if b.Notification? then [b.alarm] else [])
  }

  /** What the bodies tell the receiving application. */
  function Tellings(bodies: seq<Body>): seq<Told> {
    if bodies == [] then [] else
    var b := bodies[|bodies| - 1];
    Tellings(bodies[..|bodies| - 1]) + (if b.Notification? then [ToldOf(b.alarm, b.sequenceNumber)] else [])
  }

  /** The PNIO status of each alarm acknowledgement among the bodies. */
  function Answers(bodies: seq<Body>): seq<nat> {
    if bodies == [] then [] else
    var b := bodies[|bodies| - 1];
    Answers(bodies[..|bodies| - 1]) + (if b.AlarmAck? then [b.status] else [])
  }

  /** The alarms indicated to the application, and its answers. */
  function Indications(replies: seq<Reply>): seq<Told> {
    if replies == [] then [] else
    var r := replies[|replies| - 1];
    Indications(replies[..|replies| - 1]) + (if r.Indicated? then [r.told] else [])
  }

  function AnswersGiven(replies: seq<Reply>): seq<nat> {
    if replies == [] then [] else
    var r := replies[|replies| - 1];
    AnswersGiven(replies[..|replies| - 1]) + (if r.Acknowledged? then [r.status] else [])
  }

  /** The answers the sending application got. */
  function Confirmations(notes: seq<Note>): seq<nat> {
    if notes == [] then [] else
    var n := notes[|notes| - 1];
    Confirmations(notes[..|notes| - 1]) + (if n.Confirmed? then [n.status] else [])
  }

  lemma OneMoreBody(bodies: seq<Body>, b: Body)
    ensures Alarms(bodies + [b]) == Alarms(bodies) + (if b.Notification? then [b.alarm] else [])
    ensures Tellings(bodies + [b])
            == Tellings(bodies) + (if b.Notification? then [ToldOf(b.alarm, b.sequenceNumber)] else [])
    ensures Answers(bodies + [b]) == Answers(bodies) + (if b.AlarmAck? then [b.status] else [])
  {
    assert (bodies + [b])[..|bodies|] == bodies;
  }

  lemma OneMoreReply(replies: seq<Reply>, r: Reply)
    ensures Indications(replies + [r]) == Indications(replies) + (if r.Indicated? then [r.told] else [])
    ensures AnswersGiven(replies + [r]) == AnswersGiven(replies) + (if r.Acknowledged? then [r.status] else [])
  {
    assert (replies + [r])[..|replies|] == replies;
  }

  lemma OneMoreNote(notes: seq<Note>, n: Note)
    ensures Confirmations(notes + [n]) == Confirmations(notes) + (if n.Confirmed? then [n.status] else [])
  {
    assert (notes + [n])[..|notes|] == notes;
  }

  /** Bodies are alarms and alarm acknowledgements; what is told is what the alarms say. */
  lemma {:induction false} TellingsAreAlarms(bodies: seq<Body>)
    ensures |Tellings(bodies)| == |Alarms(bodies)| && |Alarms(bodies)| + |Answers(bodies)| <= |bodies|
    ensures (forall b :: b in bodies ==> !b.ErrorStatus?) ==> |Alarms(bodies)| + |Answers(bodies)| == |bodies|
    ensures forall k :: 0 <= k < |Alarms(bodies)| ==>
            Tellings(bodies)[k] == ToldOf(Alarms(bodies)[k], Tellings(bodies)[k].argument.sequenceNumber)
  {
    if bodies != [] { TellingsAreAlarms(bodies[..|bodies| - 1]); }
  }

  /** What a prefix of the bodies tells is a prefix. */
  lemma {:induction false} PrefixTells(xs: seq<Body>, ys: seq<Body>)
    requires xs <= ys
    ensures Tellings(xs) <= Tellings(ys) && Answers(xs) <= Answers(ys)
    decreases |ys|
  {
    if |xs| < |ys| {
      var init := ys[..|ys| - 1];
      PrefixTells(xs, init);
    } else {
      assert xs == ys;
    }
  }

  function AsCount(b: bool): nat { if b then 1 else 0 }

  /** The line has sent, indicated and confirmed what its endpoint has submitted and delivered, and its machines are
      where these counts put them; `before` are the alarms handed over before the connection began. */
  ghost predicate Contents(before: seq<Alarm>, e: Transport.Endpoint, l: Line) {
    && l.hist.handed == before + Alarms(e.submitted)
    && Indications(l.hist.replies) == Tellings(e.delivered)
    && AnswersGiven(l.hist.replies) == Answers(e.submitted)
    && Confirmations(l.hist.notes) == Answers(e.delivered)
    && (forall b :: b in e.submitted ==> !b.ErrorStatus?)
    && l.alpmi != AlpmiWStart && l.alpmr != AlpmrWStart
    && |Alarms(e.submitted)| == |Answers(e.delivered)| + AsCount(l.alpmi == AlpmiWAck)
    && |Answers(e.submitted)| + AsCount(l.alpmr == AlpmrWUserAck) <= |Tellings(e.delivered)|
  }

  /** A notification carries its position among the PDUs of its side. */
  ghost predicate Positioned(bodies: seq<Body>) {
    forall i :: 0 <= i < |bodies| && bodies[i].Notification? ==> bodies[i].sequenceNumber == i % 0x800
  }

  /** So far, and the next one will. */
  ghost predicate InPosition(e: Transport.Endpoint, l: Line) {
    Positioned(e.submitted) && l.seqNo == |e.submitted| % 0x800
  }

  /** DATA frames acknowledge all but at most one of the PDUs before them. */
  ghost predicate AcksNear(e: Transport.Endpoint, ab: seq<Transport.Packet>) {
    && (forall i :: 0 <= i < |ab| && ab[i].tx.pdu == DataPdu ==> ab[i].ix <= ab[i].ackIx + 1)
    && (e.snd.state == ApmsWTack ==> e.snd.acked <= e.savedAckIx + 1)
  }

  /** The two nets go together, and the users keep the acknowledgements young. */
  ghost predicate Joined(beforeL: seq<Alarm>, beforeR: seq<Alarm>, n: Transport.Net, s: Pair) {
    && Transport.Inv(n) && Simulates(n, s)
    && Contents(beforeL, n.me, s.left) && Contents(beforeR, n.peer, s.right)
    && AcksNear(n.me, n.out) && AcksNear(n.peer, n.inc)
    && InPosition(n.me, s.left) && InPosition(n.peer, s.right)
  }

  lemma JoinedSwap(beforeL: seq<Alarm>, beforeR: seq<Alarm>, n: Transport.Net, s: Pair)
    ensures Joined(beforeL, beforeR, n, s) == Joined(beforeR, beforeL, Transport.Swap(n), Swap(s))
  {
    Transport.SwapTwice(n);
  }

  /** At most one PDU more than were accepted is ever submitted: the machines wait for each other. */
  lemma Budget(before: seq<Alarm>, e: Transport.Endpoint, l: Line)
    requires Contents(before, e, l)
    ensures |e.submitted| + AsCount(l.alpmi == AlpmiWAlarm) + AsCount(l.alpmr == AlpmrWUserAck) <= |e.delivered| + 1
  {
    TellingsAreAlarms(e.submitted);
    TellingsAreAlarms(e.delivered);
  }

  /** So no acknowledgement is ever more than three PDUs old when it arrives, and none has come round. */
  lemma NeverMisled(beforeL: seq<Alarm>, beforeR: seq<Alarm>, n: Transport.Net, s: Pair)
    requires Joined(beforeL, beforeR, n, s)
    ensures n.inc != [] ==> n.me.snd.acked <= n.inc[0].ackIx + 3
    ensures !Transport.Misleads(n)
  {
    if n.inc != [] {
      assert Transport.PacketOk(n.peer, n.me, n.inc[0]);
      Budget(beforeL, n.me, s.left);
      if Transport.Misleads(n) { Transport.AcksNeverMislead(n); }
    }
  }

  /** What delivering without trouble does to the users. */
  lemma DeliveringTells(cfg: Config, clock: nat, l: Line, p: Prio, tx: Tx, rx: Rx)
    requires l.alpmr != AlpmrWStart && tx.pdu == DataPdu && Regular(tx) && ParsedAs(rx, tx, p)
    requires Deliver(cfg, clock, l, p, rx).ok
    ensures var l', l1 := Deliver(cfg, clock, l, p, rx).line, TakeAck(l, tx.ackSeq);
            && l'.hist.handed == l.hist.handed
            && (tx.body.value.Notification? ==>
                  && l'.alpmr == AlpmrWUserAck && l'.alpmi == l.alpmi && l'.hist.notes == l.hist.notes
                  && l1.alpmr == AlpmrWNotify && l'.hist.replies == l1.hist.replies + [Indicated(rx.told)])
            && (tx.body.value.AlarmAck? ==>
                  && l'.alpmr == l1.alpmr && l'.hist.replies == l1.hist.replies
                  && (l.alpmi == AlpmiWAck ==>
                        l'.alpmi == AlpmiWAlarm && l'.hist.notes == l.hist.notes + [Confirmed(rx.status)]))
  {
    hide SeqOf, TakeAck, BlockTypeAck, BlockTypeNotify;
    BlockTypesDiffer(p);
    TakeAckTells(l, tx.ackSeq);
  }

  /** What processing a frame without trouble does to the users. */
  lemma ReceivingTells(cfg: Config, clock: nat, l: Line, p: Prio, tx: Tx, rx: Rx)
    requires l.rcv.state == ApmrOpen && l.alpmr != AlpmrWStart && Regular(tx) && ParsedAs(rx, tx, p)
    requires Process(cfg, clock, l, p, rx).ok && !Process(cfg, clock, l, p, rx).trouble.Abort?
    ensures var l', l1 := Process(cfg, clock, l, p, rx).line, TakeAck(l, tx.ackSeq);
            var takes := tx.pdu == DataPdu && Judge(l.rcv, tx.sendSeq) == Fresh;
            && (takes ==> Deliver(cfg, clock, l, p, rx).ok && l' == Deliver(cfg, clock, l, p, rx).line)
            && (!takes ==> l'.hist.handed == l.hist.handed && l'.alpmi == l.alpmi && l'.hist.notes == l.hist.notes
                           && ((l'.alpmr == l1.alpmr && l'.hist.replies == l1.hist.replies)
                               || (l'.alpmr == l.alpmr && l'.hist.replies == l.hist.replies)))
  {
    hide SeqOf, TakeAck, BlockTypeAck, BlockTypeNotify, Deliver, Judge;
    TakeAckTells(l, tx.ackSeq);
  }

  lemma TakeAckTells(l: Line, ackSeq: nat)
    ensures var l1 := TakeAck(l, ackSeq);
            && l1.alpmi == l.alpmi && l1.hist.notes == l.hist.notes && l1.hist.handed == l.hist.handed
            && (l1.alpmr == AlpmrWStart <==> l.alpmr == AlpmrWStart)
            && (l1.alpmr == AlpmrWUserAck <==> l.alpmr == AlpmrWUserAck)
            && Indications(l1.hist.replies) == Indications(l.hist.replies)
            && AnswersGiven(l1.hist.replies) == AnswersGiven(l.hist.replies)
  {
    OneMoreReply(l.hist.replies, AckConfirmed);
  }

  /** What launching without trouble does to the users. */
  lemma LaunchingTells(cfg: Config, clock: nat, l: Line, body: Body)
    requires Launching(cfg, clock, l, body).ok && !body.ErrorStatus?
    ensures var l' := Launching(cfg, clock, l, body).line;
            && (body.Notification? ==>
                  && l'.hist.handed == l.hist.handed + [body.alarm] && l'.alpmi == AlpmiWAck && l'.alpmr == l.alpmr
                  && l'.hist.notes == l.hist.notes + [Notified(body.alarm)] && l'.hist.replies == l.hist.replies)
            && (body.AlarmAck? ==>
                  && l'.hist.handed == l.hist.handed && l'.alpmr == AlpmrWTack && l'.alpmi == l.alpmi
                  && l'.hist.replies == l.hist.replies + [Acknowledged(body.argument, body.status)]
                  && l'.hist.notes == l.hist.notes)
  {
  }

  lemma SubmissionJoins(cfg: Config, p: Prio, beforeL: seq<Alarm>, beforeR: seq<Alarm>, n: Transport.Net, s: Pair,
        body: Body)
    requires Joined(beforeL, beforeR, n, s) && Smooth(cfg, p, s, Transport.Submit(body, cfg.retries))
    ensures var n', s' := Transport.Submission(n, body, cfg.retries),
            Perform(cfg, p, s, Transport.Submit(body, cfg.retries));
            Contents(beforeL, n'.me, s'.left) && AcksNear(n'.me, n'.out)
  {
    hide Launching, Launch, MakeData, Transport.ChannelOk, Transport.AcksRecent, Alarms, Tellings, Answers, Indications,
         AnswersGiven, Confirmations;
    LaunchesOpen(cfg, s.clock, s.left, body);
    LaunchingTells(cfg, s.clock, s.left, body);
    Budget(beforeL, n.me, s.left);
    OneMoreBody(n.me.submitted, body);
    match body {
      case Notification(alarm, _) => OneMoreNote(s.left.hist.notes, Notified(alarm));
      case AlarmAck(argument, status) => OneMoreReply(s.left.hist.replies, Acknowledged(argument, status));
      case _ =>
    }
    SubmissionNear(n, body, cfg.retries);
  }

  lemma SubmissionNear(n: Transport.Net, body: Body, retries: nat)
    requires AcksNear(n.me, n.out) && n.me.snd.state == ApmsOpen && n.me.snd.acked <= n.me.rcv.accepted
    ensures var n' := Transport.Submission(n, body, retries); AcksNear(n'.me, n'.out)
  {
  }

  lemma ResendingJoins(cfg: Config, p: Prio, beforeL: seq<Alarm>, beforeR: seq<Alarm>, n: Transport.Net, s: Pair)
    requires Joined(beforeL, beforeR, n, s) && Smooth(cfg, p, s, Transport.Resend)
    ensures var n', s' := Transport.Retransmission(n), Perform(cfg, p, s, Transport.Resend);
            Contents(beforeL, n'.me, s'.left) && AcksNear(n'.me, n'.out)
  {
    hide Transport.ChannelOk, Transport.AcksRecent, Alarms, Tellings, Answers;
  }

  /** The peer's alarm acknowledgement answers an alarm of this side: ALPMI is waiting for it. */
  lemma AnswerIsAwaited(beforeL: seq<Alarm>, beforeR: seq<Alarm>, n: Transport.Net, s: Pair, p: Transport.Packet)
    requires Joined(beforeL, beforeR, n, s) && Transport.PacketOk(n.peer, n.me, p)
    requires p.tx.pdu == DataPdu && p.ix == n.me.rcv.accepted && p.tx.body.value.AlarmAck?
    ensures s.left.alpmi == AlpmiWAck
  {
    var next := n.me.delivered + [p.tx.body.value];
    assert next == n.peer.submitted[..p.ix + 1];
    OneMoreBody(n.me.delivered, p.tx.body.value);
    PrefixTells(next, n.peer.submitted);
    PrefixTells(n.peer.delivered, n.me.submitted);
    TellingsAreAlarms(n.me.submitted);
  }

  lemma ReceptionJoins(cfg: Config, p: Prio, beforeL: seq<Alarm>, beforeR: seq<Alarm>, n: Transport.Net, s: Pair)
    requires Joined(beforeL, beforeR, n, s) && Smooth(cfg, p, s, Transport.Receive)
    ensures var n', s' := Transport.Reception(n), Perform(cfg, p, s, Transport.Receive);
            Contents(beforeL, n'.me, s'.left) && AcksNear(n'.me, n'.out) && AcksNear(n'.peer, n'.inc)
  {
    hide Process, Deliver, Parsed, TakeAck, Alarms, Tellings, Answers, Indications, AnswersGiven, Confirmations, SeqOf;
    if n.inc != [] {
      var pk := n.inc[0];
      Transport.HeadOk(n);
      ReceptionNear(n);
      TakeAckTells(s.left, pk.tx.ackSeq);
      ParsedIsParsedAs(pk.tx, p);
      RegularFrames(n);
      ReceivingTells(cfg, s.clock, s.left, p, pk.tx, Parsed(pk.tx, p));
      if pk.tx.pdu == DataPdu {
        Transport.NeverOutOfSequence(n);
        var body := pk.tx.body.value;
        assert body in n.peer.submitted;
        if pk.ix == n.me.rcv.accepted {
          if body.AlarmAck? { AnswerIsAwaited(beforeL, beforeR, n, s, pk); }
          OneMoreBody(n.me.delivered, body);
          DeliveringTells(cfg, s.clock, s.left, p, pk.tx, Parsed(pk.tx, p));
          TakeAckAndTell(s.left, pk.tx.ackSeq, body);
        }
      }
    }
  }

  lemma TakeAckAndTell(l: Line, ackSeq: nat, body: Body)
    ensures body.Notification? ==>
              var told := Indicated(ToldOf(body.alarm, body.sequenceNumber));
              var replies := TakeAck(l, ackSeq).hist.replies + [told];
              && Indications(replies) == Indications(l.hist.replies) + [told.told]
              && AnswersGiven(replies) == AnswersGiven(l.hist.replies)
    ensures body.AlarmAck? ==>
              Confirmations(l.hist.notes + [Confirmed(body.status)]) == Confirmations(l.hist.notes) + [body.status]
  {
    TakeAckTells(l, ackSeq);
    if body.Notification? {
      OneMoreReply(TakeAck(l, ackSeq).hist.replies, Indicated(ToldOf(body.alarm, body.sequenceNumber)));
    }
    if body.AlarmAck? { OneMoreNote(l.hist.notes, Confirmed(body.status)); }
  }

  lemma ReceptionNear(n: Transport.Net)
    requires Transport.Core(n) && AcksNear(n.me, n.out) && AcksNear(n.peer, n.inc) && n.inc != []
    ensures var n' := Transport.Reception(n); AcksNear(n'.me, n'.out) && AcksNear(n'.peer, n'.inc)
  {
    hide SeqOf;
    Transport.HeadOk(n);
    if n.inc[0].tx.pdu == DataPdu { Transport.NeverOutOfSequence(n); }
  }

  lemma JoinedWithoutErrors(beforeL: seq<Alarm>, beforeR: seq<Alarm>, n: Transport.Net, s: Pair)
    requires Joined(beforeL, beforeR, n, s)
    ensures NoErrors(n)
  {
  }

  /** Launching takes the next number; no other deed takes one. */
  lemma DeedNumbers(cfg: Config, p: Prio, n: Transport.Net, s: Pair, d: Transport.Deed)
    requires Simulates(n, s) && Smooth(cfg, p, s, d) && InPosition(n.me, s.left)
    ensures var n', s' := Transport.Perform(n, d), Perform(cfg, p, s, d);
            && InPosition(n'.me, s'.left)
            && n'.me.submitted == n.me.submitted + (if d.Submit? then [d.body] else [])
            && n'.peer == n.peer && s'.right == s.right
  {
    hide Process, Parsed, SeqOf, Transport.Intake;
    match d {
      case Submit(body, _) =>
        LaunchesOpen(cfg, s.clock, s.left, body);
        AlarmSending.NextNumber(|n.me.submitted|);
      case Receive =>
        if s.inc != [] {
          AlarmSending.ProcessKeepsNumbers(cfg, s.clock, s.left, p, Parsed(s.inc[0], p));
          IntakeSubmitsNothing(n.me, n.inc[0].tx);
        }
      case _ =>
    }
  }

  lemma IntakeSubmitsNothing(e: Transport.Endpoint, tx: Tx)
    ensures Transport.Intake(e, tx).0.submitted == e.submitted
  {
  }

  lemma DeedJoins(cfg: Config, p: Prio, beforeL: seq<Alarm>, beforeR: seq<Alarm>, n: Transport.Net, s: Pair,
        d: Transport.Deed)
    requires Healthy(cfg.env) && Joined(beforeL, beforeR, n, s) && Smooth(cfg, p, s, d)
    ensures Joined(beforeL, beforeR, Transport.Perform(n, d), Perform(cfg, p, s, d))
    ensures Transport.Perform(n, d).me.submitted == n.me.submitted + (if d.Submit? then [d.body] else [])
    ensures Transport.Perform(n, d).peer.submitted == n.peer.submitted
  {
    hide Contents, Transport.Core, InPosition;
    DeedNumbers(cfg, p, n, s, d);
    NeverMisled(beforeL, beforeR, n, s);
    Transport.CoreOf(n);
    JoinedWithoutErrors(beforeL, beforeR, n, s);
    DeedRefines(cfg, p, n, s, d);
    DeedKeepsInv(n, d);
    match d {
      case Submit(body, retries) => SubmissionJoins(cfg, p, beforeL, beforeR, n, s, body);
      case Resend => ResendingJoins(cfg, p, beforeL, beforeR, n, s);
      case Receive => if s.inc != [] { ReceptionJoins(cfg, p, beforeL, beforeR, n, s); }
      case _ =>
    }
  }

  lemma DeedKeepsInv(n: Transport.Net, d: Transport.Deed)
    requires Transport.Inv(n) && !Transport.Misleads(n)
    ensures Transport.Inv(Transport.Perform(n, d))
  {
    hide Transport.Core, Transport.AcksRecent, Transport.Perform;
    var a := Transport.Action(false, d);
    Transport.CoreOf(n);
    Transport.PrematureMisleads(n);
    Transport.StepKeeps(n, a);
    assert Transport.Step(n, a) == Transport.Perform(n, d);
  }

  function OneSubmitted(a: Transport.Action, byPeer: bool): seq<Body> {
    if a.deed.Submit? && a.byPeer == byPeer then [a.deed.body] else []
  }

  /** The PDUs that one side submits in a run. */
  function Submitted(actions: seq<Transport.Action>, byPeer: bool): seq<Body> {
    if actions == [] then [] else OneSubmitted(actions[0], byPeer) + Submitted(actions[1..], byPeer)
  }

  /** One action of either side. */
  lemma ActionJoins(cfg: Config, p: Prio, beforeL: seq<Alarm>, beforeR: seq<Alarm>, n: Transport.Net, s: Pair,
        a: Transport.Action)
    requires Healthy(cfg.env) && Joined(beforeL, beforeR, n, s)
    requires Smooth(cfg, p, if a.byPeer then Swap(s) else s, a.deed)
    ensures Joined(beforeL, beforeR, Transport.Step(n, a), Step(cfg, p, s, a))
    ensures Transport.Step(n, a).me.submitted == n.me.submitted + OneSubmitted(a, false)
    ensures Transport.Step(n, a).peer.submitted == n.peer.submitted + OneSubmitted(a, true)
  {
    hide Joined, Perform, Transport.Perform, Smooth;
    if a.byPeer {
      JoinedSwap(beforeL, beforeR, n, s);
      DeedJoins(cfg, p, beforeR, beforeL, Transport.Swap(n), Swap(s), a.deed);
      JoinedSwap(beforeR, beforeL, Transport.Perform(Transport.Swap(n), a.deed), Perform(cfg, p, Swap(s), a.deed));
    } else {
      DeedJoins(cfg, p, beforeL, beforeR, n, s, a.deed);
    }
  }

  /** Every smooth run of the pair is simulated by the same run of two endpoints, which send exactly what is
      submitted. */
  lemma {:induction false} RunRefines(cfg: Config, p: Prio, beforeL: seq<Alarm>, beforeR: seq<Alarm>, n: Transport.Net,
        s: Pair, actions: seq<Transport.Action>)
    requires Healthy(cfg.env) && Joined(beforeL, beforeR, n, s) && SmoothRun(cfg, p, s, actions)
    ensures Joined(beforeL, beforeR, Transport.Run(n, actions), Run(cfg, p, s, actions))
    ensures Transport.Run(n, actions).me.submitted == n.me.submitted + Submitted(actions, false)
    ensures Transport.Run(n, actions).peer.submitted == n.peer.submitted + Submitted(actions, true)
    decreases |actions|
  {
    hide Joined, Step, Transport.Step, Smooth, OneSubmitted;
    if actions != [] {
      var a := actions[0];
      ActionJoins(cfg, p, beforeL, beforeR, n, s, a);
      RunRefines(cfg, p, beforeL, beforeR, Transport.Step(n, a), Step(cfg, p, s, a), actions[1..]);
    }
  }

  // ---------------------------------------------------------- main results

  /** Both sides are freshly activated. */
  ghost predicate FreshPair(s: Pair) {
    Initial(s.left) && Initial(s.right) && s.out == s.inc == []
  }

  lemma FreshPairJoined(s: Pair)
    requires FreshPair(s)
    ensures Joined(s.left.hist.handed, s.right.hist.handed, Transport.START, s)
  {
  }

  /** PDUs of `a` and their acknowledgements. */
  ghost predicate InStep(a: Line, b: Line) {
    && a.snd.acked <= b.rcv.accepted <= a.snd.acked + 1
    && (a.snd.state == ApmsOpen ==> b.rcv.accepted == a.snd.acked)
  }

  /** The alarms told to the application of `b` are the first of those `a` has handed over since `before`, in order,
      with the numbers that their positions among the PDUs `bodies` of `a` give them. */
  ghost predicate AlarmsArrive(before: seq<Alarm>, bodies: seq<Body>, a: Line, b: Line) {
    var told := Indications(b.hist.replies);
    && a.hist.handed == before + Alarms(bodies)
    && told <= Tellings(bodies) && |told| <= |Alarms(bodies)|
    && (forall k :: 0 <= k < |told| ==> told[k] == ToldOf(Alarms(bodies)[k], told[k].argument.sequenceNumber))
    && Positioned(bodies)
  }

  /** The confirmations `a` has got are the first of the answers the application of `b` has given, in order. */
  ghost predicate AnswersArrive(a: Line, b: Line) {
    Confirmations(a.hist.notes) <= AnswersGiven(b.hist.replies)
  }

  lemma JoinedSimulates(beforeL: seq<Alarm>, beforeR: seq<Alarm>, n: Transport.Net, s: Pair)
    requires Joined(beforeL, beforeR, n, s)
    ensures Transport.Inv(n) && Simulates(n, s)
  {
  }

  lemma ArrivalsFollow(beforeL: seq<Alarm>, beforeR: seq<Alarm>, n: Transport.Net, s: Pair)
    requires Joined(beforeL, beforeR, n, s)
    ensures InStep(s.left, s.right)
    ensures AlarmsArrive(beforeL, n.me.submitted, s.left, s.right) && AnswersArrive(s.left, s.right)
  {
    PrefixTells(n.peer.delivered, n.me.submitted);
    PrefixTells(n.me.delivered, n.peer.submitted);
    TellingsAreAlarms(n.me.submitted);
    Transport.PromiseBrokenExactly(n);
  }

  /** Between two freshly activated ARs and over every smooth run, both ways: the simulating endpoints keep the
      delivery promise, PDU counts agree, alarms are indicated in the order they were handed over, each once and with
      the number of its position, and confirmations carry the answers of the other application in order. */
  lemma TwoArsDeliver(cfg: Config, p: Prio, s: Pair, actions: seq<Transport.Action>)
    requires Healthy(cfg.env) && FreshPair(s) && SmoothRun(cfg, p, s, actions)
    ensures var n, s' := Transport.Run(Transport.START, actions), Run(cfg, p, s, actions);
            && Simulates(n, s') && Transport.Promises(n)
            && InStep(s'.left, s'.right) && InStep(s'.right, s'.left)
            && AlarmsArrive(s.left.hist.handed, Submitted(actions, false), s'.left, s'.right)
            && AlarmsArrive(s.right.hist.handed, Submitted(actions, true), s'.right, s'.left)
            && AnswersArrive(s'.left, s'.right) && AnswersArrive(s'.right, s'.left)
  {
    hide Joined, InStep, AlarmsArrive, AnswersArrive, Transport.Inv, Transport.Core, Transport.Promises, Submitted,
         SmoothRun;
    var beforeL, beforeR := s.left.hist.handed, s.right.hist.handed;
    FreshPairJoined(s);
    RunRefines(cfg, p, beforeL, beforeR, Transport.START, s, actions);
    var n, s' := Transport.Run(Transport.START, actions), Run(cfg, p, s, actions);
    JoinedSimulates(beforeL, beforeR, n, s');
    Transport.CoreOf(n);
    Transport.PromiseBrokenExactly(n);
    assert n.me.submitted == Submitted(actions, false) && n.peer.submitted == Submitted(actions, true);
    ArrivalsFollow(beforeL, beforeR, n, s');
    JoinedSwap(beforeL, beforeR, n, s');
    ArrivalsFollow(beforeR, beforeL, Transport.Swap(n), Swap(s'));
  }

  /** The deeds of a side are events of its AR: what a handler does to the line here, the event does to it there. */
  lemma DeedsAreEvents(cfg: Config, ar: Ar, p: Prio, argument: AlarmArgument, status: nat)
    requires !ar.faulted
    ensures var l := ar.At(p);
            CanDispatch(l) ==>
              var out := Launching(cfg, ar.clock, DropAlarm(l), Notification(l.outQ.items[0], l.seqNo));
              !out.trouble.Abort? ==> DispatchLine(cfg, ar, p).At(p) == out.line
    ensures ar.high.alpmr == AlpmrWUserAck ==>
              var out := Launching(cfg, ar.clock, ar.high, AlarmAck(argument, status));
              !out.trouble.Abort? ==> AlarmModel.Step(cfg, ar, UserAck(argument, status)).high == out.line
    ensures var out := Fire(cfg, ar.clock, ar.At(p));
            !out.trouble.Abort? ==> AlarmModel.Step(cfg, ar, TimerExpires(p)).At(p) == out.line
    ensures HasFrame(ar.At(p)) ==>
              var out := Process(cfg, ar.clock, DropFrame(ar.At(p)), p, ar.At(p).inQ.items[0].frame);
              !out.trouble.Abort? ==> AlarmModel.Step(cfg, ar, Turn(p)).At(p) == out.line
  {
    hide Process, Fire, SendInternal, Request, TakeUserAck, AbortAr;
    RequestTrouble(cfg, ar.clock, TakeUserAck(ar.high, argument, status), AlarmAck(argument, status));
  }

  // ------------------------------------------- low priority: one alarm each way

  predicate NoAnswers(n: Transport.Net) {
    Answers(n.me.submitted) == [] && Answers(n.peer.submitted) == []
  }

  lemma LowDeedGivesNoAnswers(cfg: Config, n: Transport.Net, s: Pair, d: Transport.Deed)
    requires Smooth(cfg, Low, s, d) && NoAnswers(n)
    ensures NoAnswers(Transport.Perform(n, d))
  {
    hide SeqOf, Handle;
    if d.Submit? { OneMoreBody(n.me.submitted, d.body); }
  }

  lemma {:induction false} LowGivesNoAnswers(cfg: Config, n: Transport.Net, s: Pair, actions: seq<Transport.Action>)
    requires SmoothRun(cfg, Low, s, actions) && NoAnswers(n)
    ensures NoAnswers(Transport.Run(n, actions))
    decreases |actions|
  {
    hide Smooth, Perform, Transport.Perform, Answers;
    if actions != [] {
      var a := actions[0];
      if a.byPeer {
        LowDeedGivesNoAnswers(cfg, Transport.Swap(n), Swap(s), a.deed);
      } else {
        LowDeedGivesNoAnswers(cfg, n, s, a.deed);
      }
      LowGivesNoAnswers(cfg, Transport.Step(n, a), Step(cfg, Low, s, a), actions[1..]);
    }
  }

  /** The side has handed over and indicated at most one alarm since `before`, and nothing was ever answered. */
  ghost predicate Stalled(before: seq<Alarm>, l: Line) {
    && |l.hist.handed| <= |before| + 1 && |Indications(l.hist.replies)| <= 1
    && AnswersGiven(l.hist.replies) == [] && Confirmations(l.hist.notes) == []
  }

  lemma WithoutAnswersStalled(beforeL: seq<Alarm>, beforeR: seq<Alarm>, n: Transport.Net, s: Pair)
    requires Joined(beforeL, beforeR, n, s) && NoAnswers(n)
    ensures Stalled(beforeL, s.left) && Stalled(beforeR, s.right)
  {
    Transport.PromiseBrokenExactly(n);
    PrefixTells(n.me.delivered, n.peer.submitted);
    PrefixTells(n.peer.delivered, n.me.submitted);
    TellingsAreAlarms(n.me.submitted);
    TellingsAreAlarms(n.peer.submitted);
  }

  /** Alarm acknowledgements always use the high-priority machines, so on a low-priority connection each side sends at
      most one alarm, at most one is indicated, and none is ever answered. */
  lemma LowPriorityStalls(cfg: Config, s: Pair, actions: seq<Transport.Action>)
    requires Healthy(cfg.env) && FreshPair(s) && SmoothRun(cfg, Low, s, actions)
    ensures var s' := Run(cfg, Low, s, actions);
            Stalled(s.left.hist.handed, s'.left) && Stalled(s.right.hist.handed, s'.right)
  {
    hide Joined, Stalled;
    var beforeL, beforeR := s.left.hist.handed, s.right.hist.handed;
    FreshPairJoined(s);
    RunRefines(cfg, Low, beforeL, beforeR, Transport.START, s, actions);
    LowGivesNoAnswers(cfg, Transport.START, s, actions);
    WithoutAnswersStalled(beforeL, beforeR, Transport.Run(Transport.START, actions), Run(cfg, Low, s, actions));
  }

  // ---------------------------------------------------- smooth runs of any length exist

  /** Nothing is under way and both sides are ready for an alarm from the left. */
  ghost predicate Ready(s: Pair) {
    && s.out == s.inc == []
    && s.left.snd.state == s.right.snd.state == ApmsOpen && s.left.snd.saved == s.right.snd.saved == None
    && s.left.rcv == Receiver(ApmrOpen, s.right.snd.acked) && s.right.rcv == Receiver(ApmrOpen, s.left.snd.acked)
    && s.left.alpmi == AlpmiWAlarm && s.right.alpmr == AlpmrWNotify && s.left.alpmr != AlpmrWTack
  }

  function Cycle(cfg: Config, number: nat): seq<Transport.Action> {
    [Transport.Action(false, Transport.Submit(Notification(SOME_ALARM, number), cfg.retries)),
     Transport.Action(true, Transport.Receive), Transport.Action(false, Transport.Receive),
     Transport.Action(true, Transport.Submit(AlarmAck(SOME_ARGUMENT, 0), cfg.retries)),
     Transport.Action(false, Transport.Receive), Transport.Action(true, Transport.Receive)]
  }

  /** A lone ACK for the outstanding PDU arrives. */
  lemma AckArrives(cfg: Config, p: Prio, s: Pair)
    requires |s.inc| == 1 && s.inc[0].pdu == AckPdu && s.left.snd.state == ApmsWTack
             && s.inc[0].ackSeq == SeqOf(s.left.snd.acked)
    ensures Smooth(cfg, p, s, Transport.Receive)
    ensures Perform(cfg, p, s, Transport.Receive) == s.(left := TakeAck(s.left, s.inc[0].ackSeq), inc := [])
  {
    assert TakeAck(s.left, s.inc[0].ackSeq).hist.sent == s.left.hist.sent;
  }

  /** A lone in-sequence DATA PDU arrives at a side with nothing outstanding: the user gets it, and an ACK goes back. */
  lemma DataArrives(cfg: Config, p: Prio, s: Pair, body: Body)
    requires cfg.env.alloc(s.clock) && cfg.env.send(s.clock)
    requires |s.inc| == 1 && s.inc[0].pdu == DataPdu && s.inc[0].tack && s.inc[0].body == Some(body)
    requires s.left.rcv.state == ApmrOpen && s.left.snd.state == ApmsOpen
             && s.inc[0].sendSeq == SeqOf(s.left.rcv.accepted)
    requires !body.ErrorStatus? && (body.Notification? ==> s.left.alpmr == AlpmrWNotify)
    ensures Smooth(cfg, p, s, Transport.Receive)
    ensures var l, s' := s.left.(rcv := Accept(s.left.rcv)), Perform(cfg, p, s, Transport.Receive);
            var ack := MakeAck(l.snd, l.rcv);
            var logged := Log(l, ack, true);
            && s'.right == s.right && s'.inc == [] && s'.out == s.out + [ack]
            && s'.left == (match body
                             case AlarmAck(_, status) => ConfirmAlarm(logged, status)
                             case Notification(alarm, number) => IndicateAlarm(logged, 0, ToldOf(alarm, number)).line
                             case _ => logged)
  {
    hide SeqOf, BlockTypeAck, BlockTypeNotify;
    BlockTypesDiffer(p);
  }

  /** A ready side with nothing outstanding launches a PDU. */
  lemma LaunchGoesOut(cfg: Config, p: Prio, s: Pair, body: Body)
    requires cfg.env.alloc(s.clock) && cfg.env.send(s.clock) && cfg.env.timer(s.clock)
    requires s.left.snd.state == ApmsOpen && s.left.snd.saved == None && CanLaunch(p, s.left, body)
    ensures var d := Transport.Submit(body, cfg.retries); var s' := Perform(cfg, p, s, d);
            var tx := MakeData(s.left.snd, s.left.rcv, body);
            && Smooth(cfg, p, s, d)
            && s'.right == s.right && s'.inc == s.inc && s'.out == s.out + [tx]
            && s'.left.snd == Launch(s.left.snd, tx, true, cfg.retries) && s'.left.rcv == s.left.rcv
            && (body.Notification? ==> s'.left.alpmi == AlpmiWAck && s'.left.alpmr == s.left.alpmr
                                       && s'.left.hist.notes == s.left.hist.notes + [Notified(body.alarm)]
                                       && s'.left.hist.replies == s.left.hist.replies)
            && (body.AlarmAck? ==> s'.left.alpmr == AlpmrWTack && s'.left.alpmi == s.left.alpmi
                                   && s'.left.hist.replies ==
                                     s.left.hist.replies + [Acknowledged(body.argument, body.status)]
                                   && s'.left.hist.notes == s.left.hist.notes)
  {
  }

  /** The alarm goes out, is indicated, and its transport acknowledgement comes back. */
  lemma FirstHalf(cfg: Config, p: Prio, s: Pair)
    requires Healthy(cfg.env) && (forall t :: cfg.env.send(t)) && Ready(s)
    ensures var xs := Cycle(cfg, s.left.seqNo)[..3]; var s' := Run(cfg, p, s, xs);
            && SmoothRun(cfg, p, s, xs) && Halfway(s, s')
  {
    hide Perform, Smooth;
    var xs := Cycle(cfg, s.left.seqNo)[..3];
    assert cfg.env.alloc(s.clock) && cfg.env.timer(s.clock) && cfg.env.send(s.clock);
    LaunchGoesOut(cfg, p, s, xs[0].deed.body);
    var s1 := Step(cfg, p, s, xs[0]);
    assert cfg.env.alloc(s1.clock) && cfg.env.send(s1.clock);
    DataArrives(cfg, p, Swap(s1), xs[0].deed.body);
    var s2 := Step(cfg, p, s1, xs[1]);
    AckArrives(cfg, p, s2);
    RunThree(cfg, p, s, xs);
  }

  /** The alarm is indicated and acknowledged by the transport, and waits for the application. */
  ghost predicate Halfway(s: Pair, s': Pair) {
    && s'.out == s'.inc == []
    && s'.left.snd.state == s'.right.snd.state == ApmsOpen && s'.left.snd.saved == s'.right.snd.saved == None
    && s'.left.snd.acked == s.left.snd.acked + 1 && s'.right.snd.acked == s.right.snd.acked
    && s'.left.rcv == s.left.rcv && s'.right.rcv == Receiver(ApmrOpen, s'.left.snd.acked)
    && s'.left.alpmi == AlpmiWAck && s'.right.alpmr == AlpmrWUserAck && s'.left.alpmr == s.left.alpmr
    && s'.left.hist.notes == s.left.hist.notes + [Notified(SOME_ALARM)]
    && s'.right.hist.replies == s.right.hist.replies + [Indicated(ToldOf(SOME_ALARM, s.left.seqNo))]
  }

  /** The application acknowledges, ALPMI confirms, and the transport acknowledgement of that comes back. */
  lemma SecondHalf(cfg: Config, s: Pair, s3: Pair)
    requires Healthy(cfg.env) && (forall t :: cfg.env.send(t)) && Ready(s) && Halfway(s, s3)
    ensures var xs := Cycle(cfg, s.left.seqNo)[3..]; var s' := Run(cfg, High, s3, xs);
            && SmoothRun(cfg, High, s3, xs) && Ready(s')
            && s'.left.hist.notes == s.left.hist.notes + [Notified(SOME_ALARM), Confirmed(0)]
            && s'.right.hist.replies == s.right.hist.replies
               + [Indicated(ToldOf(SOME_ALARM, s.left.seqNo)), Acknowledged(SOME_ARGUMENT, 0), AckConfirmed]
  {
    hide Perform, Smooth;
    var xs := Cycle(cfg, s.left.seqNo)[3..];
    assert cfg.env.alloc(s3.clock) && cfg.env.timer(s3.clock) && cfg.env.send(s3.clock);
    LaunchGoesOut(cfg, High, Swap(s3), xs[0].deed.body);
    var s4 := Step(cfg, High, s3, xs[0]);
    assert cfg.env.alloc(s4.clock) && cfg.env.send(s4.clock);
    DataArrives(cfg, High, s4, xs[0].deed.body);
    var s5 := Step(cfg, High, s4, xs[1]);
    AckArrives(cfg, High, Swap(s5));
    RunThree(cfg, High, s3, xs);
  }

  lemma RunThree(cfg: Config, p: Prio, s: Pair, xs: seq<Transport.Action>)
    requires |xs| == 3
    ensures var s1 := Step(cfg, p, s, xs[0]); var s2 := Step(cfg, p, s1, xs[1]);
            && Run(cfg, p, s, xs) == Step(cfg, p, s2, xs[2])
            && (SmoothRun(cfg, p, s, xs) <==>
                && Smooth(cfg, p, if xs[0].byPeer then Swap(s) else s, xs[0].deed)
                && Smooth(cfg, p, if xs[1].byPeer then Swap(s1) else s1, xs[1].deed)
                && Smooth(cfg, p, if xs[2].byPeer then Swap(s2) else s2, xs[2].deed))
  {
    hide Step, Smooth;
    var s1 := Step(cfg, p, s, xs[0]);
    var s2 := Step(cfg, p, s1, xs[1]);
    assert xs[1..] == [xs[1], xs[2]] && xs[1..][1..] == [xs[2]] && xs[1..][1..][1..] == [];
    assert Run(cfg, p, s, xs) == Run(cfg, p, s1, xs[1..]) == Run(cfg, p, s2, [xs[2]]);
    assert Run(cfg, p, s2, [xs[2]]) == Run(cfg, p, Step(cfg, p, s2, xs[2]), []);
    assert SmoothRun(cfg, p, s2, [xs[2]]) <==> Smooth(cfg, p, if xs[2].byPeer then Swap(s2) else s2, xs[2].deed);
  }

  lemma {:induction false} RunAppend(cfg: Config, p: Prio, s: Pair, xs: seq<Transport.Action>,
        ys: seq<Transport.Action>)
    ensures Run(cfg, p, s, xs + ys) == Run(cfg, p, Run(cfg, p, s, xs), ys)
    ensures SmoothRun(cfg, p, s, xs + ys) <==> SmoothRun(cfg, p, s, xs) && SmoothRun(cfg, p, Run(cfg, p, s, xs), ys)
    decreases |xs|
  {
    if xs == [] {
      assert xs + ys == ys;
    } else {
      assert (xs + ys)[1..] == xs[1..] + ys;
      RunAppend(cfg, p, Step(cfg, p, s, xs[0]), xs[1..], ys);
    }
  }

  /** With a healthy environment any number of high-priority alarms in a row is sent, indicated, acknowledged by the
      application and confirmed, across every wrap-around. */
  lemma {:induction false} AnyNumberOfAlarms(cfg: Config, s: Pair, k: nat) returns (actions: seq<Transport.Action>)
    requires Healthy(cfg.env) && (forall t :: cfg.env.send(t)) && Ready(s)
    ensures SmoothRun(cfg, High, s, actions) && Ready(Run(cfg, High, s, actions))
    ensures |Run(cfg, High, s, actions).left.hist.notes| == |s.left.hist.notes| + 2 * k
    ensures |Run(cfg, High, s, actions).right.hist.replies| == |s.right.hist.replies| + 3 * k
    decreases k
  {
    hide Ready, Step, Smooth, Halfway;
    if k == 0 {
      actions := [];
    } else {
      var xs := Cycle(cfg, s.left.seqNo);
      var s3 := Run(cfg, High, s, xs[..3]);
      FirstHalf(cfg, High, s);
      SecondHalf(cfg, s, s3);
      RunAppend(cfg, High, s, xs[..3], xs[3..]);
      assert xs == xs[..3] + xs[3..];
      var rest := AnyNumberOfAlarms(cfg, Run(cfg, High, s, xs), k - 1);
      RunAppend(cfg, High, s, xs, rest);
      actions := xs + rest;
    }
  }
}
