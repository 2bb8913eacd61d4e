/**
  Two endpoints that both follow the APMS and APMR rules of one priority, joined by two
  channels that lose and duplicate frames but keep their order.

  Frames in a channel carry tags (`ix`, `ackIx`) that say which PDU they are and which PDU
  they acknowledge.  The endpoints never look at the tags, only at the 16-bit numbers; the
  invariant relates the two.
*/
module Transport {
  import opened Wrappers
  import opened SequenceNumbers
  import opened Apmx

  datatype Packet = Packet(tx: Tx, ix: int, ackIx: int)

  /** `savedAckIx` tags the acknowledgement frozen into the saved DATA frame. */
  datatype Endpoint = Endpoint(snd: Sender, rcv: Receiver, savedAckIx: int,
                               submitted: seq<Body>, delivered: seq<Body>)

  /** `out` is the channel from `me` to `peer`, `inc` the channel back. */
  datatype Net = Net(me: Endpoint, peer: Endpoint, out: seq<Packet>, inc: seq<Packet>)

  datatype Deed =
    | Submit(body: Body, retries: nat) // the application sends, accepted only with APMS OPEN
    | Resend                           // the resend timer fires with retries left
    | Receive                          // the oldest incoming frame is processed
    | Lose(at: nat)                    // the network drops an outgoing frame
    | Duplicate(at: nat)               // the network duplicates an outgoing frame

  /** A deed of the first endpoint, or of its peer. */
  datatype Action = Action(byPeer: bool, deed: Deed)

  const IDLE := Endpoint(Sender(ApmsOpen, 0, None, 0, None), Receiver(ApmrOpen, 0), -1, [], [])
  const START := Net(IDLE, IDLE, [], [])

  function Swap(n: Net): Net {
    Net(n.peer, n.me, n.inc, n.out)
  }

  // ------------------------------------------------------------------ steps

  function Submission(n: Net, body: Body, retries: nat): Net {
    if n.me.snd.state != ApmsOpen then n else
    var tx := MakeData(n.me.snd, n.me.rcv, body);
    var ackIx := n.me.rcv.accepted - 1;
    n.(me := n.me.(snd := Launch(n.me.snd, tx, true, retries), savedAckIx := ackIx,
    submitted := n.me.submitted + [body]),
    out := n.out + [Packet(tx, n.me.snd.acked, ackIx)])
  }

  function Retransmission(n: Net): Net {
    var snd := n.me.snd;
    if snd.state != ApmsWTack || snd.saved.None? || snd.resend == 0 then n else
    n.(me := n.me.(snd := snd.(resend := snd.resend - 1)),
    out := n.out + [Packet(snd.saved.value, snd.acked, n.me.savedAckIx)])
  }

  /** What APMR and APMS do with one incoming frame, and the frames sent in reply. */
  function Intake(e: Endpoint, tx: Tx): (Endpoint, seq<Packet>) {
    if tx.pdu == AckPdu then
      (e.(snd := Credit(e.snd, tx.ackSeq)), [])
    else if tx.pdu != DataPdu || !tx.tack || tx.body.None? || e.rcv.state != ApmrOpen then
      (e, [])
    else match Judge(e.rcv, tx.sendSeq)
      case Fresh =>
        var e' := e.(snd := Credit(e.snd, tx.ackSeq), rcv := Accept(e.rcv), delivered := e.delivered + [tx.body.value]);
        (e', [Packet(MakeAck(e'.snd, e'.rcv), e'.snd.acked - 1, e'.rcv.accepted - 1)])
      case Repeated =>
        var e' := e.(snd := Credit(e.snd, tx.ackSeq));
        (e', [Packet(MakeAck(e'.snd, e'.rcv), e'.snd.acked - 1, e'.rcv.accepted - 1)])
      case OutOfSequence =>
        (e, [Packet(MakeNack(e.snd, e.rcv), e.snd.acked - 1, e.rcv.accepted - 1)])
  }

  function Reception(n: Net): Net {
    if n.inc == [] then n else
    var (e, reply) := Intake(n.me, n.inc[0].tx);
    Net(e, n.peer, n.out + reply, n.inc[1..])
  }

  function Perform(n: Net, d: Deed): Net {
    match d
    case Submit(body, retries) => Submission(n, body, retries)
    case Resend => Retransmission(n)
    case Receive => Reception(n)
    case Lose(at) => if at < |n.out| then n.(out := n.out[..at] + n.out[at + 1..]) else n
    case Duplicate(at) => if at < |n.out| then n.(out := n.out[..at] + [n.out[at]] + n.out[at..]) else n
  }

  function Step(n: Net, a: Action): Net {
    if a.byPeer then Swap(Perform(Swap(n), a.deed)) else Perform(n, a.deed)
  }

  function Run(n: Net, actions: seq<Action>): Net
    decreases |actions|
  {
    if actions == [] then n else Run(Step(n, actions[0]), actions[1..])
  }

  // -------------------------------------------------------------- invariant

  /** Sender `s` of endpoint `a` agrees with its history. */
  ghost predicate SenderOk(a: Endpoint) {
    && a.snd.state != ApmsClosed
    && a.rcv.state == ApmrOpen
    && |a.submitted| == a.snd.acked + (if a.snd.state == ApmsWTack then 1 else 0)
    && -1 <= a.savedAckIx < a.rcv.accepted
    && a.snd.saved == (if a.snd.state == ApmsWTack
    then Some(Tx(DataPdu, true, SeqOf(a.snd.acked), SeqOf(a.savedAckIx), Some(a.submitted[a.snd.acked])))
    else None)
  }

  /** `p`, travelling from `a` to `b`, is what its tags say. */
  ghost predicate PacketOk(a: Endpoint, b: Endpoint, p: Packet) {
    && -1 <= p.ackIx < a.rcv.accepted
    && p.tx.ackSeq == SeqOf(p.ackIx)
    && (p.tx.pdu == DataPdu || p.tx.pdu == AckPdu)
    && (p.tx.pdu == DataPdu ==>
          && p.tx.tack
          && b.rcv.accepted - 1 <= p.ix < |a.submitted|
          && 0 <= p.ix
          && p.tx.sendSeq == SeqOf(p.ix)
          && p.tx.body == Some(a.submitted[p.ix]))
  }

  /** Two packets from the same endpoint, the first sent before the second. */
  ghost predicate Ordered(p: Packet, q: Packet) {
    p.tx.pdu == DataPdu && q.tx.pdu == DataPdu ==> p.ix <= q.ix
  }

  ghost predicate ChannelOk(a: Endpoint, b: Endpoint, ab: seq<Packet>) {
    && (forall i :: 0 <= i < |ab| ==> PacketOk(a, b, ab[i]))
    && (forall i, j :: 0 <= i < j < |ab| ==> Ordered(ab[i], ab[j]))
  }

  /** DATA from `a` to `b`: what was delivered is a prefix of what was submitted, and the sender has at most as many
      acknowledged. */
  ghost predicate Delivery(a: Endpoint, b: Endpoint) {
    && a.snd.acked <= b.rcv.accepted <= |a.submitted|
    && b.delivered == a.submitted[..b.rcv.accepted]
  }

  /** What holds as long as no sender has been credited too early. */
  ghost predicate Core(n: Net) {
    && SenderOk(n.me) && SenderOk(n.peer)
    && Delivery(n.me, n.peer) && Delivery(n.peer, n.me)
    && ChannelOk(n.me, n.peer, n.out) && ChannelOk(n.peer, n.me, n.inc)
  }

  /** Pure acknowledgements on their way to `b` are for its last PDU or the one outstanding, in order. */
  ghost predicate AcksRecent(b: Endpoint, ab: seq<Packet>) {
    && (forall i :: 0 <= i < |ab| && ab[i].tx.pdu == AckPdu ==> b.snd.acked - 1 <= ab[i].ackIx)
    && (forall i, j :: 0 <= i < j < |ab| && ab[j].tx.pdu == AckPdu ==> ab[i].ackIx <= ab[j].ackIx)
  }

  ghost predicate Inv(n: Net) {
    Core(n) && AcksRecent(n.peer, n.out) && AcksRecent(n.me, n.inc)
  }

  /** An acknowledgement whose number has come round again. */
  predicate ComesRound(acked: nat, ackIx: int) {
    1 <= ackIx < acked && (acked - ackIx) % MODULUS == 0
  }

  /** The oldest incoming frame would credit the outstanding PDU by a number that has come round. */
  predicate Misleads(n: Net) {
    n.inc != [] && n.me.snd.state == ApmsWTack && ComesRound(n.me.snd.acked, n.inc[0].ackIx)
  }

  /** ... and the peer has not accepted that PDU yet. */
  predicate Premature(n: Net) {
    Misleads(n) && n.peer.rcv.accepted == n.me.snd.acked
  }

  lemma SwapTwice(n: Net)
    ensures Core(n) == Core(Swap(n)) && Inv(n) == Inv(Swap(n)) && Swap(Swap(n)) == n
  {
  }

  /** Exactly when an incoming frame is credited: it acknowledges the outstanding PDU, or its number has come round. */
  lemma CreditsExactly(n: Net)
    requires Core(n) && n.inc != []
    ensures Credits(n.me.snd, n.inc[0].tx.ackSeq)
            <==> n.me.snd.state == ApmsWTack && (n.inc[0].ackIx == n.me.snd.acked || Misleads(n))
  {
    assert PacketOk(n.peer, n.me, n.inc[0]);
    SameNumber(n.inc[0].ackIx, n.me.snd.acked);
  }

  /** A pure acknowledgement never misleads: only a DATA frame carries a frozen number. */
  lemma AcksNeverMislead(n: Net)
    requires Inv(n) && Misleads(n)
    ensures n.inc[0].tx.pdu == DataPdu
  {
    assert PacketOk(n.peer, n.me, n.inc[0]);
  }

  /** When APMS takes an acknowledgement whose number has not come round, the peer has accepted exactly the outstanding
      PDU. */
  lemma CreditIsGenuine(n: Net)
    requires Core(n) && !Misleads(n)
    requires n.inc != [] && Credits(n.me.snd, n.inc[0].tx.ackSeq)
    ensures n.inc[0].ackIx == n.me.snd.acked
    ensures n.peer.rcv.accepted == n.me.snd.acked + 1 == |n.me.submitted|
    ensures n.peer.delivered == n.me.submitted
  {
    assert PacketOk(n.peer, n.me, n.inc[0]);
    CreditsExactly(n);
  }

  // ------------------------------------------------------- one step keeps it

  lemma SubmissionKeeps(n: Net, body: Body, retries: nat)
    requires Core(n)
    ensures Core(Submission(n, body, retries)) && (Inv(n) ==> Inv(Submission(n, body, retries)))
  {
    var n' := Submission(n, body, retries);
    if n.me.snd.state == ApmsOpen {
      forall i | 0 <= i < |n'.out| ensures PacketOk(n'.me, n'.peer, n'.out[i]) {
        if i < |n.out| { assert PacketOk(n.me, n.peer, n.out[i]); }
      }
      forall i, j | 0 <= i < j < |n'.out| ensures Ordered(n'.out[i], n'.out[j]) {
        if j < |n.out| { assert Ordered(n.out[i], n.out[j]); } else { assert PacketOk(n.me, n.peer, n.out[i]); }
      }
      forall i | 0 <= i < |n'.inc|
        ensures PacketOk(n'.peer, n'.me, n'.inc[i]) { assert PacketOk(n.peer, n.me, n.inc[i]); }
    }
  }

  lemma RetransmissionKeeps(n: Net)
    requires Core(n)
    ensures Core(Retransmission(n)) && (Inv(n) ==> Inv(Retransmission(n)))
  {
    var n' := Retransmission(n);
    if n' != n {
      forall i | 0 <= i < |n'.out| ensures PacketOk(n'.me, n'.peer, n'.out[i]) {
        if i < |n.out| { assert PacketOk(n.me, n.peer, n.out[i]); }
      }
      forall i, j | 0 <= i < j < |n'.out| ensures Ordered(n'.out[i], n'.out[j]) {
        if j < |n.out| { assert Ordered(n.out[i], n.out[j]); } else { assert PacketOk(n.me, n.peer, n.out[i]); }
      }
      forall i | 0 <= i < |n'.inc|
        ensures PacketOk(n'.peer, n'.me, n'.inc[i]) { assert PacketOk(n.peer, n.me, n.inc[i]); }
    }
  }

  lemma LossKeeps(n: Net, at: nat)
    requires Core(n)
    ensures Core(Perform(n, Lose(at))) && (Inv(n) ==> Inv(Perform(n, Lose(at))))
  {
    if at < |n.out| {
      var out := n.out[..at] + n.out[at + 1..];
      assert forall i :: 0 <= i < |out| ==> out[i] == n.out[if i < at then i else i + 1];
    }
  }

  lemma DuplicationKeeps(n: Net, at: nat)
    requires Core(n)
    ensures Core(Perform(n, Duplicate(at))) && (Inv(n) ==> Inv(Perform(n, Duplicate(at))))
  {
    if at < |n.out| {
      var out := n.out[..at] + [n.out[at]] + n.out[at..];
      assert forall i :: 0 <= i < |out| ==> out[i] == n.out[if i <= at then i else i - 1];
      forall i, j | 0 <= i < j < |out| ensures Ordered(out[i], out[j]) {
        if i != at || j != at + 1 {
          assert Ordered(n.out[if i <= at then i else i - 1], n.out[if j <= at then j else j - 1]);
        }
      }
    }
  }

  /** The endpoint after crediting, with its other half untouched. */
  function Credited(e: Endpoint, ackSeq: nat): Endpoint {
    e.(snd := Credit(e.snd, ackSeq))
  }

  /** Taking the head off the channel and crediting it. */
  lemma CreditKeeps(n: Net)
    requires Core(n) && !Premature(n) && n.inc != []
    ensures var n' := Net(Credited(n.me, n.inc[0].tx.ackSeq), n.peer, n.out, n.inc[1..]);
            Core(n') && (Inv(n) && !Misleads(n) ==> Inv(n'))
  {
    var p, e := n.inc[0], Credited(n.me, n.inc[0].tx.ackSeq);
    var n' := Net(e, n.peer, n.out, n.inc[1..]);
    assert PacketOk(n.peer, n.me, p);
    CreditsExactly(n);
    forall i | 0 <= i < |n'.out| ensures PacketOk(e, n.peer, n'.out[i]) {
      assert PacketOk(n.me, n.peer, n.out[i]);
    }
    forall i | 0 <= i < |n'.inc| ensures PacketOk(n.peer, e, n'.inc[i]) {
      assert n'.inc[i] == n.inc[i + 1] && PacketOk(n.peer, n.me, n.inc[i + 1]);
    }
    forall i, j | 0 <= i < j < |n'.inc| ensures Ordered(n'.inc[i], n'.inc[j]) {
      assert Ordered(n.inc[i + 1], n.inc[j + 1]);
    }
    if Inv(n) && !Misleads(n) { CreditKeepsAcks(n); }
  }

  lemma CreditKeepsAcks(n: Net)
    requires Inv(n) && !Misleads(n) && n.inc != []
    ensures AcksRecent(Credited(n.me, n.inc[0].tx.ackSeq), n.inc[1..])
  {
    CreditsExactly(n);
    var rest := n.inc[1..];
    assert forall i :: 0 <= i < |rest| ==> rest[i] == n.inc[i + 1];
  }

  /** Sending the transport acknowledgement of the last accepted PDU. */
  lemma AckKeeps(n: Net, ix: int)
    requires Core(n)
    ensures var n' := n.(out := n.out + [Packet(MakeAck(n.me.snd, n.me.rcv), ix, n.me.rcv.accepted - 1)]);
            Core(n') && (Inv(n) ==> Inv(n'))
  {
    var out := n.out + [Packet(MakeAck(n.me.snd, n.me.rcv), ix, n.me.rcv.accepted - 1)];
    forall i | 0 <= i < |n.out| ensures PacketOk(n.me, n.peer, out[i]) { assert PacketOk(n.me, n.peer, n.out[i]); }
    forall i, j | 0 <= i < j < |out| ensures Ordered(out[i], out[j]) {
      if j < |n.out| { assert Ordered(n.out[i], n.out[j]); }
    }
  }

  /** Accepting the next DATA PDU. */
  lemma AcceptKeeps(n: Net, p: Packet)
    requires Core(n) && PacketOk(n.peer, n.me, p) && p.tx.pdu == DataPdu && p.ix == n.me.rcv.accepted
    requires forall i :: 0 <= i < |n.inc| ==> Ordered(p, n.inc[i])
    ensures var n' := n.(me := n.me.(rcv := Accept(n.me.rcv), delivered := n.me.delivered + [p.tx.body.value]));
            Core(n') && (Inv(n) ==> Inv(n'))
  {
    var n' := n.(me := n.me.(rcv := Accept(n.me.rcv), delivered := n.me.delivered + [p.tx.body.value]));
    assert Delivery(n'.peer, n'.me);
    forall i | 0 <= i < |n'.inc| ensures PacketOk(n'.peer, n'.me, n'.inc[i]) {
      assert PacketOk(n.peer, n.me, n.inc[i]);
      assert Ordered(p, n.inc[i]);
    }
    forall i | 0 <= i < |n'.out| ensures PacketOk(n'.me, n'.peer, n'.out[i]) {
      assert PacketOk(n.me, n.peer, n.out[i]);
    }
  }

  /** An incoming DATA frame is the next PDU or the previous one: NACK is never sent. */
  lemma NeverOutOfSequence(n: Net)
    requires Core(n) && n.inc != [] && n.inc[0].tx.pdu == DataPdu
    ensures Judge(n.me.rcv, n.inc[0].tx.sendSeq) == (if n.inc[0].ix == n.me.rcv.accepted then Fresh else Repeated)
    ensures n.inc[0].ix == n.me.rcv.accepted || n.inc[0].ix == n.me.rcv.accepted - 1
  {
    assert PacketOk(n.peer, n.me, n.inc[0]);
    VerdictsExclude(n.me.rcv);
  }

  lemma ReceptionKeeps(n: Net)
    requires Core(n) && !Premature(n)
    ensures Core(Reception(n)) && (Inv(n) && !Misleads(n) ==> Inv(Reception(n)))
  {
    hide Core, Inv;
    if n.inc != [] {
      var p := n.inc[0];
      HeadOk(n);
      CreditKeeps(n);
      var n1 := Net(Credited(n.me, p.tx.ackSeq), n.peer, n.out, n.inc[1..]);
      if p.tx.pdu == AckPdu {
        assert Reception(n) == n1;
      } else {
        NeverOutOfSequence(n);
        if p.ix == n.me.rcv.accepted {
          AcceptKeeps(n1, p);
          var n2 := n1.(me := n1.me.(rcv := Accept(n1.me.rcv), delivered := n1.me.delivered + [p.tx.body.value]));
          AckKeeps(n2, n2.me.snd.acked - 1);
        } else {
          AckKeeps(n1, n1.me.snd.acked - 1);
        }
      }
    }
  }

  lemma HeadOk(n: Net)
    requires Core(n) && n.inc != []
    ensures var p := n.inc[0];
            && n.me.rcv.state == ApmrOpen && PacketOk(n.peer, n.me, p)
            && PacketOk(n.peer, Credited(n.me, p.tx.ackSeq), p)
            && forall i :: 0 <= i < |n.inc[1..]| ==> Ordered(p, n.inc[1..][i])
  {
    assert PacketOk(n.peer, n.me, n.inc[0]);
    forall i | 0 <= i < |n.inc[1..]|
      ensures Ordered(n.inc[0], n.inc[1..][i]) { assert Ordered(n.inc[0], n.inc[i + 1]); }
  }

  /** The net as the acting endpoint sees it. */
  function View(n: Net, a: Action): Net {
    if a.byPeer then Swap(n) else n
  }

  lemma StepKeeps(n: Net, a: Action)
    requires Core(n) && (a.deed.Receive? ==> !Premature(View(n, a)))
    ensures Core(Step(n, a))
    ensures Inv(n) && (a.deed.Receive? ==> !Misleads(View(n, a))) ==> Inv(Step(n, a))
  {
    hide Core, Inv;
    var n0 := View(n, a);
    SwapTwice(n);
    match a.deed {
      case Submit(body, retries) => SubmissionKeeps(n0, body, retries);
      case Resend => RetransmissionKeeps(n0);
      case Receive => ReceptionKeeps(n0);
      case Lose(at) => LossKeeps(n0, at);
      case Duplicate(at) => DuplicationKeeps(n0, at);
    }
    SwapTwice(Perform(n0, a.deed));
  }

  // ------------------------------------------------------------- whole runs

  /** What a connection promises for the DATA of `a`. */
  ghost predicate Promise(a: Endpoint, b: Endpoint) {
    && b.delivered <= a.submitted
    && a.snd.acked <= |b.delivered| <= a.snd.acked + 1
    && (a.snd.state == ApmsOpen ==> b.delivered == a.submitted && |a.submitted| == a.snd.acked)
  }

  ghost predicate Promises(n: Net) {
    Promise(n.me, n.peer) && Promise(n.peer, n.me)
  }

  /** No frame received in the run misleads its receiver. */
  predicate NeverMisled(n: Net, actions: seq<Action>)
    decreases |actions|
  {
    actions != [] ==>
      && (actions[0].deed.Receive? ==> !Misleads(View(n, actions[0])))
      && NeverMisled(Step(n, actions[0]), actions[1..])
  }

  /** No frame received in the run misleads its receiver before the peer has accepted the outstanding PDU. */
  predicate NeverPremature(n: Net, actions: seq<Action>)
    decreases |actions|
  {
    actions != [] ==>
      && (actions[0].deed.Receive? ==> !Premature(View(n, actions[0])))
      && NeverPremature(Step(n, actions[0]), actions[1..])
  }

  /** The promise holds in every state the run passes through. */
  ghost predicate PromisesAlong(n: Net, actions: seq<Action>)
    decreases |actions|
  {
    Promises(n) && (actions != [] ==> PromisesAlong(Step(n, actions[0]), actions[1..]))
  }

  /** Only the first endpoint sends DATA. */
  predicate OneWay(actions: seq<Action>) {
    forall i :: 0 <= i < |actions| && actions[i].byPeer ==> !actions[i].deed.Submit?
  }

  /** Exactly when receiving a frame breaks the promise. */
  lemma PromiseBrokenExactly(n: Net)
    requires Core(n)
    ensures Promises(n) && (Promises(Reception(n)) <==> !Premature(n))
  {
    if n.inc != [] {
      HeadOk(n);
      CreditsExactly(n);
      if n.inc[0].tx.pdu == DataPdu { NeverOutOfSequence(n); }
    }
    if !Premature(n) { ReceptionKeeps(n); }
  }

  /** Both endpoints send: in-order exactly-once delivery holds both ways throughout a run if and only if no frame
      misleads its receiver before the peer has accepted the outstanding PDU. */
  lemma {:induction false} PromisesExactly(n: Net, actions: seq<Action>)
    requires Core(n)
    ensures PromisesAlong(n, actions) <==> NeverPremature(n, actions)
    decreases |actions|
  {
    hide Core, Promises, Premature;
    PromiseBrokenExactly(n);
    if actions != [] {
      var a := actions[0];
      if a.deed.Receive? && Premature(View(n, a)) {
        SwapTwice(n);
        PromiseBrokenExactly(View(n, a));
        PromisesSwap(Reception(View(n, a)));
        assert !Promises(Step(n, a));
        assert !PromisesAlong(Step(n, a), actions[1..]);
      } else {
        StepKeeps(n, a);
        PromisesExactly(Step(n, a), actions[1..]);
      }
    }
  }

  lemma PromisesSwap(n: Net)
    ensures Promises(n) == Promises(Swap(n))
  {
  }

  /** From the start of a connection. */
  lemma DeliveryExactly(actions: seq<Action>)
    ensures PromisesAlong(START, actions) <==> NeverPremature(START, actions)
  {
    PromisesExactly(START, actions);
  }

  lemma CoreOf(n: Net)
    requires Inv(n)
    ensures Core(n)
  {
  }

  lemma PrematureMisleads(n: Net)
    ensures Premature(n) ==> Misleads(n)
  {
  }

  lemma {:induction false} RunKeeps(n: Net, actions: seq<Action>)
    requires Inv(n) && NeverMisled(n, actions)
    ensures Inv(Run(n, actions))
    decreases |actions|
  {
    hide Core;
    if actions != [] {
      CoreOf(n);
      PrematureMisleads(View(n, actions[0]));
      StepKeeps(n, actions[0]);
      RunKeeps(Step(n, actions[0]), actions[1..]);
    }
  }

  /** Both endpoints send, and no frame misleads its receiver. */
  lemma TwoWayDelivery(actions: seq<Action>)
    requires NeverMisled(START, actions)
    ensures Promises(Run(START, actions))
  {
    RunKeeps(START, actions);
    PromiseBrokenExactly(Run(START, actions));
  }

  /** All frames from the peer are pure acknowledgements. */
  lemma OneWayNotMisled(n: Net)
    requires Inv(n) && n.peer.submitted == []
    ensures !Misleads(n) && !Misleads(Swap(n))
  {
    if n.inc != [] { assert PacketOk(n.peer, n.me, n.inc[0]); }
    if Misleads(n) { AcksNeverMislead(n); }
  }

  lemma {:induction false} OneWayNeverMisled(n: Net, actions: seq<Action>)
    requires Inv(n) && n.peer.submitted == [] && OneWay(actions)
    ensures NeverMisled(n, actions)
    decreases |actions|
  {
    hide Core, Misleads;
    if actions != [] {
      var a := actions[0];
      OneWayNotMisled(n);
      CoreOf(n);
      PrematureMisleads(View(n, a));
      StepKeeps(n, a);
      StepKeepsSilence(n, a);
      OneWayNeverMisled(Step(n, a), actions[1..]);
    }
  }

  lemma StepKeepsSilence(n: Net, a: Action)
    requires n.peer.submitted == [] && (a.byPeer ==> !a.deed.Submit?)
    ensures Step(n, a).peer.submitted == []
  {
  }

  /** One endpoint sends and the other only acknowledges: no premise at all. */
  lemma OneWayDelivery(actions: seq<Action>)
    requires OneWay(actions)
    ensures Promise(Run(START, actions).me, Run(START, actions).peer)
  {
    OneWayNeverMisled(START, actions);
    TwoWayDelivery(actions);
  }

  /** No state of a connection is a dead end: while a retry is left, the outstanding PDU can still be delivered and
      acknowledged. */
  lemma Progress(n: Net) returns (actions: seq<Action>)
    requires Core(n) && n.me.snd.state == ApmsWTack && n.me.snd.resend > 0
    ensures var n' := Run(n, actions);
            && n'.me.snd.state == ApmsOpen && n'.me.snd.acked == n.me.snd.acked + 1
            && n'.me.submitted == n.me.submitted && n'.peer.delivered == n.me.submitted
  {
    hide SeqOf, ChannelOk;
    var losses := LoseAll(n);
    var n0 := Run(n, losses);
    var xs := [Action(false, Resend), Action(true, Receive), Action(false, Receive)];
    var n1 := Step(n0, xs[0]);
    assert n1.out == [Packet(n0.me.snd.saved.value, n0.me.snd.acked, n0.me.savedAckIx)] && n1.inc == [];
    VerdictsExclude(n0.peer.rcv);
    var n2 := Step(n1, xs[1]);
    assert n2.out == [] && |n2.inc| == 1 && n2.inc[0].tx.pdu == AckPdu && n2.inc[0].tx.ackSeq == SeqOf(n0.me.snd.acked);
    var n3 := Step(n2, xs[2]);
    assert xs[1..] == [xs[1], xs[2]] && xs[1..][1..] == [xs[2]];
    assert Run(n0, xs) == Run(n1, xs[1..]);
    assert Run(n1, xs[1..]) == Run(n2, [xs[2]]);
    assert Run(n2, [xs[2]]) == Run(n3, []);
    RunAppend(n, losses, xs);
    actions := losses + xs;
  }

  /** The network may drop everything that is under way. */
  lemma {:induction false} LoseAll(n: Net) returns (actions: seq<Action>)
    ensures Run(n, actions) == n.(out := [], inc := [])
    decreases |n.out| + |n.inc|
  {
    if n.out == [] && n.inc == [] {
      actions := [];
    } else {
      var a := Action(n.out == [], Lose(0));
      var rest := LoseAll(Step(n, a));
      actions := [a] + rest;
      assert actions[1..] == rest;
    }
  }

  // ------------------------- with two senders the promise can be broken

  lemma {:induction false} RunAppend(n: Net, xs: seq<Action>, ys: seq<Action>)
    ensures Run(n, xs + ys) == Run(Run(n, xs), ys)
    decreases |xs|
  {
    if xs == [] {
      assert xs + ys == ys;
    } else {
      assert (xs + ys)[1..] == xs[1..] + ys;
      RunAppend(Step(n, xs[0]), xs[1..], ys);
    }
  }

  /** Both channels empty, `k` PDUs of `me` sent and acknowledged, nothing accepted from the peer. */
  ghost predicate Quiet(n: Net, k: nat) {
    && n.out == [] && n.inc == []
    && n.me.snd.state == ApmsOpen && n.me.snd.acked == k && n.me.snd.saved == None
    && n.me.rcv == Receiver(ApmrOpen, 0)
    && n.peer.rcv == Receiver(ApmrOpen, k) && |n.peer.delivered| == k
    && n.peer.snd.acked == 0
  }

  const ROUND := [Action(false, Submit(Notification(Alarm(0, 0, 0, 0, 0, 0, 0, []), 0), 0)),
                  Action(true, Receive), Action(false, Receive)]

  lemma RoundStaysQuiet(n: Net, k: nat)
    requires Quiet(n, k)
    ensures Quiet(Run(n, ROUND), k + 1)
    ensures Run(n, ROUND).peer.snd == n.peer.snd && Run(n, ROUND).peer.savedAckIx == n.peer.savedAckIx
  {
    NumberIdentifies(k - 1, k);
    var n1 := Step(n, ROUND[0]);
    assert ROUND[1..] == [ROUND[1], ROUND[2]] && ROUND[1..][1..] == [ROUND[2]];
    assert n1.inc == [] && |n1.out| == 1 && n1.out[0].tx.sendSeq == SeqOf(k);
    var n2 := Step(n1, ROUND[1]);
    assert n2.out == [] && |n2.inc| == 1 && n2.inc[0].tx.pdu == AckPdu && n2.inc[0].tx.ackSeq == SeqOf(k);
    var n3 := Step(n2, ROUND[2]);
    assert Run(n, ROUND) == n3 by {
      assert Run(n, ROUND) == Run(n1, ROUND[1..]);
      assert Run(n1, ROUND[1..]) == Run(n2, [ROUND[2]]);
      assert Run(n2, [ROUND[2]]) == Run(n3, []);
    }
  }

  lemma {:induction false} ManyRounds(n: Net, k: nat, m: nat) returns (actions: seq<Action>)
    requires Quiet(n, k)
    ensures Quiet(Run(n, actions), k + m)
    ensures Run(n, actions).peer.snd == n.peer.snd && Run(n, actions).peer.savedAckIx == n.peer.savedAckIx
    decreases m
  {
    if m == 0 {
      actions := [];
    } else {
      RoundStaysQuiet(n, k);
      var rest := ManyRounds(Run(n, ROUND), k + 1, m - 1);
      actions := ROUND + rest;
      RunAppend(n, ROUND, rest);
    }
  }

  /** The peer sends a DATA PDU that is lost; its saved copy acknowledges PDU k - 1. */
  lemma PeerSendsInVain(n: Net, k: nat, body: Body)
    requires Quiet(n, k) && n.peer.snd.state == ApmsOpen && n.peer.snd.saved == None
    ensures var n' := Run(n, [Action(true, Submit(body, 1)), Action(true, Lose(0))]);
            && Quiet(n', k) && n'.peer.snd.state == ApmsWTack && n'.peer.snd.resend == 1
            && n'.peer.snd.saved == Some(Tx(DataPdu, true, SeqOf(0), SeqOf(k - 1), Some(body)))
  {
    var xs := [Action(true, Submit(body, 1)), Action(true, Lose(0))];
    var n1 := Step(n, xs[0]);
    assert |n1.inc| == 1 && n1.out == [];
    var n2 := Step(n1, xs[1]);
    assert n2.inc == [];
    assert xs[1..] == [xs[1]] && xs[1..][1..] == [];
    assert Run(n, xs) == Run(n1, xs[1..]) == Run(n2, []) == n2;
  }

  /** `me` sends PDU k, which is lost; the peer's saved DATA frame then acknowledges it. */
  lemma StaleCopyCredits(n: Net, k: nat, body: Body)
    requires Quiet(n, k) && n.peer.snd.state == ApmsWTack && n.peer.snd.resend == 1
    requires n.peer.snd.saved == Some(Tx(DataPdu, true, SeqOf(0), SeqOf(k), Some(body)))
    ensures var xs := [Action(false, Submit(body, 0)), Action(false, Lose(0)), Action(true, Resend),
            Action(false, Receive)];
            var n' := Run(n, xs);
            n'.me.snd.acked == k + 1 && |n'.peer.delivered| == k
  {
    var xs := [Action(false, Submit(body, 0)), Action(false, Lose(0)), Action(true, Resend), Action(false, Receive)];
    var n1 := Step(n, xs[0]);
    assert |n1.out| == 1 && n1.me.snd.state == ApmsWTack;
    var n2 := Step(n1, xs[1]);
    assert n2.out == [] && n2.inc == [];
    var n3 := Step(n2, xs[2]);
    assert |n3.inc| == 1 && n3.inc[0].tx == n.peer.snd.saved.value;
    var n4 := Step(n3, xs[3]);
    assert xs[1..] == [xs[1], xs[2], xs[3]] && xs[1..][1..] == [xs[2], xs[3]] && xs[1..][1..][1..] == [xs[3]];
    assert Run(n, xs) == Run(n1, xs[1..]);
    assert Run(n1, xs[1..]) == Run(n2, [xs[2], xs[3]]);
    assert Run(n2, [xs[2], xs[3]]) == Run(n3, [xs[3]]);
    assert Run(n3, [xs[3]]) == Run(n4, []);
  }

  /** A run of two endpoints in which a PDU is acknowledged but never delivered. It concerns APMS and APMR without their
      users: ALPMI would not send the second alarm before the first is answered. */
  lemma FrozenAckLosesPdu() returns (actions: seq<Action>)
    ensures |Run(START, actions).peer.delivered| < Run(START, actions).me.snd.acked
  {
    var body := AlarmAck(AlarmArgument(0, 0, 0, 0, 0), 0);
    var a1 := ManyRounds(START, 0, 2);
    var n1 := Run(START, a1);
    var a2 := [Action(true, Submit(body, 1)), Action(true, Lose(0))];
    PeerSendsInVain(n1, 2, body);
    var n2 := Run(n1, a2);
    var a3 := ManyRounds(n2, 2, MODULUS - 1);
    var n3 := Run(n2, a3);
    var a4 := [Action(false, Submit(body, 0)), Action(false, Lose(0)), Action(true, Resend), Action(false, Receive)];
    SameNumber(1, MODULUS + 1);
    StaleCopyCredits(n3, MODULUS + 1, body);
    RunAppend(START, a1, a2);
    RunAppend(START, a1 + a2, a3);
    RunAppend(START, a1 + a2 + a3, a4);
    actions := a1 + a2 + a3 + a4;
  }
}
