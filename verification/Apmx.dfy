/**
  The APMS (alarm sender) and APMR (alarm receiver) of one priority, as values.

  Counters are kept as unbounded PDU indexes: `acked` is the number of DATA PDUs the peer
  has acknowledged and `accepted` the number taken from the peer.  The 16-bit counters of the
  C structure are `SeqOf(acked)`, `SeqOf(acked - 1)`, `SeqOf(accepted)` and
  `SeqOf(accepted - 1)`; the classes of module AlarmInstance hold those and are proved to
  follow these functions.  Every decision below compares 16-bit numbers only.
*/
module Apmx {
  import opened Wrappers
  import opened SequenceNumbers

  datatype ApmsState = ApmsClosed | ApmsOpen | ApmsWTack
  datatype ApmrState = ApmrClosed | ApmrOpen | ApmrWCnf

  /** What an application hands over for sending. */
  datatype Alarm = Alarm(alarmType: nat, api: nat, slot: nat, subslot: nat,
                         moduleIdent: nat, submoduleIdent: nat, usi: nat, payload: seq<nat>)

  /** Identifies the alarm that an alarm acknowledgement answers. */
  datatype AlarmArgument = AlarmArgument(alarmType: nat, api: nat, slot: nat, subslot: nat,
                                         sequenceNumber: nat)

  /** The variable part of an RTA-PDU: alarm notification or alarm acknowledgement in a DATA PDU,
      error class and code in an ERR PDU. */
  datatype Body =
    | Notification(alarm: Alarm, sequenceNumber: nat)
    | AlarmAck(argument: AlarmArgument, status: nat)
    | ErrorStatus(cls: nat, code: nat)

  datatype PduType = DataPdu | NackPdu | AckPdu | ErrPdu | ReservedPdu

  /** An outgoing RTA-PDU. */
  datatype Tx = Tx(pdu: PduType, tack: bool, sendSeq: nat, ackSeq: nat, body: Option<Body>)

  /** `flight` records the body of the PDU that waits for its TACK; no decision reads it. */
  datatype Sender = Sender(state: ApmsState, acked: nat, saved: Option<Tx>, resend: nat,
                           flight: Option<Body>)

  datatype Receiver = Receiver(state: ApmrState, accepted: nat)

  /** DATA always asks for a TACK; its ack number is the last one accepted from the peer. */
  function MakeData(snd: Sender, rcv: Receiver, body: Body): Tx {
    Tx(DataPdu, true, SeqOf(snd.acked), SeqOf(rcv.accepted - 1), Some(body))
  }

  function MakeAck(snd: Sender, rcv: Receiver): Tx {
    Tx(AckPdu, false, SeqOf(snd.acked - 1), SeqOf(rcv.accepted - 1), None)
  }

  function MakeNack(snd: Sender, rcv: Receiver): Tx {
    Tx(NackPdu, false, SeqOf(snd.acked - 1), SeqOf(rcv.accepted - 1), None)
  }

  /** The ERR PDU that closes the connection. */
  function MakeErr(snd: Sender, rcv: Receiver, cls: nat, code: nat): Tx {
    Tx(ErrPdu, false, SeqOf(snd.acked), SeqOf(rcv.accepted - 1), Some(ErrorStatus(cls, code)))
  }

  /** A buffer with TACK is kept for retransmission unless one is already kept. */
  function Keep(saved: Option<Tx>, gotBuffer: bool, tx: Tx): Option<Tx> {
    if saved.None? && gotBuffer then Some(tx) else saved
  }

  /** APMS after handing a DATA PDU to the network. */
  function Launch(snd: Sender, tx: Tx, gotBuffer: bool, retries: nat): Sender {
    snd.(state := ApmsWTack, resend := retries, saved := Keep(snd.saved, gotBuffer, tx), flight := tx.body)
  }

  predicate Credits(snd: Sender, ackSeq: nat) {
    snd.state == ApmsWTack && ackSeq == SeqOf(snd.acked)
  }

  /** APMS looks at the ack number of an incoming ACK or DATA PDU. */
  function Credit(snd: Sender, ackSeq: nat): Sender {
    if Credits(snd, ackSeq)
    then snd.(state := ApmsOpen, acked := snd.acked + 1, saved := None)
    else snd
  }

  datatype Verdict = Fresh | Repeated | OutOfSequence

  /** The three-way comparison APMR makes on an incoming DATA PDU. */
  function Judge(rcv: Receiver, sendSeq: nat): Verdict {
    if sendSeq == SeqOf(rcv.accepted) then Fresh
    else if sendSeq == SeqOf(rcv.accepted - 1) then Repeated
    else OutOfSequence
  }

  function Accept(rcv: Receiver): Receiver {
    rcv.(accepted := rcv.accepted + 1)
  }

  /** The expected number and the previous number never coincide, so the cases exclude each other. */
  lemma VerdictsExclude(rcv: Receiver)
    ensures SeqOf(rcv.accepted) != SeqOf(rcv.accepted - 1)
    ensures Judge(rcv, SeqOf(rcv.accepted)) == Fresh
    ensures Judge(rcv, SeqOf(rcv.accepted - 1)) == Repeated
    ensures forall n :: Judge(rcv, n) == OutOfSequence <==> n != SeqOf(rcv.accepted) && n != SeqOf(rcv.accepted - 1)
  {
    NumberIdentifies(rcv.accepted - 1, rcv.accepted);
  }

  /** Once a number is accepted, the same frame again is answered as a repetition, never accepted twice. */
  lemma AcceptedOnlyOnce(rcv: Receiver)
    ensures Judge(Accept(rcv), SeqOf(rcv.accepted)) == Repeated
  {
    NumberIdentifies(rcv.accepted, rcv.accepted + 1);
  }
}
