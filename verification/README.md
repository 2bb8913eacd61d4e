# Verified model of p-net's alarm transport and cyclic consumer

This project models three parts of the p-net PROFINET device stack in Dafny and proves what
they promise.  `dafny verify dfyconfig.toml` checks all of it.

**The alarm transport of an AR** (`src/common/pf_alarm.c`).  For each priority four machines
work together: APMS sends one DATA PDU at a time and resends it on a timer, APMR receives and
acknowledges, ALPMI has at most one alarm waiting for its confirmation, ALPMR indicates an alarm,
waits for the application and then for the transport acknowledgement (TACK).

- `SequenceNumbers`, `Apmx`: the 16-bit counters, and APMS and APMR as values.
- `Transport`: two endpoints over channels that lose and duplicate frames but keep their order, and
  exactly when their delivery promise holds.
- `AlarmModel`: all machines, queues and timers of one AR as a step function on values.
- `AlarmInvariants`, `AlarmTheorems`: what every step keeps, and the results about whole runs.
- `AlarmReception`, `AlarmSending`: the same machines told from outside, by the guards of a frame and by counting:
  which frame does what and which ends the AR, which frames a call of the periodic function reads, how often a PDU is
  sent, which number an alarm carries, what an abort leaves.
- `EndToEnd`: two ARs with all their machines, joined by such channels.  ALPMI and ALPMR keep every
  acknowledgement on its way young, so the delivery promise holds without any premise about it, and it
  carries the alarms themselves from one application to the other.
- `FrameBuffers`, `AlarmQueues`, `AlarmInstance`: the same code as classes that update their fields in
  place, ring queues on arrays and hand-managed frame buffers included.  Every method is proved to do to
  the state what the function of module `AlarmModel` does to its value, and to leave every frame buffer in
  use with exactly one owner.  A ghost journal keeps the events that have happened; the class invariant says
  that the state is the one the model reaches by them, so the results about runs hold for the records.
- `DiagSummary`: the diagnosis summary folded over an index-linked list
  (section 7.3.1.6.5.1 of the PROFINET services specification, version 2.4).

**The cyclic consumer** (`src/common/pf_cpm.c` and its software driver).

- `CpmCycle`: the freshness test on the cycle counter (section 4.7.2.1.2 of the PROFINET protocol
  specification, version 2.4) and what it means over runs of frames.
- `CpmLifeCycle`: creation, activation and closing, and the count that owns the shared mutex.
- `CpmData`: the search for a descriptor and the reads that begin with it.
- `CpmDriver`: frame handler, data hold timer and double buffer of the software driver.

**The interface list of the sample application** (`samples/pn_dev/app_utils.c`): `NetifNames`.

## Assumptions

- An error indication aborts the AR before it returns.  It reaches `pf_alarm_close` through CMSU, as the comments
  at `src/common/pf_alarm.c:445-453` and 843-849 say, and `pf_cmrpc_cmdev_state_ind` then clears the whole AR record
  (`src/device/pf_cmrpc.c:5095`, 711-723).  Activation works on a record that has been cleared (`src/device/pf_cmrpc.c:679`).
- A handler that reads through a pointer of the cleared record faults; the model says when that happens
  (`FaultsExactly`) and nothing about what the C code does after it.
- Buffer allocation, frame sending and timer allocation may fail.  `Env` says for each moment what happens;
  results hold for every `Env` unless they require a healthy one.
- The scheduler holds a number of pending callbacks for each APMX.  A TACK cancels none of them; closing
  removes the one its handle refers to.
- User callbacks do not call back into the alarm module; the application's calls are events of their own.
- Received frames come parsed, with a flag for a notification that cannot be parsed.

## Where the code and its comments differ

The model follows the code.

- A request to an APMS that is not OPEN is answered with two negative confirmations (`src/common/pf_alarm.c:1428-1429`).
  The first aborts the AR and clears the record, so that the second finds no ALPMX (`src/common/pf_alarm.c:558`).  It
  takes no misbehaving partner: an own alarm dispatched while an alarm acknowledgement awaits its TACK is enough.
  `FaultsExactly` names all such states, `FaultReachable` gives the run.
- WCNF is described as a virtual state that is never seen (`src/common/pf_alarm.c:1857-1863`), but a
  notification that cannot be parsed leaves APMR there for good: `JammedExactly`, `JammedStaysJammed`.
- An alarm acknowledgement always uses the high-priority machines (`src/common/pf_alarm.c:2915`), so a
  low-priority alarm of the controller can be indicated but never acknowledged: `LowAlarmsNeverAcknowledged`,
  `LowPriorityStalls`.
- The expected counter advances before the acknowledgement is sent; when that fails locally the PDU is
  lost to the application: `SwallowedExactly`.
- A resent DATA frame carries the acknowledgement number it was built with.  APMS and APMR alone would lose a PDU
  to a number that has come round (`FrozenAckLosesPdu`, exactly when: `DeliveryExactly`); ALPMI and ALPMR never let
  a number get that old (`EndToEnd.NeverMisled`).
- The new flag of a data read is described as "since last call" (`src/common/pf_cpm.h:104-105`), but an IOCS read
  in between clears it: `CpmDriver.Consumer.GetDataAndIops`.
- A frame of a freshly activated consumer is rejected when its counter is 61440 or more, although no frame
  came before it: `FirstFrame`.
- A consumer whose activation the driver refuses loses its record, but stays counted (`src/common/pf_cpm.c:283`):
  `RefusalClearsAr`.
- The interface parser is described as not checking the names (`samples/pn_dev/app_utils.h:227-228`), but it
  refuses empty ones; and with 65535 ports its list size wraps to 0 and every list is refused: `GetNetifNamelist`.

## Model

| member | source | states |
|---|---|---|
| SequenceNumbers.NextSeqIsNextPdu | src/common/pf_alarm.c:1042-1043 | the increment `(count + 1) & 0x7fff` steps the closed form of the counter from PDU k to PDU k + 1, including the step out of the start value 0xffff |
| SequenceNumbers.SameNumber | src/common/pf_alarm.c:950-956 | two PDUs of a connection carry the same number if and only if they are the same PDU, or neither is the first and they lie a multiple of 0x8000 apart |
| SequenceNumbers.NumberIdentifies | src/common/pf_alarm.c:950-956 | within a window of 0x8000 PDUs the number identifies the PDU |
| Apmx.VerdictsExclude | src/common/pf_alarm.c:1719-1856 | expected and previous number never coincide, so accept, acknowledge again and NACK exclude each other and cover every number |
| Apmx.AcceptedOnlyOnce | src/common/pf_alarm.c:1736-1737 | after accepting a DATA PDU the same frame is a repetition, never accepted again |
| Transport.CreditsExactly | src/common/pf_alarm.c:1038-1040 | an incoming frame is credited if and only if APMS waits and the frame acknowledges the outstanding PDU, or its acknowledgement number has come round |
| Transport.AcksNeverMislead | src/common/pf_alarm.c:1600-1627 | only a DATA frame, with the number frozen when it was built, can carry a number that has come round; a pure acknowledgement never does |
| Transport.CreditIsGenuine | src/common/pf_alarm.c:1038-1083 | when APMS takes an acknowledgement whose number has not come round, the peer has accepted exactly the outstanding PDU and everything before it |
| Transport.NeverOutOfSequence | src/common/pf_alarm.c:1719-1856 | between two well-behaved endpoints every arriving DATA frame is the next PDU or the previous one; NACK is never sent |
| Transport.StepKeeps | src/common/pf_alarm.c:1413-1478 | sending, resending, receiving, loss and duplication all keep the core of the protocol unless a number that has come round is credited too early, and the age of acknowledgements unless one has come round at all |
| Transport.RunKeeps | src/common/pf_alarm.c:1711-1856 | the protocol invariant holds over runs of any length in which no received frame misleads its receiver |
| Transport.TwoWayDelivery | src/common/pf_alarm.c:1026-1109 | both sides sending and no received frame misleading: delivered PDUs are a prefix of the submitted ones, each once, and the number delivered is the number acknowledged or one more; everything is delivered when APMS is OPEN |
| Transport.OneWayDelivery | src/common/pf_alarm.c:1026-1109 | the same for one direction with pure acknowledgements back, without any premise on the run, across any number of wrap-arounds |
| Transport.PromiseBrokenExactly | src/common/pf_alarm.c:1026-1109 | receiving a frame breaks the delivery promise if and only if its number has come round and the peer has not yet accepted the outstanding PDU |
| Transport.PromisesExactly | src/common/pf_alarm.c:1026-1109 | over a run from any state of the core the promise holds all along, both ways, if and only if no such frame is received in the run |
| Transport.DeliveryExactly | src/common/pf_alarm.c:1026-1109 | the same from the start of a connection |
| Transport.Progress | src/common/pf_alarm.c:811-842 | no dead end: with a retry left, some continuation delivers and acknowledges the outstanding PDU |
| Transport.FrozenAckLosesPdu | src/common/pf_alarm.c:1440-1441 | a concrete run of APMS and APMR without their users in which a resent DATA frame with an old acknowledgement number makes the sender drop an undelivered PDU |
| EndToEnd.DeedRefines | src/common/pf_alarm.c:1413-1478 | one step of two lines with all four machines, raising no error indication, does to APMS, APMR and the channels what the two endpoints do |
| EndToEnd.AtMostOneFrame | src/common/pf_alarm.c:1333 | no handler hands more than one frame to the network |
| EndToEnd.RunRefines | src/common/pf_alarm.c:1998-2181 | every such run of the pair is simulated by the same run of two endpoints |
| EndToEnd.Budget | src/common/pf_alarm.c:2636-2641 | a side submits at most one PDU more than it has accepted, fewer while ALPMI or ALPMR wait |
| EndToEnd.NeverMisled | src/common/pf_alarm.c:1040 | between two ARs an arriving acknowledgement is at most three PDUs old, so its number has never come round |
| EndToEnd.AnswerIsAwaited | src/common/pf_alarm.c:515-537 | an alarm acknowledgement that arrives in sequence finds ALPMI waiting for it |
| EndToEnd.DeedNumbers | src/common/pf_alarm.c:2224-2227 | each side gives its PDUs successive positions: launching takes the next number, no other deed takes one |
| EndToEnd.DeedsAreEvents | src/common/pf_alarm.c:2883-2960 | what a deed does to a line of the pair, the corresponding event does to the line of the AR |
| EndToEnd.TwoArsDeliver | src/common/pf_alarm.c:1026-1109 | between two freshly activated ARs, both sides sending, without any premise about acknowledgements: PDU counts agree, the alarms indicated are the alarms submitted, in order and each once, with their contents and with the sequence number of their position, and the confirmations carry the answers of the other application in order |
| EndToEnd.LowPriorityStalls | src/common/pf_alarm.c:2915-2916 | in low priority each side sends at most one alarm, at most one is indicated, and none is ever answered |
| EndToEnd.AnyNumberOfAlarms | src/common/pf_alarm.c:2200-2247 | in high priority, for every k there is a run in which k alarms in a row are sent, indicated, acknowledged by the application, confirmed and fully acknowledged |
| AlarmInvariants.RequestOk | src/common/pf_alarm.c:1413-1478 | APMS_A_Data.req keeps the invariant of the line, or raises an error indication |
| AlarmInvariants.FireOk | src/common/pf_alarm.c:788-893 | a firing resend timer keeps the invariant, or raises an error indication when no retry is left |
| AlarmInvariants.ProcessOk | src/common/pf_alarm.c:1998-2181 | processing one received frame keeps the invariant, whatever the frame |
| AlarmInvariants.CloseArOk | src/common/pf_alarm.c:2702-2733 | closing establishes the invariant from any state that keeps the queues and histories right |
| AlarmInvariants.AbortArOk | src/device/pf_cmrpc.c:711-723 | so does an abort, which also clears the record |
| AlarmInvariants.AckAlarmOk | src/common/pf_alarm.c:2907-2960 | acknowledging an alarm keeps the invariant also when it aborts the AR |
| AlarmInvariants.ActivationOk | src/common/pf_alarm.c:2676-2700 | activating keeps the invariant whether it succeeds or is refused |
| AlarmInvariants.StepOk | src/common/pf_alarm.c:2883-2960 | every event keeps the invariant of both priorities, whatever the peer, the application and the environment do |
| AlarmInvariants.RunOk | src/common/pf_alarm.c:2883-2960 | so does every run |
| AlarmTheorems.ConfirmationsMatchAlarms | src/common/pf_alarm.c:514-537 | whatever the peer sends, alarm sends and confirmations alternate, beginning with a send; one is outstanding exactly in ALPMI W_ACK |
| AlarmTheorems.DispatchedInPostOrder | src/common/pf_alarm.c:2546-2610 | alarms of one priority are handed to the sender in post order, each once; the others still wait, within the capacity of the queue |
| AlarmTheorems.OneAlarmPerPeriod | src/common/pf_alarm.c:2627-2656 | one call of the periodic function hands over at most one alarm, the oldest of its priority, of low priority only when after receiving no high-priority alarm could go |
| AlarmTheorems.FaultsExactly | src/common/pf_alarm.c:1427-1429 | an event reads through a pointer of a cleared record if and only if it makes a request to an APMS that is not OPEN, or looks for alarms to send on an AR that is not activated |
| AlarmTheorems.FaultReachable | src/common/pf_alarm.c:1427-1429 | a concrete run with nothing out of order reaches such a state: an own alarm is dispatched while an alarm acknowledgement awaits its TACK |
| AlarmTheorems.FaultedIsClosed | src/common/pf_alarm.c:1428 | over every run both priorities open and close together, and after a fault both are closed |
| AlarmTheorems.TransmissionsBounded | src/common/pf_alarm.c:811-842 | over every run each DATA PDU is handed to the network at most 1 + rta_retries times, however many stale timers are pending |
| AlarmTheorems.FiringDescends | src/common/pf_alarm.c:788-893 | every timer firing lowers (retries left, pending timers) lexicographically |
| AlarmTheorems.TimersDieOut | src/common/pf_alarm.c:788-893 | without new sends the timer activity ends after at most the sum of both firings |
| AlarmTheorems.RunWatched | src/common/pf_alarm.c:1459-1475 | while allocations succeed, an unacknowledged PDU always has a saved copy and a pending timer |
| AlarmTheorems.SilentPeerClosesAr | src/common/pf_alarm.c:862-873 | when the peer is silent, one firing more than the retries left closes the AR |
| AlarmTheorems.StepJoint | src/common/pf_alarm.c:553-602 | ALPMR is in W_TACK exactly while an alarm acknowledgement is outstanding in APMS; every event keeps this |
| AlarmTheorems.RunJoint | src/common/pf_alarm.c:553-602 | so does every run |
| AlarmTheorems.TackCreditedToItsMachine | src/common/pf_alarm.c:553-602 | in every run a TACK confirms an alarm acknowledgement to ALPMR exactly when one is outstanding |
| AlarmTheorems.CloseThenActivate | src/common/pf_alarm.c:2676-2733 | from every reachable state close puts all machines in W_START or CLOSED with no queue, no saved frame and no armed timer; activate then succeeds with the initial protocol state on both priorities and touches nothing else, with or without the clearing of the record in between |
| AlarmTheorems.JammedExactly | src/common/pf_alarm.c:1796-1807 | exactly which frame leaves APMR in WCNF: an acknowledged in-sequence notification that cannot be parsed |
| AlarmTheorems.JammedStaysJammed | src/common/pf_alarm.c:1857-1863 | over every run that does not close it, such an APMR accepts nothing |
| AlarmTheorems.SwallowedExactly | src/common/pf_alarm.c:1736-1740 | an awaited PDU reaches the application if and only if the acknowledgement could be sent; otherwise its retransmission is only acknowledged and the PDU is lost |
| AlarmTheorems.LowResponderStuck | src/common/pf_alarm.c:2915-2916 | a low-priority ALPMR that has indicated an alarm leaves W_USER_ACK only when the AR closes |
| AlarmTheorems.LowAlarmsNeverAcknowledged | src/common/pf_alarm.c:2915-2916 | in no run is a low-priority alarm of the controller acknowledged by the application, nor a second one indicated |
| AlarmTheorems.AbortTellsController | src/common/pf_alarm.c:1498-1541 | an abort closes both priorities and, given a buffer, sends one ERR PDU in low priority with the numbers of the connection and the error code |
| AlarmTheorems.SecondLowNotificationAborts | src/common/pf_alarm.c:666-678 | the next well-formed low-priority notification aborts the AR, and the controller is told of a protocol violation |
| AlarmReception.CreditedExactly | src/common/pf_alarm.c:1026-1109 | over all frames: APMS is credited exactly by an ACK PDU without a variable part, or a DATA PDU that is accepted or repeated, with the number of the outstanding PDU; nothing else touches APMS |
| AlarmReception.AcceptedExactly | src/common/pf_alarm.c:1736-1737 | a DATA PDU counts exactly when it asks for a TACK, carries the next number and has a known block type |
| AlarmReception.AnsweredExactly | src/common/pf_alarm.c:1719-1856 | the answer to any frame: an ACK with the very number received, a NACK with the number accepted last, or nothing, exactly when |
| AlarmReception.IndicatedExactly | src/common/pf_alarm.c:625-682 | the application is told exactly of an in-sequence notification that can be parsed, is acknowledged, and finds ALPMR ready; ALPMR gets the TACK it waits for first |
| AlarmReception.ConfirmedExactly | src/common/pf_alarm.c:514-537 | an alarm is confirmed exactly by an in-sequence alarm acknowledgement that is acknowledged, with its status |
| AlarmReception.EndsExactly | src/common/pf_alarm.c:2030-2170 | a frame raises an error indication exactly if it is an ERR PDU of 4 octets, an in-sequence DATA PDU of unknown block type, or an acknowledged notification while ALPMR is busy, with the class and code; a DATA PDU out of sequence only notes an error |
| AlarmReception.FailsExactly | src/common/pf_alarm.c:1719-1856 | exactly which frames make processing fail |
| AlarmReception.TurnEndsExactly | src/common/pf_alarm.c:2093-2113 | a turn of the receive loop takes both priorities down exactly for the frames that raise an error indication; given a buffer the ERR PDU sent carries the code of the received ERR PDU, or the literal code of the protocol error |
| AlarmReception.FrameArrives | src/common/pf_alarm.c:709-762 | a frame is queued behind those of its priority exactly when the handlers are registered and an available queue has room |
| AlarmReception.LoopIsRound | src/common/pf_alarm.c:2001-2181 | the receive loop takes turns exactly while a frame is there and none has failed, and reports a failure |
| AlarmReception.RoundReadsInOrder | src/common/pf_alarm.c:2001-2181 | turn m takes the m-th queued frame, and all are taken unless a turn fails or closes the AR |
| AlarmReception.PeriodicIsRun | src/common/pf_alarm.c:2883-2905 | one call of the periodic function is turns of the low receive loop, turns of the high one unless a low turn failed, and one send; if no turn fails, no frame is left at either priority |
| AlarmSending.RunCounted | src/common/pf_alarm.c:811-842 | over every run with buffers available, copies sent and retries left of the unacknowledged PDU add up to 1 + rta_retries |
| AlarmSending.SilentPeerGetsAllCopies | src/common/pf_alarm.c:811-873 | from any reachable state with an unacknowledged PDU, timer firings alone bring its copies to exactly 1 + rta_retries with the PDU still outstanding, and the next one closes the AR |
| AlarmSending.RunNumbers | src/common/pf_alarm.c:2224-2227 | over every run the sequence number is the number of alarms handed over and acknowledgements given since ALPMI was started, modulo 0x800, and the previous one the number before it |
| AlarmSending.AlarmCarriesItsPosition | src/common/pf_alarm.c:2200-2247 | in every run the alarm that is sent carries exactly that number, in a DATA PDU of which one copy goes out |
| AlarmSending.DispatchSends | src/common/pf_alarm.c:2200-2247 | what dispatching an alarm puts on the network; the alarm counts as sent exactly when buffer, send and timer succeed |
| AlarmSending.AckSends | src/common/pf_alarm.c:2907-2960 | what the application acknowledging an alarm puts on the network, with its argument and status; without an alarm in hand it is only an error |
| AlarmSending.PostsAtEnd | src/common/pf_alarm.c:3009-3105 | an alarm goes to the end of the queue exactly when alarms are enabled, it fits and there is room |
| AlarmSending.TimerEndsExactly | src/common/pf_alarm.c:862-873 | a firing timer takes the AR down exactly when it finds a kept PDU with no retry left; the code is reported |
| AlarmSending.RefusalEnds | src/common/pf_alarm.c:1427-1429 | a request to an APMS that is not OPEN takes both priorities down; the code is reported |
| AlarmSending.AbortClears | src/device/pf_cmrpc.c:711-723 | after an abort the record equals a fresh one, except for what the scheduler holds, from which each priority has removed the entry its handle refers to |
| AlarmSending.SecondActivation | src/common/pf_alarm.c:2676-2700 | activating an active connection is refused and leaves machines and received frames alone, but loses the alarms waiting to be sent |
| FrameBuffers.BufferPool.Alloc | src/common/pf_alarm.c:1184-1192 | a new buffer is one that was not in use, or none |
| FrameBuffers.BufferPool.Free | src/common/pf_alarm.c:886-891 | only a buffer in use can be freed, and it is then free |
| AlarmQueues.Accountant.GetWriteIndex | src/common/pf_alarm.c:2346-2365 | claims the slot behind the newest entry unless the ring is full |
| AlarmQueues.Accountant.GetReadIndex | src/common/pf_alarm.c:2378-2397 | gives up the slot of the oldest entry unless the ring is empty; all others keep their order |
| AlarmQueues.Accountant.IndexesModulo | src/common/pf_alarm.c:2346-2397 | in every state write_index is (read_index + count) modulo the capacity |
| AlarmQueues.SendQueue.Post | src/common/pf_alarm.c:2546-2579 | appends to the FIFO unless it is full or not available |
| AlarmQueues.SendQueue.Fetch | src/common/pf_alarm.c:2589-2610 | takes the oldest alarm of the FIFO |
| AlarmQueues.SendQueue.Reset | src/common/pf_alarm.c:2520-2536 | empties an available FIFO |
| AlarmQueues.ReceiveQueue.Post | src/common/pf_alarm.c:2444-2479 | appends to the FIFO unless it is full or not available; slots outside the live window stay NULL |
| AlarmQueues.ReceiveQueue.Fetch | src/common/pf_alarm.c:2488-2514 | takes the oldest frame of the FIFO and sets its slot to NULL |
| AlarmQueues.ReceiveQueue.Reset | src/common/pf_alarm.c:2409-2435 | empties an available FIFO and frees exactly the buffers of the frames in it |
| AlarmQueues.ReceiveQueue.SlotsHoldContents | src/common/pf_alarm.c:2424-2433 | the non-NULL slots of the array are exactly the queued frames |
| AlarmQueues.FreeSlots | src/common/pf_alarm.c:2424-2433 | the reset loop frees every non-NULL slot once and leaves all NULL |
| AlarmInstance.PriorityLevel.ADataReq | src/common/pf_alarm.c:1154-1389 | one frame is built and sent; with TACK it is kept unless one is kept already, any other buffer is freed; no buffer leaks |
| AlarmInstance.PriorityLevel.ApmrSendAck | src/common/pf_alarm.c:1600-1627 | the ACK carries the last accepted number and is not kept |
| AlarmInstance.PriorityLevel.ApmrSendNack | src/common/pf_alarm.c:1642-1669 | the NACK carries the last accepted number and is not kept |
| AlarmInstance.PriorityLevel.ApmsADataInd | src/common/pf_alarm.c:1026-1109 | an acknowledgement of the outstanding PDU steps the counters, frees the saved frame, confirms to ALPMR and opens APMS; any other changes nothing |
| AlarmInstance.PriorityLevel.TakeTack | src/common/pf_alarm.c:1042-1070 | the positive branch of the above on the 16-bit fields |
| AlarmInstance.PriorityLevel.ApmsSendData | src/common/pf_alarm.c:1428-1475 | a DATA PDU goes out with TACK, the retry counter and the timer are started, APMS waits |
| AlarmInstance.PriorityLevel.AcceptData | src/common/pf_alarm.c:1733-1739 | the acknowledgement number is looked at before the expected number advances, then the ACK goes out |
| AlarmInstance.PriorityLevel.RepeatAck | src/common/pf_alarm.c:1831-1839 | a repeated DATA PDU is acknowledged again and not counted |
| AlarmInstance.PriorityLevel.TimerFires | src/common/pf_alarm.c:788-893 | resend and restart the timer, give up, or free a leftover frame, as APMS state and retry counter say |
| AlarmInstance.PriorityLevel.CloseApmx | src/common/pf_alarm.c:1547-1583 | only the timer the handle refers to is stopped; saved frame and queued frames are freed |
| AlarmInstance.PriorityLevel.CloseAlpmx | src/common/pf_alarm.c:423-463 | the send queue is emptied and destroyed and both machines are back in W_START |
| AlarmInstance.PriorityLevel.ActivateAlpmx | src/common/pf_alarm.c:366-408 | both machines start, or the refusal names the machine in the wrong state |
| AlarmInstance.PriorityLevel.ActivateApmx | src/common/pf_alarm.c:922-994 | both machines start with the start counters and an empty queue, or the refusal names the machine in the wrong state |
| AlarmInstance.AlarmInstance.ApmsRequest | src/common/pf_alarm.c:1413-1478 | APMS_A_Data.req on the records: a DATA PDU goes out, or the AR is aborted and the handler faults |
| AlarmInstance.AlarmInstance.RefuseRequest | src/common/pf_alarm.c:1427-1429 | of the two negative confirmations the first aborts the AR and the second finds no ALPMX |
| AlarmInstance.AlarmInstance.AlpmrNegativeCnf | src/common/pf_alarm.c:553-602 | the negative confirmation to ALPMR: a fault without its link, nothing in W_START, else an abort |
| AlarmInstance.AlarmInstance.Release | src/device/pf_cmrpc.c:711-723 | clearing the record leaves the buffers of others alone and the alarm module with none |
| AlarmInstance.AlarmInstance.Abort | src/device/pf_cmrpc.c:5046-5103 | an abort is closing followed by the clearing of the record |
| AlarmInstance.AlarmInstance.ErrorInd | src/common/pf_alarm.c:330-351 | an error indication writes the error and aborts the AR at once |
| AlarmInstance.AlarmInstance.JudgeData | src/common/pf_alarm.c:1719-1856 | the comparison of the sequence number with the two 16-bit counters decides between delivering, acknowledging again and NACK |
| AlarmInstance.AlarmInstance.ApmrADataInd | src/common/pf_alarm.c:1689-1872 | a DATA PDU in every state of APMR |
| AlarmInstance.AlarmInstance.DeliverNotification | src/common/pf_alarm.c:1778-1815 | a notification is delivered with APMR in WCNF, which it leaves only when delivery succeeds |
| AlarmInstance.AlarmInstance.AlpmrApmrADataInd | src/common/pf_alarm.c:625-682 | a notification is ignored, indicated once, or closes the AR |
| AlarmInstance.AlarmInstance.ProcessFrame | src/common/pf_alarm.c:2030-2170 | one received frame by version, type and length |
| AlarmInstance.AlarmInstance.FrameHandler | src/common/pf_alarm.c:709-762 | a frame is taken over exactly when it could be queued; otherwise its buffer stays with the caller |
| AlarmInstance.AlarmInstance.Turn | src/common/pf_alarm.c:2004-2181 | one turn of the receive loop: the fetched buffer is freed exactly once even when processing closed the AR and reset the queue |
| AlarmInstance.AlarmInstance.PollQueue | src/common/pf_alarm.c:2001-2181 | the receive loop of one priority ends and does what repeated turns do |
| AlarmInstance.AlarmInstance.ApmrPeriodic | src/common/pf_alarm.c:1979-2184 | both priorities, low first; a failure ends the round and is reported |
| AlarmInstance.AlarmInstance.SendInternal | src/common/pf_alarm.c:2200-2247 | an alarm is numbered, sent, and awaited only when the send succeeded |
| AlarmInstance.AlarmInstance.AlmpiPeriodic | src/common/pf_alarm.c:2627-2656 | at most one alarm per call, high priority first |
| AlarmInstance.AlarmInstance.Periodic | src/common/pf_alarm.c:2883-2905 | receive, then dispatch, for one AR: turns for the queued frames of both priorities and one send |
| AlarmInstance.AlarmInstance.TimerExpires | src/common/pf_alarm.c:788-893 | a scheduler callback on the records does what the model does |
| AlarmInstance.AlarmInstance.SendAlarm | src/common/pf_alarm.c:3009-3105 | an alarm is queued behind the others exactly when alarms are enabled, the payload fits and the queue has room |
| AlarmInstance.AlarmInstance.AlarmAck | src/common/pf_alarm.c:2907-2960 | the application acknowledges with high priority, successfully exactly when an alarm is in hand, APMS is OPEN and buffer, send and timer are there; a request that aborts faults |
| AlarmInstance.AlarmInstance.Activate | src/common/pf_alarm.c:2676-2700 | activation on the records, with the last refusal as error |
| AlarmInstance.AlarmInstance.Close | src/common/pf_alarm.c:2702-2733 | closing on the records does what the model does |
| AlarmInstance.AlarmInstance.AbortConnection | src/common/pf_alarm.c:2702-2733 | after an abort the alarm module owns no frame buffer |
| AlarmInstance.AlarmInstance.RunResultsHold | src/common/pf_alarm.c:2883-2960 | whatever has happened to the records: sends and confirmations alternate, replies come in order, no PDU was transmitted too often and an outstanding one as often as retries are used up, sequence numbers are positions, ALPMR waits for a TACK exactly while an acknowledgement is outstanding, low-priority alarms stay unacknowledged |
| AlarmInstance.AlarmInstance.BuffersAccountedFor | src/common/pf_alarm.c:886-891 | in every state the buffers of the alarm module are the queued frames and the saved frames, each owned once |
| AlarmInstance.AlarmInstance.Counters | src/common/pf_alarm.c:950-956 | on the 16-bit fields each counter pair is the start pair or consecutive modulo 0x8000, its members differ, and the counter is the closed form of the PDUs counted |
| DiagSummary.TestSeverity | src/common/pf_alarm.c:2796-2848 | the test on the masked qualifier agrees with the meaning of the severity |
| DiagSummary.OnTheBits | src/common/pf_alarm.c:2756-2881 | severities and appearance of an item on the single bits of the channel properties and the qualifier |
| DiagSummary.MaskValues | src/common/pf_alarm.c:2756-2881 | the severity masks have the values of the C code, share no bit, and make up the severity bits from 7 on |
| DiagSummary.AddDiagItem | src/common/pf_alarm.c:2756-2881 | one item adds exactly the bits and flags it calls for |
| DiagSummary.GetDiagSummary | src/common/pf_alarm.c:1897-1959 | the walk over an index-linked list ends and gives each flag and bit exactly when some item calls for it |
| DiagSummary.OrderIndependent | src/common/pf_alarm.c:1931-1955 | the summary depends only on the set of items |
| DiagSummary.SpecifierHierarchy | src/common/pf_alarm.c:2756-2881 | an AR diagnosis is a submodule diagnosis, which is a channel or a manufacturer diagnosis; bit 2 of the maintenance status is never set |
| DiagSummary.ChainAcyclic | src/common/pf_alarm.c:1941-1955 | a list whose walk ends visits no item twice |
| DiagSummary.ChainUnique | src/common/pf_alarm.c:1941-1955 | a start index determines the list |
| CpmCycle.AcceptsExactly | src/common/pf_cpm.c:181-193 | the truncating subtraction accepts exactly the counters 1 to 61440 steps ahead, for every previous value |
| CpmCycle.FirstFrame | src/common/pf_cpm.c:244 | with the previous value -1 exactly the counters below 61440 are accepted |
| CpmCycle.CountersTellTicks | src/common/pf_cpm.c:181-193 | over an accepted run the counters give the elapsed ticks modulo 65536, and every frame advances the clock |
| CpmCycle.ReplayExactly | src/common/pf_cpm.c:181-193 | a frame presented again passes if and only if the ticks since, modulo 65536, are 4096 or more |
| CpmCycle.RecentReplayRejected | src/common/pf_cpm.c:181-193 | a frame accepted at most 4095 ticks ago is rejected |
| CpmCycle.LimitIsTight | src/common/pf_cpm.c:181-193 | from every counter value a replay after 4096 ticks is accepted |
| CpmCycle.NoRepetition | src/common/pf_cpm.c:181-193 | within one turn of the counter no value is accepted twice |
| CpmLifeCycle.CreateKeepsExactly | src/common/pf_cpm.c:130-134 | creating keeps mutex and count in agreement if and only if the 32-bit count does not wrap |
| CpmLifeCycle.CloseKeepsExactly | src/common/pf_cpm.c:164-172 | closing keeps them in agreement if and only if the driver refuses or an instance is counted |
| CpmLifeCycle.LockOverRuns | src/common/pf_cpm.c:117-179 | over every run of creates and closes that match, the count is creates less successful closes and the mutex exists exactly while it is positive, none leaks and none is destroyed twice, driver failures included |
| CpmLifeCycle.ServingExactly | src/common/pf_cpm.c:117-308 | over every run a consumer is out of W_START exactly when the events alone say so: activated, and since then not created, closed, timed out, or cleared with its AR |
| CpmLifeCycle.DriverAskedOnlyWhenActivated | src/common/pf_cpm.c:393-579 | over every run a read reaches the driver exactly when its consumer is in service in that sense; then it was successfully activated, with no create or close in between |
| CpmLifeCycle.ReadAfterCloseRefused | src/common/pf_cpm.c:161 | a read directly after a create or close is refused |
| CpmLifeCycle.IntervalExact | src/common/pf_cpm.c:235-238 | for the values the protocol allows the control interval is 31.25 us for each unit of send clock times reduction, rounded down |
| CpmLifeCycle.CpmStack.Create | src/common/pf_cpm.c:117-147 | creation on the records; a driver failure leaves the instance counted |
| CpmLifeCycle.CpmStack.CloseReq | src/common/pf_cpm.c:149-179 | closing on the records puts the consumer into W_START; a driver failure leaves the count alone |
| CpmLifeCycle.RefusalClearsAr | src/common/pf_cpm.c:282-288 | an activation takes a consumer out of service if and only if the driver refuses an instance in W_START; then every consumer of the AR is cleared and stays counted |
| CpmLifeCycle.CpmStack.ErrorInd | src/device/pf_cmrpc.c:711-723 | clearing the AR clears the records of its consumers and of no others |
| CpmLifeCycle.CpmStack.ActivateReq | src/common/pf_cpm.c:212-308 | activation succeeds exactly in W_START with a willing driver; a refusal clears the AR with its error and its consumers, another state is an error |
| CpmData.GetArIocrDesc | src/common/pf_cpm.c:324-391 | the flag-driven loops return the lexicographically first in-use descriptor among OUTPUT and MC_CONSUMER relations, and fail exactly when there is none or the sub-slot has no AR |
| CpmData.FirstMatchUnique | src/common/pf_cpm.c:352-381 | there is at most one first match |
| CpmData.GetDataAndIops | src/common/pf_cpm.c:393-494 | the driver is asked exactly when the first matching descriptor is active and both buffers are large enough; lengths and new flag in every outcome |
| CpmData.GetIocs | src/common/pf_cpm.c:496-579 | the same for IOCS; a descriptor without IOCS is refused |
| CpmDriver.Consumer.DataInd | src/common/pf_cpm_driver_sw.c:257-400 | a frame becomes the newest exactly when the consumer is active and the frame is valid, from the controller, of the configured length and fresh; every buffer not needed is freed once |
| CpmDriver.AcceptableExactly | src/common/pf_cpm_driver_sw.c:297-318 | on the octets: exactly the frames with transfer status 0, the source address of the controller, the configured length, bit 2 of the data status, and a counter 1 to 61440 steps ahead |
| CpmDriver.Consumer.Expired | src/common/pf_cpm_driver_sw.c:46-116 | a running consumer stops at the first expiry that finds the data hold factor reached by expiries without a fresh frame; which error is indicated; when the AR is aborted the buffers are freed and the record is cleared, otherwise the frames stay |
| CpmDriver.Consumer.GetBuf | src/common/pf_cpm_driver_sw.c:205-237 | the newest accepted frame becomes the application's |
| CpmDriver.Consumer.GetDataAndIops | src/common/pf_cpm_driver_sw.c:444-491 | the bytes are those of the newest accepted frame; the new flag misses a frame exactly when an IOCS read was first to fetch it |
| CpmDriver.Consumer.GetIocs | src/common/pf_cpm_driver_sw.c:493-515 | the bytes are those of the newest accepted frame |
| CpmDriver.Consumer.ReplayRefused | src/common/pf_cpm_driver_sw.c:319 | over the life of a consumer a frame accepted at most 4095 ticks ago is not accepted again |
| CpmDriver.Consumer.LengthExact | src/common/pf_cpm_driver_sw.c:310-318 | the 16-bit length test admits exactly the configured length, VLAN tags aside |
| CpmDriver.Consumer.CloseReq | src/common/pf_cpm_driver_sw.c:149-174 | closing frees the frames held |
| NetifNames.SplitJoin | samples/pn_dev/app_utils.c:336-361 | splitting undoes joining for comma-free names |
| NetifNames.JoinSplit | samples/pn_dev/app_utils.c:336-361 | joining undoes splitting for every text |
| NetifNames.RoundTrip | samples/pn_dev/app_utils.c:336-361 | the terminated join of comma-free names is read as exactly these names |
| NetifNames.Scan | samples/pn_dev/app_utils.c:335-361 | the loop stores the first names in their rows and counts all of them |
| NetifNames.AllNamed | samples/pn_dev/app_utils.c:400-407 | the check for empty names |
| NetifNames.GetNetifNamelist | samples/pn_dev/app_utils.c:315-413 | succeeds exactly for one non-empty name or 3 to max_port + 1 non-empty names with max_port below 65535, stores exactly those (a single one twice), and gives the port count |

## Left out

- EndToEnd.TwoArsDeliver: covers runs in which no handler fails or raises an error indication, because an error closes the AR and a failed local send loses a PDU (`SwallowedExactly`); frames travel parsed.
- EndToEnd.LowPriorityStalls: covers the same runs; `LowAlarmsNeverAcknowledged` covers all runs of one AR.
- Transport.TwoWayDelivery: requires that no received frame misleads its receiver; `DeliveryExactly` gives the exact condition, and between ARs the premise always holds (`EndToEnd.NeverMisled`).
- AlarmTheorems.SilentPeerClosesAr: requires that buffers and timers can be allocated; without a saved copy or a timer nothing is resent and the AR stays open.
- AlarmSending.SilentPeerGetsAllCopies: the same; `TransmissionsBounded` bounds the copies in every environment.
- AlarmTheorems.SecondLowNotificationAborts: requires the buffers and the send it takes to acknowledge the notification and to report the error.
- CpmLifeCycle.LockOverRuns: covers sequential calls only; the update of the count and the creation of the mutex are not atomic together.
- NetifNames.GetNetifNamelist: requires names shorter than the name buffer and a text below 65536 characters, which the code does not check.
- AlarmTheorems.DispatchedInPostOrder: alarms dropped when activation or closing resets a queue no longer count as posted.
- CpmDriver.Consumer.Expired: whether the stop indication makes CMIO abort the AR (`src/device/pf_cmio.c:276-343`) is a parameter.
- Threads: the queues are shared by the frame thread and the periodic thread under a mutex; here every post, fetch and reset is one step.
- Byte layout of alarm frames, MAC addresses, references and VLAN tags of outgoing frames, and the UDP transport, which is only a ToDo in the code.
- The alarm specifier and maintenance status of module `DiagSummary` are not fields of the alarms in module `AlarmModel`; a 32-bit word is modelled as the set of its bits.
- Look-ups in the device tree (`pf_cmdev_*`): the owning AR, the diagnosis list and the descriptor table are inputs.
- The loop over all ARs and the global alarm enable flag in `pf_alarm_periodic`; one AR is modelled. ALPMX fields are part of the class `PriorityLevel`.
- CMSU, CMDEV and CMRPC: of an abort only the closing of the alarm machines and consumers and the clearing of the record are modelled.
- What the C code does after a handler has read through a cleared pointer: a faulted AR takes no further step in the model.
- The CPM driver for the LAN9662 hardware, frame id registration, and the indications to CMDMC and the application.
- A consumer in module `CpmDriver` begins as a successful activation leaves a cleared record; activating it a second time is the subject of `CpmLifeCycle`.
- Presentation: the `*_show` and `*_to_string` functions and logging.
