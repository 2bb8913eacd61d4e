/**
  Reception of cyclic frames by the software CPM driver: the frame handler, the data hold timer
  and the two frame buffers that pass data to the application.

  A consumer starts as a successful activation leaves a cleared record.
*/
module CpmDriver {
  import opened Wrappers
  import opened FrameBuffers
  import opened CpmLifeCycle
  import opened CpmCycle

  type Byte = b: nat | b < 0x100 witness 0

  /** A received frame and the position of the frame id in it. */
  datatype Frame = Frame(payload: seq<Byte>, frameIdPos: nat)

  const HEADER := 14 // two MAC addresses and the EtherType
  const TRAILER := 4 // cycle counter, data status and transfer status

  /** What the frame handler may rely on: there is room for the header and the frame id. */
  predicate WellFormed(f: Frame) {
    HEADER <= f.frameIdPos && f.frameIdPos + 2 <= |f.payload| < MODULUS
  }

  function CycleOf(f: Frame): Uint16
    requires WellFormed(f)
  {
    var pos := |f.payload| - TRAILER;
    var hi: nat, lo: nat := f.payload[pos], f.payload[pos + 1];
    hi * 0x100 + lo
  }

  function DataStatus(f: Frame): Byte
    requires WellFormed(f)
  {
    f.payload[|f.payload| - 2]
  }

  function TransferStatus(f: Frame): Byte
    requires WellFormed(f)
  {
    f.payload[|f.payload| - 1]
  }

  predicate DataValid(f: Frame)
    requires WellFormed(f)
  {
    DataStatus(f) / 4 % 2 == 1
  }

  predicate Primary(f: Frame)
    requires WellFormed(f)
  {
    DataStatus(f) % 2 == 1
  }

  /** pf_cpm_check_src_addr. */
  predicate CheckSource(sa: seq<nat>, f: Frame)
    requires WellFormed(f)
  {
    f.payload[6..12] == sa
  }

  /** Sent without transfer error by the controller, and of the configured length. */
  predicate FrameStructure(sa: seq<nat>, bufferLength: nat, f: Frame)
    requires WellFormed(f)
  {
    TransferStatus(f) == 0 && CheckSource(sa, f) && ToUint16(|f.payload| - f.frameIdPos + HEADER) == bufferLength
  }

  /** What makes a frame the newest data of a consumer. */
  predicate Acceptable(sa: seq<nat>, bufferLength: nat, cycle: int, f: Frame)
    requires WellFormed(f)
  {
    FrameStructure(sa, bufferLength, f) && DataValid(f) && CheckCycle(cycle, CycleOf(f))
  }

  /** The same on the octets: the last one is 0, the source address is the controller's, the length is the configured
      one, bit 2 of the octet before the last is set, and the two octets before that are a counter 1 to 61440 steps
      ahead. */
  lemma AcceptableExactly(sa: seq<nat>, bufferLength: nat, cycle: int, f: Frame)
    requires WellFormed(f) && 20 <= bufferLength < MODULUS
    ensures var n := |f.payload|; var hi: nat, lo: nat := f.payload[n - 4], f.payload[n - 3];
            Acceptable(sa, bufferLength, cycle, f) <==>
              && f.payload[n - 1] == 0 && f.payload[6..12] == sa && n == f.frameIdPos + bufferLength - 14
              && f.payload[n - 2] % 8 >= 4
              && exists d :: 1 <= d <= 61440 && hi * 0x100 + lo == After(cycle, d)
  {
    hide After;
    StatusBit(f.payload[|f.payload| - 2]);
    AcceptsExactly(cycle, CycleOf(f));
  }

  lemma StatusBit(b: Byte)
    ensures b / 4 % 2 == 1 <==> b % 8 >= 4
  {
  }

  /** `n` bytes of the user data of a frame from `offset` on. */
  function UserData(f: Frame, offset: nat, n: nat): seq<Byte>
    requires f.frameIdPos + 2 + offset + n <= |f.payload|
  {
    f.payload[f.frameIdPos + 2 + offset..f.frameIdPos + 2 + offset + n]
  }

  ghost predicate AllWellFormed(frames: seq<Frame>) {
    forall i :: 0 <= i < |frames| ==> WellFormed(frames[i])
  }

  ghost function Counters(frames: seq<Frame>): (run: seq<Uint16>)
    requires AllWellFormed(frames)
    ensures |run| == |frames|
  {
    seq(|frames|, i requires 0 <= i < |frames| => CycleOf(frames[i]))
  }

  const DHT_EXPIRED := (0xfd, 0x05) // protocol error, data hold timer expired

  datatype Held = Held(buf: nat, frame: Frame)

  class Consumer {
    const sa: seq<nat>
    const dataHoldFactor: nat
    const bufferLength: nat

    var state: CpmState
    var cycle: int
    var dht: nat
    var dataStatus: nat
    var bufferPos: nat
    var newBuf: bool
    var bufferCpm: Option<Held>
    var bufferApp: Option<Held>
    var ciRunning: bool
    var errCount: nat

    ghost var accepted: seq<Frame> // in the order of arrival
    ghost var seen: nat // how many of them had come when the application last asked
    ghost var seenData: nat // how many had come when it last asked for data
    ghost var silent: nat // timer expiries since the last one

    ghost function Bufs(): set<nat>
      reads this`bufferCpm, this`bufferApp
    {
      (if bufferCpm.Some? then {bufferCpm.value.buf} else {}) + (if bufferApp.Some? then {bufferApp.value.buf} else {})
    }

    /** The accepted frames are acceptable ones, each fresh after the one before. */
    ghost predicate HistoryOk()
      reads this`accepted, this`cycle, this`state
    {
      && AllWellFormed(accepted)
      && Accepted(Counters(accepted))
      && (forall i :: 0 <= i < |accepted| ==> FrameStructure(sa, bufferLength, accepted[i]) && DataValid(accepted[i]))
      && (state != WStart ==> cycle == if accepted == [] then NEVER else CycleOf(accepted[|accepted| - 1]))
    }

    /** The newest frame is where the application will find it. */
    ghost predicate BuffersOk()
      reads this`accepted, this`seen, this`seenData, this`newBuf, this`bufferCpm, this`bufferApp, this`bufferPos
    {
      && seenData <= seen <= |accepted|
      && (newBuf <==> seen < |accepted|)
      && (newBuf ==> bufferCpm.Some? && bufferCpm.value.frame == accepted[|accepted| - 1])
      && (!newBuf && accepted != [] ==> bufferApp.Some? && bufferApp.value.frame == accepted[|accepted| - 1])
      && (accepted == [] ==> bufferApp.None? && bufferCpm.None?)
      && (accepted != [] ==> bufferPos == accepted[|accepted| - 1].frameIdPos + 2)
      && (bufferCpm.Some? && bufferApp.Some? ==> bufferCpm.value.buf != bufferApp.value.buf)
    }

    ghost predicate Valid()
      reads this
    {
      && bufferLength < MODULUS
      && HistoryOk() && BuffersOk()
      && (state == Frun ==> accepted == [])
      && (state == Run ==> accepted != [] && dht == silent <= dataHoldFactor)
    }

    constructor (sa: seq<nat>, dataHoldFactor: nat, sduLength: nat)
      requires sduLength <= 1440
      ensures Valid() && state == Frun && accepted == [] && Bufs() == {} && ciRunning
      ensures this.sa == sa && this.dataHoldFactor == dataHoldFactor && bufferLength == 16 + sduLength + 4
    {
      this.sa, this.dataHoldFactor, this.bufferLength := sa, dataHoldFactor, 16 + sduLength + 4;
      state, cycle, dht, dataStatus, bufferPos := Frun, NEVER, 0, 0, 16;
      newBuf, bufferCpm, bufferApp, ciRunning, errCount := false, None, None, true, 0;
      accepted, seen, seenData, silent := [], 0, 0, 0;
    }

    /** Exchange the waiting frame for a newer one; the old one comes back. */
    method PutBuf(held: Held) returns (previous: Option<Held>)
      modifies this`bufferCpm, this`newBuf
      ensures bufferCpm == Some(held) && newBuf && previous == old(bufferCpm)
    {
      previous := bufferCpm;
      bufferCpm := Some(held);
      newBuf := true;
    }

    /** The frame handler. It takes every frame; whatever buffer is no longer needed is freed.  A frame in W_START only
        counts as an error. */
    method DataInd(pool: BufferPool, buf: nat, f: Frame) returns (started: bool)
      requires Valid() && WellFormed(f) && pool.Valid()
      requires buf in pool.live && buf !in Bufs() && Bufs() <= pool.live
      modifies this, pool
      ensures Valid() && pool.Valid()
      ensures var takes := old(state) != WStart && Acceptable(sa, bufferLength, old(cycle), f);
              && accepted == (if takes then old(accepted) + [f] else old(accepted))
              && state == (if takes then Run else old(state))
              && dataStatus == (if takes then DataStatus(f) else old(dataStatus))
              && silent == (if takes then 0 else old(silent))
              && started == (takes && old(state) == Frun)
      ensures seen == old(seen) && seenData == old(seenData) && ciRunning == old(ciRunning)
      ensures errCount == old(errCount) + (if old(state) == WStart then 1 else 0)
      ensures Bufs() <= pool.live && pool.live - Bufs() == old(pool.live) - old(Bufs()) - {buf}
    {
      hide Acceptable, CheckCycle, HistoryOk;
      started := false;
      var release := Some(buf);
      match state {
        case WStart =>
          errCount := errCount + 1;
        case _ =>
          AcceptableParts(f);
          var frameStructure := FrameStructure(sa, bufferLength, f);
          var cSduStructure := CheckCycle(cycle, CycleOf(f));
          var dataValid, backup := DataValid(f), !Primary(f);
          var dhtReload := frameStructure && cSduStructure && (dataValid || backup);
          if !dataValid {
          } else if dhtReload {
            started := state == Frun;
            release := Take(buf, f);
          }
      }
      if release.Some? { pool.Free(release.value); }
    }

    lemma AcceptableParts(f: Frame)
      requires WellFormed(f)
      ensures Acceptable(sa, bufferLength, cycle, f)
              <==> FrameStructure(sa, bufferLength, f) && DataValid(f) && CheckCycle(cycle, CycleOf(f))
    {
    }

    /** An acceptable frame becomes the newest. With valid data the frame always updates the buffer, because it is
        either a primary or a backup frame. */
    method Take(buf: nat, f: Frame) returns (release: Option<nat>)
      requires Valid() && WellFormed(f) && state != WStart && Acceptable(sa, bufferLength, cycle, f) && buf !in Bufs()
      modifies this`bufferCpm, this`newBuf, this`bufferPos, this`dht, this`cycle, this`dataStatus, this`state,
               this`accepted, this`silent
      ensures Valid()
      ensures accepted == old(accepted) + [f] && state == Run && dataStatus == DataStatus(f) && silent == 0
      ensures release.None? ==> Bufs() == old(Bufs()) + {buf}
      ensures release.Some? ==> release.value in old(Bufs()) && Bufs() == old(Bufs()) - {release.value} + {buf}
    {
      hide Acceptable, CheckCycle, FrameStructure, HistoryOk, DataValid;
      AcceptableParts(f);
      var updateData := FrameStructure(sa, bufferLength, f) && CheckCycle(cycle, CycleOf(f)) && DataValid(f)
                        && (Primary(f) || !Primary(f));
      release := None;
      if updateData {
        var previous := PutBuf(Held(buf, f));
        release := if previous.Some? then Some(previous.value.buf) else None;
        bufferPos := f.frameIdPos + 2;
      }
      Refresh(f);
    }

    /** Count the frame as the last one received. */
    method Refresh(f: Frame)
      requires HistoryOk() && state != WStart && WellFormed(f) && Acceptable(sa, bufferLength, cycle, f)
      modifies this`dht, this`cycle, this`dataStatus, this`state, this`accepted, this`silent
      ensures HistoryOk() && accepted == old(accepted) + [f]
      ensures dht == silent == 0 && state == Run && dataStatus == DataStatus(f)
    {
      Extend(f);
      dht := 0;
      cycle := CycleOf(f);
      dataStatus := DataStatus(f);
      state := Run;
    }

    ghost method Extend(f: Frame)
      requires HistoryOk() && state != WStart && WellFormed(f) && Acceptable(sa, bufferLength, cycle, f)
      modifies this`accepted, this`silent
      ensures accepted == old(accepted) + [f] && silent == 0
      ensures AllWellFormed(accepted) && Accepted(Counters(accepted))
    {
      ghost var before := Counters(accepted);
      accepted, silent := accepted + [f], 0;
      forall i | 0 < i < |accepted| ensures CheckCycle(Counters(accepted)[i - 1], Counters(accepted)[i]) {
        if i < |before| { assert CheckCycle(before[i - 1], before[i]); }
      }
    }

    /** A running consumer stops when more expiries than the data hold factor have passed without a fresh frame. */
    method Tick() returns (stopped: bool)
      requires Valid() && ciRunning
      modifies this`state, this`dht, this`ciRunning, this`silent
      ensures Valid()
      ensures stopped <==> old(state) == Run && old(silent) >= dataHoldFactor
      ensures state == (if stopped then WStart else old(state)) && ciRunning == !stopped
      ensures silent == old(silent) + 1
    {
      hide BuffersOk, WellFormed, FrameStructure, DataValid;
      stopped, silent := false, silent + 1;
      match state {
        case Run =>
          if dht >= dataHoldFactor {
            dht := 0;
            ciRunning := false;
            stopped := true;
            state := WStart;
          } else {
            dht := dht + 1;
          }
        case _ =>
      }
    }

    /** The data hold timer. The stop indication gives CMIO the chance to abort the AR (`aborts`: legacy start-up, or
        data exchange under way); a timer that cannot be started again always aborts it.  Without an abort the frames
        received stay where they are. */
    method Expired(pool: BufferPool, timerOk: bool, aborts: bool)
      returns (stopped: bool, failed: bool, aborted: bool, err: Option<(nat, nat)>)
      requires Valid() && pool.Valid() && Bufs() <= pool.live
      modifies this, pool
      ensures Valid() && pool.Valid()
      ensures stopped <==> old(ciRunning) && old(state) == Run && old(silent) >= dataHoldFactor
      ensures failed <==> old(ciRunning) && !stopped && !timerOk
      ensures aborted <==> (stopped && aborts) || failed
      ensures err == if stopped then Some(DHT_EXPIRED) else if failed then Some((ERR_CPM, INVALID)) else None
      ensures aborted ==> Cleared() && pool.live == old(pool.live) - old(Bufs())
      ensures !aborted ==> unchanged(pool) && Bufs() == old(Bufs())
      ensures !aborted ==> unchanged(this`accepted, this`seen, this`seenData, this`newBuf, this`dataStatus)
      ensures !aborted ==> silent == old(silent) + (if old(ciRunning) then 1 else 0)
      ensures !aborted ==> state == (if stopped then WStart else old(state))
      ensures !aborted ==> ciRunning == (old(ciRunning) && !stopped)
    {
      hide Valid;
      stopped, failed, err := false, false, None;
      if ciRunning {
        stopped := Tick();
        if stopped {
          err := Some(DHT_EXPIRED);
        } else if !timerOk {
          err, failed := Some((ERR_CPM, INVALID)), true;
        }
      }
      aborted := (stopped && aborts) || failed;
      if aborted { Abort(pool); }
    }

    /** Make the newest received frame the application's. */
    method GetBuf() returns (isNew: bool)
      requires Valid()
      modifies this`bufferCpm, this`bufferApp, this`newBuf, this`seen
      ensures Valid() && Bufs() == old(Bufs())
      ensures (isNew <==> old(seen) < |accepted|) && seen == |accepted|
      ensures bufferApp.Some? <==> accepted != []
      ensures accepted != [] ==> bufferApp.value.frame == accepted[|accepted| - 1]
    {
      isNew := newBuf;
      if newBuf {
        bufferApp, bufferCpm := bufferCpm, bufferApp;
        newBuf := false;
      }
      seen := |accepted|;
    }

    /** The newest frame is long enough for `n` bytes at `offset`. */
    lemma InFrame(offset: nat, n: nat)
      requires Valid() && accepted != [] && offset + n + 20 <= bufferLength
      ensures var newest := accepted[|accepted| - 1];
              newest.frameIdPos + 2 + offset + n <= |newest.payload| && bufferPos == newest.frameIdPos + 2
    {
      LengthExact(accepted[|accepted| - 1]);
    }

    lemma NothingToCopy(offset: nat)
      requires Valid() && accepted != [] && offset + 20 <= bufferLength
      ensures var newest := accepted[|accepted| - 1];
              newest.frameIdPos + 2 + offset <= |newest.payload| && UserData(newest, offset, 0) == []
    {
      InFrame(offset, 0);
    }

    /** Copy bytes out of the application's buffer. */
    method CopyOut(offset: nat, n: nat) returns (bytes: seq<Byte>)
      requires Valid() && accepted != [] && bufferApp.Some? && bufferApp.value.frame == accepted[|accepted| - 1]
      requires offset + n + 20 <= bufferLength
      ensures var newest := accepted[|accepted| - 1];
              newest.frameIdPos + 2 + offset + n <= |newest.payload| && bytes == UserData(newest, offset, n)
    {
      InFrame(offset, n);
      bytes := bufferApp.value.frame.payload[bufferPos + offset..bufferPos + offset + n];
    }

    method GetBufForData() returns (isNew: bool)
      requires Valid()
      modifies this`bufferCpm, this`bufferApp, this`newBuf, this`seen, this`seenData
      ensures Valid() && Bufs() == old(Bufs()) && seen == seenData == |accepted|
      ensures isNew <==> old(seen) < |accepted|
      ensures isNew != (old(seenData) < |accepted|) <==> old(seenData) < old(seen) == |accepted|
      ensures bufferApp.Some? <==> accepted != []
      ensures accepted != [] ==> bufferApp.value.frame == accepted[|accepted| - 1]
    {
      isNew := GetBuf();
      seenData := seen;
    }

    /** Data and IOPS of one sub-slot, out of the newest accepted frame.  The flag says whether a frame came since the
        last read of data or IOCS; it therefore misses a frame exactly when an IOCS read was first to fetch it. */
    method GetDataAndIops(dataOffset: nat, dataLength: nat, iopsOffset: nat, iopsLength: nat)
      returns (ok: bool, isNew: bool, data: seq<Byte>, iops: seq<Byte>)
      requires Valid()
      requires dataOffset + dataLength + 20 <= bufferLength && iopsOffset + iopsLength + 20 <= bufferLength
      modifies this`bufferCpm, this`bufferApp, this`newBuf, this`seen, this`seenData
      ensures Valid() && Bufs() == old(Bufs()) && seen == seenData == |accepted|
      ensures ok <==> accepted != []
      ensures isNew <==> old(seen) < |accepted|
      ensures isNew != (old(seenData) < |accepted|) <==> old(seenData) < old(seen) == |accepted|
      ensures ok ==> var newest := accepted[|accepted| - 1];
                     && newest.frameIdPos + 2 + dataOffset + dataLength <= |newest.payload|
                     && newest.frameIdPos + 2 + iopsOffset + iopsLength <= |newest.payload|
                     && data == UserData(newest, dataOffset, dataLength)
                     && iops == UserData(newest, iopsOffset, iopsLength)
    {
      hide Valid, Bufs, UserData;
      data, iops, ok := [], [], false;
      isNew := GetBufForData();
      if bufferApp.Some? {
        if dataLength > 0 { data := CopyOut(dataOffset, dataLength); } else { NothingToCopy(dataOffset); }
        if iopsLength > 0 { iops := CopyOut(iopsOffset, iopsLength); } else { NothingToCopy(iopsOffset); }
        ok := true;
      } else {
        isNew := false;
      }
    }

    /** IOCS of one sub-slot, out of the newest accepted frame. */
    method GetIocs(offset: nat, length: nat) returns (ok: bool, iocs: seq<Byte>)
      requires Valid() && offset + length + 20 <= bufferLength
      modifies this`bufferCpm, this`bufferApp, this`newBuf, this`seen
      ensures Valid() && Bufs() == old(Bufs()) && seen == |accepted|
      ensures ok <==> accepted != []
      ensures ok ==> var newest := accepted[|accepted| - 1];
                     newest.frameIdPos + 2 + offset + length <= |newest.payload|
                       && iocs == UserData(newest, offset, length)
    {
      iocs, ok := [], false;
      var isNew := GetBuf();
      if bufferApp.Some? {
        iocs := CopyOut(offset, length);
        ok := true;
      }
    }

    /** An accepted frame has exactly the configured length, VLAN tags aside. */
    lemma LengthExact(f: Frame)
      requires WellFormed(f) && FrameStructure(sa, bufferLength, f) && 20 <= bufferLength < MODULUS
      ensures |f.payload| == f.frameIdPos + bufferLength - HEADER
    {
    }

    /** A frame that was accepted at most 4095 ticks ago is not accepted again. */
    lemma ReplayRefused(i: nat)
      requires Valid() && state != WStart && i < |accepted| && Ticks(Counters(accepted), i, |accepted| - 1) < FORBIDDEN
      ensures !Acceptable(sa, bufferLength, cycle, accepted[i])
    {
      RecentReplayRejected(Counters(accepted), i, |accepted| - 1);
    }

    /** Free the frames held. */
    method CloseReq(pool: BufferPool)
      requires Valid() && pool.Valid() && Bufs() <= pool.live
      modifies this`ciRunning, this`state, pool
      ensures !ciRunning && state == WStart && pool.Valid() && pool.live == old(pool.live) - Bufs()
    {
      state, ciRunning := WStart, false;
      if bufferCpm.Some? { pool.Free(bufferCpm.value.buf); }
      if bufferApp.Some? { pool.Free(bufferApp.value.buf); }
    }

    /** The part of the record the driver works on is zero. */
    ghost predicate Cleared()
      reads this
    {
      && state == WStart && !ciRunning && !newBuf && bufferCpm.None? && bufferApp.None?
      && cycle == dht == dataStatus == bufferPos == errCount == 0
      && accepted == [] && seen == seenData == silent == 0
    }

    lemma ClearedIsValid()
      requires Cleared() && bufferLength < MODULUS
      ensures Valid()
    {
      hide WellFormed, FrameStructure, DataValid;
    }

    method Clear()
      modifies this
      ensures Cleared()
    {
      ClearHistory();
      state, ciRunning, newBuf, bufferCpm, bufferApp := WStart, false, false, None, None;
      cycle, dht, dataStatus, bufferPos, errCount := 0, 0, 0, 0, 0;
    }

    ghost method ClearHistory()
      modifies this`accepted, this`seen, this`seenData, this`silent
      ensures accepted == [] && seen == seenData == silent == 0
    {
      accepted, seen, seenData, silent := [], 0, 0, 0;
    }

    /** An abort of the AR closes the consumer and clears its record. */
    method Abort(pool: BufferPool)
      requires Valid() && pool.Valid() && Bufs() <= pool.live
      modifies this, pool
      ensures Valid() && Cleared() && pool.Valid() && pool.live == old(pool.live) - old(Bufs())
    {
      hide Cleared, Bufs, HistoryOk, BuffersOk;
      CloseReq(pool);
      Clear();
      ClearedIsValid();
    }
  }
}
