/**
  The life cycle of cyclic consumers (CPM): creation, activation, closing, and the count of
  instances that owns the mutex shared by all of them.  The CPM driver is an abstract partner:
  whether it succeeds is a parameter.  An error indication to CMSU ends with the clearing of the
  whole AR record, all its consumers included.
*/
module CpmLifeCycle {
  import opened CpmCycle

  datatype CpmState = WStart | Frun | Run

  const COUNT_MODULUS := 0x1_0000_0000
  const ERR_CPM := 0x48
  const INVALID_STATE := 0x00
  const INVALID := 0x01
  const NEVER_UNSIGNED := 0xffff_ffff

  // ------------------------------------------------------------ on values

  /** `owners` are the ARs of the instances, `at` their states, `mutexes` counts mutex creations minus destructions, and
      `asks` are the instances for which the driver was asked for data. */
  datatype Life = Life(count: nat, locked: bool, owners: seq<nat>, at: seq<CpmState>, mutexes: int, asks: seq<nat>)

  function Created(l: Life, i: nat): Life
    requires i < |l.at|
  {
    var first := l.count == 0;
    l.(count := (l.count + 1) % COUNT_MODULUS, locked := l.locked || first, at := l.at[i := WStart],
    mutexes := if first then l.mutexes + 1 else l.mutexes)
  }

  function Closed(l: Life, i: nat, driverOk: bool): Life
    requires i < |l.at|
  {
    var l1 := l.(at := l.at[i := WStart]);
    var last := l.count == 1;
    if !driverOk then l1 else
    l1.(count := (l.count - 1) % COUNT_MODULUS, locked := l.locked && !last,
    mutexes := if last then l.mutexes - 1 else l.mutexes)
  }

  /** The record of an AR is cleared; its instances stay counted. */
  function Released(l: Life, owner: nat): Life
    requires |l.owners| == |l.at|
  {
    l.(at := seq(|l.at|, j requires 0 <= j < |l.at| => if l.owners[j] == owner then WStart else l.at[j]))
  }

  /** A driver that refuses makes CMSU abort the AR. */
  function Activated(l: Life, i: nat, driverOk: bool): Life
    requires i < |l.at| == |l.owners|
  {
    if l.at[i] != WStart then l
    else if driverOk then l.(at := l.at[i := Frun])
    else Released(l, l.owners[i])
  }

  /** The driver runs an active instance, or drops any instance to W_START. */
  function Driven(l: Life, i: nat, to: CpmState): Life
    requires i < |l.at|
  {
    if to == WStart || (to == Run && l.at[i] != WStart) then l.(at := l.at[i := to]) else l
  }

  /** A read of data, IOPS or IOCS reaches the driver unless the instance is in W_START. */
  function Asked(l: Life, i: nat): Life
    requires i < |l.at|
  {
    if l.at[i] == WStart then l else l.(asks := l.asks + [i])
  }

  datatype Event =
    | Create(i: nat)
    | Close(i: nat, driverOk: bool)
    | Activate(i: nat, driverOk: bool)
    | Drive(i: nat, to: CpmState)
    | Read(i: nat)

  function Step(l: Life, e: Event): (l': Life)
    ensures |l'.at| == |l.at| && l'.owners == l.owners
  {
    if e.i >= |l.at| || |l.at| != |l.owners| then l else
    match e
    case Create(i) => Created(l, i)
    case Close(i, ok) => Closed(l, i, ok)
    case Activate(i, ok) => Activated(l, i, ok)
    case Drive(i, to) => Driven(l, i, to)
    case Read(i) => Asked(l, i)
  }

  function Runs(l: Life, events: seq<Event>): Life
    decreases |events|
  {
    if events == [] then l else Runs(Step(l, events[0]), events[1..])
  }

  lemma {:induction false} RunsLast(l: Life, events: seq<Event>)
    requires events != []
    ensures Runs(l, events) == Step(Runs(l, events[..|events| - 1]), events[|events| - 1])
    decreases |events|
  {
    hide Step;
    if |events| > 1 {
      RunsLast(Step(l, events[0]), events[1..]);
      assert events[..|events| - 1][1..] == events[1..][..|events| - 2];
    }
  }

  /** A stack whose instances belong to `owners`, none created. */
  function Initial(owners: seq<nat>): Life {
    Life(0, false, owners, seq(|owners|, _ => WStart), 0, [])
  }

  lemma {:induction false} RunsKeepsShape(owners: seq<nat>, events: seq<Event>)
    ensures var l := Runs(Initial(owners), events); l.owners == owners && |l.at| == |owners|
    decreases |events|
  {
    if events != [] {
      RunsLast(Initial(owners), events);
      RunsKeepsShape(owners, events[..|events| - 1]);
    }
  }

  // ----------------------------------------------------- the count and the mutex

  /** What one event does to the count. */
  function Opening(instances: nat, e: Event): int {
    if e.i >= instances then 0 else if e.Create? then 1 else if e.Close? && e.driverOk then -1 else 0
  }

  /** Creates less successful closes, of instances that exist. */
  function Opens(owners: seq<nat>, events: seq<Event>): int
    decreases |events|
  {
    if events == [] then 0 else
    Opens(owners, events[..|events| - 1]) + Opening(|owners|, events[|events| - 1])
  }

  /** The mutex exists exactly while instances are counted; none leaks and none is destroyed twice. */
  ghost predicate LockOk(l: Life) {
    (l.locked <==> l.count > 0) && l.mutexes == (if l.locked then 1 else 0)
  }

  /** Creating keeps mutex and count in agreement if and only if the count does not wrap. */
  lemma CreateKeepsExactly(l: Life, i: nat)
    requires LockOk(l) && i < |l.at| && l.count < COUNT_MODULUS
    ensures LockOk(Created(l, i)) <==> l.count < COUNT_MODULUS - 1
  {
  }

  /** Closing keeps them in agreement if and only if the driver refuses or an instance is counted. */
  lemma CloseKeepsExactly(l: Life, i: nat, driverOk: bool)
    requires LockOk(l) && i < |l.at| && l.count < COUNT_MODULUS
    ensures LockOk(Closed(l, i, driverOk)) <==> !driverOk || l.count > 0
  {
  }

  lemma StepCounts(l: Life, e: Event)
    requires LockOk(l) && |l.at| == |l.owners| && 0 <= l.count + Opening(|l.at|, e) < COUNT_MODULUS
    ensures LockOk(Step(l, e)) && Step(l, e).count == l.count + Opening(|l.at|, e)
  {
  }

  /** Over every run in which each successful close matches an earlier create and fewer than 2^32 instances are open
      at a time: the count is that of the open instances, and the mutex exists exactly while there are any, even when
      creates and closes fail in the driver. */
  lemma {:induction false} LockOverRuns(owners: seq<nat>, events: seq<Event>)
    requires forall k :: 0 <= k <= |events| ==> 0 <= Opens(owners, events[..k]) < COUNT_MODULUS
    ensures var l := Runs(Initial(owners), events);
            LockOk(l) && l.count == Opens(owners, events) && (l.locked <==> Opens(owners, events) > 0)
    decreases |events|
  {
    if events != [] {
      hide Step;
      var before := events[..|events| - 1];
      forall k | 0 <= k <= |before| ensures 0 <= Opens(owners, before[..k]) < COUNT_MODULUS {
        assert before[..k] == events[..k];
      }
      assert events[..|events|] == events && events[..|before|] == before;
      LockOverRuns(owners, before);
      RunsLast(Initial(owners), events);
      RunsKeepsShape(owners, before);
      StepCounts(Runs(Initial(owners), before), events[|events| - 1]);
    }
  }

  // ----------------------------------------------------------- who is in service

  /** What the events alone say: consumer `i` was activated, and nothing has taken it out of service since: no create or
      close of it, no data hold timeout, and no refused activation of another consumer of its AR. */
  predicate Serving(owners: seq<nat>, events: seq<Event>, i: nat)
    requires i < |owners|
    decreases |events|
  {
    if events == [] then false else
    var before, e := events[..|events| - 1], events[|events| - 1];
    match e
    case Create(j) => j != i && Serving(owners, before, i)
    case Close(j, _) => j != i && Serving(owners, before, i)
    case Activate(j, true) => j == i || Serving(owners, before, i)
    case Activate(j, false) =>
      Serving(owners, before, i) && !(j < |owners| && owners[j] == owners[i] && !Serving(owners, before, j))
    case Drive(j, to) => Serving(owners, before, i) && !(j == i && to == WStart)
    case Read(_) => Serving(owners, before, i)
  }

  /** A consumer is out of W_START exactly while it is in service. */
  lemma {:induction false} ServingExactly(owners: seq<nat>, events: seq<Event>)
    ensures var l := Runs(Initial(owners), events);
            |l.at| == |owners| && forall i :: 0 <= i < |owners| ==> (l.at[i] != WStart <==> Serving(owners, events, i))
    decreases |events|
  {
    RunsKeepsShape(owners, events);
    if events != [] {
      var before := events[..|events| - 1];
      RunsLast(Initial(owners), events);
      RunsKeepsShape(owners, before);
      ServingExactly(owners, before);
    }
  }

  /** A consumer in service was activated, and neither created nor closed since. */
  lemma {:induction false} ServingSince(owners: seq<nat>, events: seq<Event>, i: nat) returns (m: nat)
    requires i < |owners| && Serving(owners, events, i)
    ensures m < |events| && events[m] == Activate(i, true)
    ensures forall j :: m < j < |events| ==> events[j] != Create(i) && !(events[j].Close? && events[j].i == i)
    decreases |events|
  {
    var before, e := events[..|events| - 1], events[|events| - 1];
    if e == Activate(i, true) {
      m := |before|;
    } else {
      m := ServingSince(owners, before, i);
    }
  }

  /** Over every run, matched or not: a read reaches the driver exactly when its consumer is in service; and then
      there was a successful activation with no create or close of the consumer in between. */
  lemma DriverAskedOnlyWhenActivated(owners: seq<nat>, events: seq<Event>, k: nat) returns (m: nat)
    requires k < |events| && events[k].Read? && events[k].i < |owners|
    ensures var i := events[k].i;
            var l, l' := Runs(Initial(owners), events[..k]), Runs(Initial(owners), events[..k + 1]);
            && l'.asks == l.asks + (if Serving(owners, events[..k], i) then [i] else [])
            && (l'.asks != l.asks ==>
                  && m < k && events[m] == Activate(i, true)
                  && forall j :: m < j < k ==> events[j] != Create(i) && !(events[j].Close? && events[j].i == i))
  {
    var i := events[k].i;
    assert events[..k + 1][..k] == events[..k];
    RunsLast(Initial(owners), events[..k + 1]);
    RunsKeepsShape(owners, events[..k]);
    ServingExactly(owners, events[..k]);
    m := 0;
    if Serving(owners, events[..k], i) { m := ServingSince(owners, events[..k], i); }
  }

  /** A read directly after a create or close of the consumer is refused. */
  lemma ReadAfterCloseRefused(l: Life, i: nat, driverOk: bool)
    requires i < |l.at| == |l.owners|
    ensures Step(Step(l, Close(i, driverOk)), Read(i)) == Step(l, Close(i, driverOk))
    ensures Step(Step(l, Create(i)), Read(i)) == Step(l, Create(i))
  {
  }

  /** Exactly when an activation takes consumers out of service: the driver refuses an instance in W_START, and then
      every instance of the AR is back in W_START, still counted. */
  lemma RefusalClearsAr(l: Life, i: nat, driverOk: bool)
    requires i < |l.at| == |l.owners|
    ensures var l' := Activated(l, i, driverOk);
            && l'.count == l.count && l'.locked == l.locked
            && (forall j :: 0 <= j < |l.at| && l'.at[j] == WStart != l.at[j] ==> l.at[i] == WStart && !driverOk)
            && (l.at[i] == WStart && !driverOk ==>
                  forall j :: 0 <= j < |l.at| ==> l'.at[j] == if l.owners[j] == l.owners[i] then WStart else l.at[j])
  {
  }

  // --------------------------------------------------------- on the records

  /** The parameters of an IOCR that activation uses, with the MAC address of the controller. */
  datatype Param = Param(dataHoldFactor: Uint16, sendClockFactor: Uint16, reductionRatio: Uint16, sduLength: Uint16,
                         frameId: Uint16, initiator: seq<nat>)

  /** Microseconds between two timer expiries for a product of send clock and reduction, in 32-bit arithmetic. */
  function Microseconds(product: nat): nat {
    product * 1000 % COUNT_MODULUS / 32
  }

  function ControlInterval(sendClockFactor: nat, reductionRatio: nat): nat {
    Microseconds(sendClockFactor * reductionRatio)
  }

  lemma MicrosecondsExact(product: nat)
    requires product <= 128 * 512
    ensures 32 * Microseconds(product) <= 1000 * product < 32 * Microseconds(product) + 32
  {
  }

  lemma {:induction false} ProductStep(a: nat, b: nat)
    requires b <= 512
    ensures a * b <= 512 * a
    decreases a
  {
    if a > 0 {
      ProductStep(a - 1, b);
      assert a * b == (a - 1) * b + b;
    }
  }

  /** 31.25 us for each unit of the product; no wrap-around for the values the protocol allows. */
  lemma IntervalExact(sendClockFactor: nat, reductionRatio: nat)
    requires 1 <= sendClockFactor <= 128 && 1 <= reductionRatio <= 512
    ensures var us := ControlInterval(sendClockFactor, reductionRatio);
            32 * us <= 1000 * (sendClockFactor * reductionRatio) < 32 * us + 32
  {
    hide Microseconds;
    var product: nat := sendClockFactor * reductionRatio;
    ProductStep(sendClockFactor, reductionRatio);
    MicrosecondsExact(product);
  }

  const NO_MAC: seq<nat> := [0, 0, 0, 0, 0, 0]

  class Cpm {
    const arep: nat // the AR it belongs to
    const rxa: array2<nat>
    var state: CpmState
    var sa: seq<nat>
    var dataHoldFactor: nat
    var controlInterval: nat
    var cycle: int
    var newData: bool
    var dht: nat
    var recvCnt: nat
    var dataStatus: nat
    var bufferPos: nat
    var bufferLength: nat
    var nbrFrameId: nat
    var frameId: nat

    constructor (arep: nat, maxPorts: nat)
      ensures Cleared() && this.arep == arep && fresh(rxa) && rxa.Length0 == maxPorts && rxa.Length1 == 2
    {
      this.arep := arep;
      rxa := new nat[maxPorts, 2]((_, _) => 0);
      state, sa, dataHoldFactor, controlInterval := WStart, NO_MAC, 0, 0;
      cycle, newData, dht, recvCnt, dataStatus := 0, false, 0, 0, 0;
      bufferPos, bufferLength, nbrFrameId, frameId := 0, 0, 0, 0;
    }

    /** All bytes of the record are zero. */
    ghost predicate Cleared()
      reads this, rxa
    {
      && state == WStart && SettingsCleared() && cycle == 0 && !newData && dht == recvCnt == 0
      && forall p, k :: 0 <= p < rxa.Length0 && 0 <= k < rxa.Length1 ==> rxa[p, k] == 0
    }

    ghost predicate SettingsCleared()
      reads this`sa, this`dataHoldFactor, this`controlInterval, this`dataStatus, this`bufferPos, this`bufferLength,
            this`nbrFrameId, this`frameId
    {
      && sa == NO_MAC && dataHoldFactor == controlInterval == dataStatus == 0
      && bufferPos == bufferLength == nbrFrameId == frameId == 0
    }

    method Clear()
      modifies this, rxa
      ensures Cleared()
    {
      ClearSettings();
      hide SettingsCleared;
      state, cycle, newData, dht, recvCnt := WStart, 0, false, 0, 0;
      ClearPorts();
    }

    method ClearSettings()
      modifies this`sa, this`dataHoldFactor, this`controlInterval, this`dataStatus, this`bufferPos, this`bufferLength,
               this`nbrFrameId, this`frameId
      ensures SettingsCleared()
    {
      sa, dataHoldFactor, controlInterval, dataStatus := NO_MAC, 0, 0, 0;
      bufferPos, bufferLength, nbrFrameId, frameId := 0, 0, 0, 0;
    }

    method ClearPorts()
      modifies rxa
      ensures forall p, k :: 0 <= p < rxa.Length0 && 0 <= k < rxa.Length1 ==> rxa[p, k] == 0
    {
      forall p, k | 0 <= p < rxa.Length0 && 0 <= k < rxa.Length1 { rxa[p, k] := 0; }
    }

    method SetState(to: CpmState)
      modifies this`state
      ensures state == to
    {
      if to != state { state := to; }
    }

    /** No frame has been received on the first `ports` ports. */
    ghost predicate PortsReset(ports: nat)
      reads rxa
    {
      forall p, k :: 0 <= p < ports <= rxa.Length0 && 0 <= k < rxa.Length1 ==> rxa[p, k] == NEVER_UNSIGNED
    }

    /** Nothing has been received yet. */
    ghost predicate Unheard(ports: nat)
      reads this, rxa
    {
      PortsReset(ports) && cycle == NEVER && !newData && dht == 0 && recvCnt == 0
    }

    /** Whose frames are expected, and where in the frame the data lies. */
    ghost predicate Layout(param: Param)
      reads this
    {
      && sa == param.initiator && bufferPos == 16 && bufferLength == ToUint16(16 + param.sduLength + 4)
      && dataStatus == 0 && nbrFrameId == 1 && frameId == param.frameId
    }

    /** The fields after the preparation for reception. */
    ghost predicate Prepared(param: Param, ports: nat)
      reads this, rxa
    {
      && dataHoldFactor == param.dataHoldFactor
      && controlInterval == ControlInterval(param.sendClockFactor, param.reductionRatio)
      && Unheard(ports) && Layout(param)
    }

    method ResetPorts(ports: nat)
      requires ports <= rxa.Length0 && rxa.Length1 == 2
      modifies rxa
      ensures PortsReset(ports)
    {
      for ix := 0 to ports
        invariant forall p, k :: 0 <= p < ix && 0 <= k < 2 ==> rxa[p, k] == NEVER_UNSIGNED
      {
        rxa[ix, 0] := NEVER_UNSIGNED;
        rxa[ix, 1] := NEVER_UNSIGNED;
      }
    }

    method ResetReception(ports: nat)
      requires ports <= rxa.Length0 && rxa.Length1 == 2
      modifies rxa, this`cycle, this`newData, this`dht, this`recvCnt
      ensures Unheard(ports)
    {
      ResetPorts(ports);
      cycle, newData, dht, recvCnt := NEVER, false, 0, 0;
    }

    method SetLayout(param: Param)
      modifies this`sa, this`bufferPos, this`dataStatus, this`bufferLength, this`nbrFrameId, this`frameId
      ensures Layout(param)
    {
      sa := param.initiator;
      bufferPos := 2 * 6 + 2 + 2;
      dataStatus := 0;
      bufferLength := ToUint16(bufferPos + param.sduLength + 2 + 1 + 1);
      nbrFrameId, frameId := 1, param.frameId;
    }

    method Prepare(param: Param, ports: nat)
      requires ports <= rxa.Length0 && rxa.Length1 == 2
      modifies this, rxa
      ensures Prepared(param, ports)
      ensures state == old(state)
    {
      hide PortsReset, ControlInterval, Layout;
      dataHoldFactor := param.dataHoldFactor;
      controlInterval := ControlInterval(param.sendClockFactor, param.reductionRatio);
      ResetReception(ports);
      SetLayout(param);
    }
  }

  /** The error that an AR reports. */
  class ArError {
    const arep: nat
    var cls: nat
    var code: nat

    constructor (arep: nat)
      ensures this.arep == arep && cls == 0 && code == 0
    {
      this.arep := arep;
      cls, code := 0, 0;
    }
  }

  /** The part of the stack all consumers share. */
  class CpmStack {
    const cpms: seq<Cpm>
    var instanceCnt: nat
    var bufLock: bool // the mutex pointer is not NULL

    ghost var mutexes: int
    ghost var asks: seq<nat>

    ghost predicate Separate() {
      && (forall i, j :: 0 <= i < j < |cpms| ==> cpms[i] != cpms[j] && cpms[i].rxa != cpms[j].rxa)
      && (forall i :: 0 <= i < |cpms| ==> cpms[i].rxa.Length1 == 2)
    }

    ghost predicate Valid()
      reads this`instanceCnt
    {
      instanceCnt < COUNT_MODULUS && Separate()
    }

    ghost function States(): seq<CpmState>
      reads cpms
    {
      seq(|cpms|, i requires 0 <= i < |cpms| reads cpms => cpms[i].state)
    }

    ghost function Owners(): seq<nat> {
      seq(|cpms|, i requires 0 <= i < |cpms| => cpms[i].arep)
    }

    ghost function View(): Life
      reads this, cpms
    {
      Life(instanceCnt, bufLock, Owners(), States(), mutexes, asks)
    }

    constructor (cpms: seq<Cpm>)
      requires forall i, j :: 0 <= i < j < |cpms| ==> cpms[i] != cpms[j] && cpms[i].rxa != cpms[j].rxa
      requires forall i :: 0 <= i < |cpms| ==> cpms[i].Cleared() && cpms[i].rxa.Length1 == 2
      ensures Valid() && this.cpms == cpms && View() == Initial(Owners())
    {
      this.cpms := cpms;
      instanceCnt, bufLock := 0, false;
      mutexes, asks := 0, [];
    }

    method MutexCreate()
      modifies this`bufLock, this`mutexes
      ensures bufLock && mutexes == old(mutexes) + 1
    {
      bufLock, mutexes := true, mutexes + 1;
    }

    method MutexDestroy()
      modifies this`bufLock, this`mutexes
      ensures !bufLock && mutexes == old(mutexes) - 1
    {
      bufLock, mutexes := false, mutexes - 1;
    }

    /** pf_cpm_create; a failing driver leaves the instance counted. */
    method Create(cpm: Cpm, ghost i: nat, driverOk: bool) returns (ok: bool)
      requires Valid() && i < |cpms| && cpm == cpms[i]
      modifies this, cpm`state
      ensures Valid() && View() == Created(old(View()), i) && ok == driverOk && cpm.state == WStart
    {
      var cnt := instanceCnt;
      instanceCnt := (instanceCnt + 1) % COUNT_MODULUS;
      if cnt == 0 { MutexCreate(); }
      cpm.SetState(WStart);
      ok := driverOk;
    }

    /** pf_cpm_close_req. */
    method CloseReq(cpm: Cpm, ghost i: nat, driverOk: bool) returns (ok: bool)
      requires Valid() && i < |cpms| && cpm == cpms[i]
      modifies this, cpm`state
      ensures Valid() && View() == Closed(old(View()), i, driverOk) && ok == driverOk && cpm.state == WStart
    {
      cpm.SetState(WStart);
      ok := driverOk;
      if ok {
        var cnt := instanceCnt;
        instanceCnt := (instanceCnt - 1) % COUNT_MODULUS;
        if cnt == 1 { MutexDestroy(); }
      }
    }

    /** Everything that belongs to the consumers. */
    ghost function Arrays(): set<object> {
      set c | c in cpms :: c.rxa
    }

    /** CMSU aborts an AR that is not started yet: the record is cleared with all its consumers. */
    method ErrorInd(ar: ArError)
      requires Valid()
      modifies cpms, Arrays(), ar
      ensures Valid() && View() == Released(old(View()), ar.arep)
      ensures ar.cls == ar.code == 0
      ensures forall j :: 0 <= j < |cpms| && cpms[j].arep == ar.arep ==> cpms[j].Cleared()
    {
      ghost var before := States();
      for j := 0 to |cpms|
        invariant Valid()
        invariant forall m :: 0 <= m < j && cpms[m].arep == ar.arep ==> cpms[m].Cleared()
        invariant forall m :: 0 <= m < |cpms| && (m >= j || cpms[m].arep != ar.arep) ==>
          States()[m] == before[m]
      {
        if cpms[j].arep == ar.arep { cpms[j].Clear(); }
      }
      ar.cls, ar.code := 0, 0;
    }

    /** pf_cpm_activate_req. */
    method ActivateReq(cpm: Cpm, ghost i: nat, ar: ArError, param: Param, ports: nat, driverOk: bool) returns (ok: bool)
      requires Valid() && i < |cpms| && cpm == cpms[i] && ports <= cpm.rxa.Length0 && ar.arep == cpm.arep
      modifies cpms, Arrays(), ar
      ensures Valid() && View() == Activated(old(View()), i, driverOk)
      ensures ok <==> old(cpm.state) == WStart && driverOk
      ensures ok ==> cpm.state == Frun && cpm.Prepared(param, ports) && ar.cls == old(ar.cls) && ar.code == old(ar.code)
      ensures old(cpm.state) == WStart && !driverOk ==> cpm.Cleared() && ar.cls == ar.code == 0
      ensures old(cpm.state) != WStart ==> ar.cls == ERR_CPM && ar.code == INVALID_STATE
    {
      hide Released, Cpm.Cleared;
      ok := false;
      match cpm.state {
        case WStart =>
          PrepareOne(cpm, i, param, ports);
          ok := driverOk;
          if ok {
            cpm.SetState(Frun);
          } else {
            ar.cls, ar.code := ERR_CPM, INVALID;
            ErrorInd(ar);
          }
        case _ =>
          ar.cls, ar.code := ERR_CPM, INVALID_STATE;
      }
    }

    method PrepareOne(cpm: Cpm, ghost i: nat, param: Param, ports: nat)
      requires Valid() && i < |cpms| && cpm == cpms[i] && ports <= cpm.rxa.Length0
      modifies cpm, cpm.rxa
      ensures Valid() && View() == old(View()) && cpm.Prepared(param, ports)
    {
      hide Cpm.Prepared;
      cpm.Prepare(param, ports);
    }
  }
}
