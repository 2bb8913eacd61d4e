/**
  The freshness test on the 16-bit cycle counter of cyclic frames, and what it means over a run
  of accepted frames (section 4.7.2.1.2 of the PROFINET protocol specification, version 2.4).
*/
module CpmCycle {

  const MODULUS := 0x1_0000
  const NEWEST := 61440 // the largest accepted step; the 4096 counters up to the last one are forbidden
  const FORBIDDEN := MODULUS - NEWEST
  const NEVER := -1

  type Uint16 = n: nat | n < MODULUS witness 0

  /** A conversion to an unsigned 16-bit integer. */
  function ToUint16(x: int): Uint16 { x % MODULUS }

  /** The steps from counter value `prev` to `now`, modulo 65536. */
  function Advance(prev: int, now: int): Uint16 { ToUint16(now - prev) }

  /** The counter `d` steps after `prev`. */
  function After(prev: int, d: nat): Uint16 { ToUint16(prev + d) }

  lemma Congruent(x: int, k: int)
    ensures ToUint16(x + MODULUS * k) == ToUint16(x)
  {
  }

  /** Steps add up, and the way back is the rest of the circle. */
  lemma AdvanceAdds(x: int, y: int, z: int)
    ensures ToUint16(Advance(x, y) + Advance(y, z)) == Advance(x, z)
    ensures Advance(y, x) == if Advance(x, y) == 0 then 0 else MODULUS - Advance(x, y)
  {
    Congruent(z - x, -((y - x) / MODULUS) - (z - y) / MODULUS);
    var way: int := Advance(x, y);
    Congruent(-way, -((y - x) / MODULUS));
  }

  /** pf_cpm_check_cycle: `prev` is the counter of the last accepted frame, or NEVER. */
  predicate CheckCycle(prev: int, now: Uint16) {
    var current: int := now;
    var diff := ToUint16(current - ToUint16(prev));
    1 <= diff <= NEWEST
  }

  lemma CheckCycleIsAdvance(prev: int, now: Uint16)
    ensures CheckCycle(prev, now) <==> 1 <= Advance(prev, now) <= NEWEST
  {
    Congruent(now - prev, prev / MODULUS);
  }

  /** The truncating subtraction accepts exactly a step of 1 to 61440 on the circle of counters. */
  lemma AcceptsExactly(prev: int, now: Uint16)
    ensures CheckCycle(prev, now) <==> exists d :: 1 <= d <= NEWEST && now == After(prev, d)
  {
    CheckCycleIsAdvance(prev, now);
    if CheckCycle(prev, now) {
      Congruent(now, -((now - prev) / MODULUS));
      assert now == After(prev, Advance(prev, now));
    }
    if d :| 1 <= d <= NEWEST && now == After(prev, d) {
      Congruent(d, -((prev + d) / MODULUS));
    }
  }

  /** The first frame after activation is rejected exactly when its counter lies in the last 4096. */
  lemma FirstFrame(now: Uint16)
    ensures CheckCycle(NEVER, now) <==> now < NEWEST
  {
  }

  // ---------------------------------------------------------- runs of frames

  /** Each counter was fresh when it came. */
  ghost predicate Accepted(run: seq<Uint16>) {
    forall i :: 0 < i < |run| ==> CheckCycle(run[i - 1], run[i])
  }

  /** Ticks that have passed on the controller's clock between frame `i` and frame `j`. */
  function Ticks(run: seq<Uint16>, i: nat, j: nat): nat
    requires i <= j < |run|
    decreases j
  {
    if i == j then 0 else Ticks(run, i, j - 1) + Advance(run[j - 1], run[j])
  }

  /** The counters tell the elapsed ticks modulo 65536, and the clock advances with every frame. */
  lemma {:induction false} CountersTellTicks(run: seq<Uint16>, i: nat, j: nat)
    requires i <= j < |run|
    ensures Advance(run[i], run[j]) == ToUint16(Ticks(run, i, j))
    ensures Accepted(run) ==> j - i <= Ticks(run, i, j) <= NEWEST * (j - i)
    decreases j
  {
    if i < j {
      CountersTellTicks(run, i, j - 1);
      AdvanceAdds(run[i], run[j - 1], run[j]);
      Congruent(Ticks(run, i, j), -(Ticks(run, i, j - 1) / MODULUS));
      CheckCycleIsAdvance(run[j - 1], run[j]);
    }
  }

  /** The same frame presented again after frame `j` passes exactly when the ticks since its acceptance, modulo 65536,
      are 4096 or more. */
  lemma ReplayExactly(run: seq<Uint16>, i: nat, j: nat)
    requires i <= j < |run|
    ensures CheckCycle(run[j], run[i]) <==> Ticks(run, i, j) % MODULUS >= FORBIDDEN
  {
    CountersTellTicks(run, i, j);
    AdvanceAdds(run[i], run[j], run[i]);
    CheckCycleIsAdvance(run[j], run[i]);
  }

  /** A frame accepted at most 4095 ticks ago is rejected. */
  lemma RecentReplayRejected(run: seq<Uint16>, i: nat, j: nat)
    requires i <= j < |run| && Ticks(run, i, j) < FORBIDDEN
    ensures !CheckCycle(run[j], run[i])
  {
    ReplayExactly(run, i, j);
  }

  /** The limit is tight: from any counter, a frame replayed after 4096 ticks is accepted. */
  lemma LimitIsTight(c: Uint16) returns (run: seq<Uint16>)
    ensures |run| == 2 && run[0] == c && Accepted(run)
    ensures Ticks(run, 0, 1) == FORBIDDEN && CheckCycle(run[1], run[0])
  {
    run := [c, After(c, FORBIDDEN)];
    Congruent(FORBIDDEN, -((c + FORBIDDEN) / MODULUS));
    assert Ticks(run, 0, 0) == 0;
    CheckCycleIsAdvance(c, run[1]);
    ReplayExactly(run, 0, 1);
  }

  /** Within one turn of the counter no two accepted frames carry the same value. */
  lemma NoRepetition(run: seq<Uint16>, i: nat, j: nat)
    requires Accepted(run) && i < j < |run| && Ticks(run, i, j) < MODULUS
    ensures run[i] != run[j]
  {
    CountersTellTicks(run, i, j);
  }
}
