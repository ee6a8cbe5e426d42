/**
 * The stepper-motor speed ramp. A move of n steps follows a trapezoidal
 * speed profile: ACCEL shortens the delay between steps, RUN holds the
 * shortest delay, DECEL lengthens it again and STOP ends the move. The timer
 * interrupt of an axis calls the step function once per motor step; the
 * delay it returns is the period until the next interrupt.
 *
 * The record of one axis is the datatype `Ramp`; the functions `Calculated`,
 * `Planned` and `Stepped` say what the three operations do to it, and the
 * classes `Axis` and `Controller` carry the operations out in place.
 */
module Motors {
  import opened CTypes
  import Math

  /** A_T_x100: (2*pi/200) * 460750 * 100, truncated. */
  const ATx100: int := 1447487
  /** T1_FREQ_148: 460750 * 0.676 / 100, truncated. */
  const T1Freq148: int := 3114
  /** A_SQ: (2*pi/200) * 2 * 10^10, which evaluates to 628317999.99... in double precision, truncated. */
  const ASq: int := 628317999
  /** A_x20000: (2*pi/200) * 20000, truncated. */
  const Ax20000: int := 628

  /** MOT_StateKinds, with the idle state that initialisation assigns. */
  datatype Phase = Stop | Accel | Run | Decel | Idle

  /** MOT_Dir. */
  datatype Dir = CCW | CW

  /** The contents of a MOT_FSMData record. */
  datatype Ramp = Ramp(
    state: Phase, dir: Dir, running: bool,
    accel: uint16, decel: uint16, speed: uint16,
    minDelay: int16, stepDelay: uint16, maxSLim: uint16,
    accelLim: uint16, accelCount: int16, decelVal: int16, decelStart: uint16,
    lastAccelDelay: int16, rest: uint16, stepCount: uint16)

  /** A statically allocated record: all zero, so STOP (the first enumerator) and CCW. */
  const Zeroed: Ramp := Ramp(Stop, CCW, false, 0, 0, 0, 0, 0, 0, 0, 0, 0, 0, 0, 0, 0)

  // ---------------------------------------------------------------------
  // MOT_CalcValues

  /**
   * The speed limits of a move: `minDelay`, the step delay at top speed, and
   * `maxSLim`, the number of steps it takes to reach top speed, at least one.
   * The C code divides by `speed` and by `(628 * accel) / 100`, and squares
   * `speed` in 32 bits.
   */
  function Calculated(m: Ramp, accel: uint16, decel: uint16, speed: uint16): (r: Ramp)
    requires accel > 0 && 0 < speed <= 46340
    ensures r.maxSLim >= 1
    ensures r == m.(accel := accel, decel := decel, speed := speed, minDelay := r.minDelay, maxSLim := r.maxSLim)
  {
    var limit := WrapU16(speed * speed / (Ax20000 * accel / 100));
    m.(accel := accel, decel := decel, speed := speed,
       minDelay := WrapI16(ATx100 / speed),
       maxSLim := if limit == 0 then 1 else limit)
  }

  /**
   * From a top speed of 45 on, `minDelay` holds A_T_x100 / speed without
   * wrapping: it is the longest delay whose speed reaches the top speed.
   */
  lemma MinDelayIsTopSpeedDelay(m: Ramp, accel: uint16, decel: uint16, speed: uint16)
    requires accel > 0 && 45 <= speed <= 46340
    ensures var d := Calculated(m, accel, decel, speed).minDelay;
      d * speed <= ATx100 < (d + 1) * speed
  {
    var q := ATx100 / speed;
    DivBounds(ATx100, speed);
    MulMono(45, speed, q);
    assert WrapI16(q) == q;
  }

  /**
   * Below a top speed of 45, A_T_x100 / speed no longer fits in the 16-bit
   * signed `min_delay`: at 44 it wraps to a negative delay, below every
   * delay the ramp can hold, so the top-speed limit never applies.
   */
  lemma SlowTopSpeedWrapsMinDelay(m: Ramp, accel: uint16, decel: uint16)
    requires accel > 0
    ensures var c := Calculated(m, accel, decel, 44);
      && ATx100 / 44 >= 0x8000 && c.minDelay < 0
  {
    assert ATx100 / 44 == 32897;
    assert WrapI16(32897) == 32897 - 0x1_0000;
  }

  /** Multiplying by a non-negative factor keeps the order. */
  lemma MulMono(x: int, y: int, c: int)
    ensures x <= y && c >= 0 ==> x * c <= y * c
  {
    if x <= y && c >= 0 {
      assert y * c - x * c == (y - x) * c;
    }
  }

  // ---------------------------------------------------------------------
  // MOT_MoveSteps

  /**
   * What MOT_MoveSteps demands: `steps` can be negated in 16 bits, and a move
   * of two or more steps divides by `accel`, by `accel + decel`, and by
   * `decel` when `accel_lim` exceeds `max_s_lim` (which a zero `decel` can
   * only reach while `max_s_lim` is still 0, before MOT_CalcValues).
   */
  predicate CanMove(m: Ramp, steps: int16)
  {
    steps != -0x8000 && (Abs(steps) >= 2 ==> m.accel > 0 && (m.decel > 0 || m.maxSLim >= 1))
  }

  /** `accel_lim`: the steps spent accelerating, decel/(accel+decel) of the move, at least one. */
  function AccelLimit(n: int, accel: uint16, decel: uint16): (al: uint16)
    requires 2 <= n <= 0x7FFF && accel > 0
    ensures 1 <= al < n
    ensures al * (accel + decel) <= n * decel || (al == 1 && n * decel < accel + decel)
    ensures n * decel >= accel + decel ==> n * decel < (al + 1) * (accel + decel)
  {
    AccelShare(n, accel, decel);
    DivBounds(n * decel, accel + decel);
    var q := n * decel / (accel + decel);
    if q == 0 then 1 else q
  }

  lemma AccelShare(n: int, accel: nat, decel: nat)
    requires 2 <= n && accel > 0
    ensures 0 <= n * decel / (accel + decel) < n
    ensures (n * decel / (accel + decel)) * (accel + decel) <= n * decel
    ensures n * decel / (accel + decel) == 0 ==> n * decel < accel + decel
  {
    var s, x := accel + decel, n * decel;
    DivBounds(x, s);
    assert x < n * s by {
      MulMono(1, accel, n);
      assert n * s == n * accel + x;
    }
    QuotientBelow(x, s, n);
  }

  /** A quotient below `n`: from `x < n*s`. */
  lemma QuotientBelow(x: nat, s: nat, n: nat)
    requires s > 0 && x < n * s
    ensures x / s < n
  {
    DivBounds(x, s);
    MulMono(n, x / s, s);
  }

  /**
   * `decel_val`: minus the number of decelerating steps. It comes from the
   * limit reached first: the end of acceleration, or the top speed scaled by
   * accel/decel; a 0 becomes -1.
   */
  function DecelValue(n: int, al: uint16, accel: uint16, decel: uint16, maxSLim: uint16): (dv: int16)
    requires 2 <= n <= 0x7FFF && accel > 0 && (decel > 0 || maxSLim >= 1)
    requires al == AccelLimit(n, accel, decel)
    ensures -n < dv <= -1
  {
    if al <= maxSLim then al - n
    else
      DecelShare(n, al, accel, decel, maxSLim);
      var v := CDiv(-(maxSLim * accel), decel);
      if v == 0 then -1 else v
  }

  lemma DecelShare(n: int, al: nat, accel: nat, decel: nat, maxSLim: nat)
    requires 2 <= n && accel > 0 && 1 <= al && maxSLim < al && (decel > 0 || maxSLim >= 1)
    requires al * (accel + decel) <= n * decel || (al == 1 && n * decel < accel + decel)
    ensures decel > 0
    ensures -n < CDiv(-(maxSLim * accel), decel) <= 0
  {
    MulMono(1, al, accel);
    var q := CDiv(-(maxSLim * accel), decel);
    MulMono(0, maxSLim, accel);
    MulMono(1, Abs(q), decel);
    if al * (accel + decel) <= n * decel {
      MulMono(maxSLim + 1, al, accel + decel);
      assert (maxSLim + 1) * (accel + decel) == maxSLim * accel + maxSLim * decel + accel + decel;
      MulMono(0, maxSLim, decel);
      assert maxSLim * accel < n * decel;
      MulMono(n, Abs(q), decel);
    } else {
      assert maxSLim == 0;
    }
  }

  /**
   * The first step delay c0 = 0.676 * f * sqrt(2 * alpha / accel), stored
   * into the 16-bit `step_delay`.
   */
  function FirstDelay(accel: uint16): (d: uint16)
    requires accel > 0
  {
    WrapU16(T1Freq148 * Math.RoundSqrt(ASq / accel) / 100)
  }

  /** From an acceleration of 142 on, the first delay fits in 16 bits. */
  lemma FirstDelayFits(accel: uint16)
    requires accel >= 142
    ensures FirstDelay(accel) == T1Freq148 * Math.RoundSqrt(ASq / accel) / 100
  {
    var x := ASq / accel;
    DivBounds(ASq, accel);
    MulMono(142, accel, x);
    RootAtMost(x, 2104);
  }

  /** Below that it wraps: the stored delay is less than the computed one. */
  lemma FirstDelayWraps(accel: uint16)
    requires 0 < accel <= 141
    ensures FirstDelay(accel) < T1Freq148 * Math.RoundSqrt(ASq / accel) / 100
  {
    var x := ASq / accel;
    DivBounds(ASq, accel);
    MulMono(accel, 141, x + 1);
    RootAtLeast(x, 2105);
  }

  /** A rounded root above `k` needs `x > k*k + k`. */
  lemma RootAtMost(x: nat, k: nat)
    requires x <= k * k + k
    ensures Math.RoundSqrt(x) <= k
  {
    Math.RoundSqrtIsNearest(x);
    NearestAtMost(x, Math.RoundSqrt(x), k);
  }

  lemma NearestAtMost(x: nat, r: nat, k: nat)
    requires Math.NearestRoot(x, r) && x <= k * k + k
    ensures r <= k
  {
    MulMono(k + 1, r, r - 1);
    MulMono(k, r - 1, k + 1);
    assert r * (r - 1) == r * r - r;
    assert (k + 1) * k == k * k + k;
  }

  /** A rounded root below `k` needs `x <= (k-1)*(k-1) + (k-1)`. */
  lemma RootAtLeast(x: nat, k: nat)
    requires k >= 1 && x > (k - 1) * (k - 1) + (k - 1)
    ensures Math.RoundSqrt(x) >= k
  {
    Math.RoundSqrtIsNearest(x);
    NearestAtLeast(x, Math.RoundSqrt(x), k);
  }

  lemma NearestAtLeast(x: nat, r: nat, k: nat)
    requires Math.NearestRoot(x, r) && k >= 1 && x > (k - 1) * (k - 1) + (k - 1)
    ensures r >= k
  {
    MulMono(r, k - 1, r + 1);
    MulMono(r + 1, k, k - 1);
    assert r * (r + 1) == r * r + r;
    assert k * (k - 1) == (k - 1) * (k - 1) + (k - 1);
  }

  /**
   * The deceleration point of a move of n >= 2 steps: it lies strictly
   * inside the move and leaves at least one step to decelerate.
   */
  function DecelPlanned(m: Ramp, n: int): (r: Ramp)
    requires 2 <= n <= 0x7FFF && m.accel > 0 && (m.decel > 0 || m.maxSLim >= 1)
    ensures r.decelVal <= -1 && 1 <= r.decelStart <= n - 1 && r.decelStart - r.decelVal == n
    ensures r == m.(accelLim := r.accelLim, decelVal := r.decelVal, decelStart := r.decelStart)
  {
    var al := AccelLimit(n, m.accel, m.decel);
    var dv := DecelValue(n, al, m.accel, m.decel, m.maxSLim);
    m.(accelLim := al, decelVal := dv, decelStart := WrapU16(n + dv))
  }

  /**
   * The start of a ramped move: the counters restart and the axis runs, in
   * RUN at `minDelay` when the first delay is already that short, and in
   * ACCEL at the first delay otherwise.
   */
  function Started(m: Ramp): (r: Ramp)
    requires m.accel > 0
    ensures r.running && r.stepCount == 0 && r.rest == 0 && r.accelCount == 0
    ensures r.state in {Run, Accel}
    ensures r.state == Run <==> FirstDelay(m.accel) <= m.minDelay
    ensures r.state == Run ==> r.stepDelay == r.minDelay
    ensures r.state == Accel ==> r.stepDelay == FirstDelay(m.accel) > r.minDelay
    ensures r == m.(state := r.state, stepDelay := r.stepDelay, stepCount := 0, rest := 0, accelCount := 0, running := true)
  {
    var first := FirstDelay(m.accel);
    m.(stepDelay := if first <= m.minDelay then WrapU16(m.minDelay) else first,
       state := if first <= m.minDelay then Run else Accel,
       stepCount := 0, rest := 0, accelCount := 0, running := true)
  }

  /** The ramped part of MOT_MoveSteps, for n >= 2 steps. */
  function Ramped(m: Ramp, n: int): (r: Ramp)
    requires 2 <= n <= 0x7FFF && m.accel > 0 && (m.decel > 0 || m.maxSLim >= 1)
    ensures r.running && r.stepCount == 0 && r.rest == 0 && r.accelCount == 0
    ensures r.decelVal <= -1 && 1 <= r.decelStart <= n - 1 && r.decelStart - r.decelVal == n
    ensures r.state in {Run, Accel}
    ensures r.state == Run <==> FirstDelay(m.accel) <= m.minDelay
    ensures r.state == Run ==> r.stepDelay == r.minDelay
    ensures r.state == Accel ==> r.stepDelay == FirstDelay(m.accel) > r.minDelay
    ensures r.dir == m.dir && r.accel == m.accel && r.decel == m.decel && r.speed == m.speed
    ensures r.minDelay == m.minDelay && r.maxSLim == m.maxSLim && r.lastAccelDelay == m.lastAccelDelay
  {
    Started(DecelPlanned(m, n))
  }

  /**
   * MOT_MoveSteps as written. The direction follows the sign of `steps`; a
   * single step starts in DECEL with delay 1000 and keeps the step counter
   * and remainder; no step changes nothing else.
   */
  function PlannedAsWritten(m: Ramp, steps: int16): (r: Ramp)
    requires CanMove(m, steps)
    ensures r.dir == (if steps < 0 then CCW else CW)
    ensures steps == 0 ==> r == m.(dir := CW)
    ensures Abs(steps) == 1 ==>
      r == m.(dir := r.dir, state := Decel, accelCount := -1, stepDelay := 1000, running := true)
    ensures Abs(steps) >= 2 ==> r == Ramped(m.(dir := r.dir), Abs(steps))
  {
    var dir := if steps < 0 then CCW else CW;
    var n := Abs(steps);
    if n == 1 then
      m.(dir := dir, accelCount := -1, state := Decel, stepDelay := 1000, running := true)
    else if n != 0 then
      Ramped(m.(dir := dir), n)
    else
      m.(dir := dir)
  }

  /**
   * MOT_MoveSteps with `last_accel_delay` set to `minDelay` when the move
   * starts in RUN, so that its deceleration starts from the top speed rather
   * than from a delay a previous move left behind.
   */
  function Planned(m: Ramp, steps: int16): (r: Ramp)
    requires CanMove(m, steps)
    ensures Abs(steps) >= 2 && r.state == Run ==> r.lastAccelDelay == r.minDelay >= 0
    ensures Abs(steps) < 2 || r.state == Accel ==> r == PlannedAsWritten(m, steps)
    ensures Abs(steps) >= 2 && r.state == Run ==> r == PlannedAsWritten(m, steps).(lastAccelDelay := r.minDelay)
  {
    var r := PlannedAsWritten(m, steps);
    if Abs(steps) >= 2 && r.state == Run then r.(lastAccelDelay := r.minDelay) else r
  }

  // ---------------------------------------------------------------------
  // MOT_Process

  /** The delay recurrence c' = c - (2c + rest) / (4i + 1), with C's truncating division. */
  function NextDelay(delay: int, rest: int, count: int): int
  {
    delay - CDiv(2 * delay + rest, 4 * count + 1)
  }

  /** The remainder carried to the next step: (2c + rest) % (4i + 1) in C. */
  function NextRest(delay: int, rest: int, count: int): int
  {
    CRem(2 * delay + rest, 4 * count + 1)
  }

  /**
   * While accelerating (i >= 1, with the carried remainder below 4i + 1) the
   * delay never grows and never drops below zero, nor below three fifths of
   * its previous value (less one); the new remainder stays below 4i + 1.
   */
  lemma AccelRecurrence(delay: nat, rest: nat, i: int)
    requires i >= 1 && rest <= 4 * i
    ensures 0 <= NextDelay(delay, rest, i) <= delay
    ensures 3 * delay <= 5 * NextDelay(delay, rest, i) + 4
    ensures 0 <= NextRest(delay, rest, i) <= 4 * i
  {
    var q := CDiv(2 * delay + rest, 4 * i + 1);
    assert q >= 0 && q * (4 * i + 1) <= 2 * delay + rest;
    if q >= 1 {
      assert (4 * i + 1) * q == 4 * i * (q - 1) + 4 * i + q;
      MulMono(4, 4 * i, q - 1);
    }
    assert 5 * q <= 2 * delay + 4;
  }

  /** While decelerating (i <= -1) the delay never shrinks. */
  lemma DecelRecurrence(delay: nat, rest: nat, i: int)
    requires i <= -1
    ensures NextDelay(delay, rest, i) >= delay
    ensures NextRest(delay, rest, i) >= 0
  {
    var q := CDiv(2 * delay + rest, 4 * i + 1);
    assert q <= 0;
  }

  /** The last deceleration step (i = 0) divides by one: the new delay is -(c + rest). */
  lemma LastRecurrence(delay: nat, rest: nat)
    ensures NextDelay(delay, rest, 0) == -(delay + rest)
    ensures NextRest(delay, rest, 0) == 0
  {
    var q := CDiv(2 * delay + rest, 1);
    assert Abs(q) == 2 * delay + rest;
  }

  /**
   * MOT_Process: one step interrupt. Returns the delay held on entry (the
   * period until the next interrupt) and advances the state machine; in IDLE
   * and STOP the new delay is the uninitialised local, passed in as `junk`.
   */
  function Stepped(m: Ramp, junk: uint16): (r: (Ramp, uint16))
    ensures r.1 == m.stepDelay
    ensures m.state in {Idle, Stop} ==> r.0.stepDelay == junk
    ensures m.state == Stop ==> !r.0.running && r.0.stepCount == 0 && r.0.rest == 0
    ensures m.state in {Accel, Run, Decel} ==>
      r.0.stepCount == WrapU16(m.stepCount + 1) && r.0.running == m.running
  {
    var next := match m.state
      case Idle => m.(stepDelay := junk)
      case Stop => m.(stepCount := 0, rest := 0, running := false, stepDelay := junk)
      case Accel => AccelStep(m)
      case Run => RunStep(m)
      case Decel => DecelStep(m);
    (next, m.stepDelay)
  }

  /**
   * An ACCEL step: the delay follows the recurrence until the deceleration
   * point (then DECEL) or until it reaches `minDelay` (then RUN at
   * `minDelay`, remembering the delay reached).
   */
  function AccelStep(m: Ramp): (r: Ramp)
    ensures r.stepCount == WrapU16(m.stepCount + 1) && r.running == m.running
  {
    var count := WrapU16(m.stepCount + 1);
    var i := WrapI16(m.accelCount + 1);
    var delay := WrapU16(NextDelay(m.stepDelay, m.rest, i));
    var rest := WrapU16(NextRest(m.stepDelay, m.rest, i));
    if count >= m.decelStart then
      m.(stepCount := count, accelCount := m.decelVal, rest := rest, state := Decel, stepDelay := delay)
    else if delay <= m.minDelay then
      m.(stepCount := count, accelCount := i, lastAccelDelay := WrapI16(delay), rest := 0,
         state := Run, stepDelay := WrapU16(m.minDelay))
    else
      m.(stepCount := count, accelCount := i, rest := rest, stepDelay := delay)
  }

  /** A RUN step: `minDelay` until the deceleration point, then DECEL from the last acceleration delay. */
  function RunStep(m: Ramp): (r: Ramp)
    ensures r.stepCount == WrapU16(m.stepCount + 1) && r.running == m.running
  {
    var count := WrapU16(m.stepCount + 1);
    if count >= m.decelStart then
      m.(stepCount := count, accelCount := m.decelVal, state := Decel, stepDelay := WrapU16(m.lastAccelDelay))
    else
      m.(stepCount := count, stepDelay := WrapU16(m.minDelay))
  }

  /** A DECEL step: the delay follows the recurrence; STOP once the counter reaches 0. */
  function DecelStep(m: Ramp): (r: Ramp)
    ensures r.stepCount == WrapU16(m.stepCount + 1) && r.running == m.running
  {
    var count := WrapU16(m.stepCount + 1);
    var i := WrapI16(m.accelCount + 1);
    m.(stepCount := count, accelCount := i,
       stepDelay := WrapU16(NextDelay(m.stepDelay, m.rest, i)),
       rest := WrapU16(NextRest(m.stepDelay, m.rest, i)),
       state := if i >= 0 then Stop else Decel)
  }

  /** The record after `k` step interrupts. */
  function Steps(m: Ramp, k: nat, junk: uint16): Ramp
  {
    if k == 0 then m else Stepped(Steps(m, k - 1, junk), junk).0
  }

  // ---------------------------------------------------------------------
  // A move of n >= 2 steps

  /**
   * The counting invariant of a move of `n` steps, `stepCount` of them done:
   * the counters of the current phase stay consistent with `decelStart` and
   * `decelVal`, so that the move ends in STOP after exactly `n` steps. It
   * does not depend on the delays.
   */
  ghost predicate Counting(m: Ramp, n: int)
  {
    && 2 <= n <= 0x7FFF && m.running
    && match m.state
       case Accel =>
         && 0 <= m.accelCount <= m.stepCount < m.decelStart
         && m.decelVal <= -1 && m.decelStart - m.decelVal == n
       case Run =>
         && m.stepCount < m.decelStart
         && m.decelVal <= -1 && m.decelStart - m.decelVal == n
       case Decel =>
         m.accelCount < 0 && m.stepCount == n + m.accelCount
       case Stop =>
         m.stepCount == n
       case Idle =>
         false
  }

  /**
   * The delay bounds of a move: while accelerating the carried remainder
   * stays below `4 * accelCount + 1` and the delay above `minDelay`; while
   * running the delay to decelerate from is at least three fifths of
   * `minDelay` (less one).
   */
  ghost predicate DelayBounded(m: Ramp)
  {
    match m.state
    case Accel => m.rest <= 4 * m.accelCount && m.stepDelay > m.minDelay
    case Run => 0 <= m.lastAccelDelay && 3 * m.minDelay < 5 * (m.lastAccelDelay + 1)
    case _ => true
  }

  /** A move that keeps both its counting invariant and its delay bounds. */
  ghost predicate Moving(m: Ramp, n: int)
  {
    Counting(m, n) && DelayBounded(m)
  }

  /** A move of two or more steps, as written, starts counting with no step done. */
  lemma CountingAtStart(m: Ramp, steps: int16)
    requires CanMove(m, steps) && Abs(steps) >= 2
    ensures Counting(PlannedAsWritten(m, steps), Abs(steps)) && PlannedAsWritten(m, steps).stepCount == 0
  {
  }

  /** Every interrupt of a move in ACCEL, RUN or DECEL keeps the count and counts one step. */
  lemma CountingStep(m: Ramp, n: int, junk: uint16)
    requires Counting(m, n) && m.state != Stop
    ensures Counting(Stepped(m, junk).0, n)
    ensures Stepped(m, junk).0.stepCount == m.stepCount + 1
  {
    if m.state == Decel {
      assert WrapI16(m.accelCount + 1) == m.accelCount + 1;
    } else if m.state == Accel {
      assert WrapI16(m.accelCount + 1) == m.accelCount + 1;
    }
  }

  /** k interrupts of a move keep the count and count exactly k steps. */
  lemma {:induction false} CountingSteps(m: Ramp, n: int, k: nat, junk: uint16)
    requires Counting(m, n) && m.stepCount + k <= n
    ensures Counting(Steps(m, k, junk), n)
    ensures Steps(m, k, junk).stepCount == m.stepCount + k
  {
    if k > 0 {
      CountingSteps(m, n, k - 1, junk);
      CountingStep(Steps(m, k - 1, junk), n, junk);
    }
  }

  /**
   * From any start that satisfies the counting invariant with no step done,
   * a move of n steps is in ACCEL, RUN or DECEL, with the axis running, for
   * exactly n interrupts; then it is in STOP with n counted steps, and the
   * next interrupt clears the counters and the running flag.
   */
  lemma CountedMove(start: Ramp, n: int, junk: uint16)
    requires Counting(start, n) && start.stepCount == 0
    ensures forall k :: 0 <= k < n ==>
      Steps(start, k, junk).state in {Accel, Run, Decel} && Steps(start, k, junk).running
    ensures Steps(start, n, junk).state == Stop && Steps(start, n, junk).stepCount == n
    ensures var after := Steps(start, n + 1, junk);
      !after.running && after.stepCount == 0 && after.rest == 0
  {
    forall k | 0 <= k < n
      ensures Steps(start, k, junk).state in {Accel, Run, Decel} && Steps(start, k, junk).running
    {
      CountingSteps(start, n, k, junk);
    }
    CountingSteps(start, n, n, junk);
  }

  /**
   * A move of n >= 2 steps, as MOT_MoveSteps plans it and with the corrected
   * start alike, is in ACCEL, RUN or DECEL, with the axis running, for
   * exactly n step interrupts; then it is in STOP with n counted steps, and
   * the next interrupt clears the counters and the running flag.
   */
  lemma MoveTakesExactlyItsSteps(m: Ramp, steps: int16, junk: uint16)
    requires CanMove(m, steps) && Abs(steps) >= 2
    ensures forall k :: 0 <= k < Abs(steps) ==>
      Steps(PlannedAsWritten(m, steps), k, junk).state in {Accel, Run, Decel}
      && Steps(PlannedAsWritten(m, steps), k, junk).running
    ensures Steps(PlannedAsWritten(m, steps), Abs(steps), junk).state == Stop
    ensures Steps(PlannedAsWritten(m, steps), Abs(steps), junk).stepCount == Abs(steps)
    ensures var after := Steps(PlannedAsWritten(m, steps), Abs(steps) + 1, junk);
      !after.running && after.stepCount == 0 && after.rest == 0
    ensures forall k :: 0 <= k < Abs(steps) ==>
      Steps(Planned(m, steps), k, junk).state in {Accel, Run, Decel} && Steps(Planned(m, steps), k, junk).running
    ensures Steps(Planned(m, steps), Abs(steps), junk).state == Stop
    ensures Steps(Planned(m, steps), Abs(steps), junk).stepCount == Abs(steps)
    ensures var after := Steps(Planned(m, steps), Abs(steps) + 1, junk);
      !after.running && after.stepCount == 0 && after.rest == 0
  {
    CountingAtStart(m, steps);
    CountedMove(PlannedAsWritten(m, steps), Abs(steps), junk);
    CountedMove(Planned(m, steps), Abs(steps), junk);
  }

  /** A corrected move of two or more steps starts within its delay bounds, with no step done. */
  lemma MovingAtStart(m: Ramp, steps: int16)
    requires CanMove(m, steps) && Abs(steps) >= 2
    ensures Moving(Planned(m, steps), Abs(steps)) && Planned(m, steps).stepCount == 0
  {
    CountingAtStart(m, steps);
  }

  lemma AccelStepKeepsMoving(m: Ramp, n: int, junk: uint16)
    requires Moving(m, n) && m.state == Accel
    ensures Moving(Stepped(m, junk).0, n)
    ensures Stepped(m, junk).0.stepCount == m.stepCount + 1
    ensures Stepped(m, junk).0.stepDelay <= m.stepDelay
  {
    CountingStep(m, n, junk);
    var i := m.accelCount + 1;
    assert WrapI16(m.accelCount + 1) == i;
    AccelRecurrence(m.stepDelay, m.rest, i);
    var r := NextRest(m.stepDelay, m.rest, i);
    assert WrapU16(r) <= r by {
      if r >= 0x1_0000 {
        assert WrapU16(r) < 0x1_0000;
      }
    }
  }

  /** Each interrupt of a corrected move keeps its delay bounds and counts one step. */
  lemma MovingStep(m: Ramp, n: int, junk: uint16)
    requires Moving(m, n) && m.state != Stop
    ensures Moving(Stepped(m, junk).0, n)
    ensures Stepped(m, junk).0.stepCount == m.stepCount + 1
  {
    if m.state == Accel {
      AccelStepKeepsMoving(m, n, junk);
    } else {
      CountingStep(m, n, junk);
    }
  }

  /** k interrupts of a corrected move keep its delay bounds and count exactly k steps. */
  lemma {:induction false} MovingSteps(m: Ramp, n: int, k: nat, junk: uint16)
    requires Moving(m, n) && m.stepCount + k <= n
    ensures Moving(Steps(m, k, junk), n)
    ensures Steps(m, k, junk).stepCount == m.stepCount + k
  {
    if k > 0 {
      MovingSteps(m, n, k - 1, junk);
      MovingStep(Steps(m, k - 1, junk), n, junk);
    }
  }

  /**
   * Every state a corrected move reaches, up to its STOP, keeps the delay
   * bounds, so `DecelStartsNearTopSpeed` applies to each of its steps.
   */
  lemma MovingThroughout(m: Ramp, steps: int16, k: nat, junk: uint16)
    requires CanMove(m, steps) && Abs(steps) >= 2 && k <= Abs(steps)
    ensures Moving(Steps(Planned(m, steps), k, junk), Abs(steps))
  {
    MovingAtStart(m, steps);
    MovingSteps(Planned(m, steps), Abs(steps), k, junk);
  }

  /** During a move an ACCEL step never lengthens the delay: the motor never slows down. */
  lemma AccelNeverSlows(m: Ramp, n: int, junk: uint16)
    requires Moving(m, n) && m.state == Accel
    ensures Stepped(m, junk).0.stepDelay <= m.stepDelay
  {
    AccelStepKeepsMoving(m, n, junk);
  }

  /**
   * During a move a DECEL step before the last one never shortens the delay,
   * unless the longer delay no longer fits in 16 bits.
   */
  lemma DecelNeverSpeedsUp(m: Ramp, n: int, junk: uint16)
    requires Moving(m, n) && m.state == Decel && m.accelCount < -1
    ensures Stepped(m, junk).0.stepDelay >= m.stepDelay
      || NextDelay(m.stepDelay, m.rest, m.accelCount + 1) >= 0x1_0000
  {
    DecelRecurrence(m.stepDelay, m.rest, m.accelCount + 1);
  }

  /**
   * The last DECEL step divides by one and computes -(delay + rest), which
   * the 16-bit `step_delay` stores as 2^16 - (delay + rest): the delay the
   * following STOP interrupt returns.
   */
  lemma LastDecelStepWraps(m: Ramp, n: int, junk: uint16)
    requires Moving(m, n) && m.state == Decel && m.accelCount == -1
    ensures Stepped(m, junk).0.state == Stop
    ensures 0 < m.stepDelay + m.rest <= 0x1_0000 ==>
      Stepped(m, junk).0.stepDelay == 0x1_0000 - (m.stepDelay + m.rest)
    ensures Stepped(m, junk).0.stepDelay == WrapU16(-(m.stepDelay + m.rest))
  {
    LastRecurrence(m.stepDelay, m.rest);
  }

  /**
   * Deceleration never starts more than 5/3 times faster than the top speed:
   * leaving RUN, the delay is at least three fifths of `minDelay` (less one).
   */
  lemma DecelStartsNearTopSpeed(m: Ramp, n: int, junk: uint16)
    requires Moving(m, n) && m.state == Run
    ensures Stepped(m, junk).0.state == Decel ==>
      3 * m.minDelay < 5 * (Stepped(m, junk).0.stepDelay + 1)
  {
  }

  /** The three fifths bound survives the switch from ACCEL to RUN. */
  lemma AccelToRunKeepsDelayBound(m: Ramp, n: int, junk: uint16)
    requires Moving(m, n) && m.state == Accel && Stepped(m, junk).0.state == Run
    ensures 3 * m.minDelay < 5 * (Stepped(m, junk).0.lastAccelDelay + 1)
  {
    AccelStepKeepsMoving(m, n, junk);
  }

  /**
   * As written, a move that starts in RUN keeps `last_accel_delay` from the
   * past: on a fresh axis with top speed 100, acceleration 60000 and a move
   * of two steps, the step leaving RUN sets the delay to 0, far below the
   * top-speed delay 14474.
   */
  lemma DirectRunDecelAsWritten()
    ensures var m := PlannedAsWritten(Calculated(Zeroed, 60000, 60000, 100), 2);
      && m.state == Run && m.minDelay == 14474
      && Stepped(m, 0).0.state == Decel && Stepped(m, 0).0.stepDelay == 0
      && 3 * m.minDelay >= 5 * (Stepped(m, 0).0.stepDelay + 1)
      && Counting(m, 2) && !DelayBounded(m)
  {
    assert ASq / 60000 == 10471;
    Math.RoundSqrtIsNearest(10471);
    Math.NearestRootUnique(10471, Math.RoundSqrt(10471), 102);
    assert FirstDelay(60000) == 3176;
  }

  /** A single-step move takes one interrupt to reach STOP and one more to halt. */
  lemma SingleStepMove(m: Ramp, steps: int16, junk: uint16)
    requires Abs(steps) == 1
    ensures var s := Stepped(Planned(m, steps), junk);
      && s.1 == 1000 && s.0.state == Stop && s.0.stepCount == WrapU16(m.stepCount + 1)
      && s.0.stepDelay == WrapU16(-(1000 + m.rest))
    ensures var after := Steps(Planned(m, steps), 2, junk);
      !after.running && after.stepCount == 0 && after.rest == 0
  {
    var p := Planned(m, steps);
    assert p.state == Decel && p.accelCount == -1 && p.stepDelay == 1000;
    assert p.rest == m.rest && p.stepCount == m.stepCount;
    var q := DecelStep(p);
    LastRecurrence(1000, m.rest);
    assert q.state == Stop && q.stepDelay == WrapU16(-(1000 + m.rest));
    assert Stepped(p, junk) == (q, 1000);
    assert Steps(p, 1, junk) == q;
    assert Steps(p, 2, junk) == Stepped(q, junk).0;
  }

  /** The first delay as MOT_MoveSteps computes it, with the bit-scanning square root. */
  method ComputeFirstDelay(accel: uint16) returns (d: uint16)
    requires accel > 0
    ensures d == FirstDelay(accel)
  {
    var root, _ := Math.Sqrt(ASq / accel);
    d := WrapU16(T1Freq148 * root / 100);
  }

  // ---------------------------------------------------------------------
  // The records and globals, updated in place

  /**
   * A MOT_FSMData record, updated in place one field at a time; `ramp` holds
   * the record's fields.
   */
  class Axis {
    var ramp: Ramp

    /** A static record, zero-filled before the program starts. */
    constructor ()
      ensures ramp == Zeroed
    {
      ramp := Zeroed;
    }

    /** MOT_CalcValues. */
    method CalcValues(accel: uint16, decel: uint16, speed: uint16)
      requires accel > 0 && 0 < speed <= 46340
      modifies this
      ensures ramp == Calculated(old(ramp), accel, decel, speed)
    {
      ramp := ramp.(accel := accel);
      ramp := ramp.(decel := decel);
      ramp := ramp.(speed := speed);
      ramp := ramp.(minDelay := WrapI16(ATx100 / speed));
      ramp := ramp.(maxSLim := WrapU16(speed * speed / (Ax20000 * accel / 100)));
      if ramp.maxSLim == 0 {
        ramp := ramp.(maxSLim := 1);
      }
    }

    /** The first half of a ramped MOT_MoveSteps: `accel_lim`, `decel_val` and `decel_start`. */
    method PlanDeceleration(n: int)
      requires 2 <= n <= 0x7FFF && ramp.accel > 0 && (ramp.decel > 0 || ramp.maxSLim >= 1)
      modifies this
      ensures ramp == DecelPlanned(old(ramp), n)
    {
      ramp := ramp.(accelLim := AccelLimit(n, ramp.accel, ramp.decel));
      ramp := ramp.(decelVal := DecelValue(n, ramp.accelLim, ramp.accel, ramp.decel, ramp.maxSLim));
      ramp := ramp.(decelStart := WrapU16(n + ramp.decelVal));
    }

    /**
     * The second half: the first delay, the start state and the counters;
     * a move that starts in RUN also takes `minDelay` as its last
     * acceleration delay (see `Planned`).
     */
    method StartMove()
      requires ramp.accel > 0
      modifies this
      ensures var r := Started(old(ramp));
        ramp == if r.state == Run then r.(lastAccelDelay := r.minDelay) else r
    {
      var first := ComputeFirstDelay(ramp.accel);
      ramp := ramp.(stepDelay := first);
      if ramp.stepDelay <= ramp.minDelay {
        ramp := ramp.(stepDelay := ramp.minDelay);
        ramp := ramp.(lastAccelDelay := ramp.minDelay);
        ramp := ramp.(state := Run);
      } else {
        ramp := ramp.(state := Accel);
      }
      ramp := ramp.(stepCount := 0);
      ramp := ramp.(rest := 0);
      ramp := ramp.(accelCount := 0);
      ramp := ramp.(running := true);
    }

    /** The ACCEL case of MOT_Process; the new delay is returned, not yet stored. */
    method Accelerate() returns (newStepDelay: uint16)
      modifies this
      ensures ramp.(stepDelay := newStepDelay) == AccelStep(old(ramp))
    {
      ramp := ramp.(stepCount := WrapU16(ramp.stepCount + 1));
      ramp := ramp.(accelCount := WrapI16(ramp.accelCount + 1));
      newStepDelay := WrapU16(NextDelay(ramp.stepDelay, ramp.rest, ramp.accelCount));
      ramp := ramp.(rest := WrapU16(NextRest(ramp.stepDelay, ramp.rest, ramp.accelCount)));
      if ramp.stepCount >= ramp.decelStart {
        ramp := ramp.(accelCount := ramp.decelVal);
        ramp := ramp.(state := Decel);
      } else if newStepDelay <= ramp.minDelay {
        ramp := ramp.(lastAccelDelay := WrapI16(newStepDelay));
        newStepDelay := WrapU16(ramp.minDelay);
        ramp := ramp.(rest := 0);
        ramp := ramp.(state := Run);
      }
    }

    /** The RUN case of MOT_Process. */
    method Cruise() returns (newStepDelay: uint16)
      modifies this
      ensures ramp.(stepDelay := newStepDelay) == RunStep(old(ramp))
    {
      ramp := ramp.(stepCount := WrapU16(ramp.stepCount + 1));
      newStepDelay := WrapU16(ramp.minDelay);
      if ramp.stepCount >= ramp.decelStart {
        ramp := ramp.(accelCount := ramp.decelVal);
        newStepDelay := WrapU16(ramp.lastAccelDelay);
        ramp := ramp.(state := Decel);
      }
    }

    /** The DECEL case of MOT_Process. */
    method Decelerate() returns (newStepDelay: uint16)
      requires ramp.state == Decel
      modifies this
      ensures ramp.(stepDelay := newStepDelay) == DecelStep(old(ramp))
    {
      ramp := ramp.(stepCount := WrapU16(ramp.stepCount + 1));
      ramp := ramp.(accelCount := WrapI16(ramp.accelCount + 1));
      newStepDelay := WrapU16(NextDelay(ramp.stepDelay, ramp.rest, ramp.accelCount));
      ramp := ramp.(rest := WrapU16(NextRest(ramp.stepDelay, ramp.rest, ramp.accelCount)));
      if ramp.accelCount >= 0 {
        ramp := ramp.(state := Stop);
      }
    }
  }

  /** The module's globals: the three axes, the `running` flag and the emulated OCR1A register. */
  class Controller {
    var running: bool
    var ocr1a: uint16
    const rotary: Axis
    const knee: Axis
    const lift: Axis

    constructor ()
      ensures fresh(rotary) && fresh(knee) && fresh(lift)
      ensures rotary != knee && knee != lift && rotary != lift
      ensures rotary.ramp == Zeroed && knee.ramp == Zeroed && lift.ramp == Zeroed
      ensures !running && ocr1a == 0
    {
      rotary := new Axis();
      knee := new Axis();
      lift := new Axis();
      running, ocr1a := false, 0;
    }

    /** MOT_Init: every axis goes idle; nothing else changes. */
    method Init()
      modifies rotary, knee, lift
      ensures rotary.ramp == old(rotary.ramp).(state := Idle)
      ensures knee.ramp == old(knee.ramp).(state := Idle)
      ensures lift.ramp == old(lift.ramp).(state := Idle)
    {
      rotary.ramp := rotary.ramp.(state := Idle);
      knee.ramp := knee.ramp.(state := Idle);
      lift.ramp := lift.ramp.(state := Idle);
    }

    /**
     * MOT_MoveSteps (with the RUN start corrected, see `Planned`); a move of
     * one or more steps also sets the global `running` and OCR1A to 10.
     */
    method MoveSteps(m: Axis, steps: int16)
      requires CanMove(m.ramp, steps)
      modifies this, m
      ensures m.ramp == Planned(old(m.ramp), steps)
      ensures steps != 0 ==> running && ocr1a == 10
      ensures steps == 0 ==> running == old(running) && ocr1a == old(ocr1a)
    {
      var n: int := steps;
      if steps < 0 {
        m.ramp := m.ramp.(dir := CCW);
        n := -steps;
      } else {
        m.ramp := m.ramp.(dir := CW);
      }
      if n == 1 {
        m.ramp := m.ramp.(accelCount := -1);
        m.ramp := m.ramp.(state := Decel);
        m.ramp := m.ramp.(stepDelay := 1000);
        m.ramp := m.ramp.(running := true);
        running := true;
        ocr1a := 10;
      } else if n != 0 {
        m.PlanDeceleration(n);
        m.StartMove();
        running := true;
        ocr1a := 10;
      }
    }

    /**
     * MOT_Process: the step interrupt of axis `m`; `junk` stands for the
     * uninitialised `new_step_delay` that IDLE and STOP store.
     */
    method Process(m: Axis, junk: uint16) returns (delay: uint16)
      modifies this, m
      ensures (m.ramp, delay) == Stepped(old(m.ramp), junk)
      ensures ocr1a == delay
      ensures running == (if old(m.ramp.state) == Stop then false else old(running))
    {
      var newStepDelay := junk;
      ocr1a := m.ramp.stepDelay;
      match m.ramp.state {
        case Idle =>
        case Stop =>
          m.ramp := m.ramp.(stepCount := 0);
          m.ramp := m.ramp.(rest := 0);
          m.ramp := m.ramp.(running := false);
          running := false;
        case Accel =>
          newStepDelay := m.Accelerate();
        case Run =>
          newStepDelay := m.Cruise();
        case Decel =>
          newStepDelay := m.Decelerate();
      }
      m.ramp := m.ramp.(stepDelay := newStepDelay);
      delay := ocr1a;
    }
  }
}
