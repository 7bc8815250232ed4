/** makerbit.py: the DC motor driver and the servo driver on the PWM
    expander. Both keep a list of the last value set per output and write the
    expander channels; the model keeps those lists as fields and the writes in
    the chip's log. */
module Makerbit {
  import opened Wrappers
  import opened Sequences
  import opened Pca9685
  import opened StepRules
  import opened Arith

  // ---------------------------------------------------------------------
  // DC motors
  // ---------------------------------------------------------------------

  /** The (positive, negative) expander channels of motors 0..3. */
  const DcMotors: seq<(int, int)> := [(11, 10), (8, 9), (12, 13), (15, 14)]

  /** The largest speed magnitude, and the duty per unit of speed. */
  const MaxSpeed: int := 100
  const DutyPerSpeed: int := 40

  /** `max(min(100, value), -100)`: the speed that is stored and driven. */
  function ClampSpeed(value: int): (v: int)
    ensures -MaxSpeed <= v <= MaxSpeed
    ensures -MaxSpeed <= value <= MaxSpeed ==> v == value
    ensures value > MaxSpeed ==> v == MaxSpeed
    ensures value < -MaxSpeed ==> v == -MaxSpeed
  {
    Max(Min(MaxSpeed, value), -MaxSpeed)
  }

  /** The two writes that drive motor `index` at speed `v`: the duty on the
      positive channel for forward, on the negative one for backward. */
  function MotorWrites(index: int, v: int): (ops: seq<Op>)
    requires 0 <= index < 4
    ensures |ops| == 2 && ops[0].Pwm? && ops[1].Pwm?
    ensures ops[0].channel == DcMotors[index].0 && ops[1].channel == DcMotors[index].1
    ensures ops[0].on == 0 && ops[1].on == 0
    ensures ops[0].off >= 0 && ops[1].off >= 0 && (ops[0].off == 0 || ops[1].off == 0)
    ensures ops[0].off - ops[1].off == DutyPerSpeed * v
  {
    var (pp, pn) := DcMotors[index];
    var speed := v * DutyPerSpeed;
    if speed >= 0 then [Pwm(pp, 0, speed), Pwm(pn, 0, 0)]
    else [Pwm(pp, 0, 0), Pwm(pn, 0, -speed)]
  }

  /** A clamped speed never asks for more than 4000 of the 4096 duty steps. */
  lemma MotorDutyBound(index: int, value: int)
    requires 0 <= index < 4
    ensures var ops := MotorWrites(index, ClampSpeed(value));
      0 <= ops[0].off <= 4000 && 0 <= ops[1].off <= 4000
  {
  }

  /** Braking writes what setting speed 0 writes. */
  lemma BrakeIsSpeedZero(index: int)
    requires 0 <= index < 4
    ensures MotorWrites(index, 0) == [Pwm(DcMotors[index].0, 0, 0), Pwm(DcMotors[index].1, 0, 0)]
  {
  }

  /** Four DC motors on the expander. */
  class DCMotors {
    const chip: Chip
    /** The last speed set for each motor. */
    var motorSpeeds: seq<int>

    ghost predicate Valid()
      reads this
    {
      |motorSpeeds| == 4
    }

    constructor (chip: Chip, freq: int)
      modifies chip
      ensures Valid() && this.chip == chip
      ensures motorSpeeds == [0, 0, 0, 0]
      ensures chip.ops == old(chip.ops) + [SetFreq(freq)]
    {
      this.chip := chip;
      motorSpeeds := [0, 0, 0, 0];
      new;
      chip.Freq(freq);
    }

    /** Set the speed of motor `index` (a value of `None` reads it back).
        An index outside 0..3 is ignored; the result is the read speed, or
        `None` as in the source. */
    method Speed(index: int, value: Option<int>) returns (r: Option<int>)
      requires Valid()
      modifies this`motorSpeeds, chip
      ensures Valid()
      ensures !(0 <= index <= 3) ==>
        r == None && motorSpeeds == old(motorSpeeds) && chip.ops == old(chip.ops)
      ensures 0 <= index <= 3 && value.None? ==>
        r == Some(old(motorSpeeds)[index]) && motorSpeeds == old(motorSpeeds) && chip.ops == old(chip.ops)
      ensures 0 <= index <= 3 && value.Some? ==>
        var v := ClampSpeed(value.value);
        && r == None
        && motorSpeeds == old(motorSpeeds)[index := v]
        && chip.ops == old(chip.ops) + MotorWrites(index, v)
    {
      if index > 3 || index < 0 {
        return None;
      }
      if value.None? {
        return Some(motorSpeeds[index]);
      }
      var v := Max(Min(MaxSpeed, value.value), -MaxSpeed);
      motorSpeeds := motorSpeeds[index := v];
      var (pp, pn) := DcMotors[index];
      var speed := v * DutyPerSpeed;
      if speed >= 0 {
        chip.SetPwm(pp, 0, speed);
        chip.SetPwm(pn, 0, 0);
      } else {
        chip.SetPwm(pp, 0, 0);
        chip.SetPwm(pn, 0, -speed);
      }
      r := None;
    }

    /** Stop motor `index` with both channels off and remember speed 0. */
    method Brake(index: int)
      requires Valid()
      modifies this`motorSpeeds, chip
      ensures Valid()
      ensures !(0 <= index <= 3) ==> motorSpeeds == old(motorSpeeds) && chip.ops == old(chip.ops)
      ensures 0 <= index <= 3 ==>
        && motorSpeeds == old(motorSpeeds)[index := 0]
        && chip.ops == old(chip.ops) + [Pwm(DcMotors[index].0, 0, 0), Pwm(DcMotors[index].1, 0, 0)]
    {
      if index > 3 || index < 0 {
        return;
      }
      motorSpeeds := motorSpeeds[index := 0];
      var (pp, pn) := DcMotors[index];
      chip.SetPwm(pp, 0, 0);
      chip.SetPwm(pn, 0, 0);
    }

    /** Set the left (0) and right (1) motors. */
    method SetWheelSpeed(left: int, right: int)
      requires Valid()
      modifies this`motorSpeeds, chip
      ensures Valid()
      ensures motorSpeeds == old(motorSpeeds)[0 := ClampSpeed(left)][1 := ClampSpeed(right)]
      ensures chip.ops == old(chip.ops) + MotorWrites(0, ClampSpeed(left)) + MotorWrites(1, ClampSpeed(right))
    {
      var _ := Speed(0, Some(left));
      var _ := Speed(1, Some(right));
    }

    /** All four motors to speed 0, in order. */
    method Stop()
      requires Valid()
      modifies this`motorSpeeds, chip
      ensures motorSpeeds == [0, 0, 0, 0]
      ensures chip.ops == old(chip.ops) + MotorWrites(0, 0) + MotorWrites(1, 0) + MotorWrites(2, 0) + MotorWrites(3, 0)
    {
      var _ := Speed(0, Some(0));
      var _ := Speed(1, Some(0));
      var _ := Speed(2, Some(0));
      var _ := Speed(3, Some(0));
    }
  }

  // ---------------------------------------------------------------------
  // Servos
  // ---------------------------------------------------------------------

  /** What `position` and `rotate` hand back: nothing, a read position, or
      the ZeroDivisionError of a zero `max_degrees`. */
  datatype Reply = NoValue | Value(v: int) | DivByZero

  /** `int(a / b)` of Python on integers: true division, then truncation
      toward zero. */
  function TruncDiv(a: int, b: int): (q: int)
    requires b != 0
    ensures (a >= 0) == (b > 0) ==> q >= 0
    ensures (a >= 0) != (b > 0) ==> q <= 0
  {
    if b > 0 then
      (if a >= 0 then a / b else -((-a) / b))
    else
      (if a >= 0 then -(a / (-b)) else (-a) / (-b))
  }

  /** The truncated quotient lies between 0 and the exact one. */
  lemma TruncDivBounds(a: int, b: int)
    requires b > 0
    ensures a >= 0 ==> 0 <= b * TruncDiv(a, b) <= a < b * TruncDiv(a, b) + b
    ensures a < 0 ==> b * TruncDiv(a, b) - b < a <= b * TruncDiv(a, b) <= 0
  {
    if a >= 0 {
      FloorBounds(a, b);
    } else {
      FloorBounds(-a, b);
      assert b * TruncDiv(a, b) == -(b * ((-a) / b));
    }
  }

  lemma FloorBounds(a: int, b: int)
    requires a >= 0 && b > 0
    ensures 0 <= b * (a / b) <= a < b * (a / b) + b
  {
    var q, r := a / b, a % b;
    assert a == b * q + r;
    MulLe(0, q, b);
  }

  /** A multiple divides back exactly, whatever the signs. */
  lemma TruncDivMul(q: int, b: int)
    requires b != 0
    ensures TruncDiv(q * b, b) == q
  {
    var m := if b > 0 then b else -b;
    var a := if q * b >= 0 then q * b else -(q * b);
    var k := if q >= 0 then q else -q;
    assert a == k * m;
    DivModUnique(a, m, k, 0);
  }

  /** For a positive divisor the truncated quotient grows with the
      numerator. */
  lemma TruncDivMono(a1: int, a2: int, b: int)
    requires b > 0 && a1 <= a2
    ensures TruncDiv(a1, b) <= TruncDiv(a2, b)
  {
    if a1 >= 0 {
      FloorMono(a1, a2, b);
    } else if a2 < 0 {
      FloorMono(-a2, -a1, b);
      assert TruncDiv(a1, b) == -((-a1) / b) && TruncDiv(a2, b) == -((-a2) / b);
    } else {
      FloorBounds(-a1, b);
      FloorBounds(a2, b);
      assert TruncDiv(a1, b) == -((-a1) / b) <= 0 <= a2 / b == TruncDiv(a2, b);
    }
  }

  lemma FloorMono(x: int, y: int, b: int)
    requires 0 <= x <= y && b > 0
    ensures x / b <= y / b
  {
    FloorBounds(x, b);
    FloorBounds(y, b);
    if x / b > y / b {
      MulLe(y / b + 1, x / b, b);
    }
  }

  /** The duty for `degrees` out of `maxDegrees`:
      `min(max_duty, max(min_duty, int(min_duty + span * degrees / max_degrees)))`. */
  function ServoDuty(minDuty: int, maxDuty: int, degrees: int, maxDegrees: int): (duty: int)
    requires maxDegrees != 0
    ensures minDuty <= maxDuty ==> minDuty <= duty <= maxDuty
  {
    var span := maxDuty - minDuty;
    Min(maxDuty, Max(minDuty, TruncDiv(minDuty * maxDegrees + span * degrees, maxDegrees)))
  }

  /** 0 degrees gives the minimum duty and `maxDegrees` the maximum. */
  lemma ServoDutyEnds(minDuty: int, maxDuty: int, maxDegrees: int)
    requires maxDegrees != 0 && minDuty <= maxDuty
    ensures ServoDuty(minDuty, maxDuty, 0, maxDegrees) == minDuty
    ensures ServoDuty(minDuty, maxDuty, maxDegrees, maxDegrees) == maxDuty
  {
    TruncDivMul(minDuty, maxDegrees);
    assert minDuty * maxDegrees + (maxDuty - minDuty) * maxDegrees == maxDuty * maxDegrees;
    TruncDivMul(maxDuty, maxDegrees);
  }

  /** More degrees never give less duty. */
  lemma ServoDutyMonotone(minDuty: int, maxDuty: int, d1: int, d2: int, maxDegrees: int)
    requires maxDegrees > 0 && minDuty <= maxDuty && d1 <= d2
    ensures ServoDuty(minDuty, maxDuty, d1, maxDegrees) <= ServoDuty(minDuty, maxDuty, d2, maxDegrees)
  {
    var span := maxDuty - minDuty;
    var a1, a2 := minDuty * maxDegrees + span * d1, minDuty * maxDegrees + span * d2;
    assert a1 <= a2 by {
      MulLe(d1, d2, span);
    }
    TruncDivMono(a1, a2, maxDegrees);
  }

  /** Within range the duty is the exact interpolation rounded down. */
  lemma ServoDutyInterpolates(minDuty: int, maxDuty: int, degrees: int, maxDegrees: int)
    requires maxDegrees > 0 && 0 <= minDuty <= maxDuty && 0 <= degrees <= maxDegrees
    ensures var duty := ServoDuty(minDuty, maxDuty, degrees, maxDegrees);
      maxDegrees * duty <= minDuty * maxDegrees + (maxDuty - minDuty) * degrees < maxDegrees * (duty + 1)
  {
    var a := minDuty * maxDegrees + (maxDuty - minDuty) * degrees;
    InterpolationInRange(minDuty, maxDuty, degrees, maxDegrees);
    assert ServoDuty(minDuty, maxDuty, degrees, maxDegrees) == TruncDiv(a, maxDegrees);
    TruncDivBounds(a, maxDegrees);
  }

  /** Within range the interpolated quotient needs no clamping. */
  lemma InterpolationInRange(minDuty: int, maxDuty: int, degrees: int, maxDegrees: int)
    requires maxDegrees > 0 && minDuty <= maxDuty && 0 <= degrees <= maxDegrees
    ensures minDuty <= TruncDiv(minDuty * maxDegrees + (maxDuty - minDuty) * degrees, maxDegrees) <= maxDuty
  {
    var span := maxDuty - minDuty;
    var lo, hi := minDuty * maxDegrees, maxDuty * maxDegrees;
    var a := lo + span * degrees;
    NumeratorInRange(minDuty, maxDuty, degrees, maxDegrees);
    TruncDivMul(minDuty, maxDegrees);
    TruncDivMul(maxDuty, maxDegrees);
    TruncDivMono(lo, a, maxDegrees);
    TruncDivMono(a, hi, maxDegrees);
  }

  lemma NumeratorInRange(minDuty: int, maxDuty: int, degrees: int, maxDegrees: int)
    requires minDuty <= maxDuty && 0 <= degrees <= maxDegrees
    ensures minDuty * maxDegrees <= minDuty * maxDegrees + (maxDuty - minDuty) * degrees <= maxDuty * maxDegrees
  {
    var span := maxDuty - minDuty;
    MulLe(0, degrees, span);
    MulLe(degrees, maxDegrees, span);
    assert maxDuty * maxDegrees == minDuty * maxDegrees + span * maxDegrees;
  }

  /** The position `position` stores: below 2 degrees a 270-degree servo
      is sent to 2. */
  function ServoTarget(degrees: int, maxDegrees: int): (d: int)
    ensures maxDegrees == 270 && degrees < 2 ==> d == 2
    ensures !(maxDegrees == 270 && degrees < 2) ==> d == degrees
  {
    if degrees < 2 && maxDegrees == 270 then 2 else degrees
  }

  /** `rotate` stops before `newPos` once it lies past `limit` in the
      direction of travel. */
  predicate Crosses(newPos: int, change: int, limit: int)
  {
    (change <= 0 && newPos < limit) || (change > 0 && newPos > limit)
  }

  /** The limit `rotate` uses: the given one, else 0 going down and
      `maxDegrees` going up. */
  function RotateLimit(limit: Option<int>, change: int, maxDegrees: int): (r: int)
    ensures limit.Some? ==> r == limit.value
    ensures limit.None? ==> r == if change <= 0 then 0 else maxDegrees
  {
    if limit.Some? then limit.value else if change <= 0 then 0 else maxDegrees
  }

  /** A rotation ends: it moves, or it stops at once. */
  predicate RotateEnds(pos: int, change: int, limit: int)
  {
    change != 0 || Crosses(pos + change, change, limit)
  }

  /** The positions `rotate` passes through from `pos`, in order. */
  function RotatePath(pos: int, change: int, limit: int): (p: seq<int>)
    requires RotateEnds(pos, change, limit)
    ensures p != [] ==> p[0] == pos + change
    decreases if change > 0 then limit - pos else pos - limit
  {
    if Crosses(pos + change, change, limit) then []
    else [pos + change] + RotatePath(pos + change, change, limit)
  }

  /** Where `rotate` leaves the servo: the last position before the limit
      would be crossed. */
  function RotateEnd(pos: int, change: int, limit: int): (r: int)
    requires RotateEnds(pos, change, limit)
    ensures Crosses(r + change, change, limit)
    ensures r == pos || !Crosses(r, change, limit)
    decreases if change > 0 then limit - pos else pos - limit
  {
    if Crosses(pos + change, change, limit) then pos
    else RotateEnd(pos + change, change, limit)
  }

  /** The rotation ends at the last position of its path, or where it
      started when the path is empty. */
  lemma {:induction false} RotateEndIsLast(pos: int, change: int, limit: int)
    requires RotateEnds(pos, change, limit)
    decreases if change > 0 then limit - pos else pos - limit
    ensures var p := RotatePath(pos, change, limit);
      RotateEnd(pos, change, limit) == if p == [] then pos else p[|p| - 1]
  {
    if !Crosses(pos + change, change, limit) {
      var q := RotatePath(pos + change, change, limit);
      RotateEndIsLast(pos + change, change, limit);
      RotateStep(pos, change, limit);
      var p := [pos + change] + q;
      assert p[|p| - 1] == if q == [] then pos + change else q[|q| - 1];
    }
  }

  /** One move of the rotation, and the rotation that follows it. */
  lemma RotateStep(pos: int, change: int, limit: int)
    requires RotateEnds(pos, change, limit) && !Crosses(pos + change, change, limit)
    ensures RotateEnds(pos + change, change, limit)
    ensures RotatePath(pos, change, limit) == [pos + change] + RotatePath(pos + change, change, limit)
    ensures RotateEnd(pos, change, limit) == RotateEnd(pos + change, change, limit)
  {}

  /** The path goes in steps of `change`, never past the limit, and stops
      where the next step would cross it. */
  lemma {:induction false} RotatePathSpec(pos: int, change: int, limit: int, k: nat)
    requires RotateEnds(pos, change, limit)
    decreases if change > 0 then limit - pos else pos - limit
    ensures var p := RotatePath(pos, change, limit);
      && (k < |p| ==> p[k] == (if k == 0 then pos else p[k - 1]) + change && !Crosses(p[k], change, limit))
      && (k == |p| ==> Crosses((if k == 0 then pos else p[k - 1]) + change, change, limit))
  {
    var p := RotatePath(pos, change, limit);
    if !Crosses(pos + change, change, limit) && k > 0 {
      RotatePathSpec(pos + change, change, limit, k - 1);
      var q := RotatePath(pos + change, change, limit);
      assert p == [pos + change] + q;
      if k >= 2 && k <= |p| {
        assert p[k - 1] == q[k - 2];
      }
    }
  }

  /** The duty writes made along a path. */
  function PathWrites(index: int, minDuty: int, maxDuty: int, path: seq<int>, maxDegrees: int): (ops: seq<Op>)
    requires maxDegrees != 0
    ensures |ops| == |path|
  {
    if path == [] then []
    else [Duty(index, ServoDuty(minDuty, maxDuty, path[0], maxDegrees))]
         + PathWrites(index, minDuty, maxDuty, path[1..], maxDegrees)
  }

  /** One write per position of the path, each the duty of that position. */
  lemma {:induction false} PathWritesSpec(index: int, minDuty: int, maxDuty: int, path: seq<int>, maxDegrees: int)
    requires maxDegrees != 0
    ensures var ops := PathWrites(index, minDuty, maxDuty, path, maxDegrees);
      && |ops| == |path|
      && forall j :: 0 <= j < |path| ==> ops[j] == Duty(index, ServoDuty(minDuty, maxDuty, path[j], maxDegrees))
  {
    if path != [] {
      PathWritesSpec(index, minDuty, maxDuty, path[1..], maxDegrees);
    }
  }

  /** Eight servos on expander channels 0..7. */
  class Servos {
    const chip: Chip
    const freq: int
    const minDuty: int
    const maxDuty: int
    const defaultDegrees: int
    /** The last position set for each servo. */
    var pos: seq<int>

    ghost predicate Valid()
      reads this
    {
      |pos| == 8
    }

    constructor (chip: Chip, freq: int, minDuty: int, maxDuty: int, defaultDegrees: int)
      modifies chip
      ensures Valid() && this.chip == chip && this.freq == freq
      ensures this.minDuty == minDuty && this.maxDuty == maxDuty && this.defaultDegrees == defaultDegrees
      ensures pos == [90, 90, 90, 90, 90, 90, 90, 90]
      ensures chip.ops == old(chip.ops) + [SetFreq(freq)]
    {
      this.chip := chip;
      this.freq := freq;
      this.minDuty, this.maxDuty := minDuty, maxDuty;
      this.defaultDegrees := defaultDegrees;
      var p := [];
      for i := 0 to 8
        invariant |p| == i && forall j :: 0 <= j < i ==> p[j] == 90
      {
        p := p + [90];
      }
      pos := p;
      new;
      chip.Freq(freq);
    }

    /** Move servo `index` to `degrees` (`None` reads the position back).
        An index outside 0..7 or degrees outside [0, maxDegrees] are
        ignored; a zero `maxDegrees` raises ZeroDivisionError. */
    method Position(index: int, degrees: Option<int>, maxDegrees: int) returns (r: Reply)
      requires Valid()
      modifies this`pos, chip
      ensures Valid()
      ensures !(0 <= index <= 7) ==> r == NoValue && pos == old(pos) && chip.ops == old(chip.ops)
      ensures 0 <= index <= 7 && degrees.None? ==>
        r == Value(old(pos)[index]) && pos == old(pos) && chip.ops == old(chip.ops)
      ensures 0 <= index <= 7 && degrees.Some? && !(0 <= degrees.value <= maxDegrees) ==>
        r == NoValue && pos == old(pos) && chip.ops == old(chip.ops)
      ensures 0 <= index <= 7 && degrees.Some? && 0 <= degrees.value <= maxDegrees && maxDegrees == 0 ==>
        r == DivByZero && pos == old(pos) && chip.ops == old(chip.ops)
      ensures 0 <= index <= 7 && degrees.Some? && 0 <= degrees.value <= maxDegrees && maxDegrees != 0 ==>
        var d := ServoTarget(degrees.value, maxDegrees);
        && r == NoValue
        && pos == old(pos)[index := d]
        && chip.ops == old(chip.ops) + [Duty(index, ServoDuty(minDuty, maxDuty, d, maxDegrees))]
    {
      if index < 0 || index > 7 {
        return NoValue;
      }
      if degrees.None? {
        return Value(pos[index]);
      }
      var d := degrees.value;
      if d < 0 || d > maxDegrees {
        return NoValue;
      }
      if d < 2 && maxDegrees == 270 {
        d := 2;
      }
      if maxDegrees == 0 {
        return DivByZero;
      }
      MoveTo(index, d, maxDegrees);
      r := NoValue;
    }

    /** Drive servo `index` to `degrees` and remember the position. */
    method MoveTo(index: int, degrees: int, maxDegrees: int)
      requires Valid() && 0 <= index <= 7 && maxDegrees != 0
      modifies this`pos, chip
      ensures Valid()
      ensures pos == old(pos)[index := degrees]
      ensures chip.ops == old(chip.ops) + [Duty(index, ServoDuty(minDuty, maxDuty, degrees, maxDegrees))]
    {
      var span := maxDuty - minDuty;
      var duty := TruncDiv(minDuty * maxDegrees + span * degrees, maxDegrees);
      duty := Min(maxDuty, Max(minDuty, duty));
      chip.SetDuty(index, duty);
      pos := pos[index := degrees];
    }

    /** Step servo `index` by `change` until the next position would pass
        `limit` (by default 0 going down, `maxDegrees` going up), writing
        the duty of every position reached. */
    method Rotate(index: int, change: int, limit: Option<int>, maxDegrees: int) returns (r: Reply)
      requires Valid()
      requires 0 <= index <= 7 && maxDegrees != 0 ==> RotateEnds(pos[index], change, RotateLimit(limit, change, maxDegrees))
      modifies this`pos, chip
      ensures Valid()
      ensures !(0 <= index <= 7) ==> r == NoValue && pos == old(pos) && chip.ops == old(chip.ops)
      ensures 0 <= index <= 7 && maxDegrees == 0 ==>
        && r == (if Crosses(old(pos)[index] + change, change, RotateLimit(limit, change, maxDegrees)) then NoValue else DivByZero)
        && pos == old(pos) && chip.ops == old(chip.ops)
      ensures 0 <= index <= 7 && maxDegrees != 0 ==>
        var path := RotatePath(old(pos)[index], change, RotateLimit(limit, change, maxDegrees));
        && r == NoValue
        && pos == old(pos)[index := RotateEnd(old(pos)[index], change, RotateLimit(limit, change, maxDegrees))]
        && chip.ops == old(chip.ops) + PathWrites(index, minDuty, maxDuty, path, maxDegrees)
    {
      if index < 0 || index > 7 {
        return NoValue;
      }
      var lim := RotateLimit(limit, change, maxDegrees);
      if maxDegrees == 0 {
        // The first pass of the loop: it stops, or it divides by zero.
        if Crosses(pos[index] + change, change, lim) {
          return NoValue;
        }
        return DivByZero;
      }
      Turn(index, change, lim, maxDegrees);
      r := NoValue;
    }

    /** The loop of `rotate`: move by `change` and write the duty until the
        next position would pass `lim`. */
    method Turn(index: int, change: int, lim: int, maxDegrees: int)
      requires Valid() && 0 <= index <= 7 && maxDegrees != 0
      requires RotateEnds(pos[index], change, lim)
      modifies this`pos, chip
      ensures Valid()
      ensures pos == old(pos)[index := RotateEnd(old(pos)[index], change, lim)]
      ensures chip.ops == old(chip.ops) + PathWrites(index, minDuty, maxDuty, RotatePath(old(pos)[index], change, lim), maxDegrees)
    {
      ghost var p := pos[index];
      ghost var full := RotatePath(p, change, lim);
      ghost var end := RotateEnd(p, change, lim);
      ghost var done: seq<int> := [];
      while true
        invariant Valid()
        invariant pos == old(pos)[index := p]
        invariant RotateEnds(p, change, lim) && RotateEnd(p, change, lim) == end
        invariant done + RotatePath(p, change, lim) == full
        invariant chip.ops == old(chip.ops) + PathWrites(index, minDuty, maxDuty, done, maxDegrees)
        decreases if change > 0 then lim - p else p - lim
      {
        var newPos := pos[index] + change;
        if (change <= 0 && newPos < lim) || (change > 0 && newPos > lim) {
          assert RotatePath(p, change, lim) == [];
          assert done == full;
          return;
        }
        ghost var rest := RotatePath(newPos, change, lim);
        RotateStep(p, change, lim);
        Concat2(done, [newPos], rest);
        PathWritesAppend(index, minDuty, maxDuty, done, newPos, maxDegrees);
        Concat2(old(chip.ops), PathWrites(index, minDuty, maxDuty, done, maxDegrees),
                [Duty(index, ServoDuty(minDuty, maxDuty, newPos, maxDegrees))]);
        MoveTo(index, newPos, maxDegrees);
        done, p := done + [newPos], newPos;
      }
    }

    /** Turn the servo's output off (duty 0). */
    method Release(index: int)
      modifies chip
      ensures chip.ops == old(chip.ops) + [Duty(index, 0)]
    {
      chip.SetDuty(index, 0);
    }
  }

  lemma {:induction false} PathWritesAppend(index: int, minDuty: int, maxDuty: int, path: seq<int>, p: int, maxDegrees: int)
    requires maxDegrees != 0
    ensures PathWrites(index, minDuty, maxDuty, path + [p], maxDegrees)
         == PathWrites(index, minDuty, maxDuty, path, maxDegrees) + [Duty(index, ServoDuty(minDuty, maxDuty, p, maxDegrees))]
  {
    if path != [] {
      assert (path + [p])[1..] == path[1..] + [p];
      PathWritesAppend(index, minDuty, maxDuty, path[1..], p, maxDegrees);
    } else {
      assert path + [p] == [p];
    }
  }
}
