/** The 16-channel PWM expander every driver writes to. The chip itself is
    foreign code; the model keeps only the commands sent to it, in order. */
module Pca9685 {

  /** One command sent to the expander: `freq(hz)`, `pwm(channel, on, off)`
      or `duty(channel, value)`. */
  datatype Op = SetFreq(hz: int) | Pwm(channel: int, on: int, off: int) | Duty(channel: int, value: int)

  /** The `on` count that the expander reads as "fully on". */
  const FullOn: int := 4096

  /** The `_pin` rule shared by the three stepper drivers: level 1 turns the
      channel fully on, every other value turns it off. */
  function PinWrite(pin: int, value: int): (op: Op)
    ensures op.Pwm? && op.channel == pin && op.off == 0
    ensures op.on == FullOn <==> value == 1
    ensures op.on == 0 <==> value != 1
  {
    if value == 1 then Pwm(pin, FullOn, 0) else Pwm(pin, 0, 0)
  }

  /** The four `_pin` writes that put the first four entries of `v` on `pins`. */
  function VectorWrites(pins: seq<int>, v: seq<int>): (ops: seq<Op>)
    requires |pins| == 4 && |v| >= 4
    ensures |ops| == 4
    ensures forall j :: 0 <= j < 4 ==> ops[j] == PinWrite(pins[j], v[j])
  {
    [PinWrite(pins[0], v[0]), PinWrite(pins[1], v[1]), PinWrite(pins[2], v[2]), PinWrite(pins[3], v[3])]
  }

  /** Every row of the table is wide enough to drive four pins. */
  ghost predicate Rows4(rows: seq<seq<int>>)
  {
    forall i :: 0 <= i < |rows| ==> |rows[i]| >= 4
  }

  /** The writes that put the rows of `rows` on `pins`, one row after another. */
  function RowsWrites(pins: seq<int>, rows: seq<seq<int>>): (ops: seq<Op>)
    requires |pins| == 4 && Rows4(rows)
    ensures |ops| == 4 * |rows|
  {
    if rows == [] then []
    else RowsWrites(pins, rows[..|rows| - 1]) + VectorWrites(pins, rows[|rows| - 1])
  }

  /** Row k of the table is written by the four commands at 4k .. 4k+3. */
  lemma {:induction false} RowsWritesAt(pins: seq<int>, rows: seq<seq<int>>, k: nat)
    requires |pins| == 4 && Rows4(rows) && k < |rows|
    ensures RowsWrites(pins, rows)[4 * k .. 4 * k + 4] == VectorWrites(pins, rows[k])
  {
    var init := rows[..|rows| - 1];
    if k < |rows| - 1 {
      RowsWritesAt(pins, init, k);
      assert init[k] == rows[k];
    }
  }

  /** All four pins turned off: the `reset` of the table steppers. */
  function ResetWrites(pins: seq<int>): (ops: seq<Op>)
    requires |pins| == 4
    ensures |ops| == 4
    ensures forall j :: 0 <= j < 4 ==> ops[j] == Pwm(pins[j], 0, 0)
  {
    VectorWrites(pins, [0, 0, 0, 0])
  }

  /** Stand-in for the expander object: a log of what it was told, in order.
      Several drivers may share one chip. */
  class Chip {
    var ops: seq<Op>

    constructor ()
      ensures ops == []
    {
      ops := [];
    }

    method Freq(hz: int)
      modifies this
      ensures ops == old(ops) + [SetFreq(hz)]
    {
      ops := ops + [SetFreq(hz)];
    }

    method SetPwm(channel: int, on: int, off: int)
      modifies this
      ensures ops == old(ops) + [Pwm(channel, on, off)]
    {
      ops := ops + [Pwm(channel, on, off)];
    }

    method SetDuty(channel: int, value: int)
      modifies this
      ensures ops == old(ops) + [Duty(channel, value)]
    {
      ops := ops + [Duty(channel, value)];
    }
  }
}
