/** stepper1.py: a stepper on four fixed expander channels, driven by a
    fixed four-vector forward sequence and its reverse. */
module Stepper1 {
  import opened Sequences
  import opened Pca9685

  /** The channels of coils A1, A2, B1 and B2. */
  const PA1: int := 11
  const PA2: int := 10
  const PB1: int := 8
  const PB2: int := 9
  const Pins: seq<int> := [PA1, PA2, PB1, PB2]

  /** The expander channels of the two stepper outputs. */
  const Outputs: seq<seq<int>> := [[11, 10, 8, 9], [12, 13, 15, 14]]

  /** The vectors `forwardStep` and `backwardStep` put on the coils. */
  const Forward: seq<seq<int>> := [[1, 0, 1, 0], [0, 1, 1, 0], [0, 1, 0, 1], [1, 0, 0, 1]]
  const Backward: seq<seq<int>> := [[1, 0, 0, 1], [0, 1, 0, 1], [0, 1, 1, 0], [1, 0, 1, 0]]

  /** The backward sequence is the forward one reversed. */
  lemma BackwardIsReversed()
    ensures Rows4(Forward) && Rows4(Backward) && Pins == Outputs[0]
    ensures Backward == Reverse(Forward)
  {
    var r := Reverse(Forward);
    forall k | 0 <= k < 4
      ensures r[k] == Backward[k]
    {
      ReverseAt(Forward, k);
    }
  }

  /** A four-row table is written row after row. */
  lemma FourRows(rows: seq<seq<int>>)
    requires |rows| == 4 && Rows4(rows)
    ensures RowsWrites(Pins, rows) ==
      VectorWrites(Pins, rows[0]) + VectorWrites(Pins, rows[1]) + VectorWrites(Pins, rows[2]) + VectorWrites(Pins, rows[3])
  {
    var v0, v1 := VectorWrites(Pins, rows[0]), VectorWrites(Pins, rows[1]);
    var v2, v3 := VectorWrites(Pins, rows[2]), VectorWrites(Pins, rows[3]);
    assert rows[..1][..0] == [] && rows[..1][0] == rows[0];
    assert RowsWrites(Pins, rows[..1]) == v0;
    assert rows[..2][..1] == rows[..1] && rows[..2][1] == rows[1];
    assert RowsWrites(Pins, rows[..2]) == v0 + v1;
    assert rows[..3][..2] == rows[..2] && rows[..3][2] == rows[2];
    assert RowsWrites(Pins, rows[..3]) == v0 + v1 + v2;
    assert RowsWrites(Pins, rows) == v0 + v1 + v2 + v3;
  }

  class Stepper {
    const chip: Chip

    constructor (chip: Chip)
      modifies chip
      ensures this.chip == chip
      ensures chip.ops == old(chip.ops) + [SetFreq(50)] + ResetWrites(Pins)
    {
      this.chip := chip;
      new;
      chip.Freq(50);
      Reset();
    }

    /** `_pin`: level 1 is fully on, anything else off. */
    method Pin(pin: int, value: int)
      modifies chip
      ensures chip.ops == old(chip.ops) + [PinWrite(pin, value)]
    {
      if value == 1 {
        chip.SetPwm(pin, 4096, 0);
      } else {
        chip.SetPwm(pin, 0, 0);
      }
    }

    /** Put one vector on the coils (then settle; the pause is not
        modelled). */
    method SetStepper(in1: int, in2: int, in3: int, in4: int)
      modifies chip
      ensures chip.ops == old(chip.ops) + VectorWrites(Pins, [in1, in2, in3, in4])
    {
      Pin(PA1, in1);
      Pin(PA2, in2);
      Pin(PB1, in3);
      Pin(PB2, in4);
    }

    method ForwardStep()
      modifies chip
      ensures chip.ops == old(chip.ops) + RowsWrites(Pins, Forward)
    {
      SetStepper(1, 0, 1, 0);
      SetStepper(0, 1, 1, 0);
      SetStepper(0, 1, 0, 1);
      SetStepper(1, 0, 0, 1);
      FourRows(Forward);
    }

    method BackwardStep()
      modifies chip
      ensures chip.ops == old(chip.ops) + RowsWrites(Pins, Backward)
    {
      SetStepper(1, 0, 0, 1);
      SetStepper(0, 1, 0, 1);
      SetStepper(0, 1, 1, 0);
      SetStepper(1, 0, 1, 0);
      FourRows(Backward);
    }

    /** All four coils off. */
    method Reset()
      modifies chip
      ensures chip.ops == old(chip.ops) + ResetWrites(Pins)
    {
      Pin(PA1, 0);
      Pin(PA2, 0);
      Pin(PB1, 0);
      Pin(PB2, 0);
    }

    /** 256 forward sequences, then 256 backward ones (the progress
        messages are not modelled). */
    method Test()
      modifies chip
      ensures chip.ops == old(chip.ops) + TestWrites()
    {
      for i := 0 to 256
        invariant chip.ops == old(chip.ops) + Repeat(RowsWrites(Pins, Forward), i)
      {
        ForwardStep();
      }
      ghost var mid := chip.ops;
      for i := 0 to 256
        invariant chip.ops == mid + Repeat(RowsWrites(Pins, Backward), i)
      {
        Concat2(mid, Repeat(RowsWrites(Pins, Backward), i), RowsWrites(Pins, Backward));
        BackwardStep();
      }
      Concat2(old(chip.ops), Repeat(RowsWrites(Pins, Forward), 256), Repeat(RowsWrites(Pins, Backward), 256));
    }
  }

  /** What `test` writes. */
  function TestWrites(): seq<Op>
  {
    Repeat(RowsWrites(Pins, Forward), 256) + Repeat(RowsWrites(Pins, Backward), 256)
  }

  /** `test` puts 2048 vectors on the coils, 4 writes each: vector v is
      forward vector v mod 4 for the first 1024, backward vector v mod 4
      after. */
  lemma TestVectors(v: nat)
    requires v < 2048
    ensures |TestWrites()| == 4 * 2048
    ensures TestWrites()[4 * v .. 4 * v + 4] ==
      VectorWrites(Pins, if v < 1024 then Forward[v % 4] else Backward[v % 4])
  {
    var f, b := RowsWrites(Pins, Forward), RowsWrites(Pins, Backward);
    var fs, bs := Repeat(f, 256), Repeat(b, 256);
    RepeatLength(f, 256);
    RepeatLength(b, 256);
    assert |fs| == 4096 && |bs| == 4096;
    var k := v % 4;
    if v < 1024 {
      var j := v / 4;
      assert j * |f| + 4 * k == 4 * v;
      RepeatSlice(f, 256, j, 4 * k, 4 * k + 4);
      RowsWritesAt(Pins, Forward, k);
      AppendSlice(fs, bs, 4 * v, 4 * v + 4);
    } else {
      var u := v - 1024;
      var j := u / 4;
      assert u % 4 == k;
      assert j * |b| + 4 * k == 4 * u;
      RepeatSlice(b, 256, j, 4 * k, 4 * k + 4);
      RowsWritesAt(Pins, Backward, k);
      PrependSlice(fs, bs, 4 * u, 4 * u + 4);
      assert 4 * v == |fs| + 4 * u;
    }
  }


}
