/** stepper.py: a unipolar stepper driven through four expander channels by
    a table of coil vectors, and a driver that interleaves single steps of
    several steppers. */
module Stepper {
  import opened Sequences
  import opened Pca9685
  import opened Arith
  import opened StepRules

  /** Steps per turn: `int(4075.7728395061727 / 8)`. */
  const FullRotation: int := 509

  lemma FullRotationTruncates()
    ensures FullRotation as real <= 4075.7728395061727 / 8.0 < (FullRotation + 1) as real
  {}

  /** Coil vectors of the half-step and full-step sequences. */
  const HalfStep: seq<seq<int>> := [
    [0, 0, 0, 1], [0, 0, 1, 1], [0, 0, 1, 0], [0, 1, 1, 0],
    [0, 1, 0, 0], [1, 1, 0, 0], [1, 0, 0, 0], [1, 0, 0, 1]]
  const FullStep: seq<seq<int>> := [[1, 0, 1, 0], [0, 1, 1, 0], [0, 1, 0, 1], [1, 0, 0, 1]]

  /** The expander channels of the two stepper outputs; the driver uses the
      first. */
  const Outputs: seq<seq<int>> := [[11, 10, 8, 9], [12, 13, 15, 14]]
  const Pins: seq<int> := [11, 10, 8, 9]

  lemma TablesAreRows()
    ensures Rows4(HalfStep) && Rows4(FullStep) && Pins == Outputs[0]
    ensures forall i :: 0 <= i < |HalfStep| ==> |HalfStep[i]| == 4
    ensures forall i :: 0 <= i < |FullStep| ==> |FullStep[i]| == 4
  {}

  // ---------------------------------------------------------------------
  // Python's extended slice s[::k]
  // ---------------------------------------------------------------------

  /** `s[::k]` for a non-zero step: every k-th element from the front when k
      is positive, from the back when it is negative. */
  function Stride<T>(s: seq<T>, k: int): seq<T>
    requires k != 0
    decreases |s|
  {
    if s == [] then []
    else if k > 0 then [s[0]] + (if k < |s| then Stride(s[k..], k) else [])
    else [s[|s| - 1]] + (if -k < |s| then Stride(s[..|s| + k], k) else [])
  }

  /** `s[::1]` is `s`. */
  lemma {:induction false} StrideForward<T>(s: seq<T>)
    ensures Stride(s, 1) == s
  {
    if s != [] {
      StrideForward(s[1..]);
    }
  }

  /** `s[::-1]` is `s` reversed. */
  lemma StrideBackward<T>(s: seq<T>)
    ensures Stride(s, -1) == Reverse(s)
  {
    StrideBackwardLength(s);
    forall k | 0 <= k < |s|
      ensures Stride(s, -1)[k] == Reverse(s)[k]
    {
      StrideBackwardAt(s, k);
      ReverseAt(s, k);
    }
  }

  lemma {:induction false} StrideBackwardLength<T>(s: seq<T>)
    ensures |Stride(s, -1)| == |s|
  {
    if s != [] {
      StrideBackwardLength(s[..|s| - 1]);
    }
  }

  lemma {:induction false} StrideBackwardAt<T>(s: seq<T>, k: nat)
    requires k < |s|
    ensures |Stride(s, -1)| == |s| && Stride(s, -1)[k] == s[|s| - 1 - k]
  {
    StrideBackwardLength(s);
    if k > 0 {
      var init := s[..|s| - 1];
      StrideBackwardAt(init, k - 1);
      assert Stride(s, -1) == [s[|s| - 1]] + Stride(init, -1);
    }
  }

  /** A slice only picks elements of the sequence, and picks one as long as
      there is one. */
  lemma {:induction false} StrideMembers<T>(s: seq<T>, k: int)
    requires k != 0
    decreases |s|
    ensures forall x :: x in Stride(s, k) ==> x in s
    ensures Stride(s, k) == [] <==> s == []
  {
    if s != [] {
      if k > 0 && k < |s| {
        StrideMembers(s[k..], k);
      } else if k < 0 && -k < |s| {
        StrideMembers(s[..|s| + k], k);
      }
    }
  }

  /** `len(s[::k])` is `len(s)` divided by `|k|`, rounded up. */
  lemma {:induction false} StrideLength<T>(s: seq<T>, k: int)
    requires k != 0
    decreases |s|
    ensures |Stride(s, k)| == (|s| + Abs(k) - 1) / Abs(k)
  {
    var m := Abs(k);
    if s == [] {
      DivModUnique(m - 1, m, 0, m - 1);
    } else if m < |s| {
      var rest := if k > 0 then s[k..] else s[..|s| + k];
      StrideLength(rest, k);
      assert |Stride(s, k)| == 1 + |Stride(rest, k)|;
      CeilDivStep(|s| - m, m);
    } else {
      DivModUnique(|s| + m - 1, m, 1, |s| - 1);
    }
  }

  /** Rounding up after adding one more divisor adds one. */
  lemma CeilDivStep(a: nat, m: int)
    requires m > 0
    ensures (a + m + m - 1) / m == (a + m - 1) / m + 1
  {
    DivModUnique(a + m + m - 1, m, (a + m - 1) / m + 1, (a + m - 1) % m);
  }

  /** Any slice of a table of rows is a table of rows. */
  lemma StrideRows(rows: seq<seq<int>>, k: int)
    requires k != 0 && Rows4(rows)
    ensures Rows4(Stride(rows, k))
  {
    StrideMembers(rows, k);
    forall i | 0 <= i < |Stride(rows, k)|
      ensures |Stride(rows, k)[i]| >= 4
    {
      assert Stride(rows, k)[i] in rows;
    }
  }

  // ---------------------------------------------------------------------
  // The stepper
  // ---------------------------------------------------------------------

  class Stepper {
    const chip: Chip
    /** The table of coil vectors, one row per vector. */
    const mode: seq<seq<int>>
    /** Pause after each vector, in ms (not modelled). */
    const delay: int
    /** pin1 .. pin4. */
    const pins: seq<int>

    ghost predicate Valid()
    {
      |pins| == 4 && Rows4(mode)
    }

    /** What `step(count, direction)` writes when it does not fail: `count`
        passes over the table sliced by `direction`, then the reset. */
    ghost function StepWrites(count: int, direction: int): seq<Op>
      requires Valid() && (direction != 0 || count <= 0)
    {
      if count <= 0 then ResetWrites(pins)
      else
        StrideRows(mode, direction);
        Repeat(RowsWrites(pins, Stride(mode, direction)), count) + ResetWrites(pins)
    }

    constructor (chip: Chip, mode: seq<seq<int>>, delay: int)
      requires Rows4(mode)
      modifies chip
      ensures Valid() && this.chip == chip && this.mode == mode && this.delay == delay
      ensures pins == Pins
      ensures chip.ops == old(chip.ops) + [SetFreq(50)] + ResetWrites(Pins)
    {
      this.chip := chip;
      this.mode := mode;
      this.delay := delay;
      pins := [11, 10, 8, 9];
      new;
      chip.Freq(50);
      Reset();
    }

    /** `_pin`: level 1 is fully on, anything else off. */
    method Pin(pin: int, value: int)
      modifies chip
      ensures chip.ops == old(chip.ops) + [PinWrite(pin, value)]
    {
      if value == 1 {
        chip.SetPwm(pin, 4096, 0);
      } else {
        chip.SetPwm(pin, 0, 0);
      }
    }

    /** Put one coil vector on the four pins. */
    method Vector(bit: seq<int>)
      requires Valid() && |bit| >= 4
      modifies chip
      ensures chip.ops == old(chip.ops) + VectorWrites(pins, bit)
    {
      Pin(pins[0], bit[0]);
      Pin(pins[1], bit[1]);
      Pin(pins[2], bit[2]);
      Pin(pins[3], bit[3]);
    }

    /** Rotate `count` passes over the table, read in the order of
        `mode[::direction]`, then release the coils. A zero direction makes
        the slice fail (ValueError) before anything is written; the result
        is false then. */
    method Step(count: int, direction: int) returns (ok: bool)
      requires Valid()
      modifies chip
      ensures ok <==> !(direction == 0 && count >= 1)
      ensures !ok ==> chip.ops == old(chip.ops)
      ensures ok ==> chip.ops == old(chip.ops) + StepWrites(count, direction)
    {
      var x := 0;
      ghost var pass: seq<Op> := [];
      if direction != 0 {
        StrideRows(mode, direction);
        pass := RowsWrites(pins, Stride(mode, direction));
      }
      assert Repeat(pass, 0) == [];
      while x < count
        invariant x == 0 || 0 < x <= count
        invariant direction == 0 ==> x == 0 && chip.ops == old(chip.ops)
        invariant direction != 0 ==> chip.ops == old(chip.ops) + Repeat(pass, x)
      {
        if direction == 0 {
          return false;
        }
        Sweep(Stride(mode, direction));
        x := x + 1;
      }
      if count > 0 {
        Concat2(old(chip.ops), Repeat(pass, count), ResetWrites(pins));
      }
      Reset();
      ok := true;
    }

    /** One pass: the rows put on the pins one after another. */
    method Sweep(rows: seq<seq<int>>)
      requires Valid() && Rows4(rows)
      modifies chip
      ensures chip.ops == old(chip.ops) + RowsWrites(pins, rows)
    {
      for j := 0 to |rows|
        invariant chip.ops == old(chip.ops) + RowsWrites(pins, rows[..j])
      {
        assert rows[..j + 1][..j] == rows[..j];
        Vector(rows[j]);
      }
      assert rows[..|rows|] == rows;
    }

    /** All four coils off. */
    method Reset()
      requires |pins| == 4
      modifies chip
      ensures chip.ops == old(chip.ops) + ResetWrites(pins)
    {
      Pin(pins[0], 0);
      Pin(pins[1], 0);
      Pin(pins[2], 0);
      Pin(pins[3], 0);
    }
  }

  /** Whatever the direction, a step writes `count` passes over the sliced
      table, 4 writes per vector of the slice, and ends with the reset;
      with no steps it writes only the reset. */
  lemma StepWritesShape(s: Stepper, count: int, direction: int)
    requires s.Valid() && (direction != 0 || count <= 0)
    ensures count <= 0 ==> s.StepWrites(count, direction) == ResetWrites(s.pins)
    ensures count > 0 ==> Rows4(Stride(s.mode, direction))
    ensures count > 0 ==>
      s.StepWrites(count, direction) == Repeat(RowsWrites(s.pins, Stride(s.mode, direction)), count) + ResetWrites(s.pins)
    ensures count > 0 ==> |s.StepWrites(count, direction)| == count * (4 * |Stride(s.mode, direction)|) + 4
    ensures var w := s.StepWrites(count, direction);
      |w| >= 4 && w[|w| - 4..] == ResetWrites(s.pins)
  {
    var w := s.StepWrites(count, direction);
    if count > 0 {
      StrideRows(s.mode, direction);
      var pass := RowsWrites(s.pins, Stride(s.mode, direction));
      RepeatLength(pass, count);
      assert w == Repeat(pass, count) + ResetWrites(s.pins);
      assert w[|w| - 4..] == ResetWrites(s.pins);
    }
  }

  /** Stepping forward writes `count` passes over the table in order: 4
      writes per vector, then the reset. */
  lemma StepForward(s: Stepper, count: nat)
    requires s.Valid()
    ensures s.StepWrites(count, 1) == Repeat(RowsWrites(s.pins, s.mode), count) + ResetWrites(s.pins)
    ensures |s.StepWrites(count, 1)| == count * (4 * |s.mode|) + 4
  {
    StrideForward(s.mode);
    RepeatLength(RowsWrites(s.pins, s.mode), count);
  }

  /** Stepping backward writes each pass in reversed table order. */
  lemma StepBackward(s: Stepper, count: nat)
    requires s.Valid()
    ensures Rows4(Reverse(s.mode))
    ensures s.StepWrites(count, -1) == Repeat(RowsWrites(s.pins, Reverse(s.mode)), count) + ResetWrites(s.pins)
  {
    StrideBackward(s.mode);
    StrideRows(s.mode, -1);
  }

  /** Vector k of pass j of a forward step is row k of the table. */
  lemma StepForwardVector(s: Stepper, count: nat, j: nat, k: nat)
    requires s.Valid() && j < count && k < |s.mode|
    ensures var at := j * (4 * |s.mode|) + 4 * k;
      at + 4 <= |s.StepWrites(count, 1)| && s.StepWrites(count, 1)[at .. at + 4] == VectorWrites(s.pins, s.mode[k])
  {
    var pass := RowsWrites(s.pins, s.mode);
    var w := Repeat(pass, count);
    StrideForward(s.mode);
    assert s.StepWrites(count, 1) == w + ResetWrites(s.pins);
    RowsWritesAt(s.pins, s.mode, k);
    RepeatSlice(pass, count, j, 4 * k, 4 * k + 4);
    var base := j * |pass|;
    assert base == j * (4 * |s.mode|);
    assert base >= 0 by {
      MulLe(0, j, |pass|);
    }
    AppendSlice(w, ResetWrites(s.pins), base + 4 * k, base + 4 * k + 4);
  }


  // ---------------------------------------------------------------------
  // Commands and the interleaving driver
  // ---------------------------------------------------------------------

  /** Move `stepper` `steps` steps in `direction`; the driver counts
      `steps` down. */
  class Command {
    const stepper: Stepper
    var steps: int
    const direction: int

    constructor (stepper: Stepper, steps: int, direction: int)
      ensures this.stepper == stepper && this.steps == steps && this.direction == direction
    {
      this.stepper := stepper;
      this.steps := steps;
      this.direction := direction;
    }
  }

  ghost function StepsOf(cs: seq<Command>): (r: seq<int>)
    reads cs
    ensures |r| == |cs| && forall i :: 0 <= i < |cs| ==> r[i] == cs[i].steps
  {
    seq(|cs|, i requires 0 <= i < |cs| reads cs => cs[i].steps)
  }

  ghost predicate NonNeg(s: seq<int>)
  {
    forall i :: 0 <= i < |s| ==> s[i] >= 0
  }

  /** The commands served by one pass of the driver, in list order: those
      with steps left. */
  function Pass(s: seq<int>): seq<nat>
  {
    if s == [] then []
    else Pass(s[..|s| - 1]) + (if s[|s| - 1] > 0 then [|s| - 1] else [])
  }

  /** Extending the list by one command extends its pass by that command
      when it has steps left. */
  lemma PassPrefix(s: seq<int>, i: nat)
    requires i < |s|
    ensures Pass(s[..i + 1]) == Pass(s[..i]) + (if s[i] > 0 then [i] else [])
  {
    assert s[..i + 1][..i] == s[..i];
  }

  /** The remaining steps after one pass. */
  function Dec(s: seq<int>): (r: seq<int>)
    ensures |r| == |s|
  {
    seq(|s|, i requires 0 <= i < |s| => if s[i] > 0 then s[i] - 1 else s[i])
  }

  /** The order in which the driver serves the commands: pass after pass
      until no steps are left. */
  function Interleave(s: seq<int>): seq<nat>
    requires NonNeg(s)
    decreases Sum(s)
  {
    SumZero(s);
    if Sum(s) == 0 then []
    else
      PassDecreases(s);
      Pass(s) + Interleave(Dec(s))
  }

  /** A pass serves exactly the commands with steps left, in increasing
      order. */
  lemma PassSpec(s: seq<int>)
    ensures forall i :: i in Pass(s) <==> 0 <= i < |s| && s[i] > 0
    ensures forall a, b :: 0 <= a < b < |Pass(s)| ==> Pass(s)[a] < Pass(s)[b]
    ensures |Pass(s)| <= |s|
  {
    PassMembers(s);
    PassSorted(s);
  }

  lemma {:induction false} PassMembers(s: seq<int>)
    ensures forall i :: i in Pass(s) <==> 0 <= i < |s| && s[i] > 0
    ensures |Pass(s)| <= |s|
  {
    if s != [] {
      PassMembers(s[..|s| - 1]);
    }
  }

  lemma {:induction false} PassSorted(s: seq<int>)
    ensures forall a, b :: 0 <= a < b < |Pass(s)| ==> Pass(s)[a] < Pass(s)[b]
  {
    if s != [] {
      var init := s[..|s| - 1];
      PassSorted(init);
      PassMembers(init);
      var p := Pass(init);
      assert forall a :: 0 <= a < |p| ==> p[a] in p;
      assert Pass(s) == p + (if s[|s| - 1] > 0 then [|s| - 1] else []);
    }
  }

  /** One pass takes one step from each command served. */
  lemma {:induction false} DecSum(s: seq<int>)
    ensures Sum(Dec(s)) == Sum(s) - |Pass(s)|
  {
    if s != [] {
      var init := s[..|s| - 1];
      DecSum(init);
      assert Dec(s)[..|s| - 1] == Dec(init);
    }
  }

  /** With steps left, a pass serves someone and the total goes down. */
  lemma PassDecreases(s: seq<int>)
    requires NonNeg(s) && Sum(s) != 0
    ensures NonNeg(Dec(s)) && Pass(s) != [] && 0 <= Sum(Dec(s)) < Sum(s)
  {
    SumZero(s);
    PassSpec(s);
    DecSum(s);
    var i :| 0 <= i < |s| && s[i] != 0;
    assert i in Pass(s);
    SumZero(Dec(s));
  }

  /** The driver makes one call per step: `sum(steps)` in all. */
  lemma {:induction false} InterleaveLength(s: seq<int>)
    requires NonNeg(s)
    decreases Sum(s)
    ensures |Interleave(s)| == Sum(s)
  {
    SumZero(s);
    if Sum(s) != 0 {
      PassDecreases(s);
      DecSum(s);
      InterleaveLength(Dec(s));
    }
  }

  /** Command i is served exactly `steps[i]` times. */
  lemma {:induction false} InterleaveCount(s: seq<int>, i: nat)
    requires NonNeg(s) && i < |s|
    decreases Sum(s)
    ensures multiset(Interleave(s))[i] == s[i]
  {
    SumZero(s);
    if Sum(s) == 0 {
      assert s[i] == 0;
    } else {
      PassDecreases(s);
      InterleaveCount(Dec(s), i);
      PassCount(s, i);
      assert multiset(Interleave(s)) == multiset(Pass(s)) + multiset(Interleave(Dec(s)));
    }
  }

  lemma PassCount(s: seq<int>, i: nat)
    requires i < |s|
    ensures multiset(Pass(s))[i] == if s[i] > 0 then 1 else 0
  {
    PassSpec(s);
    var p := Pass(s);
    if i in p {
      var a :| 0 <= a < |p| && p[a] == i;
      MultisetSingle(p, a);
    } else {
      assert i !in multiset(p);
    }
  }

  /** An element at one position of a strictly increasing sequence occurs
      once. */
  lemma {:induction false} MultisetSingle(p: seq<nat>, a: nat)
    requires a < |p|
    requires forall x, y :: 0 <= x < y < |p| ==> p[x] < p[y]
    ensures multiset(p)[p[a]] == 1
  {
    var init := p[..|p| - 1];
    assert p == init + [p[|p| - 1]];
    if a == |p| - 1 {
      assert p[a] !in init;
    } else {
      MultisetSingle(init, a);
      assert init[a] == p[a] < p[|p| - 1];
    }
  }

  /** What the chip receives from the calls `step(1, direction)` made in
      the order `trace`. */
  ghost function TraceWrites(cs: seq<Command>, trace: seq<nat>): seq<Op>
  {
    if trace == [] then []
    else
      var k := trace[|trace| - 1];
      TraceWrites(cs, trace[..|trace| - 1])
      + (if k < |cs| && cs[k].stepper.Valid() && cs[k].direction != 0
         then cs[k].stepper.StepWrites(1, cs[k].direction) else [])
  }

  /** Calls made one after another write one after another. */
  lemma {:induction false} TraceWritesConcat(cs: seq<Command>, a: seq<nat>, b: seq<nat>)
    ensures TraceWrites(cs, a + b) == TraceWrites(cs, a) + TraceWrites(cs, b)
  {
    if b != [] {
      var init := b[..|b| - 1];
      assert (a + b)[..|a + b| - 1] == a + init;
      TraceWritesConcat(cs, a, init);
    } else {
      assert a + b == a;
    }
  }

  /** Serving command i appends that stepper's single step. */
  lemma TraceWritesServe(cs: seq<Command>, trace: seq<nat>, i: nat)
    requires i < |cs| && cs[i].stepper.Valid() && cs[i].direction != 0
    ensures TraceWrites(cs, trace + [i]) == TraceWrites(cs, trace) + cs[i].stepper.StepWrites(1, cs[i].direction)
  {
    assert (trace + [i])[..|trace|] == trace;
  }

  /** The commands are distinct objects whose steppers share `chip`, and a
      command with steps left has a direction the slice accepts. */
  ghost predicate Runnable(chip: Chip, commands: seq<Command>, steps: seq<int>)
    reads commands
  {
    && |steps| == |commands| && NonNeg(steps)
    && (forall i, j :: 0 <= i < j < |commands| ==> commands[i] != commands[j])
    && (forall i :: 0 <= i < |commands| ==> commands[i].steps == steps[i])
    && (forall i :: 0 <= i < |commands| ==> commands[i].stepper.Valid() && commands[i].stepper.chip == chip)
    && (forall i :: 0 <= i < |commands| ==> steps[i] > 0 ==> commands[i].direction != 0)
  }

  class Driver {
    /** Interleave the commands' single steps: in each pass every command
        with steps left takes one step, in list order, until the steps
        counted at entry are used up. The ghost `trace` lists the commands
        served, one entry per call to `step(1, direction)`. Every stepper
        talks to the expander at the same bus address, so they share one
        chip. */
    static method Run(ghost chip: Chip, commands: seq<Command>) returns (ghost trace: seq<nat>)
      requires Runnable(chip, commands, StepsOf(commands))
      modifies commands, chip
      ensures NonNeg(old(StepsOf(commands)))
      ensures trace == Interleave(old(StepsOf(commands)))
      ensures forall i :: 0 <= i < |commands| ==> commands[i].steps == 0
      ensures chip.ops == old(chip.ops) + TraceWrites(commands, trace)
    {
      ghost var init := StepsOf(commands);
      var maxSteps := 0;
      for i := 0 to |commands|
        invariant maxSteps == Sum(init[..i])
      {
        assert init[..i + 1][..i] == init[..i];
        maxSteps := maxSteps + commands[i].steps;
      }
      assert init[..|commands|] == init;
      var count := 0;
      ghost var cur := init;
      trace := [];
      while count != maxSteps
        invariant Runnable(chip, commands, cur)
        invariant count + Sum(cur) == maxSteps
        invariant trace + Interleave(cur) == Interleave(init)
        invariant chip.ops == old(chip.ops) + TraceWrites(commands, trace)
        decreases Sum(cur)
      {
        PassDecreases(cur);
        ghost var before := cur;
        ghost var served;
        ghost var t0 := trace;
        ghost var ops0 := chip.ops;
        count, served := RunPass(chip, commands, before, count);
        assert chip.ops == ops0 + TraceWrites(commands, served);
        TraceWritesConcat(commands, t0, served);
        Concat2(old(chip.ops), TraceWrites(commands, t0), TraceWrites(commands, served));
        trace := t0 + served;
        cur := Dec(before);
        DecSum(before);
        Concat2(t0, served, Interleave(cur));
      }
      SumZero(cur);
      assert Interleave(cur) == [];
    }

    /** One pass over the list: each command with steps left takes one
        step, in list order. */
    static method RunPass(ghost chip: Chip, commands: seq<Command>, ghost before: seq<int>, count: int)
      returns (count': int, ghost served: seq<nat>)
      requires Runnable(chip, commands, before)
      modifies commands, chip
      ensures Runnable(chip, commands, Dec(before))
      ensures served == Pass(before) && count' == count + |served|
      ensures chip.ops == old(chip.ops) + TraceWrites(commands, served)
    {
      count' := count;
      served := [];
      ghost var after := Dec(before);
      for i := 0 to |commands|
        invariant forall j :: 0 <= j < |commands| ==> commands[j].steps == if j < i then after[j] else before[j]
        invariant served == Pass(before[..i]) && count' == count + |served|
        invariant chip.ops == old(chip.ops) + TraceWrites(commands, served)
      {
        PassPrefix(before, i);
        assert forall j :: 0 <= j < |commands| && j != i ==> commands[j] != commands[i];
        var took := Serve(chip, commands[i]);
        if took {
          TraceWritesServe(commands, served, i);
          Concat2(old(chip.ops), TraceWrites(commands, served), commands[i].stepper.StepWrites(1, commands[i].direction));
          count' := count' + 1;
          served := served + [i as nat];
        }
      }
      assert before[..|commands|] == before;
      DecNonNeg(before);
    }
  }

  /** The body of the pass for one command: a command with steps left
      takes one step and counts it. */
  method Serve(ghost chip: Chip, c: Command) returns (took: bool)
    requires c.stepper.Valid() && c.stepper.chip == chip
    requires c.steps > 0 ==> c.direction != 0
    modifies c`steps, chip
    ensures took <==> old(c.steps) > 0
    ensures c.steps == if took then old(c.steps) - 1 else old(c.steps)
    ensures chip.ops == old(chip.ops) + (if took then c.stepper.StepWrites(1, c.direction) else [])
  {
    took := c.steps > 0;
    if took {
      var _ := c.stepper.Step(1, c.direction);
      c.steps := c.steps - 1;
    }
  }

  lemma DecNonNeg(s: seq<int>)
    requires NonNeg(s)
    ensures NonNeg(Dec(s))
  {}
}
