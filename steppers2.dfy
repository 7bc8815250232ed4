/** steppers2.py: the H-bridge phase-table stepper (`HBRIDGE`) and the
    step/direction driver chip (`A4899`). Pin writes become an append-only
    log; the clock is an integer field that callers move forward by passing
    the instant `at` of each call. */
module Steppers2 {
  import opened Wrappers
  import opened Sequences
  import opened Pca9685
  import opened StepRules
  import opened Arith

  // ---------------------------------------------------------------------
  // Phase tables, written (A, B, a, b)
  // ---------------------------------------------------------------------

  /** Full-step, single coil, 4 states. */
  const Mode1: seq<seq<int>> := [[1, 0, 0, 0], [0, 1, 0, 0], [0, 0, 1, 0], [0, 0, 0, 1]]
  /** Full-step, dual coil, 4 states. */
  const Mode2: seq<seq<int>> := [[1, 1, 0, 0], [0, 1, 1, 0], [0, 0, 1, 1], [1, 0, 0, 1]]
  /** Half-step, single and dual coil, 8 states. */
  const Mode3: seq<seq<int>> := [[1, 1, 0, 0], [0, 1, 0, 0], [0, 1, 1, 0], [0, 0, 1, 0],
                                 [0, 0, 1, 1], [0, 0, 0, 1], [1, 0, 0, 1], [1, 0, 0, 0]]

  /** The table chosen by the `mode` argument: 3 and 2 pick their table,
      every other value the single-coil one. */
  function SelectTable(mode: int): (t: seq<seq<int>>)
    ensures |t| == if mode == 3 then 8 else 4
    ensures BitTable(t)
  {
    ModesAreBits();
    if mode == 3 then Mode3 else if mode == 2 then Mode2 else Mode1
  }

  /** Every entry of the table is a pin level 0 or 1, four to a row. */
  ghost predicate BitTable(t: seq<seq<int>>)
  {
    forall i :: 0 <= i < |t| ==> |t[i]| == 4 && forall j :: 0 <= j < 4 ==> t[i][j] == 0 || t[i][j] == 1
  }

  /** The complement of one state: a truthy entry becomes 0, any other 1. */
  function InvertRow(row: seq<int>): (r: seq<int>)
    ensures |r| == |row|
  {
    seq(|row|, j requires 0 <= j < |row| => if row[j] != 0 then 0 else 1)
  }

  /** Every state of the table complemented. */
  function Invert(t: seq<seq<int>>): (r: seq<seq<int>>)
    ensures |r| == |t|
  {
    seq(|t|, i requires 0 <= i < |t| => InvertRow(t[i]))
  }

  /** On a table of bits, complementing twice changes nothing. */
  lemma InvertInvolutive(t: seq<seq<int>>)
    requires BitTable(t)
    ensures Invert(Invert(t)) == t
  {
    forall i | 0 <= i < |t|
      ensures Invert(Invert(t))[i] == t[i]
    {
      assert InvertRow(InvertRow(t[i])) == t[i];
    }
  }

  /** The `invert` loop of the constructor, state by state and pin by pin. */
  method InvertTable(t: seq<seq<int>>) returns (r: seq<seq<int>>)
    ensures r == Invert(t)
  {
    r := [];
    for i := 0 to |t|
      invariant r == Invert(t[..i])
    {
      var pins := [];
      for j := 0 to |t[i]|
        invariant pins == InvertRow(t[i][..j])
      {
        if t[i][j] != 0 {
          pins := pins + [0];
        } else {
          pins := pins + [1];
        }
      }
      assert t[i][..|t[i]|] == t[i];
      assert t[..i + 1][..i] == t[..i];
      r := r + [pins];
    }
    assert t[..|t|] == t;
  }

  /** The table after construction: selected, then reversed, then complemented. */
  function Table(mode: int, reverse: bool, invert: bool): (r: seq<seq<int>>)
    ensures |r| == |SelectTable(mode)|
  {
    var t := SelectTable(mode);
    var t1 := if reverse then Reverse(t) else t;
    if invert then Invert(t1) else t1
  }

  lemma ModesAreBits()
    ensures BitTable(Mode1) && BitTable(Mode2) && BitTable(Mode3)
  {
    assert forall i :: 0 <= i < 4 ==> Mode1[i] in {[1, 0, 0, 0], [0, 1, 0, 0], [0, 0, 1, 0], [0, 0, 0, 1]};
    assert forall i :: 0 <= i < 4 ==> Mode2[i] in {[1, 1, 0, 0], [0, 1, 1, 0], [0, 0, 1, 1], [1, 0, 0, 1]};
  }

  lemma ReverseBits(t: seq<seq<int>>)
    requires BitTable(t)
    ensures BitTable(Reverse(t))
  {
    forall i | 0 <= i < |t|
      ensures Reverse(t)[i] == t[|t| - 1 - i]
    {
      ReverseAt(t, i);
    }
  }

  lemma InvertBits(t: seq<seq<int>>)
    requires BitTable(t)
    ensures BitTable(Invert(t))
  {}

  /** Mode 3 gives 8 states, every other mode 4; all entries are bits. */
  lemma TableShape(mode: int, reverse: bool, invert: bool)
    ensures |Table(mode, reverse, invert)| == if mode == 3 then 8 else 4
    ensures BitTable(Table(mode, reverse, invert))
    ensures Rows4(Table(mode, reverse, invert))
  {
    var t := SelectTable(mode);
    var t1 := if reverse then Reverse(t) else t;
    ModesAreBits();
    if reverse {
      ReverseBits(t);
    }
    if invert {
      InvertBits(t1);
    }
  }

  /** `reverse=True` yields the selected table read back to front. */
  lemma TableReversed(mode: int, invert: bool, k: nat)
    requires k < |SelectTable(mode)|
    ensures Table(mode, true, invert)[k] == Table(mode, false, invert)[|SelectTable(mode)| - 1 - k]
  {
    var t := SelectTable(mode);
    ReverseAt(t, k);
    if invert {
      assert Invert(Reverse(t))[k] == InvertRow(Reverse(t)[k]);
      assert Invert(t)[|t| - 1 - k] == InvertRow(t[|t| - 1 - k]);
    }
  }

  /** `invert=True` complements every pin of every state. */
  lemma TableInverted(mode: int, reverse: bool, k: nat)
    requires k < |SelectTable(mode)|
    ensures var on, off := Table(mode, reverse, false)[k], Table(mode, reverse, true)[k];
      |on| == |off| == 4 && forall j :: 0 <= j < 4 ==> off[j] == 1 - on[j]
  {
    TableShape(mode, reverse, false);
  }

  // ---------------------------------------------------------------------
  // Index wrap-around
  // ---------------------------------------------------------------------

  /** A forward step of the index: past the last state back to 0. */
  function StepUp(index: int, imax: int): (r: int)
    ensures 0 <= index <= imax ==> 0 <= r <= imax
  {
    if index == imax then 0 else index + 1
  }

  /** A backward step of the index: below 0 round to the last state. */
  function StepDown(index: int, imax: int): (r: int)
    ensures 0 <= index <= imax ==> 0 <= r <= imax
  {
    if index == 0 then imax else index - 1
  }

  /** Stepping forward from a wrapped position is adding one modulo the
      table length. */
  lemma StepUpMod(a: int, imax: int)
    requires imax >= 0
    ensures 0 <= StepUp(a % (imax + 1), imax) <= imax
    ensures StepUp(a % (imax + 1), imax) == (a + 1) % (imax + 1)
  {
    var m := imax + 1;
    var q := a / m;
    if a % m == imax {
      DivModUnique(a + 1, m, q + 1, 0);
    } else {
      DivModUnique(a + 1, m, q, a % m + 1);
    }
  }

  /** Stepping backward from a wrapped position is subtracting one modulo
      the table length. */
  lemma StepDownMod(a: int, imax: int)
    requires imax >= 0
    ensures 0 <= StepDown(a % (imax + 1), imax) <= imax
    ensures StepDown(a % (imax + 1), imax) == (a - 1) % (imax + 1)
  {
    var m := imax + 1;
    var q := a / m;
    if a % m == 0 {
      DivModUnique(a - 1, m, q - 1, imax);
    } else {
      DivModUnique(a - 1, m, q, a % m - 1);
    }
  }

  /** The index after `n` steps from `i`, forward when `up`, wrapping at
      both ends as the two loops of `step` do. */
  function Walk(i: int, up: bool, imax: int, n: nat): (r: int)
    ensures 0 <= i <= imax ==> 0 <= r <= imax
  {
    if n == 0 then i
    else
      var j := Walk(i, up, imax, n - 1);
      if up then StepUp(j, imax) else StepDown(j, imax)
  }

  /** Walking the table is counting modulo its length. */
  lemma {:induction false} WalkMod(i: int, up: bool, imax: int, n: nat)
    requires 0 <= i <= imax
    ensures Walk(i, up, imax, n) == (if up then i + n else i - n) % (imax + 1)
  {
    if n == 0 {
      DivModUnique(i, imax + 1, 0, i);
    } else {
      WalkMod(i, up, imax, n - 1);
      if up {
        StepUpMod(i + n - 1, imax);
      } else {
        StepDownMod(i - (n - 1), imax);
      }
    }
  }

  /** The index after a run of `eff` signed steps from `i`: the old index
      plus the effective count, modulo the table length. */
  lemma WalkSigned(i: int, imax: int, eff: int)
    requires 0 <= i <= imax
    ensures 0 <= Walk(i, eff >= 0, imax, Abs(eff)) <= imax
    ensures Walk(i, eff >= 0, imax, Abs(eff)) == (i + eff) % (imax + 1)
  {
    WalkMod(i, eff >= 0, imax, Abs(eff));
    assert (if eff >= 0 then i + Abs(eff) else i - Abs(eff)) == i + eff;
  }

  // ---------------------------------------------------------------------
  // HBRIDGE
  // ---------------------------------------------------------------------

  /** A stepper on four H-bridge channels of the expander. */
  class HBridge {
    const chip: Chip
    const mode: seq<seq<int>>
    const imax: int
    const xstate: seq<int>
    const istate: seq<int>
    const p1: int
    const p2: int
    const p3: int
    const p4: int
    const sps: int
    const smax: int
    const smin: int
    var index: int
    var isoff: bool
    var steps: int
    var last: int
    /** The monotonic clock, in µs. */
    var clock: int
    /** The instant of every state write, oldest first. */
    ghost var stamps: seq<int>
    /** The instant of construction: `last` until the first emission. */
    ghost const born: int

    ghost predicate Valid()
      reads this
    {
      && |mode| == imax + 1
      && 0 <= index <= imax
      && Rows4(mode)
      && |istate| == 4 && |xstate| == 4
      && 0 <= last <= clock
      && (if stamps == [] then last == born else last == stamps[|stamps| - 1])
    }

    /** What every `pset` writes: the state fixed at construction, on
        p1..p4. */
    function IstateWrites(): seq<Op>
      requires |istate| == 4
    {
      VectorWrites([p1, p2, p3, p4], istate)
    }

    constructor (chip: Chip, A: int, a: int, B: int, b: int, mode: int, reverse: bool,
                 invert: bool, sleep: bool, sps: int, smax: int, smin: int, now: int)
      requires now >= 0
      modifies chip
      ensures Valid()
      ensures this.chip == chip && chip.ops == old(chip.ops) + [SetFreq(50)]
      ensures this.mode == Table(mode, reverse, invert) && imax == |this.mode| - 1 && index == 0
      ensures xstate == if invert then [1, 1, 1, 1] else [0, 0, 0, 0]
      ensures isoff == sleep && istate == if sleep then xstate else this.mode[0]
      ensures p1 == A && p2 == B && p3 == a && p4 == b
      ensures steps == 0 && last == now && clock == now && stamps == [] && born == now
      ensures this.sps == (if sps != 0 then sps else 200) && this.smax == smax && this.smin == smin
    {
      this.chip := chip;
      var t := SelectTable(mode);
      imax := |t| - 1;
      if reverse {
        t := Reverse(t);
      }
      var x := [0, 0, 0, 0];
      if invert {
        t := InvertTable(t);
        x := [1, 1, 1, 1];
      }
      TableShape(mode, reverse, invert);
      this.mode := t;
      xstate := x;
      isoff := sleep;
      istate := if sleep then x else t[0];
      p1, p2, p3, p4 := A, B, a, b;
      index, steps := 0, 0;
      last, clock := now, now;
      stamps := [];
      born := now;
      this.sps := if sps != 0 then sps else 200;
      this.smax, this.smin := smax, smin;
      new;
      chip.Freq(50);
    }

    /** `_pin`: level 1 fully on, anything else off. */
    method Pin(pin: int, value: int)
      modifies chip
      ensures chip.ops == old(chip.ops) + [PinWrite(pin, value)]
    {
      if value == 1 {
        chip.SetPwm(pin, FullOn, 0);
      } else {
        chip.SetPwm(pin, 0, 0);
      }
    }

    /** Forget the step count. */
    method Zero()
      modifies this`steps
      ensures steps == 0
    {
      steps := 0;
    }

    /** Wait for `waitfor` unless it is falsy (0), then write the state and
        note the instant. As in the source, the state written is `istate`,
        whatever `state` is passed. */
    method Pset(state: seq<int>, waitfor: int)
      requires Valid()
      modifies this`clock, this`last, this`stamps, chip
      ensures Valid()
      ensures clock == Settle(old(clock), waitfor) && stamps == old(stamps) + [clock] && last == clock
      ensures chip.ops == old(chip.ops) + IstateWrites()
    {
      while waitfor != 0 && clock < waitfor
        modifies this`clock
        invariant Valid()
        invariant Settle(clock, waitfor) == Settle(old(clock), waitfor)
        decreases waitfor - clock
      {
        clock := clock + 10;
      }
      Pin(p1, istate[0]);
      Pin(p2, istate[1]);
      Pin(p3, istate[2]);
      Pin(p4, istate[3]);
      last := clock;
      stamps := stamps + [clock];
    }

    /** Write the off state (through `pset`, so `istate`) and mark the
        motor asleep. */
    method Sleep(at: int)
      requires Valid() && at >= clock
      modifies this`clock, this`last, this`stamps, this`isoff, chip
      ensures Valid() && isoff
      ensures clock == at && stamps == old(stamps) + [at]
      ensures chip.ops == old(chip.ops) + IstateWrites()
    {
      clock := at;
      Pset(xstate, 0);
      isoff := true;
    }

    /** Write the current state (through `pset`, so `istate`) and mark the
        motor awake. */
    method Wake(at: int)
      requires Valid() && at >= clock
      modifies this`clock, this`last, this`stamps, this`isoff, chip
      ensures Valid() && !isoff
      ensures clock == at && stamps == old(stamps) + [at]
      ensures chip.ops == old(chip.ops) + IstateWrites()
    {
      clock := at;
      Pset(mode[index], 0);
      isoff := false;
    }

    /** Move `request` steps (negative: backward), clamped to keep the
        counter within [smin, smax], paced at `sps` steps per second (0: the
        default rate), and optionally sleep afterwards. Returns the new step
        count. */
    method Step(request: int, sps: int, sleep: bool, at: int) returns (r: int)
      requires Valid() && at >= clock
      modifies this`index, this`steps, this`clock, this`last, this`stamps, this`isoff, chip
      ensures stamps == old(stamps) ==> last == old(last)
      ensures Valid()
      ensures var eff := Clamp(request, old(steps), smin, smax);
        && steps == old(steps) + eff && r == steps
        && index == Walk(old(index), eff >= 0, imax, Abs(eff))
        && isoff == sleep
        && chip.ops == old(chip.ops) + Writes(old(isoff)) + Repeat(IstateWrites(), Abs(eff)) + Writes(sleep)
      ensures var eff := Clamp(request, old(steps), smin, smax);
        var st := Stime(sps, this.sps);
        var run := Schedule(at, FirstTarget(at, old(last), st), st, 0, Abs(eff));
        && clock == Ready(at, run, 0, |run|)
        && stamps == old(stamps) + (if old(isoff) then [at] else []) + run + (if sleep then [clock] else [])
    {
      clock := at;
      var eff := Clamp(request, steps, smin, smax);
      var st := Stime(sps, this.sps);
      var waitfor := FirstTarget(clock, last, st);
      var idx, sc := Drive(eff, waitfor, st, sleep);
      index := idx;
      steps := steps + sc;
      r := steps;
    }

    /** The body of `step` once the count and pace are known: wake the
        motor if it is off, run the states, and write the off state when
        asked to sleep. Returns the final index and the signed count. */
    method Drive(eff: int, waitfor: int, st: int, sleep: bool) returns (idx: int, sc: int)
      requires Valid()
      modifies this`clock, this`last, this`stamps, this`isoff, chip
      ensures Valid() && sc == eff && isoff == sleep
      ensures 0 <= idx <= imax && idx == Walk(index, eff >= 0, imax, Abs(eff))
      ensures chip.ops == old(chip.ops) + Writes(old(isoff)) + Repeat(IstateWrites(), Abs(eff)) + Writes(sleep)
      ensures var run := Schedule(old(clock), waitfor, st, 0, Abs(eff));
        && clock == Ready(old(clock), run, 0, |run|)
        && stamps == old(stamps) + (if old(isoff) then [old(clock)] else []) + run + (if sleep then [clock] else [])
    {
      if isoff {
        Wake(clock);
      }
      assert chip.ops == old(chip.ops) + Writes(old(isoff));
      assert stamps == old(stamps) + (if old(isoff) then [old(clock)] else []);
      idx, sc := Run(Abs(eff), eff >= 0, waitfor, st);
      ghost var ops2, stamps2 := chip.ops, stamps;
      if sleep {
        Sleep(clock);
      }
      assert chip.ops == ops2 + Writes(sleep);
      assert stamps == stamps2 + (if sleep then [clock] else []);
    }

    /** The writes of one `pset` if `b` holds, none otherwise. */
    function Writes(b: bool): seq<Op>
      requires |istate| == 4
    {
      if b then IstateWrites() else []
    }

    /** The stepping loop of `step`: `n` states, forward when `up`, each
        written by `pset` at its pacing target. Returns the final index and
        the signed step count. */
    method Run(n: nat, up: bool, waitfor: int, st: int) returns (idx: int, sc: int)
      requires Valid()
      modifies this`clock, this`last, this`stamps, chip
      ensures Valid()
      ensures 0 <= idx <= imax && idx == Walk(index, up, imax, n)
      ensures sc == if up then n as int else -(n as int)
      ensures chip.ops == old(chip.ops) + Repeat(IstateWrites(), n)
      ensures var run := Schedule(old(clock), waitfor, st, 0, n);
        stamps == old(stamps) + run && clock == Ready(old(clock), run, 0, n)
    {
      ghost var run := Schedule(clock, waitfor, st, 0, n);
      ghost var rest := run;
      var w := waitfor;
      idx, sc := index, 0;
      for s := 0 to n
        invariant Valid()
        invariant 0 <= idx <= imax && idx == Walk(index, up, imax, s)
        invariant sc == if up then s else -s
        invariant chip.ops == old(chip.ops) + Repeat(IstateWrites(), s)
        invariant rest == Schedule(clock, w, st, 0, n - s)
        invariant old(stamps) + run == stamps + rest
        invariant clock == if s == 0 then old(clock) else last
      {
        if up {
          idx := if idx == imax then 0 else idx + 1;
          sc := sc + 1;
        } else {
          idx := if idx == 0 then imax else idx - 1;
          sc := sc - 1;
        }
        ghost var e := Settle(clock, w);
        ghost var tail := Schedule(e + 0, w + st, st, 0, n - s - 1);
        ScheduleOne(clock, w, st, 0, n - s);
        Concat2(stamps, [e], tail);
        Concat2(old(chip.ops), Repeat(IstateWrites(), s), IstateWrites());
        Pset(mode[idx], w);
        w := w + st;
        rest := tail;
      }
    }
  }

  /** Every `pset` writes the state fixed at construction: however far the
      motor is stepped, the four channels show the same levels. */
  lemma PsetIgnoresTable(ops: seq<Op>, pins: seq<int>, istate: seq<int>, n: nat, k: nat)
    requires |pins| == 4 && |istate| == 4 && k < n
    ensures |Repeat(VectorWrites(pins, istate), n)| == 4 * n
    ensures Repeat(VectorWrites(pins, istate), n)[4 * k .. 4 * k + 4] == VectorWrites(pins, istate)
  {
    RepeatCopy(VectorWrites(pins, istate), n, k);
  }

  // ---------------------------------------------------------------------
  // A4899 step/direction driver
  // ---------------------------------------------------------------------

  /** One level written to a GPIO pin. */
  datatype PinOp = Level(pin: int, level: int)

  /** The pins of a step/direction driver and its two direction levels. */
  datatype Wiring = Wiring(ps: int, pd: int, pe: int, forward: int, reverse: int)

  /** Three different pins and two different direction levels. */
  predicate Distinct(w: Wiring)
  {
    w.ps != w.pd && w.ps != w.pe && w.pd != w.pe && w.forward != w.reverse
  }

  /** One pulse of the step line. */
  function Pulse(w: Wiring): seq<PinOp>
  {
    [Level(w.ps, 1), Level(w.ps, 0)]
  }

  /** Enabling the chip (enable line low) when it was asleep. */
  function WakeOps(w: Wiring, wake: bool): seq<PinOp>
  {
    if wake then [Level(w.pe, 0)] else []
  }

  /** Disabling the chip (enable line high) when asked to sleep. */
  function SleepOps(w: Wiring, sleep: bool): seq<PinOp>
  {
    if sleep then [Level(w.pe, 1)] else []
  }

  /** The direction level for a run of `eff` steps. */
  function DirLevel(w: Wiring, eff: int): PinOp
  {
    Level(w.pd, if eff < 0 then w.reverse else w.forward)
  }

  /** The pin writes of `step`: enable (if asleep), the direction once, one
      pulse per effective step, disable (if asked to sleep). */
  function StepOps(w: Wiring, wake: bool, eff: int, sleep: bool): (ops: seq<PinOp>)
    ensures |ops| == (if wake then 1 else 0) + 1 + 2 * Abs(eff) + (if sleep then 1 else 0)
    ensures ops[if wake then 1 else 0] == DirLevel(w, eff)
  {
    RepeatLength(Pulse(w), Abs(eff));
    WakeOps(w, wake) + [DirLevel(w, eff)] + Repeat(Pulse(w), Abs(eff)) + SleepOps(w, sleep)
  }

  /** One cycle of `beep`: a forward pulse, then a backward one. */
  function BeepCycle(w: Wiring): seq<PinOp>
  {
    [Level(w.pd, w.forward)] + Pulse(w) + [Level(w.pd, w.reverse)] + Pulse(w)
  }

  /** The pin writes of `beep` with `n` cycles. */
  function BeepOps(w: Wiring, wake: bool, n: nat, sleep: bool): (ops: seq<PinOp>)
    ensures |ops| == (if wake then 1 else 0) + 6 * n + (if sleep then 1 else 0)
  {
    RepeatLength(BeepCycle(w), n);
    WakeOps(w, wake) + Repeat(BeepCycle(w), n) + SleepOps(w, sleep)
  }

  /** The net number of steps a step/direction chip makes for `ops`: each
      high level on the step line moves the motor one step, forward while
      the direction line is at the forward level. `dir` is the direction
      level before the first write. */
  function Moves(w: Wiring, ops: seq<PinOp>, dir: int): int
  {
    if ops == [] then 0
    else if ops[0].pin == w.pd then Moves(w, ops[1..], ops[0].level)
    else if ops[0].pin == w.ps && ops[0].level == 1 then (if dir == w.forward then 1 else -1) + Moves(w, ops[1..], dir)
    else Moves(w, ops[1..], dir)
  }

  /** The direction level after `ops`. */
  function DirAfter(w: Wiring, ops: seq<PinOp>, dir: int): int
  {
    if ops == [] then dir
    else DirAfter(w, ops[1..], if ops[0].pin == w.pd then ops[0].level else dir)
  }

  /** The number of high levels written to the step line. */
  function PulseCount(w: Wiring, ops: seq<PinOp>): nat
  {
    if ops == [] then 0
    else (if ops[0] == Level(w.ps, 1) then 1 else 0) + PulseCount(w, ops[1..])
  }

  lemma {:induction false} MovesAppend(w: Wiring, a: seq<PinOp>, b: seq<PinOp>, dir: int)
    ensures Moves(w, a + b, dir) == Moves(w, a, dir) + Moves(w, b, DirAfter(w, a, dir))
    ensures DirAfter(w, a + b, dir) == DirAfter(w, b, DirAfter(w, a, dir))
    ensures PulseCount(w, a + b) == PulseCount(w, a) + PulseCount(w, b)
  {
    if a != [] {
      assert (a + b)[0] == a[0];
      assert (a + b)[1..] == a[1..] + b;
      MovesAppend(w, a[1..], b, if a[0].pin == w.pd then a[0].level else dir);
    } else {
      assert a + b == b;
    }
  }

  /** `n` pulses move `n` steps in the current direction and leave it. */
  lemma {:induction false} PulsesMove(w: Wiring, n: nat, dir: int)
    requires Distinct(w)
    ensures Moves(w, Repeat(Pulse(w), n), dir) == (if dir == w.forward then n as int else -(n as int))
    ensures DirAfter(w, Repeat(Pulse(w), n), dir) == dir
    ensures PulseCount(w, Repeat(Pulse(w), n)) == n
  {
    if n > 0 {
      PulsesMove(w, n - 1, dir);
      MovesAppend(w, Repeat(Pulse(w), n - 1), Pulse(w), dir);
      PulseMoves(w, dir);
    }
  }

  lemma PulseMoves(w: Wiring, dir: int)
    requires Distinct(w)
    ensures Moves(w, Pulse(w), dir) == (if dir == w.forward then 1 else -1)
    ensures DirAfter(w, Pulse(w), dir) == dir
    ensures PulseCount(w, Pulse(w)) == 1
  {
    var p, q := Pulse(w), [Level(w.ps, 0)];
    assert p[1..] == q && q[1..] == [];
    assert Moves(w, q, dir) == 0 && DirAfter(w, q, dir) == dir && PulseCount(w, q) == 0;
  }

  /** `step` moves the motor by exactly the effective count, whatever the
      direction line was before. */
  lemma StepMoves(w: Wiring, wake: bool, eff: int, sleep: bool, dir: int)
    requires Distinct(w)
    ensures Moves(w, StepOps(w, wake, eff, sleep), dir) == eff
    ensures PulseCount(w, StepOps(w, wake, eff, sleep)) == Abs(eff)
  {
    var en := if wake then [Level(w.pe, 0)] else [];
    var d := [Level(w.pd, if eff < 0 then w.reverse else w.forward)];
    var p := Repeat(Pulse(w), Abs(eff));
    var off := if sleep then [Level(w.pe, 1)] else [];
    var d1 := DirAfter(w, en, dir);
    var d2 := DirAfter(w, en + d, dir);
    MovesAppend(w, en, d, dir);
    MovesAppend(w, en + d, p, dir);
    MovesAppend(w, en + d + p, off, dir);
    PulsesMove(w, Abs(eff), d2);
    assert en + d + p + off == StepOps(w, wake, eff, sleep);
  }

  lemma CycleMoves(w: Wiring, dir: int)
    requires Distinct(w)
    ensures Moves(w, BeepCycle(w), dir) == 0
    ensures DirAfter(w, BeepCycle(w), dir) == w.reverse
    ensures PulseCount(w, BeepCycle(w)) == 2
  {
    var fwd, back := [Level(w.pd, w.forward)], [Level(w.pd, w.reverse)];
    assert Repeat(Pulse(w), 1) == Pulse(w);
    PulsesMove(w, 1, w.forward);
    PulsesMove(w, 1, w.reverse);
    MovesAppend(w, fwd, Pulse(w), dir);
    MovesAppend(w, fwd + Pulse(w), back, dir);
    MovesAppend(w, fwd + Pulse(w) + back, Pulse(w), dir);
    assert BeepCycle(w) == fwd + Pulse(w) + back + Pulse(w);
  }

  /** `n` beep cycles make `2n` pulses and no net movement. */
  lemma {:induction false} CyclesMove(w: Wiring, n: nat, dir: int)
    requires Distinct(w)
    ensures Moves(w, Repeat(BeepCycle(w), n), dir) == 0
    ensures DirAfter(w, Repeat(BeepCycle(w), n), dir) == if n == 0 then dir else w.reverse
    ensures PulseCount(w, Repeat(BeepCycle(w), n)) == 2 * n
  {
    if n > 0 {
      CyclesMove(w, n - 1, dir);
      MovesAppend(w, Repeat(BeepCycle(w), n - 1), BeepCycle(w), dir);
      CycleMoves(w, DirAfter(w, Repeat(BeepCycle(w), n - 1), dir));
    }
  }

  /** `beep` makes twice as many pulses as cycles and leaves the motor where
      it was. */
  lemma BeepMoves(w: Wiring, wake: bool, n: nat, sleep: bool, dir: int)
    requires Distinct(w)
    ensures Moves(w, BeepOps(w, wake, n, sleep), dir) == 0
    ensures PulseCount(w, BeepOps(w, wake, n, sleep)) == 2 * n
  {
    var en := if wake then [Level(w.pe, 0)] else [];
    var c := Repeat(BeepCycle(w), n);
    var off := if sleep then [Level(w.pe, 1)] else [];
    MovesAppend(w, en, c, dir);
    MovesAppend(w, en + c, off, dir);
    CyclesMove(w, n, DirAfter(w, en, dir));
  }

  /** `int(round(500000 / max(1, freq)))`: the µs between pulses of `beep`. */
  function BeepStime(freq: int): (r: int)
    ensures r >= 0
  {
    RoundHalfEven(500000, Max(1, freq))
  }

  /** The interval rounds to 0, and the cycle count divides by zero, exactly
      from 1 MHz up. */
  lemma BeepStimeZero(freq: int)
    ensures BeepStime(freq) == 0 <==> freq >= 1000000
  {
    var d := Max(1, freq);
    if freq >= 1000000 {
      RoundHalfEvenUnique(500000, d, 0);
    }
  }

  /** `int(round(time_ms * 500 / stime))`: the number of beep cycles. */
  function BeepCount(timeMs: int, stime: int): (n: int)
    requires stime > 0
    ensures timeMs >= 0 ==> n >= 0
  {
    RoundHalfEven(timeMs * 500, stime)
  }

  /** 440 Hz for 250 ms: 1136 µs between pulses and 110 cycles. */
  lemma BeepA440()
    ensures BeepStime(440) == 1136 && BeepCount(250, 1136) == 110
  {}

  /** A step/direction stepper driver chip on three GPIO pins. */
  class A4899 {
    const ps: int
    const pd: int
    const pe: int
    const forward: int
    const reverse: int
    const sps: int
    const smax: int
    const smin: int
    var isoff: bool
    var steps: int
    var last: int
    /** The monotonic clock, in µs. */
    var clock: int
    /** Every level written to the three pins, oldest first. */
    var levels: seq<PinOp>
    /** The instant of every step pulse, oldest first. */
    ghost var stamps: seq<int>
    /** The instant of construction: `last` until the first emission. */
    ghost const born: int

    ghost predicate Valid()
      reads this
    {
      && 0 <= last <= clock
      && (if stamps == [] then last == born else last == stamps[|stamps| - 1])
    }

    function Wires(): Wiring
    {
      Wiring(ps, pd, pe, forward, reverse)
    }

    constructor (step: int, direction: int, enable: int, reversed: bool, sleep: bool,
                 sps: int, smax: int, smin: int, now: int)
      requires now >= 0
      ensures Valid()
      ensures ps == step && pd == direction && pe == enable
      ensures forward == (if reversed then 1 else 0) && reverse == 1 - forward
      ensures levels == [Level(step, 0), Level(direction, forward), Level(enable, 0),
                         Level(enable, if sleep then 1 else 0)]
      ensures isoff == sleep
      ensures steps == 0 && last == now && clock == now && stamps == [] && born == now
      ensures this.sps == (if sps != 0 then sps else 200) && this.smax == smax && this.smin == smin
    {
      forward := if reversed then 1 else 0;
      reverse := if reversed then 0 else 1;
      ps, pd, pe := step, direction, enable;
      this.sps := if sps != 0 then sps else 200;
      this.smax, this.smin := smax, smin;
      steps, last, clock := 0, now, now;
      stamps := [];
      born := now;
      levels := [Level(step, 0), Level(direction, forward), Level(enable, 0)];
      isoff := false;
      new;
      if sleep {
        Sleep();
      } else {
        Wake();
      }
    }

    /** Write `level` to `pin`. */
    method SetLevel(pin: int, level: int)
      modifies this`levels
      ensures levels == old(levels) + [Level(pin, level)]
    {
      levels := levels + [Level(pin, level)];
    }

    /** Forget the step count (inherited from `HBRIDGE`). */
    method Zero()
      modifies this`steps
      ensures steps == 0
    {
      steps := 0;
    }

    /** Disable the driver chip (enable line high). */
    method Sleep()
      modifies this`levels, this`isoff
      ensures isoff && levels == old(levels) + [Level(pe, 1)]
    {
      SetLevel(pe, 1);
      isoff := true;
    }

    /** Enable the driver chip (enable line low). */
    method Wake()
      modifies this`levels, this`isoff
      ensures !isoff && levels == old(levels) + [Level(pe, 0)]
    {
      SetLevel(pe, 0);
      isoff := false;
    }

    /** Busy-wait for `waitfor` (unless falsy), note the instant, and pulse the
        step line for 10 µs. */
    method Emit(waitfor: int)
      requires Valid()
      modifies this`clock, this`last, this`stamps, this`levels
      ensures Valid()
      ensures stamps == old(stamps) + [Settle(old(clock), waitfor)] && last == Settle(old(clock), waitfor)
      ensures clock == last + 10
      ensures levels == old(levels) + Pulse(Wires())
    {
      while waitfor != 0 && clock < waitfor
        modifies this`clock
        invariant Valid()
        invariant Settle(clock, waitfor) == Settle(old(clock), waitfor)
        decreases waitfor - clock
      {
        clock := clock + 10;
      }
      last := clock;
      stamps := stamps + [clock];
      SetLevel(ps, 1);
      clock := clock + 10;
      SetLevel(ps, 0);
    }

    /** Move `request` steps (negative: backward), clamped to keep the
        counter within [smin, smax]: the direction line once, then one
        paced pulse per step. Returns the new step count. */
    method Step(request: int, sps: int, sleep: bool, at: int) returns (r: int)
      requires Valid() && at >= clock
      modifies this`steps, this`clock, this`last, this`stamps, this`isoff, this`levels
      ensures stamps == old(stamps) ==> last == old(last)
      ensures Valid()
      ensures var eff := Clamp(request, old(steps), smin, smax);
        && steps == old(steps) + eff && r == steps
        && isoff == sleep
        && levels == old(levels) + StepOps(Wires(), old(isoff), eff, sleep)
      ensures var eff := Clamp(request, old(steps), smin, smax);
        var st := Stime(sps, this.sps);
        var run := Schedule(at, FirstTarget(at, old(last), st), st, 10, Abs(eff));
        stamps == old(stamps) + run && clock == Ready(at, run, 10, |run|)
    {
      clock := at;
      var eff := Clamp(request, steps, smin, smax);
      var st := Stime(sps, this.sps);
      var waitfor := FirstTarget(clock, last, st);
      var sc := Drive(eff, waitfor, st, sleep);
      steps := steps + sc;
      r := steps;
    }

    /** The body of `step` once the count and pace are known: wake the chip
        if it is off, set the direction, pulse, and disable the chip again
        when asked to. Returns the signed count. */
    method Drive(eff: int, waitfor: int, st: int, sleep: bool) returns (sc: int)
      requires Valid()
      modifies this`clock, this`last, this`stamps, this`isoff, this`levels
      ensures Valid() && sc == eff && isoff == sleep
      ensures levels == old(levels) + StepOps(Wires(), old(isoff), eff, sleep)
      ensures var run := Schedule(old(clock), waitfor, st, 10, Abs(eff));
        stamps == old(stamps) + run && clock == Ready(old(clock), run, 10, |run|)
    {
      ghost var w := Wires();
      if isoff {
        Wake();
      }
      ghost var levels1 := levels;
      SetLevel(pd, if eff < 0 then reverse else forward);
      sc := Pulses(Abs(eff), eff >= 0, waitfor, st);
      ghost var levels3 := levels;
      if sleep {
        Sleep();
      }
      assert levels1 == old(levels) + WakeOps(w, old(isoff));
      assert levels == levels3 + SleepOps(w, sleep);
      Concat4(old(levels), WakeOps(w, old(isoff)), [DirLevel(w, eff)], Repeat(Pulse(w), Abs(eff)), SleepOps(w, sleep));
    }

    /** The stepping loop of `step`: `n` paced pulses, counting forward when
        `up`. Returns the signed step count. */
    method Pulses(n: nat, up: bool, waitfor: int, st: int) returns (sc: int)
      requires Valid()
      modifies this`clock, this`last, this`stamps, this`levels
      ensures Valid()
      ensures sc == if up then n as int else -(n as int)
      ensures levels == old(levels) + Repeat(Pulse(Wires()), n)
      ensures var run := Schedule(old(clock), waitfor, st, 10, n);
        stamps == old(stamps) + run && clock == Ready(old(clock), run, 10, n)
    {
      ghost var run := Schedule(clock, waitfor, st, 10, n);
      ghost var rest := run;
      var w := waitfor;
      sc := 0;
      for s := 0 to n
        invariant Valid()
        invariant sc == if up then s else -s
        invariant levels == old(levels) + Repeat(Pulse(Wires()), s)
        invariant rest == Schedule(clock, w, st, 10, n - s)
        invariant old(stamps) + run == stamps + rest
        invariant clock == if s == 0 then old(clock) else last + 10
      {
        ghost var e := Settle(clock, w);
        ghost var tail := Schedule(e + 10, w + st, st, 10, n - s - 1);
        ScheduleOne(clock, w, st, 10, n - s);
        Concat2(stamps, [e], tail);
        Emit(w);
        w := w + st;
        rest := tail;
        sc := if up then sc + 1 else sc - 1;
      }
    }

    /** Buzz the motor: `time_ms` worth of forward/back pulse pairs at
        `freq`, then an optional pause of `pause` ms. The step count does
        not change. `None` stands for the ZeroDivisionError the source
        raises when the interval rounds to 0. */
    method Beep(freq: int, timeMs: int, pause: int, sleep: bool, at: int) returns (r: Option<int>)
      requires Valid() && at >= clock
      modifies this`clock, this`last, this`stamps, this`isoff, this`levels
      ensures stamps == old(stamps) ==> last == old(last)
      ensures Valid() && steps == old(steps)
      ensures BeepStime(freq) == 0 ==>
        && r == None && clock == at && last == old(last) && stamps == old(stamps)
        && isoff == old(isoff) && levels == old(levels)
      ensures BeepStime(freq) != 0 ==>
        var st := BeepStime(freq);
        var n := Max(0, BeepCount(timeMs, st));
        var run := Schedule(at, FirstTarget(at, old(last), st), st, 10, 2 * n);
        && r == Some(steps) && isoff == sleep
        && levels == old(levels) + BeepOps(Wires(), old(isoff), n, sleep)
        && stamps == old(stamps) + run
        && clock == Ready(at, run, 10, |run|) + Max(0, pause) * 1000
    {
      clock := at;
      var st := BeepStime(freq);
      if st == 0 {
        return None;
      }
      var n := Max(0, BeepCount(timeMs, st));
      var waitfor := FirstTarget(clock, last, st);
      Burst(n, waitfor, st, sleep);
      if pause > 0 {
        clock := clock + pause * 1000;
      }
      r := Some(steps);
    }

    /** The body of `beep` once the pace is known: wake the chip if it is
        off, run the cycles, and disable it again when asked to. */
    method Burst(n: nat, waitfor: int, st: int, sleep: bool)
      requires Valid()
      modifies this`clock, this`last, this`stamps, this`isoff, this`levels
      ensures Valid() && isoff == sleep
      ensures levels == old(levels) + BeepOps(Wires(), old(isoff), n, sleep)
      ensures var run := Schedule(old(clock), waitfor, st, 10, 2 * n);
        stamps == old(stamps) + run && clock == Ready(old(clock), run, 10, 2 * n)
    {
      ghost var w := Wires();
      if isoff {
        Wake();
      }
      ghost var levels1 := levels;
      Cycles(n, waitfor, st);
      ghost var levels2 := levels;
      if sleep {
        Sleep();
      }
      assert levels1 == old(levels) + WakeOps(w, old(isoff));
      assert levels == levels2 + SleepOps(w, sleep);
      Concat3(old(levels), WakeOps(w, old(isoff)), Repeat(BeepCycle(w), n), SleepOps(w, sleep));
    }

    /** The loop of `beep`: `n` cycles, each a forward and a backward
        paced pulse. */
    method Cycles(n: nat, waitfor: int, st: int)
      requires Valid()
      modifies this`clock, this`last, this`stamps, this`levels
      ensures Valid()
      ensures levels == old(levels) + Repeat(BeepCycle(Wires()), n)
      ensures var run := Schedule(old(clock), waitfor, st, 10, 2 * n);
        stamps == old(stamps) + run && clock == Ready(old(clock), run, 10, 2 * n)
    {
      ghost var run := Schedule(clock, waitfor, st, 10, 2 * n);
      ghost var rest := run;
      ghost var left: nat := 2 * n;
      ghost var cycle := BeepCycle(Wires());
      var w := waitfor;
      for s := 0 to n
        invariant Valid()
        invariant left == 2 * (n - s)
        invariant levels == old(levels) + Repeat(cycle, s)
        invariant rest == Schedule(clock, w, st, 10, left)
        invariant old(stamps) + run == stamps + rest
        invariant clock == if s == 0 then old(clock) else last + 10
      {
        ghost var e := Settle(clock, w);
        ghost var e2 := Settle(e + 10, w + st);
        ghost var tail := Schedule(e2 + 10, w + 2 * st, st, 10, left - 2);
        ScheduleTwo(clock, w, st, 10, left);
        Concat2(stamps, [e, e2], tail);
        Cycle(w, st);
        Concat2(old(levels), Repeat(cycle, s), cycle);
        w := w + 2 * st;
        rest, left := tail, left - 2;
      }
    }

    /** One forward/back pair of `beep`, the first pulse paced for
        `waitfor`, the second for `waitfor + st`. */
    method Cycle(waitfor: int, st: int)
      requires Valid()
      modifies this`clock, this`last, this`stamps, this`levels
      ensures Valid()
      ensures levels == old(levels) + BeepCycle(Wires())
      ensures var e := Settle(old(clock), waitfor);
        && last == Settle(e + 10, waitfor + st)
        && stamps == old(stamps) + [e, last]
      ensures clock == last + 10
    {
      SetLevel(pd, forward);
      Emit(waitfor);
      SetLevel(pd, reverse);
      Emit(waitfor + st);
      Concat4(old(levels), [Level(pd, forward)], Pulse(Wires()), [Level(pd, reverse)], Pulse(Wires()));
    }
  }
}
