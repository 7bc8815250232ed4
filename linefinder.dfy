/** makerbit_linefinder.py: a two-sensor line finder. The two input pins
    are foreign objects; the model takes the successive values `read` gets
    from them as parameters. */
module LineFinder {

  /** The four codes `read` returns, and -1 for no match. */
  const S1InS2Out: int := 0
  const S1OutS2In: int := 1
  const S1OutS2Out: int := 2
  const S1InS2In: int := 3

  /** `read` with pins that keep their value: left and right high or low. */
  function Classify(left: bool, right: bool): (code: int)
    ensures left && !right <==> code == S1InS2Out
    ensures !left && right <==> code == S1OutS2In
    ensures !left && !right <==> code == S1OutS2Out
    ensures left && right <==> code == S1InS2In
  {
    Read([left, left, left, left], [right, right, right, right])
  }

  /** `read` as written: every test reads the pins again. `ls[k]` is what
      the k-th read of the left pin returns and `rs[k]` the k-th read of
      the right pin; `and` reads its right operand only when the left one
      holds. */
  function Read(ls: seq<bool>, rs: seq<bool>): (code: int)
    requires |ls| >= 4 && |rs| >= 4
    ensures -1 <= code <= 3
    ensures code == S1InS2Out <==> ls[0] && !rs[0]
  {
    var j1 := if ls[0] then 1 else 0;
    if ls[0] && !rs[0] then S1InS2Out
    else
      var j2 := if !ls[1] then j1 + 1 else j1;
      if !ls[1] && rs[j1] then S1OutS2In
      else
        var j3 := if !ls[2] then j2 + 1 else j2;
        if !ls[2] && !rs[j2] then S1OutS2Out
        else if ls[3] && rs[j3] then S1InS2In
        else -1
  }

  /** With pins that hold their value during a read, the four branches
      cover every case: the result is the classification, never -1. */
  lemma {:induction false} ReadStable(ls: seq<bool>, rs: seq<bool>)
    requires |ls| >= 4 && |rs| >= 4
    requires forall k :: 0 <= k < 4 ==> ls[k] == ls[0] && rs[k] == rs[0]
    ensures Read(ls, rs) == Classify(ls[0], rs[0])
    ensures 0 <= Read(ls, rs) <= 3
  {
  }

  /** Different readings give different codes, and every code in 0..3 is
      some reading. */
  lemma ClassifyBijective(l1: bool, r1: bool, l2: bool, r2: bool, code: int)
    ensures Classify(l1, r1) == Classify(l2, r2) ==> l1 == l2 && r1 == r2
    ensures 0 <= code <= 3 ==> exists l, r :: Classify(l, r) == code
  {
    if code == 0 {
      assert Classify(true, false) == code;
    } else if code == 1 {
      assert Classify(false, true) == code;
    } else if code == 2 {
      assert Classify(false, false) == code;
    } else if code == 3 {
      assert Classify(true, true) == code;
    }
  }

  /** A pin that changes between the reads can miss every branch. */
  lemma ReadGlitch()
    ensures Read([true, true, true, false], [true, true, true, true]) == -1
  {}
}
