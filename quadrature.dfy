/**
  Quadrature decoding of a wheel encoder: two digital lines A and B are read
  as a two-bit phase (A in bit 1, B in bit 0), and each change of phase adds
  the entry of a 16-entry transition table to a signed pulse counter.
*/
module Quadrature {

  /** A two-bit reading of the encoder lines, `(A << 1) | B`. */
  type Phase = x: int | 0 <= x < 4

  /** The transition table, indexed by `(prev << 2) | curr`. */
  const QDEC_TABLE: seq<int> := [0, 1, -1, 0, -1, 0, 0, 1, 1, 0, 0, -1, 0, -1, 1, 0]

  /** The phase that follows `p` when the wheel turns forward: the Gray cycle 0, 1, 3, 2. */
  function GrayNext(p: Phase): Phase
  {
    if p == 0 then 1 else if p == 1 then 3 else if p == 3 then 2 else 0
  }

  /** True when both lines changed at once, so the direction cannot be told. */
  predicate BothLinesChange(prev: Phase, curr: Phase)
  {
    curr == 3 - prev
  }

  /**
    What one transition adds to the counter: +1 for a forward step along
    the Gray cycle, -1 for a backward step, 0 when nothing changed or when
    both lines changed at once.
  */
  function Delta(prev: Phase, curr: Phase): (d: int)
    ensures d == -1 || d == 0 || d == 1
    ensures d == 1 <==> curr == GrayNext(prev)
    ensures d == -1 <==> prev == GrayNext(curr)
    ensures d == 0 <==> prev == curr || BothLinesChange(prev, curr)
  {
    QDEC_TABLE[prev * 4 + curr]
  }

  /** Reversing a transition negates what it adds to the counter. */
  lemma DeltaAntisymmetric(a: Phase, b: Phase)
    ensures Delta(a, b) == -Delta(b, a)
  {
  }

  /** The net change of the counter along a sequence of successive readings. */
  function Net(ps: seq<Phase>): int
    decreases |ps|
  {
    if |ps| < 2 then 0 else Delta(ps[0], ps[1]) + Net(ps[1..])
  }

  /** The retrace order of a run of readings: the same readings, last first. */
  function Reverse<T>(s: seq<T>): (r: seq<T>)
    ensures |r| == |s|
    ensures forall i :: 0 <= i < |s| ==> r[i] == s[|s| - 1 - i]
    decreases |s|
  {
    if s == [] then [] else Reverse(s[1..]) + [s[0]]
  }

  /** Appending one more reading adds exactly the last transition. */
  lemma {:induction false} NetSnoc(ps: seq<Phase>, p: Phase)
    requires |ps| >= 1
    ensures Net(ps + [p]) == Net(ps) + Delta(ps[|ps| - 1], p)
    decreases |ps|
  {
    if |ps| == 1 {
      assert ps + [p] == [ps[0], p];
    } else {
      assert (ps + [p])[1..] == ps[1..] + [p];
      NetSnoc(ps[1..], p);
    }
  }

  /** Visiting the same readings in reverse order moves the counter by the opposite amount. */
  lemma {:induction false} NetReverse(ps: seq<Phase>)
    ensures Net(Reverse(ps)) == -Net(ps)
    decreases |ps|
  {
    if |ps| >= 2 {
      var rest := ps[1..];
      assert Reverse(ps) == Reverse(rest) + [ps[0]];
      NetReverse(rest);
      NetSnoc(Reverse(rest), ps[0]);
      DeltaAntisymmetric(ps[0], ps[1]);
    } else if |ps| == 1 {
      assert Reverse(ps) == ps;
    }
  }

  /** Joining two runs of readings adds the transition between them. */
  lemma {:induction false} NetAppend(xs: seq<Phase>, ys: seq<Phase>)
    requires |xs| >= 1 && |ys| >= 1
    ensures Net(xs + ys) == Net(xs) + Delta(xs[|xs| - 1], ys[0]) + Net(ys)
    decreases |xs|
  {
    if |xs| == 1 {
      assert (xs + ys)[1..] == ys;
    } else {
      assert (xs + ys)[1..] == xs[1..] + ys;
      NetAppend(xs[1..], ys);
    }
  }

  /**
    A wheel that turns through some readings and then retraces them exactly
    leaves the counter where it started.
  */
  lemma ThereAndBack(ps: seq<Phase>)
    ensures Net(ps + Reverse(ps)) == 0
  {
    if |ps| >= 1 {
      NetAppend(ps, Reverse(ps));
      NetReverse(ps);
    }
  }

  /**
    A wheel that starts at reading `start`, turns through `ps` and then
    retraces every reading back to `start` leaves the counter where it
    started.
  */
  lemma RetraceReturns(start: Phase, ps: seq<Phase>)
    ensures Net([start] + (ps + Reverse([start] + ps))) == 0
  {
    assert [start] + (ps + Reverse([start] + ps)) == ([start] + ps) + Reverse([start] + ps);
    ThereAndBack([start] + ps);
  }

  /** One quadrature decoder: the pulse counter and the last reading seen. */
  class QDec {
    var count: int
    var prev: Phase

    /** Statically allocated decoders start with both fields zero. */
    constructor ()
      ensures count == 0 && prev == 0
    {
      count := 0;
      prev := 0;
    }

    /** Handles an edge on either line, given the reading `curr` taken after it. */
    method Step(curr: Phase)
      modifies this
      ensures count == old(count) + Delta(old(prev), curr)
      ensures prev == curr
    {
      count := count + QDEC_TABLE[prev * 4 + curr];
      prev := curr;
    }

    /**
      Handles one edge per reading of `ps`, in order: the counter moves by
      the net change along the readings, starting from the last one seen.
    */
    method StepAll(ps: seq<Phase>)
      modifies this
      ensures count == old(count) + Net([old(prev)] + ps)
      ensures prev == ([old(prev)] + ps)[|ps|]
    {
      var i := 0;
      while i < |ps|
        invariant 0 <= i <= |ps|
        invariant prev == ([old(prev)] + ps)[i]
        invariant count == old(count) + Net([old(prev)] + ps[..i])
      {
        NetSnoc([old(prev)] + ps[..i], ps[i]);
        assert [old(prev)] + ps[..i + 1] == ([old(prev)] + ps[..i]) + [ps[i]];
        Step(ps[i]);
        i := i + 1;
      }
      assert ps[..|ps|] == ps;
    }
  }
}
