/** The reverse pass of one frame step, logLikelihoodStep.PropagateGradient
    (ctc/ctc.go:165-209), in the probability domain.

    upstream[s] is the gradient of the objective with respect to the log of
    position s after the frame. The pass hands it back to the positions of
    the previous vector that s read from, each in proportion to its share of
    the sum Feed(s), and in full to the frame entry that s emits. */
module CtcGradient {
  import opened LogDomain
  import opened Sums
  import opened CtcLattice

  /** What position s hands back to position s - d of the previous vector:
      all of upstream[0] at position 0 (whose log is a plain sum), otherwise
      the share of upstream[s] that last[s - d] holds in Feed(s), for each of
      the positions Feed(s) adds up. */
  function Part(last: seq<Prob>, lab: seq<nat>, upstream: seq<real>, s: int, d: int): real
    requires |last| == Width(lab) == |upstream|
  {
    if !(0 <= d <= 2 && d <= s < |last|) then 0.0
    else if s == 0 then upstream[0]
    else if d == 2 && !CanSkip(lab, s) then 0.0
    else Share(upstream[s], last[s - d], Feed(last, lab, s))
  }

  /** lastGrad[k]: what positions k, k + 1 and k + 2 hand back to k. */
  function LastGradAt(last: seq<Prob>, lab: seq<nat>, upstream: seq<real>, k: int): real
    requires |last| == Width(lab) == |upstream|
  {
    Part(last, lab, upstream, k, 0) + Part(last, lab, upstream, k + 1, 1) +
    Part(last, lab, upstream, k + 2, 2)
  }

  function LastGrad(last: seq<Prob>, lab: seq<nat>, upstream: seq<real>): (g: seq<real>)
    requires |last| == Width(lab) == |upstream|
    ensures |g| == |last|
  {
    seq(|last|, k => LastGradAt(last, lab, upstream, k))
  }

  /** The upstream of the positions that emit frame entry k. */
  function InputTerms(frame: Frame, lab: seq<nat>, upstream: seq<real>, k: int): int -> real
    requires FrameFits(frame, lab) && |upstream| == Width(lab)
  {
    s => if 0 <= s < |upstream| && EmitIndex(frame, lab, s) == k then upstream[s] else 0.0
  }

  /** inputGrad: entry k collects the upstream of every position that emits
      it, the blank from position 0 and every even position, a symbol from
      every odd position that holds it. */
  function InputGrad(frame: Frame, lab: seq<nat>, upstream: seq<real>): (g: seq<real>)
    requires FrameFits(frame, lab) && |upstream| == Width(lab)
    ensures |g| == |frame|
  {
    seq(|frame|, k => SumTo(|upstream|, InputTerms(frame, lab, upstream, k)))
  }

  // ----- conservation -----

  /** What the positions hand back in total: all of upstream[s], except at a
      position that nothing can reach (Feed(s) == 0), which hands back nothing.
      Position 0 always hands back its upstream. */
  function Kept(last: seq<Prob>, lab: seq<nat>, upstream: seq<real>): (v: seq<real>)
    requires |last| == Width(lab) == |upstream|
    ensures |v| == |upstream|
  {
    seq(|upstream|, s requires 0 <= s < |upstream| =>
      if s == 0 || Feed(last, lab, s) != 0.0 then upstream[s] else 0.0)
  }

  /** The parts a position hands back add up to its kept upstream. */
  lemma PartsSplit(last: seq<Prob>, lab: seq<nat>, upstream: seq<real>, s: nat)
    requires |last| == Width(lab) == |upstream| && s < |last|
    ensures Part(last, lab, upstream, s, 0) + Part(last, lab, upstream, s, 1) + Part(last, lab, upstream, s, 2) ==
            Kept(last, lab, upstream)[s]
  {
    if s > 0 {
      var u := upstream[s];
      var f := Feed(last, lab, s);
      var skipped := if CanSkip(lab, s) then last[s - 2] else 0.0;
      assert f == last[s] + last[s - 1] + skipped;
      assert Part(last, lab, upstream, s, 2) == Share(u, skipped, f);
      ShareAdd(u, last[s], last[s - 1], f);
      ShareAdd(u, last[s] + last[s - 1], skipped, f);
      ShareWhole(u, f);
    }
  }

  /** parts(s, d) for every s, at a fixed distance d. */
  function PartsAt(parts: (int, int) -> real, d: int): int -> real {
    s => parts(s, d)
  }

  /** What position k + e hands back at distance d, as a function of k. */
  function PartsAhead(parts: (int, int) -> real, d: int, e: int): int -> real {
    k => parts(k + e, d)
  }

  /** For parts that vanish before position d and from position w on, summing
      what is handed back over the receiving positions or over the handing
      positions gives the same total. */
  lemma {:induction false} PartsShift(parts: (int, int) -> real, w: nat, d: nat, e: nat)
    requires e <= d
    requires forall s :: (s < d || s >= w) ==> parts(s, d) == 0.0
    ensures SumTo(w, PartsAhead(parts, d, e)) == SumTo(w, PartsAt(parts, d))
    decreases e
  {
    if e == 0 {
      forall i | 0 <= i < w
        ensures PartsAhead(parts, d, 0)(i) == PartsAt(parts, d)(i)
      {
      }
      SumExt(w, PartsAhead(parts, d, 0), PartsAt(parts, d));
    } else {
      var h := PartsAhead(parts, d, e - 1);
      var g := PartsAhead(parts, d, e);
      forall i | 0 <= i < w
        ensures g(i) == h(i + 1)
      {
        assert i + 1 + (e - 1) == i + e;
      }
      SumShift(w, h, g);
      assert h(0) == parts(e - 1, d) == 0.0;
      assert h(w) == parts(w + e - 1, d) == 0.0;
      PartsShift(parts, w, d, e - 1);
    }
  }

  /** Nothing is handed back to a position before the first or from a
      position past the last. */
  lemma PartsVanish(last: seq<Prob>, lab: seq<nat>, upstream: seq<real>)
    requires |last| == Width(lab) == |upstream|
    ensures forall s, d :: (s < d || s >= |last|) ==> Parts(last, lab, upstream)(s, d) == 0.0
  {
  }

  /** The reverse pass conserves the gradient: lastGrad adds up to what the
      positions keep, so when every position is reachable it adds up to the
      sum of upstream. */
  lemma {:induction false} LastGradConserves(last: seq<Prob>, lab: seq<nat>, upstream: seq<real>)
    requires |last| == Width(lab) == |upstream|
    ensures Total(LastGrad(last, lab, upstream)) == Total(Kept(last, lab, upstream))
    ensures (forall s :: 0 < s < |last| ==> Feed(last, lab, s) != 0.0) ==>
            Total(LastGrad(last, lab, upstream)) == Total(upstream)
  {
    var w := |last|;
    var parts := Parts(last, lab, upstream);
    var p0 := PartsAt(parts, 0);
    var p1 := PartsAt(parts, 1);
    var p2 := PartsAt(parts, 2);
    var q1 := PartsAhead(parts, 1, 1);
    var q2 := PartsAhead(parts, 2, 2);
    var grad := Entries(LastGrad(last, lab, upstream));
    forall k | 0 <= k < w
      ensures grad(k) == Plus(p0, q1)(k) + q2(k)
    {
    }
    SumAdd(w, Plus(p0, q1), q2, grad);
    SumAdd(w, p0, q1, Plus(p0, q1));
    PartsVanish(last, lab, upstream);
    PartsShift(parts, w, 1, 1);
    PartsShift(parts, w, 2, 2);
    var kept := Entries(Kept(last, lab, upstream));
    forall s | 0 <= s < w
      ensures kept(s) == Plus(p0, p1)(s) + p2(s)
    {
      PartsSplit(last, lab, upstream, s);
    }
    SumAdd(w, Plus(p0, p1), p2, kept);
    SumAdd(w, p0, p1, Plus(p0, p1));
    if forall s :: 0 < s < |last| ==> Feed(last, lab, s) != 0.0 {
      assert Kept(last, lab, upstream) == upstream;
    }
  }

  /** The cell of the inputGrad sums: what position s adds to entry k. */
  function InputCell(frame: Frame, lab: seq<nat>, upstream: seq<real>): (int, int) -> real
    requires FrameFits(frame, lab) && |upstream| == Width(lab)
  {
    (k, s) => InputTerms(frame, lab, upstream, k)(s)
  }

  /** Every position hands its upstream to exactly one frame entry, so
      inputGrad adds up to the sum of upstream. */
  lemma {:induction false} InputGradConserves(frame: Frame, lab: seq<nat>, upstream: seq<real>)
    requires FrameFits(frame, lab) && |upstream| == Width(lab)
    ensures Total(InputGrad(frame, lab, upstream)) == Total(upstream)
  {
    var cell := InputCell(frame, lab, upstream);
    var f := |frame|;
    var w := |upstream|;
    forall k | 0 <= k < f
      ensures Entries(InputGrad(frame, lab, upstream))(k) == RowSums(cell, w)(k)
    {
      forall s | 0 <= s < w
        ensures InputTerms(frame, lab, upstream, k)(s) == Row(cell, k)(s)
      {
      }
      SumExt(w, InputTerms(frame, lab, upstream, k), Row(cell, k));
    }
    SumExt(f, Entries(InputGrad(frame, lab, upstream)), RowSums(cell, w));
    SumSwap(f, w, cell);
    forall s | 0 <= s < w
      ensures ColumnSums(cell, f)(s) == Entries(upstream)(s)
    {
      var e := EmitIndex(frame, lab, s);
      forall k | 0 <= k < f && k != e
        ensures Column(cell, s)(k) == 0.0
      {
      }
      SumSingle(f, e, Column(cell, s));
    }
    SumExt(w, ColumnSums(cell, f), Entries(upstream));
  }

  // ----- the state of the two loops -----

  /** Whether position s has been handled once the blank loop has reached i
      (symbols false) or once the symbol loop has reached i (symbols true). */
  predicate Done(s: int, i: int, symbols: bool) {
    if s % 2 == 0 then symbols || s < i else symbols && s < i
  }

  /** Part as a function of the position and the distance. */
  function Parts(last: seq<Prob>, lab: seq<nat>, upstream: seq<real>): (int, int) -> real
    requires |last| == Width(lab) == |upstream|
  {
    (s, d) => Part(last, lab, upstream, s, d)
  }

  function Handled(parts: (int, int) -> real, s: int, d: int, i: int, symbols: bool): real {
    if Done(s, i, symbols) then parts(s, d) else 0.0
  }

  /** lastGrad while the loops run: what the handled positions have handed
      back so far. */
  function LastGradSoFar(parts: (int, int) -> real, w: nat, i: int, symbols: bool): (g: seq<real>)
    ensures |g| == w
  {
    seq(w, k => Handled(parts, k, 0, i, symbols) + Handled(parts, k + 1, 1, i, symbols) +
                Handled(parts, k + 2, 2, i, symbols))
  }

  function InputTermsSoFar(frame: Frame, lab: seq<nat>, upstream: seq<real>, k: int, i: int, symbols: bool): int -> real
    requires FrameFits(frame, lab) && |upstream| == Width(lab)
  {
    s => if Done(s, i, symbols) then InputTerms(frame, lab, upstream, k)(s) else 0.0
  }

  /** inputGrad while the loops run. */
  function InputGradSoFar(frame: Frame, lab: seq<nat>, upstream: seq<real>, i: int, symbols: bool): (g: seq<real>)
    requires FrameFits(frame, lab) && |upstream| == Width(lab)
    ensures |g| == |frame|
  {
    seq(|frame|, k => SumTo(|upstream|, InputTermsSoFar(frame, lab, upstream, k, i, symbols)))
  }

  lemma {:induction false} LastGradStart(parts: (int, int) -> real, w: nat)
    requires w >= 1
    ensures LastGradSoFar(parts, w, 2, false) == seq(w, _ => 0.0)[0 := parts(0, 0)]
  {
    var g := LastGradSoFar(parts, w, 2, false);
    forall k | 0 <= k < w
      ensures g[k] == seq(w, _ => 0.0)[0 := parts(0, 0)][k]
    {
      assert !Done(k + 1, 2, false) && !Done(k + 2, 2, false);
      assert Done(k, 2, false) <==> k == 0;
    }
  }

  /** Handling blank position i adds its two parts at i - 1 and i. */
  lemma {:induction false} LastGradBlankStep(parts: (int, int) -> real, w: nat, i: nat)
    requires 2 <= i < w && i % 2 == 0 && parts(i, 2) == 0.0
    ensures var g := LastGradSoFar(parts, w, i, false);
      LastGradSoFar(parts, w, i + 2, false) == g[i - 1 := g[i - 1] + parts(i, 1)][i := g[i] + parts(i, 0)]
  {
    var g := LastGradSoFar(parts, w, i, false);
    var h := LastGradSoFar(parts, w, i + 2, false);
    forall s | s != i
      ensures Done(s, i + 2, false) == Done(s, i, false)
    {
    }
    assert Done(i, i + 2, false) && !Done(i, i, false);
    forall k | 0 <= k < w
      ensures h[k] == g[i - 1 := g[i - 1] + parts(i, 1)][i := g[i] + parts(i, 0)][k]
    {
    }
  }

  /** After the blank loop every blank position and no symbol position has
      been handled, which is where the symbol loop starts. */
  lemma {:induction false} LastGradBlanksDone(parts: (int, int) -> real, w: nat, i: int)
    requires i >= w
    requires forall s, d :: s >= w ==> parts(s, d) == 0.0
    ensures LastGradSoFar(parts, w, i, false) == LastGradSoFar(parts, w, 1, true)
  {
    forall s | 0 <= s < w
      ensures Done(s, i, false) == Done(s, 1, true)
    {
    }
    forall k | 0 <= k < w
      ensures LastGradSoFar(parts, w, i, false)[k] == LastGradSoFar(parts, w, 1, true)[k]
    {
      assert Handled(parts, k, 0, i, false) == Handled(parts, k, 0, 1, true);
      assert Handled(parts, k + 1, 1, i, false) == Handled(parts, k + 1, 1, 1, true) by {
        if k + 1 >= w {
          assert parts(k + 1, 1) == 0.0;
        }
      }
      assert Handled(parts, k + 2, 2, i, false) == Handled(parts, k + 2, 2, 1, true) by {
        if k + 2 >= w {
          assert parts(k + 2, 2) == 0.0;
        }
      }
    }
  }

  /** Handling symbol position i that may skip adds its parts at i, i - 2
      and i - 1, in the order the code adds them. */
  lemma {:induction false} LastGradSkipStep(parts: (int, int) -> real, w: nat, i: nat)
    requires 2 <= i < w && i % 2 == 1
    ensures var g := LastGradSoFar(parts, w, i, true);
      LastGradSoFar(parts, w, i + 2, true) ==
      g[i := g[i] + parts(i, 0)][i - 2 := g[i - 2] + parts(i, 2)][i - 1 := g[i - 1] + parts(i, 1)]
  {
    var g := LastGradSoFar(parts, w, i, true);
    var h := LastGradSoFar(parts, w, i + 2, true);
    forall s | s != i
      ensures Done(s, i + 2, true) == Done(s, i, true)
    {
    }
    assert Done(i, i + 2, true) && !Done(i, i, true);
    forall k | 0 <= k < w
      ensures h[k] == g[i := g[i] + parts(i, 0)][i - 2 := g[i - 2] + parts(i, 2)][i - 1 := g[i - 1] + parts(i, 1)][k]
    {
    }
  }

  /** Handling symbol position i that may not skip adds its parts at i - 1
      and i. */
  lemma {:induction false} LastGradPairStep(parts: (int, int) -> real, w: nat, i: nat)
    requires 1 <= i < w && i % 2 == 1 && parts(i, 2) == 0.0
    ensures var g := LastGradSoFar(parts, w, i, true);
      LastGradSoFar(parts, w, i + 2, true) == g[i - 1 := g[i - 1] + parts(i, 1)][i := g[i] + parts(i, 0)]
  {
    var g := LastGradSoFar(parts, w, i, true);
    var h := LastGradSoFar(parts, w, i + 2, true);
    forall s | s != i
      ensures Done(s, i + 2, true) == Done(s, i, true)
    {
    }
    assert Done(i, i + 2, true) && !Done(i, i, true);
    forall k | 0 <= k < w
      ensures h[k] == g[i - 1 := g[i - 1] + parts(i, 1)][i := g[i] + parts(i, 0)][k]
    {
    }
  }

  /** Once the symbol loop has finished every position has been handled. */
  lemma {:induction false} LastGradDone(last: seq<Prob>, lab: seq<nat>, upstream: seq<real>)
    requires |last| == Width(lab) == |upstream|
    ensures LastGradSoFar(Parts(last, lab, upstream), |last|, |last|, true) == LastGrad(last, lab, upstream)
  {
    var parts := Parts(last, lab, upstream);
    forall k | 0 <= k < |last|
      ensures LastGradSoFar(parts, |last|, |last|, true)[k] == LastGrad(last, lab, upstream)[k]
    {
      assert Done(k, |last|, true);
      assert Handled(parts, k, 0, |last|, true) == Part(last, lab, upstream, k, 0);
      assert Handled(parts, k + 1, 1, |last|, true) == Part(last, lab, upstream, k + 1, 1) by {
        if k + 1 < |last| {
          assert Done(k + 1, |last|, true);
        }
      }
      assert Handled(parts, k + 2, 2, |last|, true) == Part(last, lab, upstream, k + 2, 2) by {
        if k + 2 < |last| {
          assert Done(k + 2, |last|, true);
        }
      }
    }
  }

  lemma {:induction false} InputGradStart(frame: Frame, lab: seq<nat>, upstream: seq<real>)
    requires FrameFits(frame, lab) && |upstream| == Width(lab)
    ensures InputGradSoFar(frame, lab, upstream, 2, false) == seq(|frame|, _ => 0.0)[|frame| - 1 := upstream[0]]
  {
    var g := InputGradSoFar(frame, lab, upstream, 2, false);
    forall k | 0 <= k < |frame|
      ensures g[k] == seq(|frame|, _ => 0.0)[|frame| - 1 := upstream[0]][k]
    {
      var t := InputTermsSoFar(frame, lab, upstream, k, 2, false);
      forall s | 0 <= s < |upstream| && s != 0
        ensures t(s) == 0.0
      {
        assert !Done(s, 2, false);
      }
      assert EmitIndex(frame, lab, 0) == |frame| - 1;
      assert Done(0, 2, false);
      assert t(0) == InputTerms(frame, lab, upstream, k)(0);
      if k == |frame| - 1 {
        assert t(0) == upstream[0];
        SumSingle(|upstream|, 0, t);
      } else {
        assert t(0) == 0.0;
        SumZero(|upstream|, t);
      }
    }
  }

  /** Handling position i adds its upstream to the frame entry it emits. */
  lemma {:induction false} InputGradStep(frame: Frame, lab: seq<nat>, upstream: seq<real>, i: nat, symbols: bool)
    requires FrameFits(frame, lab) && |upstream| == Width(lab) && i < |upstream|
    requires i % 2 == (if symbols then 1 else 0)
    ensures var g := InputGradSoFar(frame, lab, upstream, i, symbols);
      var e := EmitIndex(frame, lab, i);
      InputGradSoFar(frame, lab, upstream, i + 2, symbols) == g[e := g[e] + upstream[i]]
  {
    var g := InputGradSoFar(frame, lab, upstream, i, symbols);
    var h := InputGradSoFar(frame, lab, upstream, i + 2, symbols);
    var e := EmitIndex(frame, lab, i);
    forall k | 0 <= k < |frame|
      ensures h[k] == g[e := g[e] + upstream[i]][k]
    {
      var before := InputTermsSoFar(frame, lab, upstream, k, i, symbols);
      var after := InputTermsSoFar(frame, lab, upstream, k, i + 2, symbols);
      forall s | 0 <= s < |upstream| && s != i
        ensures before(s) == after(s)
      {
        assert Done(s, i, symbols) == Done(s, i + 2, symbols);
      }
      assert Done(i, i + 2, symbols) && !Done(i, i, symbols);
      assert before(i) == 0.0;
      assert after(i) == InputTerms(frame, lab, upstream, k)(i);
      assert after(i) == if e == k then upstream[i] else 0.0;
      SumPoint(|upstream|, i, before, after);
    }
  }

  lemma {:induction false} InputGradBlanksDone(frame: Frame, lab: seq<nat>, upstream: seq<real>, i: int)
    requires FrameFits(frame, lab) && |upstream| == Width(lab) && i >= |upstream|
    ensures InputGradSoFar(frame, lab, upstream, i, false) == InputGradSoFar(frame, lab, upstream, 1, true)
  {
    forall k | 0 <= k < |frame|
      ensures InputGradSoFar(frame, lab, upstream, i, false)[k] == InputGradSoFar(frame, lab, upstream, 1, true)[k]
    {
      forall s | 0 <= s < |upstream|
        ensures Done(s, i, false) == Done(s, 1, true)
      {
      }
      SumExt(|upstream|, InputTermsSoFar(frame, lab, upstream, k, i, false),
             InputTermsSoFar(frame, lab, upstream, k, 1, true));
    }
  }

  lemma {:induction false} InputGradDone(frame: Frame, lab: seq<nat>, upstream: seq<real>)
    requires FrameFits(frame, lab) && |upstream| == Width(lab)
    ensures InputGradSoFar(frame, lab, upstream, |upstream|, true) == InputGrad(frame, lab, upstream)
  {
    forall k | 0 <= k < |frame|
      ensures InputGradSoFar(frame, lab, upstream, |upstream|, true)[k] == InputGrad(frame, lab, upstream)[k]
    {
      forall s | 0 <= s < |upstream|
        ensures Done(s, |upstream|, true)
      {
      }
      SumExt(|upstream|, InputTermsSoFar(frame, lab, upstream, k, |upstream|, true),
             InputTerms(frame, lab, upstream, k));
    }
  }

  /** productSumPartials at a position that reads last[i - 1] and last[i]
      only yields the parts handed to i - 1 and i. */
  lemma PairParts(last: seq<Prob>, lab: seq<nat>, upstream: seq<real>, i: nat)
    requires |last| == Width(lab) == |upstream| && 1 <= i < |last| && !CanSkip(lab, i)
    ensures ProductSumPartials(last[i - 1], last[i], upstream[i]) ==
            (Part(last, lab, upstream, i, 1), Part(last, lab, upstream, i, 0))
  {
    assert Feed(last, lab, i) == last[i - 1] + last[i];
  }

  /** The two chained productSumPartials calls at a position that may skip
      yield the parts handed to i, i - 2 and i - 1. */
  lemma SkipParts(last: seq<Prob>, lab: seq<nat>, upstream: seq<real>, i: nat)
    requires |last| == Width(lab) == |upstream| && i < |last| && CanSkip(lab, i)
    ensures ProductSumPartials(AddProbabilities(last[i - 2], last[i - 1]), last[i], upstream[i]).1 ==
            Part(last, lab, upstream, i, 0)
    ensures ProductSumPartials(last[i - 2], last[i - 1],
              ProductSumPartials(AddProbabilities(last[i - 2], last[i - 1]), last[i], upstream[i]).0) ==
            (Part(last, lab, upstream, i, 2), Part(last, lab, upstream, i, 1))
  {
    assert Feed(last, lab, i) == last[i - 2] + last[i - 1] + last[i];
    ChainedShares(last[i - 2], last[i - 1], last[i], upstream[i]);
  }

  // ----- the reverse pass -----

  /** The body of the blank loop (ctc/ctc.go:180-183). */
  method BlankGrad(last: seq<Prob>, frame: Frame, lab: seq<nat>, upstream: seq<real>,
                   lastGrad: array<real>, inputGrad: array<real>, i: nat, ghost parts: (int, int) -> real)
    requires |last| == Width(lab) == |upstream| == lastGrad.Length && FrameFits(frame, lab)
    requires inputGrad.Length == |frame| && lastGrad != inputGrad
    requires 2 <= i < |last| && i % 2 == 0 && parts == Parts(last, lab, upstream)
    requires lastGrad[..] == LastGradSoFar(parts, |last|, i, false)
    requires inputGrad[..] == InputGradSoFar(frame, lab, upstream, i, false)
    modifies lastGrad, inputGrad
    ensures lastGrad[..] == LastGradSoFar(parts, |last|, i + 2, false)
    ensures inputGrad[..] == InputGradSoFar(frame, lab, upstream, i + 2, false)
  {
    InputGradStep(frame, lab, upstream, i, false);
    inputGrad[|frame| - 1] := inputGrad[|frame| - 1] + upstream[i];
    PairParts(last, lab, upstream, i);
    LastGradBlankStep(parts, |last|, i);
    PairGrad(last, upstream, lastGrad, i);
  }

  /** The skip branch of the symbol loop (ctc/ctc.go:188-195): two chained
      partials, the first splitting upstream[i] between last[i - 2] + last[i - 1]
      and last[i], the second splitting the former's share between the two;
      parts(i, d) is what they hand to i - d. */
  method SkipGrad(last: seq<Prob>, upstream: seq<real>, lastGrad: array<real>, i: nat,
                  ghost parts: (int, int) -> real)
    requires |last| == |upstream| == lastGrad.Length && 2 <= i < |last| && i % 2 == 1
    requires ProductSumPartials(AddProbabilities(last[i - 2], last[i - 1]), last[i], upstream[i]).1 == parts(i, 0)
    requires ProductSumPartials(last[i - 2], last[i - 1],
               ProductSumPartials(AddProbabilities(last[i - 2], last[i - 1]), last[i], upstream[i]).0) ==
             (parts(i, 2), parts(i, 1))
    requires lastGrad[..] == LastGradSoFar(parts, |last|, i, true)
    modifies lastGrad
    ensures lastGrad[..] == LastGradSoFar(parts, |last|, i + 2, true)
  {
    LastGradSkipStep(parts, |last|, i);
    var a := AddProbabilities(last[i - 2], last[i - 1]);
    var b := last[i];
    var (da, db) := ProductSumPartials(a, b, upstream[i]);
    lastGrad[i] := lastGrad[i] + db;
    var (da', db') := ProductSumPartials(last[i - 2], last[i - 1], da);
    lastGrad[i - 2] := lastGrad[i - 2] + da';
    lastGrad[i - 1] := lastGrad[i - 1] + db';
  }

  /** The other branch of the symbol loop (ctc/ctc.go:196-199), which is also
      the body of the blank loop (ctc/ctc.go:181-183). */
  method PairGrad(last: seq<Prob>, upstream: seq<real>, lastGrad: array<real>, i: nat)
    requires |last| == |upstream| == lastGrad.Length && 1 <= i < |last|
    modifies lastGrad
    ensures var (da, db) := ProductSumPartials(last[i - 1], last[i], upstream[i]);
      lastGrad[..] == old(lastGrad[..])[i - 1 := old(lastGrad[i - 1]) + da][i := old(lastGrad[i]) + db]
  {
    var (da, db) := ProductSumPartials(last[i - 1], last[i], upstream[i]);
    lastGrad[i - 1] := lastGrad[i - 1] + da;
    lastGrad[i] := lastGrad[i] + db;
  }

  /** The body of the symbol loop (ctc/ctc.go:186-200). */
  method SymbolGrad(last: seq<Prob>, frame: Frame, lab: seq<nat>, upstream: seq<real>,
                    lastGrad: array<real>, inputGrad: array<real>, i: nat, ghost parts: (int, int) -> real)
    requires |last| == Width(lab) == |upstream| == lastGrad.Length && FrameFits(frame, lab)
    requires inputGrad.Length == |frame| && lastGrad != inputGrad
    requires i < |last| && i % 2 == 1 && parts == Parts(last, lab, upstream)
    requires lastGrad[..] == LastGradSoFar(parts, |last|, i, true)
    requires inputGrad[..] == InputGradSoFar(frame, lab, upstream, i, true)
    modifies lastGrad, inputGrad
    ensures lastGrad[..] == LastGradSoFar(parts, |last|, i + 2, true)
    ensures inputGrad[..] == InputGradSoFar(frame, lab, upstream, i + 2, true)
  {
    var labIdx := (i - 1) / 2;
    InputGradStep(frame, lab, upstream, i, true);
    inputGrad[lab[labIdx]] := inputGrad[lab[labIdx]] + upstream[i];
    if labIdx > 0 && lab[labIdx - 1] != lab[labIdx] {
      assert CanSkip(lab, i);
      SkipParts(last, lab, upstream, i);
      SkipGrad(last, upstream, lastGrad, i, parts);
    } else {
      assert !CanSkip(lab, i);
      PairParts(last, lab, upstream, i);
      LastGradPairStep(parts, |last|, i);
      PairGrad(last, upstream, lastGrad, i);
    }
  }

  /** The blank loop (ctc/ctc.go:179-184). */
  method BlankLoop(last: seq<Prob>, frame: Frame, lab: seq<nat>, upstream: seq<real>,
                   lastGrad: array<real>, inputGrad: array<real>, ghost parts: (int, int) -> real)
    requires |last| == Width(lab) == |upstream| == lastGrad.Length && FrameFits(frame, lab)
    requires inputGrad.Length == |frame| && lastGrad != inputGrad && parts == Parts(last, lab, upstream)
    requires lastGrad[..] == LastGradSoFar(parts, |last|, 2, false)
    requires inputGrad[..] == InputGradSoFar(frame, lab, upstream, 2, false)
    modifies lastGrad, inputGrad
    ensures lastGrad[..] == LastGradSoFar(parts, |last|, |last| + 1, false)
    ensures inputGrad[..] == InputGradSoFar(frame, lab, upstream, |last| + 1, false)
  {
    var i := 2;
    while i < Width(lab)
      invariant 2 <= i <= |last| + 1 && i % 2 == 0
      invariant lastGrad[..] == LastGradSoFar(parts, |last|, i, false)
      invariant inputGrad[..] == InputGradSoFar(frame, lab, upstream, i, false)
    {
      BlankGrad(last, frame, lab, upstream, lastGrad, inputGrad, i, parts);
      i := i + 2;
    }
  }

  /** The symbol loop (ctc/ctc.go:185-201). */
  method SymbolLoop(last: seq<Prob>, frame: Frame, lab: seq<nat>, upstream: seq<real>,
                    lastGrad: array<real>, inputGrad: array<real>, ghost parts: (int, int) -> real)
    requires |last| == Width(lab) == |upstream| == lastGrad.Length && FrameFits(frame, lab)
    requires inputGrad.Length == |frame| && lastGrad != inputGrad && parts == Parts(last, lab, upstream)
    requires lastGrad[..] == LastGradSoFar(parts, |last|, 1, true)
    requires inputGrad[..] == InputGradSoFar(frame, lab, upstream, 1, true)
    modifies lastGrad, inputGrad
    ensures lastGrad[..] == LastGradSoFar(parts, |last|, |last|, true)
    ensures inputGrad[..] == InputGradSoFar(frame, lab, upstream, |last|, true)
  {
    var i := 1;
    while i < Width(lab)
      invariant 1 <= i <= |last| && i % 2 == 1
      invariant lastGrad[..] == LastGradSoFar(parts, |last|, i, true)
      invariant inputGrad[..] == InputGradSoFar(frame, lab, upstream, i, true)
    {
      SymbolGrad(last, frame, lab, upstream, lastGrad, inputGrad, i, parts);
      i := i + 2;
    }
  }

  /** The gradients before the loops (ctc/ctc.go:173-177): zero, but for
      position 0 handing its upstream back to itself and to the blank. */
  method StartGrads(last: seq<Prob>, frame: Frame, lab: seq<nat>, upstream: seq<real>, ghost parts: (int, int) -> real)
    returns (lastGrad: array<real>, inputGrad: array<real>)
    requires |last| == Width(lab) == |upstream| && FrameFits(frame, lab) && parts == Parts(last, lab, upstream)
    ensures fresh(lastGrad) && fresh(inputGrad) && lastGrad != inputGrad
    ensures lastGrad.Length == Width(lab) && inputGrad.Length == |frame|
    ensures lastGrad[..] == LastGradSoFar(parts, |last|, 2, false)
    ensures inputGrad[..] == InputGradSoFar(frame, lab, upstream, 2, false)
  {
    lastGrad := new real[Width(lab)](_ => 0.0);
    inputGrad := new real[|frame|](_ => 0.0);
    lastGrad[0] := upstream[0];
    inputGrad[|frame| - 1] := upstream[0];
    LastGradStart(parts, Width(lab));
    InputGradStart(frame, lab, upstream);
  }

  /** PropagateGradient for one frame (ctc/ctc.go:165-209): lastGrad is the
      gradient with respect to the logs of the previous position vector,
      inputGrad the gradient with respect to the logs of the frame. */
  method PropagateGradient(last: seq<Prob>, frame: Frame, lab: seq<nat>, upstream: seq<real>)
    returns (lastGrad: array<real>, inputGrad: array<real>)
    requires |last| == Width(lab) == |upstream| && FrameFits(frame, lab)
    ensures lastGrad[..] == LastGrad(last, lab, upstream)
    ensures inputGrad[..] == InputGrad(frame, lab, upstream)
  {
    var w := Width(lab);
    ghost var parts := Parts(last, lab, upstream);
    lastGrad, inputGrad := StartGrads(last, frame, lab, upstream, parts);
    BlankLoop(last, frame, lab, upstream, lastGrad, inputGrad, parts);
    PartsVanish(last, lab, upstream);
    LastGradBlanksDone(parts, w, w + 1);
    InputGradBlanksDone(frame, lab, upstream, w + 1);
    SymbolLoop(last, frame, lab, upstream, lastGrad, inputGrad, parts);
    LastGradDone(last, lab, upstream);
    InputGradDone(frame, lab, upstream);
  }
}
