/** The brute-force reference for the CTC likelihood (exactLikelihood in
    ctc/ctc_test.go) and the proof that the banded forward recursion computes
    the same sum over alignments.

    The proof runs the reference "backwards": Suffixes(frames) holds, for
    every lattice position s, the reference likelihood of the rest of the
    label from the state that s stands for. One frame of the reference maps
    Suffixes(frames[1..]) to Suffixes(frames) by the transpose (Back) of the
    forward step, so Dot(Forward(frames, v), Suffixes([])) is invariant. */
module CtcExact {
  import opened LogDomain
  import opened Sums
  import opened CtcLattice

  /** Every frame has an entry for the symbol sym (or sym is -1). */
  predicate SymbolFits(frames: seq<Frame>, sym: int) {
    forall t :: 0 <= t < |frames| ==> sym < |frames[t]|
  }

  lemma {:induction false} SuffixFits(frames: seq<Frame>, lab: seq<nat>, k: nat)
    requires SeqFits(frames, lab) && k <= |lab|
    ensures SeqFits(frames, lab[k..])
  {
    forall t | 0 <= t < |frames|
      ensures FrameFits(frames[t], lab[k..])
    {
      assert forall i :: 0 <= i < |lab[k..]| ==> lab[k..][i] == lab[k + i];
    }
  }

  lemma {:induction false} TailFits(frames: seq<Frame>, lab: seq<nat>)
    requires SeqFits(frames, lab) && |frames| > 0
    ensures SeqFits(frames[1..], lab)
  {
    assert forall t :: 0 <= t < |frames| - 1 ==> frames[1..][t] == frames[t + 1];
  }

  /** The probability of one frame's choice times that of what follows it. */
  function Times(p: Prob, x: Prob): Prob {
    p * x
  }

  /** exactLikelihood: the probability that the frames read as lab, given
      that the previous frame emitted lastSymbol (-1 for a blank or the
      start), summed over every frame-by-frame choice by recursion on the
      first frame. */
  function ExactLikelihood(frames: seq<Frame>, lab: seq<nat>, lastSymbol: int): Prob
    requires SeqFits(frames, lab) && SymbolFits(frames, lastSymbol)
    decreases |frames|
  {
    if |frames| == 0 then (if |lab| == 0 then 1.0 else 0.0)
    else
      var next := frames[0];
      var blank := |next| - 1;
      TailFits(frames, lab);
      var rest := frames[1..];
      var res := Times(next[blank], ExactLikelihood(rest, lab, -1));
      var res' :=
        if lastSymbol >= 0 then res + Times(next[lastSymbol], ExactLikelihood(rest, lab, lastSymbol))
        else res;
      if |lab| > 0 && lab[0] != lastSymbol then
        SuffixFits(rest, lab, 1);
        res' + Times(next[lab[0]], ExactLikelihood(rest, lab[1..], lab[0]))
      else res'
  }

  /** The reference likelihood of what is left of the label from lattice
      position s: for a blank position 2j, all of lab[j..] after a blank;
      for a symbol position 2j + 1, lab[j + 1..] after having emitted lab[j]. */
  function SuffixAt(frames: seq<Frame>, lab: seq<nat>, s: nat): Prob
    requires SeqFits(frames, lab) && s < Width(lab)
  {
    SuffixFits(frames, lab, (s + 1) / 2);
    if s % 2 == 0 then ExactLikelihood(frames, lab[(s + 1) / 2..], -1)
    else ExactLikelihood(frames, lab[(s + 1) / 2..], lab[(s - 1) / 2])
  }

  function Suffixes(frames: seq<Frame>, lab: seq<nat>): (b: seq<Prob>)
    requires SeqFits(frames, lab)
    ensures |b| == Width(lab)
  {
    seq(Width(lab), s requires 0 <= s < Width(lab) => SuffixAt(frames, lab, s))
  }

  /** Position s of the transpose of the forward step: what the frame
      contributes to the positions that s may move to. */
  function BackAt(b: seq<real>, frame: Frame, lab: seq<nat>, s: nat): real
    requires |b| == Width(lab) && FrameFits(frame, lab) && s < |b|
  {
    Emit(frame, lab, s) * b[s] +
    (if s + 1 < |b| then Emit(frame, lab, s + 1) * b[s + 1] else 0.0) +
    (if CanSkip(lab, s + 2) then Emit(frame, lab, s + 2) * b[s + 2] else 0.0)
  }

  function Back(b: seq<real>, frame: Frame, lab: seq<nat>): (r: seq<real>)
    requires |b| == Width(lab) && FrameFits(frame, lab)
    ensures |r| == |b|
  {
    seq(|b|, s requires 0 <= s < |b| => BackAt(b, frame, lab, s))
  }

  /** The terms a[i] * b[i] of a dot product, 0 outside the vectors. */
  function DotTerms(a: seq<real>, b: seq<real>): int -> real {
    i => if 0 <= i < |a| && |a| == |b| then a[i] * b[i] else 0.0
  }

  function Dot(a: seq<real>, b: seq<real>): real
    requires |a| == |b|
  {
    SumTo(|a|, DotTerms(a, b))
  }

  /** exactLikelihood after its first frame, with every branch written as a
      term that is zero when the branch is not taken. */
  lemma {:induction false} ExactUnfold(frames: seq<Frame>, lab: seq<nat>, last: int)
    requires SeqFits(frames, lab) && SymbolFits(frames, last) && |frames| > 0
    ensures SeqFits(frames[1..], lab) && SymbolFits(frames[1..], last) && SymbolFits(frames[1..], -1)
    ensures |lab| > 0 ==> SeqFits(frames[1..], lab[1..]) && SymbolFits(frames[1..], lab[0])
    ensures ExactLikelihood(frames, lab, last) ==
      Times(frames[0][|frames[0]| - 1], ExactLikelihood(frames[1..], lab, -1)) +
      (if last >= 0 then Times(frames[0][last], ExactLikelihood(frames[1..], lab, last)) else 0.0) +
      (if |lab| > 0 && lab[0] != last then Times(frames[0][lab[0]], ExactLikelihood(frames[1..], lab[1..], lab[0])) else 0.0)
  {
    TailFits(frames, lab);
    if |lab| > 0 {
      SuffixFits(frames[1..], lab, 1);
    }
  }

  /** The suffix likelihood at the blank position 2j. */
  lemma {:induction false} SuffixBlank(frames: seq<Frame>, lab: seq<nat>, j: nat)
    requires SeqFits(frames, lab) && j <= |lab|
    ensures SeqFits(frames, lab[j..])
    ensures Suffixes(frames, lab)[2 * j] == ExactLikelihood(frames, lab[j..], -1)
  {
    SuffixFits(frames, lab, j);
    assert (2 * j + 1) / 2 == j;
  }

  /** The suffix likelihood at the symbol position 2j + 1. */
  lemma {:induction false} SuffixSymbol(frames: seq<Frame>, lab: seq<nat>, j: nat)
    requires SeqFits(frames, lab) && j < |lab|
    ensures SeqFits(frames, lab[j + 1..]) && SymbolFits(frames, lab[j])
    ensures Suffixes(frames, lab)[2 * j + 1] == ExactLikelihood(frames, lab[j + 1..], lab[j])
  {
    SuffixFits(frames, lab, j + 1);
    assert (2 * j + 2) / 2 == j + 1 && (2 * j) / 2 == j;
    forall t | 0 <= t < |frames|
      ensures lab[j] < |frames[t]|
    {
      assert FrameFits(frames[t], lab);
    }
  }

  /** Back at the blank position 2j; x1 stands for b[2j + 1] when that
      position exists. */
  lemma {:induction false} BackAtEven(b: seq<Prob>, f: Frame, lab: seq<nat>, j: nat, x1: Prob)
    requires |b| == Width(lab) && FrameFits(f, lab) && j <= |lab|
    requires j < |lab| ==> x1 == b[2 * j + 1]
    ensures BackAt(b, f, lab, 2 * j) ==
      Times(f[|f| - 1], b[2 * j]) + (if j < |lab| then Times(f[lab[j]], x1) else 0.0)
  {
    var s := 2 * j;
    assert Emit(f, lab, s) == f[|f| - 1];
    if j < |lab| {
      assert (s + 1 - 1) / 2 == j;
      assert Emit(f, lab, s + 1) == f[lab[j]];
    }
    assert !CanSkip(lab, s + 2);
  }

  /** exactLikelihood of lab[j..] after a blank, written over the values x0,
      x1 of its two continuations on the remaining frames. */
  lemma {:induction false} ExactEven(frames: seq<Frame>, lab: seq<nat>, j: nat, x0: Prob, x1: Prob)
    requires SeqFits(frames, lab) && |frames| > 0 && j <= |lab|
    requires SeqFits(frames[1..], lab[j..])
    requires x0 == ExactLikelihood(frames[1..], lab[j..], -1)
    requires j < |lab| ==> SeqFits(frames[1..], lab[j + 1..]) && SymbolFits(frames[1..], lab[j])
    requires j < |lab| ==> x1 == ExactLikelihood(frames[1..], lab[j + 1..], lab[j])
    ensures SeqFits(frames, lab[j..])
    ensures ExactLikelihood(frames, lab[j..], -1) ==
      Times(frames[0][|frames[0]| - 1], x0) + (if j < |lab| then Times(frames[0][lab[j]], x1) else 0.0)
  {
    SuffixFits(frames, lab, j);
    var tail := lab[j..];
    ExactUnfold(frames, tail, -1);
    if j < |lab| {
      assert tail[0] == lab[j];
      assert tail[1..] == lab[j + 1..];
    }
  }

  /** Back at the symbol position 2j + 1, with the emitted entries named;
      x2 stands for b[2j + 3] when that position exists. */
  lemma {:induction false} BackAtOdd(b: seq<Prob>, f: Frame, lab: seq<nat>, j: nat, x2: Prob)
    requires |b| == Width(lab) && FrameFits(f, lab) && j < |lab|
    requires j + 1 < |lab| ==> x2 == b[2 * j + 3]
    ensures BackAt(b, f, lab, 2 * j + 1) ==
      Times(f[lab[j]], b[2 * j + 1]) + Times(f[|f| - 1], b[2 * j + 2]) +
      (if j + 1 < |lab| && lab[j] != lab[j + 1] then Times(f[lab[j + 1]], x2) else 0.0)
  {
    var s := 2 * j + 1;
    assert (s - 1) / 2 == j && (s + 1) % 2 == 0;
    assert Emit(f, lab, s) == f[lab[j]] && Emit(f, lab, s + 1) == f[|f| - 1];
    if j + 1 < |lab| {
      assert (s + 2 - 1) / 2 == j + 1;
      assert CanSkip(lab, s + 2) == (lab[j] != lab[j + 1]);
      assert Emit(f, lab, s + 2) == f[lab[j + 1]];
    } else {
      assert !CanSkip(lab, s + 2);
    }
  }

  /** exactLikelihood after having emitted lab[j], written over the values
      x0, x1, x2 of its three continuations on the remaining frames. */
  lemma {:induction false} ExactOdd(frames: seq<Frame>, lab: seq<nat>, j: nat, x0: Prob, x1: Prob, x2: Prob)
    requires SeqFits(frames, lab) && |frames| > 0 && j < |lab|
    requires SeqFits(frames[1..], lab[j + 1..]) && SymbolFits(frames[1..], lab[j])
    requires x0 == ExactLikelihood(frames[1..], lab[j + 1..], lab[j])
    requires x1 == ExactLikelihood(frames[1..], lab[j + 1..], -1)
    requires j + 1 < |lab| ==> SeqFits(frames[1..], lab[j + 2..]) && SymbolFits(frames[1..], lab[j + 1])
    requires j + 1 < |lab| ==> x2 == ExactLikelihood(frames[1..], lab[j + 2..], lab[j + 1])
    ensures SeqFits(frames, lab[j + 1..]) && SymbolFits(frames, lab[j])
    ensures ExactLikelihood(frames, lab[j + 1..], lab[j]) ==
      Times(frames[0][lab[j]], x0) + Times(frames[0][|frames[0]| - 1], x1) +
      (if j + 1 < |lab| && lab[j] != lab[j + 1] then Times(frames[0][lab[j + 1]], x2) else 0.0)
  {
    SuffixFits(frames, lab, j + 1);
    var tail := lab[j + 1..];
    var sym := lab[j];
    assert SymbolFits(frames, sym);
    ExactUnfold(frames, tail, sym);
    if j + 1 < |lab| {
      assert tail[0] == lab[j + 1];
      assert tail[1..] == lab[j + 2..];
    }
  }

  /** At a blank position 2j the frame either emits the blank again or the
      next symbol lab[j]. */
  lemma {:induction false} StepEven(frames: seq<Frame>, lab: seq<nat>, j: nat, b: seq<Prob>)
    requires SeqFits(frames, lab) && |frames| > 0 && j <= |lab| && |b| == Width(lab)
    requires SeqFits(frames[1..], lab[j..])
    requires b[2 * j] == ExactLikelihood(frames[1..], lab[j..], -1)
    requires j < |lab| ==> SeqFits(frames[1..], lab[j + 1..]) && SymbolFits(frames[1..], lab[j])
    requires j < |lab| ==> b[2 * j + 1] == ExactLikelihood(frames[1..], lab[j + 1..], lab[j])
    ensures SeqFits(frames, lab[j..])
    ensures ExactLikelihood(frames, lab[j..], -1) == BackAt(b, frames[0], lab, 2 * j)
  {
    var x1 := if j < |lab| then b[2 * j + 1] else 0.0;
    ExactEven(frames, lab, j, b[2 * j], x1);
    BackAtEven(b, frames[0], lab, j, x1);
  }

  /** At the symbol position 2j + 1 the frame repeats lab[j], moves to the
      blank after it, or skips to lab[j + 1] when that differs from lab[j]. */
  lemma {:induction false} StepOdd(frames: seq<Frame>, lab: seq<nat>, j: nat, b: seq<Prob>)
    requires SeqFits(frames, lab) && |frames| > 0 && j < |lab| && |b| == Width(lab)
    requires SeqFits(frames[1..], lab[j + 1..]) && SymbolFits(frames[1..], lab[j])
    requires b[2 * j + 1] == ExactLikelihood(frames[1..], lab[j + 1..], lab[j])
    requires b[2 * j + 2] == ExactLikelihood(frames[1..], lab[j + 1..], -1)
    requires j + 1 < |lab| ==> SeqFits(frames[1..], lab[j + 2..]) && SymbolFits(frames[1..], lab[j + 1])
    requires j + 1 < |lab| ==> b[2 * j + 3] == ExactLikelihood(frames[1..], lab[j + 2..], lab[j + 1])
    ensures SeqFits(frames, lab[j + 1..]) && SymbolFits(frames, lab[j])
    ensures ExactLikelihood(frames, lab[j + 1..], lab[j]) == BackAt(b, frames[0], lab, 2 * j + 1)
  {
    var x2 := if j + 1 < |lab| then b[2 * j + 3] else 0.0;
    ExactOdd(frames, lab, j, b[2 * j + 1], b[2 * j + 2], x2);
    BackAtOdd(b, frames[0], lab, j, x2);
  }

  lemma {:induction false} SuffixesStepEven(frames: seq<Frame>, lab: seq<nat>, j: nat)
    requires SeqFits(frames, lab) && |frames| > 0 && j <= |lab|
    ensures SeqFits(frames[1..], lab)
    ensures Suffixes(frames, lab)[2 * j] == BackAt(Suffixes(frames[1..], lab), frames[0], lab, 2 * j)
  {
    TailFits(frames, lab);
    var rest := frames[1..];
    SuffixBlank(frames, lab, j);
    SuffixBlank(rest, lab, j);
    if j < |lab| {
      SuffixSymbol(rest, lab, j);
    }
    StepEven(frames, lab, j, Suffixes(rest, lab));
  }

  lemma {:induction false} SuffixesStepOdd(frames: seq<Frame>, lab: seq<nat>, j: nat)
    requires SeqFits(frames, lab) && |frames| > 0 && j < |lab|
    ensures SeqFits(frames[1..], lab)
    ensures Suffixes(frames, lab)[2 * j + 1] == BackAt(Suffixes(frames[1..], lab), frames[0], lab, 2 * j + 1)
  {
    TailFits(frames, lab);
    var rest := frames[1..];
    var b := Suffixes(rest, lab);
    SuffixSymbol(frames, lab, j);
    SuffixSymbol(rest, lab, j);
    SuffixBlank(rest, lab, j + 1);
    assert b[2 * j + 2] == ExactLikelihood(rest, lab[j + 1..], -1);
    if j + 1 < |lab| {
      SuffixSymbol(rest, lab, j + 1);
      assert b[2 * j + 3] == ExactLikelihood(rest, lab[j + 2..], lab[j + 1]);
    }
    StepOdd(frames, lab, j, b);
  }

  /** One frame of exactLikelihood is one application of Back. */
  lemma {:induction false} SuffixesStep(frames: seq<Frame>, lab: seq<nat>)
    requires SeqFits(frames, lab) && |frames| > 0
    ensures SeqFits(frames[1..], lab)
    ensures Suffixes(frames, lab) == Back(Suffixes(frames[1..], lab), frames[0], lab)
  {
    TailFits(frames, lab);
    var b := Suffixes(frames[1..], lab);
    forall s | 0 <= s < Width(lab)
      ensures Suffixes(frames, lab)[s] == BackAt(b, frames[0], lab, s)
    {
      var j := s / 2;
      if s % 2 == 0 {
        assert s == 2 * j;
        SuffixesStepEven(frames, lab, j);
      } else {
        assert s == 2 * j + 1;
        SuffixesStepOdd(frames, lab, j);
      }
    }
  }

  /** Emit(s) * b[s] at the lattice positions, 0 outside them. */
  function Outgoing(frame: Frame, lab: seq<nat>, b: seq<real>, i: int): real {
    if |b| == Width(lab) && FrameFits(frame, lab) && 0 <= i < |b| then Emit(frame, lab, i) * b[i] else 0.0
  }

  function Entry(alpha: seq<Prob>, i: int): real {
    if 0 <= i < |alpha| then alpha[i] else 0.0
  }

  /** The part of Dot(Step(alpha), b) that flows from position i - d to
      position i: d = 0 stays, d = 1 advances, d = 2 skips a blank. */
  function Link(alpha: seq<Prob>, frame: Frame, lab: seq<nat>, b: seq<real>, d: int, i: int): real {
    if d == 2 && !CanSkip(lab, i) then 0.0 else Outgoing(frame, lab, b, i) * Entry(alpha, i - d)
  }

  function Links(alpha: seq<Prob>, frame: Frame, lab: seq<nat>, b: seq<real>, d: int, k: int): int -> real {
    i => Link(alpha, frame, lab, b, d, i + k)
  }

  lemma {:induction false} DistributeLeft(e: real, b: real, x0: real, x1: real, x2: real)
    ensures (e * (x0 + x1 + x2)) * b == (e * b) * x0 + (e * b) * x1 + (e * b) * x2
  {
  }

  lemma {:induction false} DistributeRight(a: real, y0: real, y1: real, y2: real)
    ensures a * (y0 + y1 + y2) == y0 * a + y1 * a + y2 * a
  {
  }

  /** A term of Dot(next, b), for next = Step(alpha), splits by where
      position s is reached from. */
  lemma {:induction false} StepTerm(alpha: seq<Prob>, frame: Frame, lab: seq<nat>, b: seq<real>, next: seq<Prob>, s: nat)
    requires |alpha| == Width(lab) && |b| == Width(lab) && |next| == Width(lab) && FrameFits(frame, lab)
    requires s < Width(lab) && next[s] == Emit(frame, lab, s) * Feed(alpha, lab, s)
    ensures DotTerms(next, b)(s) ==
      Link(alpha, frame, lab, b, 0, s) + Link(alpha, frame, lab, b, 1, s) + Link(alpha, frame, lab, b, 2, s)
  {
    var e := Emit(frame, lab, s);
    var x1 := if s >= 1 then alpha[s - 1] else 0.0;
    var x2 := if CanSkip(lab, s) then alpha[s - 2] else 0.0;
    assert Feed(alpha, lab, s) == alpha[s] + x1 + x2;
    DistributeLeft(e, b[s], alpha[s], x1, x2);
    var o := e * b[s];
    assert Outgoing(frame, lab, b, s) == o;
    assert Entry(alpha, s - 1) == x1;
    assert CanSkip(lab, s) ==> Entry(alpha, s - 2) == x2;
  }

  /** A term of Dot(alpha, Back(b)) splits by where position s moves to. */
  lemma {:induction false} BackTerm(alpha: seq<Prob>, frame: Frame, lab: seq<nat>, b: seq<real>, s: nat)
    requires |alpha| == Width(lab) && |b| == Width(lab) && FrameFits(frame, lab)
    requires s < Width(lab)
    ensures DotTerms(alpha, Back(b, frame, lab))(s) ==
      Link(alpha, frame, lab, b, 0, s) + Link(alpha, frame, lab, b, 1, s + 1) + Link(alpha, frame, lab, b, 2, s + 2)
  {
    var y0 := Outgoing(frame, lab, b, s);
    var y1 := Outgoing(frame, lab, b, s + 1);
    var y2 := if CanSkip(lab, s + 2) then Outgoing(frame, lab, b, s + 2) else 0.0;
    assert Back(b, frame, lab)[s] == BackAt(b, frame, lab, s) == y0 + y1 + y2;
    DistributeRight(alpha[s], y0, y1, y2);
    assert Entry(alpha, s) == alpha[s] && Entry(alpha, s + 1 - 1) == alpha[s] && Entry(alpha, s + 2 - 2) == alpha[s];
  }

  lemma {:induction false} DotStep(alpha: seq<Prob>, frame: Frame, lab: seq<nat>, b: seq<real>)
    requires |alpha| == Width(lab) && |b| == Width(lab) && FrameFits(frame, lab)
    ensures Dot(Step(alpha, frame, lab), b) ==
      SumTo(|b|, Links(alpha, frame, lab, b, 0, 0)) + SumTo(|b|, Links(alpha, frame, lab, b, 1, 0)) +
      SumTo(|b|, Links(alpha, frame, lab, b, 2, 0))
  {
    var l0 := Links(alpha, frame, lab, b, 0, 0);
    var l1 := Links(alpha, frame, lab, b, 1, 0);
    var l2 := Links(alpha, frame, lab, b, 2, 0);
    var terms := DotTerms(Step(alpha, frame, lab), b);
    forall i | 0 <= i < |b|
      ensures terms(i) == Plus(l0, l1)(i) + l2(i)
    {
      StepIsEmitTimesFeed(alpha, frame, lab, i);
      StepTerm(alpha, frame, lab, b, Step(alpha, frame, lab), i);
    }
    SumAdd(|b|, Plus(l0, l1), l2, terms);
    SumAdd(|b|, l0, l1, Plus(l0, l1));
  }

  lemma {:induction false} DotBack(alpha: seq<Prob>, frame: Frame, lab: seq<nat>, b: seq<real>)
    requires |alpha| == Width(lab) && |b| == Width(lab) && FrameFits(frame, lab)
    ensures Dot(alpha, Back(b, frame, lab)) ==
      SumTo(|b|, Links(alpha, frame, lab, b, 0, 0)) + SumTo(|b|, Links(alpha, frame, lab, b, 1, 1)) +
      SumTo(|b|, Links(alpha, frame, lab, b, 2, 2))
  {
    var l0 := Links(alpha, frame, lab, b, 0, 0);
    var l1 := Links(alpha, frame, lab, b, 1, 1);
    var l2 := Links(alpha, frame, lab, b, 2, 2);
    var terms := DotTerms(alpha, Back(b, frame, lab));
    forall i | 0 <= i < |b|
      ensures terms(i) == Plus(l0, l1)(i) + l2(i)
    {
      BackTerm(alpha, frame, lab, b, i);
    }
    SumAdd(|b|, Plus(l0, l1), l2, terms);
    SumAdd(|b|, l0, l1, Plus(l0, l1));
  }

  /** Shifting the flow sums by the length of the move changes nothing: no
      flow enters before position 0 or leaves past the last position. */
  lemma {:induction false} LinksShift(alpha: seq<Prob>, frame: Frame, lab: seq<nat>, b: seq<real>)
    requires |alpha| == Width(lab) && |b| == Width(lab) && FrameFits(frame, lab)
    ensures SumTo(|b|, Links(alpha, frame, lab, b, 1, 1)) == SumTo(|b|, Links(alpha, frame, lab, b, 1, 0))
    ensures SumTo(|b|, Links(alpha, frame, lab, b, 2, 2)) == SumTo(|b|, Links(alpha, frame, lab, b, 2, 0))
  {
    var n := |b|;
    SumShift(n, Links(alpha, frame, lab, b, 1, 0), Links(alpha, frame, lab, b, 1, 1));
    assert Link(alpha, frame, lab, b, 1, 0) == 0.0 && Link(alpha, frame, lab, b, 1, n) == 0.0;
    SumShift(n, Links(alpha, frame, lab, b, 2, 1), Links(alpha, frame, lab, b, 2, 2));
    assert !CanSkip(lab, 1) && !CanSkip(lab, n + 1);
    SumShift(n, Links(alpha, frame, lab, b, 2, 0), Links(alpha, frame, lab, b, 2, 1));
    assert !CanSkip(lab, 0) && !CanSkip(lab, n);
  }

  /** Dot(Step(a), b) == Dot(a, Back(b)). */
  lemma {:induction false} Adjoint(alpha: seq<Prob>, frame: Frame, lab: seq<nat>, b: seq<real>)
    requires |alpha| == Width(lab) && |b| == Width(lab) && FrameFits(frame, lab)
    ensures Dot(Step(alpha, frame, lab), b) == Dot(alpha, Back(b, frame, lab))
  {
    DotStep(alpha, frame, lab, b);
    DotBack(alpha, frame, lab, b);
    LinksShift(alpha, frame, lab, b);
  }

  /** Running the frames forward preserves the pairing with the suffix
      likelihoods. */
  lemma {:induction false} ForwardAdjoint(frames: seq<Frame>, v: seq<Prob>, lab: seq<nat>)
    requires |v| == Width(lab) && SeqFits(frames, lab)
    ensures Dot(Forward(frames, v, lab), Suffixes([], lab)) == Dot(v, Suffixes(frames, lab))
    decreases |frames|
  {
    if |frames| > 0 {
      TailFits(frames, lab);
      var next := Step(v, frames[0], lab);
      ForwardAdjoint(frames[1..], next, lab);
      Adjoint(v, frames[0], lab, Suffixes(frames[1..], lab));
      SuffixesStep(frames, lab);
    }
  }

  lemma {:induction false} DotInit(lab: seq<nat>, b: seq<real>)
    requires |b| == Width(lab)
    ensures Dot(Init(lab), b) == b[0]
  {
    var v := Init(lab);
    SumSingle(|v|, 0, DotTerms(v, b));
  }

  /** With no frames left, only the two positions that have emitted the whole
      label (the trailing blank and the last symbol) have likelihood 1. */
  lemma {:induction false} DotFinal(w: seq<Prob>, lab: seq<nat>)
    requires |w| == Width(lab)
    ensures Dot(w, Suffixes([], lab)) == Final(w, lab)
  {
    var W := Width(lab);
    var b := Suffixes([], lab);
    var g := DotTerms(w, b);
    forall s | 0 <= s < W
      ensures b[s] == if s == W - 1 || (|lab| > 0 && s == W - 2) then 1.0 else 0.0
    {
      assert |lab[(s + 1) / 2..]| == |lab| - (s + 1) / 2;
    }
    if |lab| == 0 {
      SumSingle(W, 0, g);
    } else {
      var g1 := i => if i == W - 1 then w[W - 1] else 0.0;
      var g2 := i => if i == W - 2 then w[W - 2] else 0.0;
      SumAdd(W, g1, g2, g);
      SumSingle(W, W - 1, g1);
      SumSingle(W, W - 2, g2);
    }
  }

  /** The forward recursion of LogLikelihood equals the brute-force sum over
      alignments of exactLikelihood, with the repeat-symbol rule. */
  lemma {:induction false} LikelihoodIsExact(frames: seq<Frame>, lab: seq<nat>)
    requires SeqFits(frames, lab)
    ensures SymbolFits(frames, -1)
    ensures Likelihood(frames, lab) == ExactLikelihood(frames, lab, -1)
  {
    if |frames| > 0 {
      var v := Init(lab);
      ForwardAdjoint(frames, v, lab);
      DotFinal(Forward(frames, v, lab), lab);
      DotInit(lab, Suffixes(frames, lab));
      assert lab[(0 + 1) / 2..] == lab;
    }
  }
}
