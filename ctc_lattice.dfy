/** The blank-augmented label lattice of LogLikelihood (ctc/ctc.go) and the
    forward step it applies once per frame, in the probability domain.

    For a label of length L the lattice has 2L + 1 positions: even positions
    are blanks, position 2j + 1 holds label[j]. A frame is the vector of
    (exponentiated) output probabilities whose last entry is the blank. */
module CtcLattice {
  import opened LogDomain

  type Frame = seq<Prob>

  /** A frame has a blank entry and an entry for every label symbol. */
  predicate FrameFits(frame: Frame, lab: seq<nat>) {
    |frame| >= 1 && forall i :: 0 <= i < |lab| ==> lab[i] < |frame|
  }

  predicate SeqFits(frames: seq<Frame>, lab: seq<nat>) {
    forall t :: 0 <= t < |frames| ==> FrameFits(frames[t], lab)
  }

  /** Number of lattice positions, 2L + 1. */
  function Width(lab: seq<nat>): nat {
    2 * |lab| + 1
  }

  /** The index of the frame entry that lattice position s emits: the blank
      at even positions, label[(s - 1) / 2] at odd ones. */
  function EmitIndex(frame: Frame, lab: seq<nat>, s: int): (k: nat)
    requires FrameFits(frame, lab) && 0 <= s < Width(lab)
    ensures k < |frame|
  {
    if s % 2 == 0 then |frame| - 1 else lab[(s - 1) / 2]
  }

  /** The probability of the frame entry that lattice position s emits. */
  function Emit(frame: Frame, lab: seq<nat>, s: int): Prob
    requires FrameFits(frame, lab) && 0 <= s < Width(lab)
  {
    frame[EmitIndex(frame, lab, s)]
  }

  /** The repeat-symbol rule: an odd position may be reached directly from
      two positions back only when its symbol differs from the previous one. */
  predicate CanSkip(lab: seq<nat>, s: int) {
    0 <= s < Width(lab) && s % 2 == 1 && (s - 1) / 2 > 0 &&
    lab[(s - 1) / 2 - 1] != lab[(s - 1) / 2]
  }

  /** The value newProbs[i] of one frame step (ctc/ctc.go:58-71). */
  function StepAt(last: seq<Prob>, frame: Frame, lab: seq<nat>, i: nat): Prob
    requires |last| == Width(lab) && FrameFits(frame, lab) && i < |last|
  {
    var blank := frame[|frame| - 1];
    if i == 0 then last[0] * blank
    else if i % 2 == 0 then AddProbabilities(last[i - 1], last[i]) * blank
    else
      var labIdx := (i - 1) / 2;
      var positionSum := AddProbabilities(last[i], last[i - 1]);
      var positionSum' :=
        if labIdx > 0 && lab[labIdx - 1] != lab[labIdx]
        then AddProbabilities(positionSum, last[i - 2])
        else positionSum;
      frame[lab[labIdx]] * positionSum'
  }

  /** The new position vector after one frame. */
  function Step(last: seq<Prob>, frame: Frame, lab: seq<nat>): (next: seq<Prob>)
    requires |last| == Width(lab) && FrameFits(frame, lab)
    ensures |next| == |last|
  {
    seq(|last|, i requires 0 <= i < |last| => StepAt(last, frame, lab, i))
  }

  /** Sum of the entries of the previous vector that position s reads from. */
  function Feed(last: seq<Prob>, lab: seq<nat>, s: nat): Prob
    requires |last| == Width(lab) && s < |last|
  {
    last[s] + (if s >= 1 then last[s - 1] else 0.0) +
    (if CanSkip(lab, s) then last[s - 2] else 0.0)
  }

  lemma BlankStep(last: seq<Prob>, frame: Frame, lab: seq<nat>, s: nat)
    requires |last| == Width(lab) && FrameFits(frame, lab) && s < |last| && s % 2 == 0
    ensures StepAt(last, frame, lab, s) == Emit(frame, lab, s) * Feed(last, lab, s)
  {
    assert !CanSkip(lab, s);
  }

  lemma SymbolStep(last: seq<Prob>, frame: Frame, lab: seq<nat>, s: nat)
    requires |last| == Width(lab) && FrameFits(frame, lab) && s < |last| && s % 2 == 1
    ensures StepAt(last, frame, lab, s) == Emit(frame, lab, s) * Feed(last, lab, s)
  {
    var j := (s - 1) / 2;
    assert CanSkip(lab, s) == (j > 0 && lab[j - 1] != lab[j]);
  }

  /** Each new position is the probability of the frame entry it emits times
      the total probability of the positions it may be reached from: itself,
      the position before it, and the one before that when the repeat rule
      allows the skip. */
  lemma StepIsEmitTimesFeed(last: seq<Prob>, frame: Frame, lab: seq<nat>, s: nat)
    requires |last| == Width(lab) && FrameFits(frame, lab) && s < |last|
    ensures Step(last, frame, lab)[s] == Emit(frame, lab, s) * Feed(last, lab, s)
  {
    if s % 2 == 0 {
      BlankStep(last, frame, lab, s);
    } else {
      SymbolStep(last, frame, lab, s);
    }
  }

  /** The position vector before the first frame (ctc/ctc.go:45-49): 0 (log 1)
      at position 0 and -inf (probability 0) everywhere else. */
  function Init(lab: seq<nat>): (v: seq<Prob>)
    ensures |v| == Width(lab) && v[0] == 1.0
    ensures forall s :: 1 <= s < |v| ==> v[s] == 0.0
  {
    seq(Width(lab), i => if i == 0 then 1.0 else 0.0)
  }

  /** The position vector after running the frames from v. */
  function Forward(frames: seq<Frame>, v: seq<Prob>, lab: seq<nat>): (w: seq<Prob>)
    requires |v| == Width(lab) && SeqFits(frames, lab)
    ensures |w| == Width(lab)
    decreases |frames|
  {
    if |frames| == 0 then v
    else Forward(frames[1..], Step(v, frames[0], lab), lab)
  }

  /** The last line of LogLikelihood: logAdd of the final two positions (the
      trailing blank and the last symbol). A label-free lattice has only one
      position, which is the result. */
  function Final(v: seq<Prob>, lab: seq<nat>): Prob
    requires |v| == Width(lab)
  {
    if |lab| == 0 then v[0] else AddProbabilities(v[|v| - 1], v[|v| - 2])
  }

  /** LogLikelihood exponentiated: 1 (log 0) for no frames and no label,
      0 (log -inf) for no frames and a label, the finished lattice otherwise. */
  function Likelihood(frames: seq<Frame>, lab: seq<nat>): Prob
    requires SeqFits(frames, lab)
  {
    if |frames| == 0 then (if |lab| == 0 then 1.0 else 0.0)
    else Final(Forward(frames, Init(lab), lab), lab)
  }
}
