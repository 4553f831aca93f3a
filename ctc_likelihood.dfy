/** LogLikelihood (ctc/ctc.go:30-81) as the loops it runs: one fresh
    position vector per frame, filled first at the even (blank) positions
    and then at the odd (symbol) positions, in the probability domain.

    The method also returns the chain of position vectors it built; the Go
    code keeps the same chain as the LastProbs links of its logLikelihoodStep
    values, which the reverse pass later reads. */
module CtcLikelihood {
  import opened LogDomain
  import opened CtcLattice
  import opened CtcExact

  /** The initial position vector (ctc/ctc.go:45-49). */
  method InitProbs(lab: seq<nat>) returns (probs: array<Prob>)
    ensures fresh(probs) && probs[..] == Init(lab)
  {
    probs := new Prob[Width(lab)](_ => 0.0);
    probs[0] := 1.0;
    var i := 1;
    while i < probs.Length
      invariant 1 <= i <= probs.Length
      invariant probs[0] == 1.0
      invariant forall k :: 1 <= k < probs.Length ==> probs[k] == 0.0
    {
      probs[i] := 0.0;
      i := i + 1;
    }
  }

  /** A vector whose every position holds Emit * Feed is the step. */
  lemma {:induction false} EmitFeedIsStep(last: seq<Prob>, next: seq<Prob>, frame: Frame, lab: seq<nat>)
    requires |last| == Width(lab) && |next| == |last| && FrameFits(frame, lab)
    requires forall k :: 0 <= k < |next| ==> next[k] == Emit(frame, lab, k) * Feed(last, lab, k)
    ensures next == Step(last, frame, lab)
  {
    forall k | 0 <= k < |next|
      ensures next[k] == Step(last, frame, lab)[k]
    {
      StepIsEmitTimesFeed(last, frame, lab, k);
    }
  }

  /** The probability of blank position i after the frame: position 0
      (ctc/ctc.go:58) and the body of the blank loop (ctc/ctc.go:60-61). */
  method BlankEntry(last: seq<Prob>, frame: Frame, lab: seq<nat>, i: nat) returns (v: Prob)
    requires |last| == Width(lab) && FrameFits(frame, lab) && i < |last| && i % 2 == 0
    ensures v == Emit(frame, lab, i) * Feed(last, lab, i)
  {
    if i == 0 {
      v := last[0] * frame[|frame| - 1];
    } else {
      v := AddProbabilities(last[i - 1], last[i]) * frame[|frame| - 1];
    }
    assert !CanSkip(lab, i);
  }

  lemma SymbolFeed(last: seq<Prob>, lab: seq<nat>, i: nat, positionSum: Prob)
    requires |last| == Width(lab) && i < |last| && i % 2 == 1
    requires positionSum == last[i] + last[i - 1] +
      (if (i - 1) / 2 > 0 && lab[(i - 1) / 2 - 1] != lab[(i - 1) / 2] then last[i - 2] else 0.0)
    ensures positionSum == Feed(last, lab, i)
  {
  }

  /** The body of the symbol loop (ctc/ctc.go:64-70): the probability of
      symbol position i after the frame. */
  method SymbolEntry(last: seq<Prob>, frame: Frame, lab: seq<nat>, i: nat) returns (v: Prob)
    requires |last| == Width(lab) && FrameFits(frame, lab) && i < |last| && i % 2 == 1
    ensures v == Emit(frame, lab, i) * Feed(last, lab, i)
  {
    var labIdx := (i - 1) / 2;
    var positionSum := AddProbabilities(last[i], last[i - 1]);
    if labIdx > 0 && lab[labIdx - 1] != lab[labIdx] {
      positionSum := AddProbabilities(positionSum, last[i - 2]);
    }
    SymbolFeed(last, lab, i, positionSum);
    v := frame[lab[labIdx]] * positionSum;
  }

  /** The blank positions of one frame step (ctc/ctc.go:58-62); target holds
      the values the whole step must produce, and the symbol positions are
      left as they are. */
  method BlankPass(last: seq<Prob>, newProbs: array<Prob>, frame: Frame, lab: seq<nat>, ghost target: seq<Prob>)
    requires |last| == Width(lab) == newProbs.Length == |target| && FrameFits(frame, lab)
    requires forall k :: 0 <= k < |target| ==> target[k] == Emit(frame, lab, k) * Feed(last, lab, k)
    modifies newProbs
    ensures forall k :: 0 <= k < newProbs.Length && k % 2 == 1 ==> newProbs[k] == old(newProbs[k])
    ensures forall k :: 0 <= k < newProbs.Length && k % 2 == 0 ==> newProbs[k] == target[k]
  {
    var w := Width(lab);
    newProbs[0] := BlankEntry(last, frame, lab, 0);
    var i := 2;
    while i < w
      invariant 2 <= i <= w + 1 && i % 2 == 0
      invariant forall k :: 0 <= k < w ==> newProbs[k] == if k < i && k % 2 == 0 then target[k] else old(newProbs[k])
    {
      var v := BlankEntry(last, frame, lab, i);
      newProbs[i] := v;
      i := i + 2;
    }
  }

  /** The symbol positions of one frame step (ctc/ctc.go:63-71), with the
      skip from two positions back taken only between differing symbols; the
      blank positions are left as they are. */
  method SymbolPass(last: seq<Prob>, newProbs: array<Prob>, frame: Frame, lab: seq<nat>, ghost target: seq<Prob>)
    requires |last| == Width(lab) == newProbs.Length == |target| && FrameFits(frame, lab)
    requires forall k :: 0 <= k < |target| ==> target[k] == Emit(frame, lab, k) * Feed(last, lab, k)
    modifies newProbs
    ensures forall k :: 0 <= k < newProbs.Length && k % 2 == 0 ==> newProbs[k] == old(newProbs[k])
    ensures forall k :: 0 <= k < newProbs.Length && k % 2 == 1 ==> newProbs[k] == target[k]
  {
    var w := Width(lab);
    var i := 1;
    while i < w
      invariant 1 <= i <= w + 1 && i % 2 == 1
      invariant forall k :: 0 <= k < w ==> newProbs[k] == if k < i && k % 2 == 1 then target[k] else old(newProbs[k])
    {
      var v := SymbolEntry(last, frame, lab, i);
      newProbs[i] := v;
      i := i + 2;
    }
  }

  /** One iteration of the frame loop (ctc/ctc.go:55-71): newProbs from last. */
  method StepProbs(last: seq<Prob>, frame: Frame, lab: seq<nat>) returns (newProbs: array<Prob>)
    requires |last| == Width(lab) && FrameFits(frame, lab)
    ensures fresh(newProbs) && newProbs[..] == Step(last, frame, lab)
  {
    ghost var target := seq(|last|, k requires 0 <= k < |last| => Emit(frame, lab, k) * Feed(last, lab, k));
    newProbs := new Prob[|last|](_ => 0.0);
    BlankPass(last, newProbs, frame, lab, target);
    SymbolPass(last, newProbs, frame, lab, target);
    assert newProbs[..] == target;
    EmitFeedIsStep(last, target, frame, lab);
  }

  /** Running the lattice over frames[t..] is one step on frames[t], then
      the rest. */
  lemma ForwardStep(frames: seq<Frame>, v: seq<Prob>, lab: seq<nat>, t: nat)
    requires SeqFits(frames, lab) && t < |frames| && |v| == Width(lab)
    ensures SeqFits(frames[t..], lab) && SeqFits(frames[t + 1..], lab)
    ensures Forward(frames[t..], v, lab) == Forward(frames[t + 1..], Step(v, frames[t], lab), lab)
  {
    assert forall k :: 0 <= k < |frames| - t ==> frames[t..][k] == frames[t + k];
    assert frames[t..][0] == frames[t] && frames[t..][1..] == frames[t + 1..];
  }

  /** LogLikelihood, exponentiated. r is the likelihood of lab given the
      frames, and table[t] is the position vector after t frames. */
  method LogLikelihood(frames: seq<Frame>, lab: seq<nat>) returns (r: Prob, table: seq<seq<Prob>>)
    requires SeqFits(frames, lab)
    ensures |frames| == 0 ==> r == (if |lab| == 0 then 1.0 else 0.0)
    ensures |table| == |frames| + 1 && table[0] == Init(lab)
    ensures forall t :: 0 <= t < |table| ==> |table[t]| == Width(lab)
    ensures forall t :: 0 <= t < |frames| ==> table[t + 1] == Step(table[t], frames[t], lab)
    ensures |frames| > 0 ==> r == Final(table[|frames|], lab)
    ensures r == Likelihood(frames, lab) == ExactLikelihood(frames, lab, -1)
  {
    LikelihoodIsExact(frames, lab);
    if |frames| == 0 {
      table := [Init(lab)];
      if |lab| == 0 {
        return 1.0, table;
      } else {
        return 0.0, table;
      }
    }
    var probs := InitProbs(lab);
    table := [probs[..]];
    var t := 0;
    while t < |frames|
      invariant 0 <= t <= |frames|
      invariant probs.Length == Width(lab)
      invariant |table| == t + 1 && table[0] == Init(lab) && table[t] == probs[..]
      invariant forall k :: 0 <= k < |table| ==> |table[k]| == Width(lab)
      invariant forall k :: 0 <= k < t ==> table[k + 1] == Step(table[k], frames[k], lab)
      invariant Forward(frames[t..], probs[..], lab) == Forward(frames, Init(lab), lab)
    {
      ForwardStep(frames, probs[..], lab, t);
      probs := StepProbs(probs[..], frames[t], lab);
      table := table + [probs[..]];
      t := t + 1;
    }
    r := Final(probs[..], lab);
  }
}
