/** The whole reverse pass through the result of LogLikelihood, in the
    probability domain. The final addProbabilities of the last two entries
    (ctc/ctc.go:80) hands the caller's upstream to the last position vector;
    each logLikelihoodStep, from the last frame back to the first, turns the
    upstream of its vector into the upstream of the vector before it and
    the gradient of its frame (ctc/ctc.go:165-209), and passes the first on
    to its LastProbs (ctc/ctc.go:203-205). */
module CtcBackward {
  import opened LogDomain
  import opened Sums
  import opened CtcLattice
  import opened CtcGradient
  import opened CtcLikelihood

  predicate Widths(table: seq<seq<Prob>>, lab: seq<nat>) {
    forall t :: 0 <= t < |table| ==> |table[t]| == Width(lab)
  }

  /** table holds the position vectors of the forward pass over frames. */
  predicate Forwards(frames: seq<Frame>, lab: seq<nat>, table: seq<seq<Prob>>)
    requires SeqFits(frames, lab) && |table| == |frames| + 1 && Widths(table, lab)
  {
    forall t :: 0 <= t < |frames| ==> table[t + 1] == Step(table[t], frames[t], lab)
  }

  /** The upstream that addProbabilities(entry -1, entry -2) hands to the
      last vector v. For the empty label all of it goes to the single
      entry, which is what Final reads. */
  function FinalGrad(v: seq<Prob>, lab: seq<nat>, upstream: real): (g: seq<real>)
    requires |v| == Width(lab)
    ensures |g| == |v|
  {
    var w := |v|;
    if |lab| == 0 then [upstream]
    else
      var (da, db) := AddProbabilitiesPartials(v[w - 1], v[w - 2], upstream);
      seq(w, k => if k == w - 1 then da else if k == w - 2 then db else 0.0)
  }

  /** The upstream that reaches table[t]: FinalGrad at the last vector, and
      the step's lastGrad of the upstream one vector later before it. */
  function Upstream(table: seq<seq<Prob>>, lab: seq<nat>, upstream: real, t: nat): (g: seq<real>)
    requires Widths(table, lab) && t < |table|
    ensures |g| == Width(lab)
    decreases |table| - t
  {
    if t == |table| - 1 then FinalGrad(table[t], lab, upstream)
    else LastGrad(table[t], lab, Upstream(table, lab, upstream, t + 1))
  }

  /** g gives nothing to the positions that v gives probability 0. */
  predicate Silent(v: seq<Prob>, g: seq<real>) {
    |v| == |g| && forall k :: 0 <= k < |v| && v[k] == 0.0 ==> g[k] == 0.0
  }

  /** The final sum hands on all of upstream, and only to positions it
      reads a non-zero probability from, when the likelihood is non-zero. */
  lemma {:induction false} FinalGradConserves(v: seq<Prob>, lab: seq<nat>, upstream: real)
    requires |v| == Width(lab) && Final(v, lab) != 0.0
    ensures Total(FinalGrad(v, lab, upstream)) == upstream
    ensures Silent(v, FinalGrad(v, lab, upstream))
  {
    var g := FinalGrad(v, lab, upstream);
    var w := |v|;
    if |lab| == 0 {
      assert SumTo(1, Entries(g)) == SumTo(0, Entries(g)) + g[0];
    } else {
      var h := Entries(g);
      assert SumTo(w, h) == SumTo(w - 1, h) + g[w - 1];
      SumSingle(w - 1, w - 2, h);
    }
  }

  /** One step back: when nothing reaches the zero positions of the step's
      result, lastGrad keeps all of upstream and reaches nothing that the
      previous vector gives probability 0. */
  lemma {:induction false} StepBack(last: seq<Prob>, frame: Frame, lab: seq<nat>, up: seq<real>)
    requires |last| == Width(lab) && FrameFits(frame, lab) && Silent(Step(last, frame, lab), up)
    ensures Total(LastGrad(last, lab, up)) == Total(up)
    ensures Silent(last, LastGrad(last, lab, up))
  {
    var next := Step(last, frame, lab);
    forall s | 0 <= s < |up|
      ensures Kept(last, lab, up)[s] == up[s]
    {
      StepIsEmitTimesFeed(last, frame, lab, s);
    }
    assert Kept(last, lab, up) == up;
    LastGradConserves(last, lab, up);
    forall k | 0 <= k < |last| && last[k] == 0.0
      ensures LastGrad(last, lab, up)[k] == 0.0
    {
      StepIsEmitTimesFeed(last, frame, lab, 0);
      assert Part(last, lab, up, k, 0) == 0.0;
      assert Part(last, lab, up, k + 1, 1) == 0.0;
      assert Part(last, lab, up, k + 2, 2) == 0.0;
    }
  }

  /** Every vector's upstream adds up to the caller's upstream when the
      likelihood is non-zero. */
  lemma {:induction false} UpstreamConserves(frames: seq<Frame>, lab: seq<nat>, table: seq<seq<Prob>>,
                                             upstream: real, t: nat)
    requires SeqFits(frames, lab) && |table| == |frames| + 1 && Widths(table, lab)
    requires Forwards(frames, lab, table) && Final(table[|frames|], lab) != 0.0 && t <= |frames|
    ensures Total(Upstream(table, lab, upstream, t)) == upstream
    ensures Silent(table[t], Upstream(table, lab, upstream, t))
    decreases |frames| - t
  {
    if t == |frames| {
      FinalGradConserves(table[t], lab, upstream);
    } else {
      UpstreamConserves(frames, lab, table, upstream, t + 1);
      StepBack(table[t], frames[t], lab, Upstream(table, lab, upstream, t + 1));
    }
  }

  /** Every frame's gradient adds up to the caller's upstream when the
      likelihood is non-zero. */
  lemma {:induction false} FrameGradConserves(frames: seq<Frame>, lab: seq<nat>, table: seq<seq<Prob>>,
                                              upstream: real, t: nat)
    requires SeqFits(frames, lab) && |table| == |frames| + 1 && Widths(table, lab)
    requires Forwards(frames, lab, table) && Final(table[|frames|], lab) != 0.0 && t < |frames|
    ensures Total(InputGrad(frames[t], lab, Upstream(table, lab, upstream, t + 1))) == upstream
  {
    UpstreamConserves(frames, lab, table, upstream, t + 1);
    InputGradConserves(frames[t], lab, Upstream(table, lab, upstream, t + 1));
  }

  /** grads holds the gradients of frames t, t + 1, ... in order. */
  predicate GradsFrom(frames: seq<Frame>, lab: seq<nat>, table: seq<seq<Prob>>, upstream: real,
                      t: nat, grads: seq<seq<real>>)
    requires SeqFits(frames, lab) && |table| == |frames| + 1 && Widths(table, lab)
  {
    t + |grads| == |frames| &&
    forall k :: 0 <= k < |grads| ==> grads[k] == InputGrad(frames[t + k], lab, Upstream(table, lab, upstream, t + k + 1))
  }

  /** Putting frame t - 1's gradient in front extends the run of gradients
      back by one frame. */
  lemma {:induction false} GradsFromStep(frames: seq<Frame>, lab: seq<nat>, table: seq<seq<Prob>>, upstream: real,
                                         t: nat, grads: seq<seq<real>>, g: seq<real>)
    requires SeqFits(frames, lab) && |table| == |frames| + 1 && Widths(table, lab) && 0 < t <= |frames|
    requires GradsFrom(frames, lab, table, upstream, t, grads)
    requires g == InputGrad(frames[t - 1], lab, Upstream(table, lab, upstream, t))
    ensures GradsFrom(frames, lab, table, upstream, t - 1, [g] + grads)
  {
    var r := [g] + grads;
    forall k | 0 <= k < |r|
      ensures r[k] == InputGrad(frames[t - 1 + k], lab, Upstream(table, lab, upstream, t - 1 + k + 1))
    {
      if k > 0 {
        assert r[k] == grads[k - 1];
      }
    }
  }

  /** PropagateGradient on the result of LogLikelihood: the seed from the
      final sum, then one step per frame from the last to the first, each
      lastGrad becoming the next step's upstream. inputGrads[t] is the
      gradient that reaches frame t. With no frames the result is a
      constant and nothing is propagated. */
  method PropagateAll(frames: seq<Frame>, lab: seq<nat>, table: seq<seq<Prob>>, upstream: real)
    returns (inputGrads: seq<seq<real>>)
    requires SeqFits(frames, lab) && |table| == |frames| + 1 && Widths(table, lab)
    ensures |inputGrads| == |frames|
    ensures forall t :: 0 <= t < |frames| ==>
              inputGrads[t] == InputGrad(frames[t], lab, Upstream(table, lab, upstream, t + 1))
    ensures Forwards(frames, lab, table) && Final(table[|frames|], lab) != 0.0 ==>
              forall t :: 0 <= t < |frames| ==> Total(inputGrads[t]) == upstream
  {
    inputGrads := [];
    if |frames| == 0 {
      return;
    }
    var t := |frames|;
    var up := FinalGrad(table[t], lab, upstream);
    while t > 0
      invariant 0 <= t <= |frames|
      invariant up == Upstream(table, lab, upstream, t)
      invariant GradsFrom(frames, lab, table, upstream, t, inputGrads)
    {
      var lastGrad, inputGrad := PropagateGradient(table[t - 1], frames[t - 1], lab, up);
      GradsFromStep(frames, lab, table, upstream, t, inputGrads, inputGrad[..]);
      inputGrads := [inputGrad[..]] + inputGrads;
      up := lastGrad[..];
      t := t - 1;
    }
    GradsConserve(frames, lab, table, upstream, inputGrads);
  }

  /** The gradients of all frames each add up to upstream when the
      likelihood is non-zero. */
  lemma {:induction false} GradsConserve(frames: seq<Frame>, lab: seq<nat>, table: seq<seq<Prob>>, upstream: real,
                                         grads: seq<seq<real>>)
    requires SeqFits(frames, lab) && |table| == |frames| + 1 && Widths(table, lab)
    requires GradsFrom(frames, lab, table, upstream, 0, grads)
    ensures Forwards(frames, lab, table) && Final(table[|frames|], lab) != 0.0 ==>
              forall t :: 0 <= t < |frames| ==> Total(grads[t]) == upstream
  {
    if Forwards(frames, lab, table) && Final(table[|frames|], lab) != 0.0 {
      forall t | 0 <= t < |frames|
        ensures Total(grads[t]) == upstream
      {
        FrameGradConserves(frames, lab, table, upstream, t);
      }
    }
  }

  /** The likelihood and the gradient of its log with respect to the logs
      of every frame, scaled by upstream: each frame's gradient adds up to
      upstream whenever the likelihood is non-zero. */
  method LikelihoodGradient(frames: seq<Frame>, lab: seq<nat>, upstream: real)
    returns (r: Prob, inputGrads: seq<seq<real>>)
    requires SeqFits(frames, lab)
    ensures r == Likelihood(frames, lab) && |inputGrads| == |frames|
    ensures r != 0.0 ==> forall t :: 0 <= t < |frames| ==> Total(inputGrads[t]) == upstream
  {
    var table;
    r, table := LogLikelihood(frames, lab);
    inputGrads := PropagateAll(frames, lab, table, upstream);
  }
}
