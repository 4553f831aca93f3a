/** Log-domain arithmetic of the CTC package.

    The Go code stores every probability as its natural logarithm (a float64,
    with -inf for probability 0). Dafny has no exp or log, so this model keeps
    each such value in the probability domain: a log value x is represented by
    p = exp(x) >= 0, and -inf by 0. Under that reading "adding two logs" is a
    product, "logAdd" is a sum, and the gradient formulas exp(a - logAdd(a, b))
    become ratios p / (p + q). Gradients and tangents are ordinary reals in both
    readings. The functions below keep the branch structure of the Go code
    (the -inf tests and the max normaliser) and prove what it computes. */
module LogDomain {

  /** exp of a float64 log-probability; 0.0 stands for -inf. */
  type Prob = r: real | 0.0 <= r

  function Max(a: real, b: real): real {
    if a >= b then a else b
  }

  /** addProbabilitiesFloat: log(exp(a) + exp(b)) computed around the larger
      operand, with -inf (zero) in either argument returned exactly. */
  function AddProbabilities(a: Prob, b: Prob): (r: Prob)
    ensures r == a + b
    ensures a == 0.0 ==> r == b
    ensures b == 0.0 ==> r == a
  {
    if a == 0.0 then b
    else if b == 0.0 then a
    else
      var normalizer := Max(a, b);
      var exp1 := a / normalizer;
      var exp2 := b / normalizer;
      (exp1 + exp2) * normalizer
  }

  /** The share of an upstream gradient that the operand x of a sum s
      receives: upstream * exp(x - log s), and 0 when the sum is zero. */
  function Share(upstream: real, x: Prob, s: Prob): real {
    if s == 0.0 then 0.0 else upstream * x / s
  }

  /** productSumPartials: the partial derivatives of logAdd(a, b) with respect
      to a and b, scaled by upstream. */
  function ProductSumPartials(a: Prob, b: Prob, upstream: real): (r: (real, real))
    ensures a == 0.0 && b == 0.0 ==> r == (0.0, 0.0)
    ensures r.0 == Share(upstream, a, a + b) && r.1 == Share(upstream, b, a + b)
    ensures !(a == 0.0 && b == 0.0) ==> r.0 + r.1 == upstream
  {
    if a == 0.0 && b == 0.0 then (0.0, 0.0)
    else
      var denom := AddProbabilities(a, b);
      var daExp := a / denom;
      var dbExp := b / denom;
      SplitSum(upstream, a, b);
      (upstream * daExp, upstream * dbExp)
  }

  /** upstream * (x / s) is Share's upstream * x / s, and the two shares of a
      non-zero sum add back up to upstream. */
  lemma SplitSum(upstream: real, a: Prob, b: Prob)
    requires a + b != 0.0
    ensures upstream * (a / (a + b)) == Share(upstream, a, a + b)
    ensures upstream * (b / (a + b)) == Share(upstream, b, a + b)
    ensures Share(upstream, a, a + b) + Share(upstream, b, a + b) == upstream
  {
    var s := a + b;
    assert upstream * (a / s) == (upstream * a) / s;
    assert upstream * (b / s) == (upstream * b) / s;
    assert (upstream * a) / s + (upstream * b) / s == (upstream * (a + b)) / s;
  }

  /** Shares of the same sum add up. */
  lemma ShareAdd(upstream: real, x: Prob, y: Prob, s: Prob)
    ensures Share(upstream, x, s) + Share(upstream, y, s) == Share(upstream, x + y, s)
  {
    if s != 0.0 {
      assert upstream * x / s + upstream * y / s == upstream * (x + y) / s;
    }
  }

  /** The partials of the addProbabilities graph node (ctc/ctc.go:339-353)
      with respect to the logs of its operands a and b. A zero operand makes
      the node return the other one unchanged, which then receives all of
      upstream; this includes a == b == 0, where the node returns b. */
  function AddProbabilitiesPartials(a: Prob, b: Prob, upstream: real): (r: (real, real))
    ensures r.0 + r.1 == upstream
    ensures a + b != 0.0 ==> r == (Share(upstream, a, a + b), Share(upstream, b, a + b))
    ensures a == 0.0 ==> r == (0.0, upstream)
  {
    if a == 0.0 then
      ShareWhole(upstream, b);
      (0.0, upstream)
    else if b == 0.0 then
      ShareWhole(upstream, a);
      (upstream, 0.0)
    else
      SplitSum(upstream, a, b);
      (upstream * (a / (a + b)), upstream * (b / (a + b)))
  }

  /** The share of the whole sum is all of upstream, unless the sum is 0. */
  lemma ShareWhole(upstream: real, s: Prob)
    ensures Share(upstream, s, s) == if s == 0.0 then 0.0 else upstream
  {
  }

  /** Splitting upstream over (x2 + x1, x0) and then splitting the first
      part over (x2, x1), as the reverse pass does at a position that may
      skip, hands each operand its share of the whole sum x2 + x1 + x0. */
  lemma ChainedShares(x2: Prob, x1: Prob, x0: Prob, upstream: real)
    ensures ProductSumPartials(AddProbabilities(x2, x1), x0, upstream).1 == Share(upstream, x0, x2 + x1 + x0)
    ensures ProductSumPartials(x2, x1, ProductSumPartials(AddProbabilities(x2, x1), x0, upstream).0) ==
            (Share(upstream, x2, x2 + x1 + x0), Share(upstream, x1, x2 + x1 + x0))
  {
    var a := AddProbabilities(x2, x1);
    var s := x2 + x1 + x0;
    assert a + x0 == s;
    var da := ProductSumPartials(a, x0, upstream).0;
    assert da == Share(upstream, a, s);
    if a != 0.0 {
      assert s != 0.0;
      NestedShare(upstream, x2, a, s);
      NestedShare(upstream, x1, a, s);
    }
  }

  /** The share of x in a of the share of a in s is the share of x in s. */
  lemma NestedShare(upstream: real, x: Prob, a: Prob, s: Prob)
    requires a != 0.0 && s != 0.0
    ensures Share(Share(upstream, a, s), x, a) == Share(upstream, x, s)
  {
    calc {
      Share(Share(upstream, a, s), x, a);
      (upstream * a / s) * x / a;
      { assert (upstream * a / s) * x == (upstream * x / s) * a; }
      (upstream * x / s) * a / a;
      upstream * x / s;
    }
  }

  /** addProbabilitiesFloatR: logAdd together with its directional
      derivative, given the tangents aR and bR of the two operands. */
  function AddProbabilitiesR(a: Prob, aR: real, b: Prob, bR: real): (r: (Prob, real))
    ensures r.0 == AddProbabilities(a, b)
    ensures a == 0.0 ==> r.1 == bR
    ensures a != 0.0 && b == 0.0 ==> r.1 == aR
    ensures a != 0.0 && b != 0.0 ==> r.1 == (a * aR + b * bR) / (a + b)
    ensures aR == 0.0 && bR == 0.0 ==> r.1 == 0.0
  {
    if a == 0.0 then (b, bR)
    else if b == 0.0 then (a, aR)
    else
      var normalizer := Max(a, b);
      var exp1 := a / normalizer;
      var exp2 := b / normalizer;
      ((exp1 + exp2) * normalizer, (exp1 * aR + exp2 * bR) / (exp1 + exp2))
  }

  /** productSumPartialsR: productSumPartials together with the tangents of
      the two partials. Its primal outputs are those of ProductSumPartials, and
      with every tangent zero so are its tangent outputs. */
  function ProductSumPartialsR(a: Prob, aR: real, b: Prob, bR: real,
                               upstream: real, upstreamR: real): (r: (real, real, real, real))
    ensures (r.0, r.2) == ProductSumPartials(a, b, upstream)
    ensures aR == 0.0 && bR == 0.0 && upstreamR == 0.0 ==> r.1 == 0.0 && r.3 == 0.0
  {
    if a == 0.0 && b == 0.0 then (0.0, 0.0, 0.0, 0.0)
    else
      var (denom, denomR) := AddProbabilitiesR(a, aR, b, bR);
      assert denom == AddProbabilities(a, b);
      var daExp := a / denom;
      var dbExp := b / denom;
      var daR := upstreamR * daExp + upstream * daExp * (aR - denomR);
      var dbR := upstreamR * dbExp + upstream * dbExp * (bR - denomR);
      SplitSum(upstream, a, b);
      assert denom == a + b;
      assert upstream * daExp == ProductSumPartials(a, b, upstream).0;
      assert upstream * dbExp == ProductSumPartials(a, b, upstream).1;
      assert aR == 0.0 && bR == 0.0 && upstreamR == 0.0 ==> denomR == 0.0 && daR == 0.0 && dbR == 0.0;
      (upstream * daExp, daR, upstream * dbExp, dbR)
  }

  /** logAdd has -inf as an exact identity and does not depend on the order
      of its operands. */
  lemma AddProbabilitiesIdentityAndSymmetry(a: Prob, b: Prob)
    ensures AddProbabilities(0.0, b) == b && AddProbabilities(a, 0.0) == a
    ensures AddProbabilities(a, b) == AddProbabilities(b, a)
  {
  }
}
