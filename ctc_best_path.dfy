/** Best path decoding (ctc/best_path.go): the most likely entry of every
    frame, with consecutive repeats merged and blanks dropped. A frame is a
    vector of log probabilities whose last entry is the blank; only the order
    of the entries matters here, so they are plain reals. */
module CtcBestPath {

  /** k holds the largest entry of vec, and no later entry is as large. */
  predicate IsLastMax(vec: seq<real>, k: int) {
    0 <= k < |vec| &&
    (forall j :: 0 <= j < |vec| ==> vec[j] <= vec[k]) &&
    (forall j :: k < j < |vec| ==> vec[j] < vec[k])
  }

  /** maxIdx as a reference: the index that a left-to-right scan keeping the
      later of two equal values ends on; 0 for an empty vector. */
  function ArgMax(vec: seq<real>): (k: nat)
    ensures |vec| == 0 ==> k == 0
    ensures |vec| > 0 ==> IsLastMax(vec, k)
  {
    if |vec| <= 1 then 0
    else
      var k := ArgMax(vec[..|vec| - 1]);
      if vec[|vec| - 1] >= vec[k] then |vec| - 1 else k
  }

  /** maxIdx (ctc/best_path.go:21-31): the index of the largest entry, the
      highest such index on ties (the test is >=), and 0 for an empty vector. */
  method MaxIdx(vec: seq<real>) returns (maxIdx: nat)
    ensures |vec| == 0 ==> maxIdx == 0
    ensures |vec| > 0 ==> IsLastMax(vec, maxIdx)
    ensures maxIdx == ArgMax(vec)
  {
    var maxVal := 0.0;
    maxIdx := 0;
    var i := 0;
    while i < |vec|
      invariant 0 <= i <= |vec|
      invariant i == 0 ==> maxIdx == 0
      invariant i > 0 ==> maxIdx == ArgMax(vec[..i]) && maxVal == vec[maxIdx]
    {
      assert vec[..i + 1][..i] == vec[..i];
      if i == 0 || vec[i] >= maxVal {
        maxVal := vec[i];
        maxIdx := i;
      }
      i := i + 1;
    }
    assert vec[..|vec|] == vec;
  }

  /** What a frame decodes to on its own. */
  datatype Token = Blank | Symbol(index: nat)

  /** The token of one frame: its maximum, or the blank when the maximum is
      the last entry. */
  function TokenOf(vec: seq<real>): (t: Token)
    ensures t == Blank <==> |vec| > 0 && ArgMax(vec) == |vec| - 1
    ensures t.Symbol? ==> t.index == ArgMax(vec)
  {
    var idx := ArgMax(vec);
    if idx == |vec| - 1 then Blank else Symbol(idx)
  }

  function Tokens(frames: seq<seq<real>>): (ts: seq<Token>)
    ensures |ts| == |frames|
    ensures forall t :: 0 <= t < |frames| ==> ts[t] == TokenOf(frames[t])
  {
    seq(|frames|, t requires 0 <= t < |frames| => TokenOf(frames[t]))
  }

  /** ts with every run of equal neighbours merged into one token. */
  function Merge(ts: seq<Token>): (r: seq<Token>)
    ensures |r| <= |ts|
    ensures |ts| > 0 ==> |r| > 0 && r[|r| - 1] == ts[|ts| - 1]
    ensures forall k :: 0 <= k < |r| ==> r[k] in ts
    ensures forall k :: 0 < k < |r| ==> r[k - 1] != r[k]
  {
    if |ts| == 0 then []
    else
      var init := Merge(ts[..|ts| - 1]);
      var x := ts[|ts| - 1];
      if |ts| > 1 && ts[|ts| - 2] == x then init else init + [x]
  }

  /** The symbols of ts, blanks left out. */
  function DropBlanks(ts: seq<Token>): (r: seq<nat>)
    ensures |r| <= |ts|
    ensures forall k :: 0 <= k < |r| ==> Symbol(r[k]) in ts
  {
    if |ts| == 0 then []
    else
      var init := DropBlanks(ts[..|ts| - 1]);
      match ts[|ts| - 1]
      case Blank => init
      case Symbol(k) => init + [k]
  }

  /** The intended result of best path decoding: the per-frame tokens, runs of
      equal tokens merged, then the blanks removed. */
  function Collapse(ts: seq<Token>): seq<nat> {
    DropBlanks(Merge(ts))
  }

  /** Appending a blank to the tokens seen so far emits nothing. */
  lemma CollapseBlank(ts: seq<Token>)
    ensures Collapse(ts + [Blank]) == Collapse(ts)
  {
    var s := ts + [Blank];
    assert s[..|s| - 1] == ts;
    if |ts| == 0 || ts[|ts| - 1] != Blank {
      var m := Merge(ts) + [Blank];
      assert m[..|m| - 1] == Merge(ts);
    }
  }

  /** Appending the token of the previous frame again emits nothing. */
  lemma CollapseRepeat(ts: seq<Token>, x: Token)
    requires |ts| > 0 && ts[|ts| - 1] == x
    ensures Collapse(ts + [x]) == Collapse(ts)
  {
    var s := ts + [x];
    assert s[..|s| - 1] == ts;
  }

  /** Appending a symbol that differs from the previous token emits it. */
  lemma CollapseNew(ts: seq<Token>, k: nat)
    requires |ts| == 0 || ts[|ts| - 1] != Symbol(k)
    ensures Collapse(ts + [Symbol(k)]) == Collapse(ts) + [k]
  {
    var s := ts + [Symbol(k)];
    assert s[..|s| - 1] == ts;
    var m := Merge(ts) + [Symbol(k)];
    assert Merge(s) == m;
    assert m[..|m| - 1] == Merge(ts);
  }

  /** A symbol that repeats across a blank frame is emitted twice. */
  lemma {:induction false} RepeatAcrossBlank(ts: seq<Token>, k: nat)
    ensures Collapse(ts + [Symbol(k), Blank, Symbol(k)]) == Collapse(ts + [Symbol(k)]) + [k]
  {
    var a := ts + [Symbol(k)];
    var b := a + [Blank];
    CollapseBlank(a);
    CollapseNew(b, k);
    assert b + [Symbol(k)] == ts + [Symbol(k), Blank, Symbol(k)];
  }

  /** A symbol that repeats in adjacent frames is emitted once. */
  lemma {:induction false} RepeatMerged(ts: seq<Token>, k: nat)
    ensures Collapse(ts + [Symbol(k), Symbol(k)]) == Collapse(ts + [Symbol(k)])
  {
    var a := ts + [Symbol(k)];
    CollapseRepeat(a, Symbol(k));
    assert a + [Symbol(k)] == ts + [Symbol(k), Symbol(k)];
  }

  /** ts[..t + 1] extends ts[..t] by ts[t]. */
  lemma PrefixStep(ts: seq<Token>, t: nat)
    requires t < |ts|
    ensures ts[..t + 1] == ts[..t] + [ts[t]]
  {
  }

  /** BestPath (ctc/best_path.go:7-18): last is the symbol emitted for the
      previous frame, or -1 after a blank frame and before the first. */
  method BestPath(frames: seq<seq<real>>) returns (res: seq<int>)
    ensures res == Collapse(Tokens(frames))
    ensures |res| <= |frames|
    ensures |frames| == 0 ==> res == []
  {
    ghost var ts := Tokens(frames);
    var last: int := -1;
    res := [];
    var t := 0;
    while t < |frames|
      invariant 0 <= t <= |frames|
      invariant res == Collapse(ts[..t])
      invariant last == (if t > 0 && ts[t - 1].Symbol? then ts[t - 1].index else -1)
    {
      var vec := frames[t];
      var idx := MaxIdx(vec);
      PrefixStep(ts, t);
      if idx == |vec| - 1 {
        CollapseBlank(ts[..t]);
        last := -1;
      } else if idx != last {
        CollapseNew(ts[..t], idx);
        last := idx;
        res := res + [idx];
      } else {
        CollapseRepeat(ts[..t], ts[t]);
      }
      t := t + 1;
    }
    assert ts[..|frames|] == ts;
  }

  /** No entry of the result is the blank of a frame: with every frame of
      width v >= 1, every entry lies in [0, v - 1). (An empty frame decodes
      to symbol 0, since maxIdx then returns 0.) */
  lemma BestPathHasNoBlank(frames: seq<seq<real>>, v: nat)
    requires v >= 1 && forall t :: 0 <= t < |frames| ==> |frames[t]| == v
    ensures forall k :: 0 <= k < |Collapse(Tokens(frames))| ==> Collapse(Tokens(frames))[k] < v - 1
  {
    var ts := Tokens(frames);
    var m := Merge(ts);
    forall k | 0 <= k < |Collapse(ts)|
      ensures Collapse(ts)[k] < v - 1
    {
      var x := Collapse(ts)[k];
      assert Symbol(x) in m;
      assert Symbol(x) in ts;
      var t :| 0 <= t < |ts| && ts[t] == Symbol(x);
      assert TokenOf(frames[t]) == Symbol(x);
    }
  }
}
