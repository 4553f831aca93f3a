/** Prefix search decoding (ctc/prefix_search.go), in the probability
    domain: a frame holds the probabilities whose logs the Go code receives,
    with the blank last, and the log-domain operations become products and
    sums. Every comparison of two logs is the same comparison of the
    probabilities, since exp is increasing. */
module CtcPrefixSearch {
  import opened LogDomain

  type Frame = seq<Prob>

  /** Every frame has the same width, at least 1 (the blank). */
  predicate Uniform(frames: seq<Frame>) {
    forall t :: 0 <= t < |frames| ==> |frames[t]| >= 1 && |frames[t]| == |frames[0]|
  }

  /** The last symbol of the prefix is a symbol of the frames. */
  predicate LastFits(prefix: seq<int>, frames: seq<Frame>) {
    |frames| > 0 && |prefix| > 0 ==> 0 <= prefix[|prefix| - 1] < |frames[0]| - 1
  }

  /** A frame of probabilities: no entry above 1, and no symbol together with
      the blank above 1 (as for the outputs of a softmax). */
  predicate Normalized(frame: Frame) {
    (forall i :: 0 <= i < |frame| ==> frame[i] <= 1.0) &&
    (forall i :: 0 <= i < |frame| - 1 ==> frame[i] + frame[|frame| - 1] <= 1.0)
  }

  predicate AllNormalized(frames: seq<Frame>) {
    forall t :: 0 <= t < |frames| ==> Normalized(frames[t])
  }

  // ----- the extension list -----

  /** A candidate next step: append label, or stay (label -1), with the
      probability of the prefix it leads to. */
  datatype Ext = Ext(symbol: int, prob: Prob)

  /** The extension by symbol i (ctc/prefix_search.go:59-64): repeating the
      prefix's last symbol needs a blank in between, so it builds on the
      probability of the prefix with a final blank alone; any other symbol
      builds on the total. */
  function SymbolExt(frame: Frame, prefix: seq<int>, noBlank: Prob, blank: Prob, i: nat): Ext
    requires i < |frame|
  {
    if |prefix| > 0 && i == prefix[|prefix| - 1] then Ext(i, frame[i] * blank)
    else Ext(i, frame[i] * (noBlank + blank))
  }

  /** The extensions by the symbols 0 .. n - 1, in order. */
  function SymbolExts(frame: Frame, prefix: seq<int>, noBlank: Prob, blank: Prob, n: nat): (r: seq<Ext>)
    requires n < |frame|
    ensures |r| == n
    ensures forall i :: 0 <= i < n ==> r[i] == SymbolExt(frame, prefix, noBlank, blank, i)
  {
    if n == 0 then []
    else SymbolExts(frame, prefix, noBlank, blank, n - 1) + [SymbolExt(frame, prefix, noBlank, blank, n - 1)]
  }

  /** sameBlank (ctc/prefix_search.go:68): the prefix stays and the frame is
      a blank. */
  function SameBlank(frame: Frame, noBlank: Prob, blank: Prob): Prob
    requires |frame| >= 1
  {
    (noBlank + blank) * frame[|frame| - 1]
  }

  /** sameNoBlank (ctc/prefix_search.go:69-73): the prefix stays and the
      frame repeats its last symbol; impossible for the empty prefix. */
  function SameNoBlank(frame: Frame, prefix: seq<int>, noBlank: Prob): Prob
    requires |prefix| > 0 ==> 0 <= prefix[|prefix| - 1] < |frame|
  {
    if |prefix| > 0 then noBlank * frame[prefix[|prefix| - 1]] else 0.0
  }

  function StayProb(frame: Frame, prefix: seq<int>, noBlank: Prob, blank: Prob): Prob
    requires |frame| >= 1 && (|prefix| > 0 ==> 0 <= prefix[|prefix| - 1] < |frame|)
  {
    SameNoBlank(frame, prefix, noBlank) + SameBlank(frame, noBlank, blank)
  }

  /** The extension list before sorting (ctc/prefix_search.go:56-74): one
      extension per non-blank symbol, in order, then the stay extension. */
  function Extensions(frame: Frame, prefix: seq<int>, noBlank: Prob, blank: Prob): (r: seq<Ext>)
    requires |frame| >= 1 && (|prefix| > 0 ==> 0 <= prefix[|prefix| - 1] < |frame| - 1)
    ensures |r| == |frame|
    ensures forall k :: 0 <= k < |r| ==> -1 <= r[k].symbol < |frame| - 1
    ensures forall k :: 0 <= k < |r| && r[k].symbol == -1 ==> r[k].prob == StayProb(frame, prefix, noBlank, blank)
    ensures r[|frame| - 1] == Ext(-1, StayProb(frame, prefix, noBlank, blank))
  {
    SymbolExts(frame, prefix, noBlank, blank, |frame| - 1) + [Ext(-1, StayProb(frame, prefix, noBlank, blank))]
  }

  /** f * x <= x for a probability f. */
  lemma ScaleAtMost(f: Prob, x: Prob)
    requires f <= 1.0
    ensures f * x <= x
  {
    assert x - f * x == (1.0 - f) * x;
  }

  /** No extension is more likely than the prefix it extends. */
  lemma ExtensionsBounded(frame: Frame, prefix: seq<int>, noBlank: Prob, blank: Prob)
    requires |frame| >= 1 && (|prefix| > 0 ==> 0 <= prefix[|prefix| - 1] < |frame| - 1)
    requires Normalized(frame)
    ensures forall k :: 0 <= k < |frame| ==> Extensions(frame, prefix, noBlank, blank)[k].prob <= noBlank + blank
  {
    var r := Extensions(frame, prefix, noBlank, blank);
    var symbols := SymbolExts(frame, prefix, noBlank, blank, |frame| - 1);
    var total := noBlank + blank;
    forall k | 0 <= k < |frame| - 1
      ensures r[k].prob <= total
    {
      assert r[k] == symbols[k] == SymbolExt(frame, prefix, noBlank, blank, k);
      SymbolExtBounded(frame, prefix, noBlank, blank, k);
    }
    StayBounded(frame, prefix, noBlank, blank);
  }

  /** f * (a + b) <= a + b for a probability f. */
  lemma ScaleSumAtMost(f: Prob, a: Prob, b: Prob)
    requires f <= 1.0
    ensures f * (a + b) <= a + b
  {
    ScaleAtMost(f, a + b);
  }

  /** A symbol and the blank of one frame together are at most 1. */
  lemma StayAtMost(noBlank: Prob, blank: Prob, last: Prob, blankAt: Prob)
    requires last + blankAt <= 1.0
    ensures noBlank * last + (noBlank + blank) * blankAt <= noBlank + blank
  {
    assert (noBlank + blank) * (1.0 - last - blankAt) >= 0.0;
    assert blank * last >= 0.0;
  }

  lemma SymbolExtBounded(frame: Frame, prefix: seq<int>, noBlank: Prob, blank: Prob, k: nat)
    requires k < |frame| && frame[k] <= 1.0
    ensures SymbolExt(frame, prefix, noBlank, blank, k).prob <= noBlank + blank
  {
    var f := frame[k];
    if |prefix| > 0 && k == prefix[|prefix| - 1] {
      assert SymbolExt(frame, prefix, noBlank, blank, k).prob == f * blank;
      ScaleAtMost(f, blank);
    } else {
      assert SymbolExt(frame, prefix, noBlank, blank, k).prob == f * (noBlank + blank);
      ScaleSumAtMost(f, noBlank, blank);
    }
  }

  lemma StayBounded(frame: Frame, prefix: seq<int>, noBlank: Prob, blank: Prob)
    requires |frame| >= 1 && (|prefix| > 0 ==> 0 <= prefix[|prefix| - 1] < |frame| - 1)
    requires Normalized(frame)
    ensures StayProb(frame, prefix, noBlank, blank) <= noBlank + blank
  {
    var blankAt := frame[|frame| - 1];
    if |prefix| > 0 {
      var last := frame[prefix[|prefix| - 1]];
      assert last + blankAt <= 1.0;
      StayAtMost(noBlank, blank, last, blankAt);
    } else {
      assert blankAt <= 1.0;
      ScaleSumAtMost(blankAt, noBlank, blank);
    }
  }

  // ----- sorting -----

  predicate SortedDesc(s: seq<Ext>) {
    forall i, j :: 0 <= i < j < |s| ==> s[i].prob >= s[j].prob
  }

  /** x inserted after every element at least as likely. */
  function Insert(s: seq<Ext>, x: Ext): (r: seq<Ext>)
    ensures |r| == |s| + 1
  {
    if |s| == 0 || s[|s| - 1].prob >= x.prob then s + [x]
    else Insert(s[..|s| - 1], x) + [s[|s| - 1]]
  }

  lemma {:induction false} InsertPermutes(s: seq<Ext>, x: Ext)
    ensures multiset(Insert(s, x)) == multiset(s) + multiset{x}
  {
    if !(|s| == 0 || s[|s| - 1].prob >= x.prob) {
      var init := s[..|s| - 1];
      assert s == init + [s[|s| - 1]];
      InsertPermutes(init, x);
    }
  }

  lemma {:induction false} InsertSorted(s: seq<Ext>, x: Ext)
    requires SortedDesc(s)
    ensures SortedDesc(Insert(s, x))
  {
    if !(|s| == 0 || s[|s| - 1].prob >= x.prob) {
      var init := s[..|s| - 1];
      var last := s[|s| - 1];
      var r := Insert(init, x);
      InsertSorted(init, x);
      InsertPermutes(init, x);
      forall k | 0 <= k < |r|
        ensures r[k].prob >= last.prob
      {
        assert r[k] in multiset(r);
        if r[k] != x {
          assert r[k] in multiset(init);
          var j :| 0 <= j < |init| && init[j] == r[k];
          assert s[j] == r[k];
        }
      }
      var r' := r + [last];
      forall i, j | 0 <= i < j < |r'|
        ensures r'[i].prob >= r'[j].prob
      {
        if j < |r| {
          assert r'[i] == r[i] && r'[j] == r[j];
        }
      }
    }
  }

  /** sort.Sort of an extensionList by descending probability, as a stable
      insertion sort. The Go library (from version 1.19) sorts lists of at
      most 12 elements, that is at most 11 symbols plus the stay entry, by
      insertion, which also keeps equally likely extensions in their
      original order; on longer lists it may order them differently. The
      contract states only what sort.Sort promises. */
  function SortDesc(s: seq<Ext>): (r: seq<Ext>)
    ensures |r| == |s|
  {
    if |s| == 0 then [] else Insert(SortDesc(s[..|s| - 1]), s[|s| - 1])
  }

  /** SortDesc orders by descending probability and only reorders. */
  lemma {:induction false} SortDescSorts(s: seq<Ext>)
    ensures SortedDesc(SortDesc(s)) && multiset(SortDesc(s)) == multiset(s)
  {
    if |s| > 0 {
      var init := s[..|s| - 1];
      assert s == init + [s[|s| - 1]];
      SortDescSorts(init);
      InsertSorted(SortDesc(init), s[|s| - 1]);
      InsertPermutes(SortDesc(init), s[|s| - 1]);
    }
  }

  // ----- the recursive search -----

  /** A labelling and its probability. */
  datatype Outcome = Outcome(labels: seq<int>, prob: Prob)

  /** What the extensions of the first frame may hold. */
  predicate ExtsFit(frames: seq<Frame>, prefix: seq<int>, noBlank: Prob, blank: Prob, exts: seq<Ext>)
    requires Uniform(frames) && LastFits(prefix, frames) && |frames| > 0
  {
    forall k :: 0 <= k < |exts| ==>
      -1 <= exts[k].symbol < |frames[0]| - 1 &&
      (exts[k].symbol == -1 ==> exts[k].prob == StayProb(frames[0], prefix, noBlank, blank))
  }

  /** prefixSearch (ctc/prefix_search.go:48-101): the best labelling that
      extends prefix, and its probability, given the probabilities of the
      prefix without and with a final blank. */
  function Search(frames: seq<Frame>, prefix: seq<int>, noBlank: Prob, blank: Prob): (r: Outcome)
    requires Uniform(frames) && LastFits(prefix, frames)
    ensures |prefix| <= |r.labels| <= |prefix| + |frames| && r.labels[..|prefix|] == prefix
    ensures |frames| == 0 ==> r == Outcome(prefix, noBlank + blank)
    decreases |frames|, if |frames| == 0 then 0 else |frames[0]| + 1
  {
    if |frames| == 0 then Outcome(prefix, noBlank + blank)
    else
      var exts := SortDesc(Extensions(frames[0], prefix, noBlank, blank));
      SortedExtsFit(frames, prefix, noBlank, blank);
      Explore(frames, prefix, noBlank, blank, exts, |exts|)
  }

  lemma SortedExtsFit(frames: seq<Frame>, prefix: seq<int>, noBlank: Prob, blank: Prob)
    requires Uniform(frames) && LastFits(prefix, frames) && |frames| > 0
    ensures ExtsFit(frames, prefix, noBlank, blank, SortDesc(Extensions(frames[0], prefix, noBlank, blank)))
  {
    var e := Extensions(frames[0], prefix, noBlank, blank);
    var exts := SortDesc(e);
    SortDescSorts(e);
    forall k | 0 <= k < |exts|
      ensures exts[k] in e
    {
      assert exts[k] in multiset(exts);
    }
  }

  /** The main loop of prefixSearch after i extensions
      (ctc/prefix_search.go:78-98): every extension but the first is skipped
      when it is already less likely than the best labelling so far. Before
      the first, the result variables hold Go's zero values. */
  function Explore(frames: seq<Frame>, prefix: seq<int>, noBlank: Prob, blank: Prob, exts: seq<Ext>, i: nat): (r: Outcome)
    requires Uniform(frames) && LastFits(prefix, frames) && |frames| > 0
    requires i <= |exts| && ExtsFit(frames, prefix, noBlank, blank, exts)
    ensures i > 0 ==> |prefix| <= |r.labels| <= |prefix| + |frames| && r.labels[..|prefix|] == prefix
    decreases |frames|, i
  {
    if i == 0 then Outcome([], 1.0)
    else
      var best := Explore(frames, prefix, noBlank, blank, exts, i - 1);
      var e := exts[i - 1];
      if i - 1 > 0 && e.prob < best.prob then best
      else
        var o := Branch(frames, prefix, noBlank, blank, e);
        if i - 1 == 0 || o.prob > best.prob then o else best
  }

  /** The recursive call for one extension (ctc/prefix_search.go:86-93). */
  function Branch(frames: seq<Frame>, prefix: seq<int>, noBlank: Prob, blank: Prob, e: Ext): (r: Outcome)
    requires Uniform(frames) && LastFits(prefix, frames) && |frames| > 0
    requires -1 <= e.symbol < |frames[0]| - 1
    ensures |prefix| <= |r.labels| <= |prefix| + |frames| && r.labels[..|prefix|] == prefix
    decreases |frames|, 0
  {
    if e.symbol == -1 then
      Search(frames[1..], prefix, SameNoBlank(frames[0], prefix, noBlank), SameBlank(frames[0], noBlank, blank))
    else
      var p := prefix + [e.symbol];
      var r := Search(frames[1..], p, e.prob, 0.0);
      assert r.labels[..|prefix|] == r.labels[..|p|][..|prefix|];
      r
  }

  // ----- branch and bound -----

  /** The search never finds a labelling more likely than the prefix it
      starts from: every frame can only lower the probability. */
  lemma {:induction false} SearchBound(frames: seq<Frame>, prefix: seq<int>, noBlank: Prob, blank: Prob)
    requires Uniform(frames) && LastFits(prefix, frames) && AllNormalized(frames)
    ensures Search(frames, prefix, noBlank, blank).prob <= noBlank + blank
    decreases |frames|, 2
  {
    if |frames| > 0 {
      var e := Extensions(frames[0], prefix, noBlank, blank);
      var exts := SortDesc(e);
      SortedExtsFit(frames, prefix, noBlank, blank);
      ExtensionsBounded(frames[0], prefix, noBlank, blank);
      SortDescSorts(e);
      forall k | 0 <= k < |exts|
        ensures exts[k].prob <= noBlank + blank
      {
        assert exts[k] in multiset(exts);
        assert exts[k] in e;
      }
      ExploreBound(frames, prefix, noBlank, blank, exts, |exts|);
    }
  }

  lemma {:induction false} ExploreBound(frames: seq<Frame>, prefix: seq<int>, noBlank: Prob, blank: Prob,
                                        exts: seq<Ext>, i: nat)
    requires Uniform(frames) && LastFits(prefix, frames) && AllNormalized(frames) && |frames| > 0
    requires 1 <= i <= |exts| && ExtsFit(frames, prefix, noBlank, blank, exts)
    requires forall k :: 0 <= k < |exts| ==> exts[k].prob <= noBlank + blank
    ensures Explore(frames, prefix, noBlank, blank, exts, i).prob <= noBlank + blank
    decreases |frames|, 1, i
  {
    if i > 1 {
      ExploreBound(frames, prefix, noBlank, blank, exts, i - 1);
    }
    BranchBound(frames, prefix, noBlank, blank, exts[i - 1]);
  }

  /** An extension's search is no more likely than the extension. */
  lemma {:induction false} BranchBound(frames: seq<Frame>, prefix: seq<int>, noBlank: Prob, blank: Prob, e: Ext)
    requires Uniform(frames) && LastFits(prefix, frames) && AllNormalized(frames) && |frames| > 0
    requires -1 <= e.symbol < |frames[0]| - 1
    requires e.symbol == -1 ==> e.prob == StayProb(frames[0], prefix, noBlank, blank)
    ensures Branch(frames, prefix, noBlank, blank, e).prob <= e.prob
    decreases |frames|, 0
  {
    var rest := frames[1..];
    assert AllNormalized(rest) by {
      forall t | 0 <= t < |rest|
        ensures Normalized(rest[t])
      {
        assert rest[t] == frames[t + 1];
      }
    }
    if e.symbol == -1 {
      SearchBound(rest, prefix, SameNoBlank(frames[0], prefix, noBlank), SameBlank(frames[0], noBlank, blank));
    } else {
      SearchBound(rest, prefix + [e.symbol], e.prob, 0.0);
    }
  }

  /** The main loop with no extension skipped. */
  function ExploreAll(frames: seq<Frame>, prefix: seq<int>, noBlank: Prob, blank: Prob, exts: seq<Ext>, i: nat): (r: Outcome)
    requires Uniform(frames) && LastFits(prefix, frames) && |frames| > 0
    requires i <= |exts| && ExtsFit(frames, prefix, noBlank, blank, exts)
  {
    if i == 0 then Outcome([], 1.0)
    else
      var best := ExploreAll(frames, prefix, noBlank, blank, exts, i - 1);
      var o := Branch(frames, prefix, noBlank, blank, exts[i - 1]);
      if i - 1 == 0 || o.prob > best.prob then o else best
  }

  /** The skipping is sound: a skipped extension could not have produced a
      more likely labelling, so the pruned loop returns exactly what the
      exhaustive loop returns. */
  lemma {:induction false} PruningIsSound(frames: seq<Frame>, prefix: seq<int>, noBlank: Prob, blank: Prob,
                                          exts: seq<Ext>, i: nat)
    requires Uniform(frames) && LastFits(prefix, frames) && AllNormalized(frames) && |frames| > 0
    requires i <= |exts| && ExtsFit(frames, prefix, noBlank, blank, exts)
    ensures Explore(frames, prefix, noBlank, blank, exts, i) == ExploreAll(frames, prefix, noBlank, blank, exts, i)
  {
    if i > 0 {
      PruningIsSound(frames, prefix, noBlank, blank, exts, i - 1);
      BranchBound(frames, prefix, noBlank, blank, exts[i - 1]);
    }
  }

  /** The exhaustive loop keeps the most likely of the labellings it has seen. */
  lemma {:induction false} ExploreAllIsBest(frames: seq<Frame>, prefix: seq<int>, noBlank: Prob, blank: Prob,
                                            exts: seq<Ext>, i: nat)
    requires Uniform(frames) && LastFits(prefix, frames) && |frames| > 0
    requires i <= |exts| && ExtsFit(frames, prefix, noBlank, blank, exts)
    ensures forall k :: 0 <= k < i ==>
      ExploreAll(frames, prefix, noBlank, blank, exts, i).prob >= Branch(frames, prefix, noBlank, blank, exts[k]).prob
  {
    if i > 0 {
      ExploreAllIsBest(frames, prefix, noBlank, blank, exts, i - 1);
    }
  }

  /** prefixSearch finds the most likely of the labellings its extensions
      lead to, although it skips some of them. */
  lemma SearchIsBest(frames: seq<Frame>, prefix: seq<int>, noBlank: Prob, blank: Prob)
    requires Uniform(frames) && LastFits(prefix, frames) && AllNormalized(frames) && |frames| > 0
    ensures var exts := SortDesc(Extensions(frames[0], prefix, noBlank, blank));
      ExtsFit(frames, prefix, noBlank, blank, exts) &&
      forall k :: 0 <= k < |exts| ==>
        Search(frames, prefix, noBlank, blank).prob >= Branch(frames, prefix, noBlank, blank, exts[k]).prob
  {
    var exts := SortDesc(Extensions(frames[0], prefix, noBlank, blank));
    SortedExtsFit(frames, prefix, noBlank, blank);
    PruningIsSound(frames, prefix, noBlank, blank, exts, |exts|);
    ExploreAllIsBest(frames, prefix, noBlank, blank, exts, |exts|);
  }

  // ----- segmentation -----

  /** A frame whose blank is more likely than the threshold separates runs
      and is not searched (ctc/prefix_search.go:21). */
  predicate Dropped(x: Frame, blankThresh: Prob)
    requires |x| >= 1
  {
    x[|x| - 1] > blankThresh
  }

  predicate NonEmpty(frames: seq<Frame>) {
    forall t :: 0 <= t < |frames| ==> |frames[t]| >= 1
  }

  /** The frames that are not dropped, in order. */
  function Kept(frames: seq<Frame>, blankThresh: Prob): (r: seq<Frame>)
    requires NonEmpty(frames)
    ensures |r| <= |frames|
  {
    if |frames| == 0 then []
    else
      var init := Kept(frames[..|frames| - 1], blankThresh);
      if Dropped(frames[|frames| - 1], blankThresh) then init else init + [frames[|frames| - 1]]
  }

  function Flatten(runs: seq<seq<Frame>>): seq<Frame> {
    if |runs| == 0 then [] else Flatten(runs[..|runs| - 1]) + runs[|runs| - 1]
  }

  /** The runs found so far and the run still open (both empty at first). */
  datatype Scanned = Scanned(closed: seq<seq<Frame>>, open: seq<Frame>)

  /** The split into runs after the frames (ctc/prefix_search.go:20-29): a
      dropped frame closes the open run, if any; a kept one extends it. */
  function Scan(frames: seq<Frame>, blankThresh: Prob): (r: Scanned)
    requires NonEmpty(frames)
    ensures forall k :: 0 <= k < |r.closed| ==> |r.closed[k]| > 0
    ensures |r.open| > 0 <==> |frames| > 0 && !Dropped(frames[|frames| - 1], blankThresh)
  {
    if |frames| == 0 then Scanned([], [])
    else
      var before := Scan(frames[..|frames| - 1], blankThresh);
      var x := frames[|frames| - 1];
      if Dropped(x, blankThresh) then
        if |before.open| > 0 then Scanned(before.closed + [before.open], []) else Scanned(before.closed, [])
      else Scanned(before.closed, before.open + [x])
  }

  /** The maximal runs of kept frames, in order (ctc/prefix_search.go:18-32). */
  function Runs(frames: seq<Frame>, blankThresh: Prob): (r: seq<seq<Frame>>)
    requires NonEmpty(frames)
    ensures forall k :: 0 <= k < |r| ==> |r[k]| > 0
  {
    var sc := Scan(frames, blankThresh);
    if |sc.open| > 0 then sc.closed + [sc.open] else sc.closed
  }

  lemma FlattenAppend(runs: seq<seq<Frame>>, run: seq<Frame>)
    ensures Flatten(runs + [run]) == Flatten(runs) + run
  {
    assert (runs + [run])[..|runs|] == runs;
  }

  lemma {:induction false} ScanFlatten(frames: seq<Frame>, blankThresh: Prob)
    requires NonEmpty(frames)
    ensures Flatten(Scan(frames, blankThresh).closed) + Scan(frames, blankThresh).open == Kept(frames, blankThresh)
  {
    if |frames| > 0 {
      var before := Scan(frames[..|frames| - 1], blankThresh);
      ScanFlatten(frames[..|frames| - 1], blankThresh);
      FlattenAppend(before.closed, before.open);
    }
  }

  /** The runs hold exactly the kept frames, in order. */
  lemma RunsFlatten(frames: seq<Frame>, blankThresh: Prob)
    requires NonEmpty(frames)
    ensures Flatten(Runs(frames, blankThresh)) == Kept(frames, blankThresh)
  {
    var sc := Scan(frames, blankThresh);
    ScanFlatten(frames, blankThresh);
    FlattenAppend(sc.closed, sc.open);
  }

  lemma NonEmptyJoin(a: seq<Frame>, d: Frame, b: seq<Frame>)
    requires NonEmpty(a) && |d| >= 1 && NonEmpty(b)
    ensures NonEmpty(a + [d] + b)
  {
    var s := a + [d] + b;
    forall t | 0 <= t < |s|
      ensures |s[t]| >= 1
    {
      if t < |a| {
        assert s[t] == a[t];
      } else if t > |a| {
        assert s[t] == b[t - |a| - 1];
      }
    }
  }

  /** Across a dropped frame the scan starts afresh. */
  lemma {:induction false} ScanSplit(a: seq<Frame>, d: Frame, b: seq<Frame>, blankThresh: Prob)
    requires NonEmpty(a) && |d| >= 1 && NonEmpty(b) && Dropped(d, blankThresh)
    ensures NonEmpty(a + [d] + b)
    ensures Scan(a + [d] + b, blankThresh) ==
      Scanned(Runs(a, blankThresh) + Scan(b, blankThresh).closed, Scan(b, blankThresh).open)
    decreases |b|
  {
    var s := a + [d] + b;
    NonEmptyJoin(a, d, b);
    if |b| == 0 {
      assert s[..|s| - 1] == a;
    } else {
      var b' := b[..|b| - 1];
      var x := b[|b| - 1];
      assert s[..|s| - 1] == a + [d] + b';
      assert s[|s| - 1] == x;
      ScanSplit(a, d, b', blankThresh);
      var ra := Runs(a, blankThresh);
      var sb' := Scan(b', blankThresh);
      assert Scan(s[..|s| - 1], blankThresh) == Scanned(ra + sb'.closed, sb'.open);
      if !Dropped(x, blankThresh) {
        assert Scan(b, blankThresh) == Scanned(sb'.closed, sb'.open + [x]);
      } else if |sb'.open| > 0 {
        assert Scan(b, blankThresh) == Scanned(sb'.closed + [sb'.open], []);
        assert ra + sb'.closed + [sb'.open] == ra + (sb'.closed + [sb'.open]);
      } else {
        assert Scan(b, blankThresh) == Scanned(sb'.closed, []);
      }
    }
  }

  /** A dropped frame splits the runs: the runs of a + [d] + b are those of a
      followed by those of b. */
  lemma RunsSplit(a: seq<Frame>, d: Frame, b: seq<Frame>, blankThresh: Prob)
    requires NonEmpty(a) && |d| >= 1 && NonEmpty(b) && Dropped(d, blankThresh)
    ensures NonEmpty(a + [d] + b)
    ensures Runs(a + [d] + b, blankThresh) == Runs(a, blankThresh) + Runs(b, blankThresh)
  {
    ScanSplit(a, d, b, blankThresh);
    var sb := Scan(b, blankThresh);
    assert Runs(a, blankThresh) + sb.closed + [sb.open] == Runs(a, blankThresh) + (sb.closed + [sb.open]);
  }

  lemma {:induction false} ScanWhole(frames: seq<Frame>, blankThresh: Prob)
    requires NonEmpty(frames)
    requires forall t :: 0 <= t < |frames| ==> !Dropped(frames[t], blankThresh)
    ensures Scan(frames, blankThresh) == Scanned([], frames)
  {
    var n := |frames|;
    if n > 0 {
      ScanWhole(frames[..n - 1], blankThresh);
      assert frames[..n - 1] + [frames[n - 1]] == frames;
    }
  }

  /** With no frame dropped, a non-empty sequence is one run. */
  lemma RunsWhole(frames: seq<Frame>, blankThresh: Prob)
    requires NonEmpty(frames) && |frames| > 0
    requires forall t :: 0 <= t < |frames| ==> !Dropped(frames[t], blankThresh)
    ensures Runs(frames, blankThresh) == [frames]
  {
    ScanWhole(frames, blankThresh);
  }

  /** Every frame of run has width w. */
  predicate AllWidth(run: seq<Frame>, w: nat) {
    forall j :: 0 <= j < |run| ==> |run[j]| == w
  }

  /** Every frame of a run has the width of the frames. */
  lemma {:induction false} ScanWidth(frames: seq<Frame>, blankThresh: Prob, w: nat)
    requires w >= 1 && AllWidth(frames, w)
    ensures NonEmpty(frames)
    ensures forall k :: 0 <= k < |Scan(frames, blankThresh).closed| ==> AllWidth(Scan(frames, blankThresh).closed[k], w)
    ensures AllWidth(Scan(frames, blankThresh).open, w)
  {
    if |frames| > 0 {
      var init := frames[..|frames| - 1];
      ScanWidth(init, blankThresh, w);
      var before := Scan(init, blankThresh);
      var x := frames[|frames| - 1];
      if Dropped(x, blankThresh) && |before.open| > 0 {
        var closed := before.closed + [before.open];
        assert Scan(frames, blankThresh).closed == closed;
        forall k | 0 <= k < |closed|
          ensures AllWidth(closed[k], w)
        {
          if k < |before.closed| {
            assert closed[k] == before.closed[k];
          }
        }
      }
    }
  }

  /** Every run has the width of the frames it comes from. */
  lemma RunsUniform(frames: seq<Frame>, blankThresh: Prob)
    requires Uniform(frames)
    ensures NonEmpty(frames)
    ensures AllUniform(Runs(frames, blankThresh))
  {
    if |frames| > 0 {
      var w := |frames[0]|;
      ScanWidth(frames, blankThresh, w);
      var sc := Scan(frames, blankThresh);
      var runs := Runs(frames, blankThresh);
      forall k | 0 <= k < |runs|
        ensures Uniform(runs[k])
      {
        if k < |sc.closed| {
          assert runs[k] == sc.closed[k];
        } else {
          assert runs[k] == sc.open;
        }
        assert AllWidth(runs[k], w);
      }
    }
  }

  predicate AllUniform(runs: seq<seq<Frame>>) {
    forall k :: 0 <= k < |runs| ==> Uniform(runs[k])
  }

  /** The labellings of the runs, concatenated (ctc/prefix_search.go:34-39);
      each run is searched from the empty prefix with probability 1 of ending
      in a blank and 0 of not. */
  function Decode(runs: seq<seq<Frame>>): (r: seq<int>)
    requires AllUniform(runs)
    ensures |r| <= |Flatten(runs)|
  {
    if |runs| == 0 then []
    else Decode(runs[..|runs| - 1]) + Search(runs[|runs| - 1], [], 0.0, 1.0).labels
  }

  /** Decoding one more run appends its labelling. */
  lemma DecodeStep(runs: seq<seq<Frame>>, k: nat)
    requires AllUniform(runs) && k < |runs|
    ensures AllUniform(runs[..k]) && AllUniform(runs[..k + 1])
    ensures Decode(runs[..k + 1]) == Decode(runs[..k]) + Search(runs[k], [], 0.0, 1.0).labels
  {
    assert runs[..k + 1][..k] == runs[..k];
  }

  /** What PrefixSearch returns. */
  function DecodeFrames(frames: seq<Frame>, blankThresh: Prob): (r: seq<int>)
    requires Uniform(frames)
    ensures |frames| == 0 ==> r == []
  {
    RunsUniform(frames, blankThresh);
    Decode(Runs(frames, blankThresh))
  }

  /** The decoding is no longer than the frames. */
  lemma DecodeFramesLength(frames: seq<Frame>, blankThresh: Prob)
    requires Uniform(frames)
    ensures |DecodeFrames(frames, blankThresh)| <= |frames|
  {
    RunsUniform(frames, blankThresh);
    RunsFlatten(frames, blankThresh);
  }

  // ----- the imperative code -----

  /** The loop over the symbols (ctc/prefix_search.go:58-65). */
  method SymbolExtensions(timeVec: Frame, prefix: seq<int>, noBlankProb: Prob, blankProb: Prob, totalProb: Prob)
    returns (exts: seq<Ext>)
    requires |timeVec| >= 1 && totalProb == noBlankProb + blankProb
    ensures exts == SymbolExts(timeVec, prefix, noBlankProb, blankProb, |timeVec| - 1)
  {
    exts := [];
    var i := 0;
    while i < |timeVec| - 1
      invariant 0 <= i <= |timeVec| - 1
      invariant exts == SymbolExts(timeVec, prefix, noBlankProb, blankProb, i)
    {
      var e;
      if |prefix| > 0 && i == prefix[|prefix| - 1] {
        e := Ext(i, timeVec[i] * blankProb);
      } else {
        e := Ext(i, timeVec[i] * totalProb);
      }
      assert e == SymbolExt(timeVec, prefix, noBlankProb, blankProb, i);
      exts := exts + [e];
      i := i + 1;
    }
  }

  /** The extension list (ctc/prefix_search.go:56-74), with the two parts of
      the stay probability. */
  method BuildExtensions(timeVec: Frame, prefix: seq<int>, noBlankProb: Prob, blankProb: Prob)
    returns (exts: seq<Ext>, sameNoBlank: Prob, sameBlank: Prob)
    requires |timeVec| >= 1 && (|prefix| > 0 ==> 0 <= prefix[|prefix| - 1] < |timeVec| - 1)
    ensures exts == Extensions(timeVec, prefix, noBlankProb, blankProb)
    ensures sameNoBlank == SameNoBlank(timeVec, prefix, noBlankProb)
    ensures sameBlank == SameBlank(timeVec, noBlankProb, blankProb)
  {
    var totalProb := AddProbabilities(noBlankProb, blankProb);
    exts := SymbolExtensions(timeVec, prefix, noBlankProb, blankProb, totalProb);
    sameNoBlank, sameBlank := StayParts(timeVec, prefix, noBlankProb, blankProb, totalProb);
    exts := exts + [Ext(-1, AddProbabilities(sameNoBlank, sameBlank))];
  }

  /** The two ways to keep the prefix (ctc/prefix_search.go:68-73). */
  method StayParts(timeVec: Frame, prefix: seq<int>, noBlankProb: Prob, blankProb: Prob, totalProb: Prob)
    returns (sameNoBlank: Prob, sameBlank: Prob)
    requires |timeVec| >= 1 && (|prefix| > 0 ==> 0 <= prefix[|prefix| - 1] < |timeVec| - 1)
    requires totalProb == noBlankProb + blankProb
    ensures sameNoBlank == SameNoBlank(timeVec, prefix, noBlankProb)
    ensures sameBlank == SameBlank(timeVec, noBlankProb, blankProb)
  {
    sameBlank := totalProb * timeVec[|timeVec| - 1];
    sameNoBlank := 0.0;
    if |prefix| > 0 {
      var last := prefix[|prefix| - 1];
      sameNoBlank := noBlankProb * timeVec[last];
    }
  }

  /** prefixSearch (ctc/prefix_search.go:48-101). */
  method PrefixSearchFrom(frames: seq<Frame>, prefix: seq<int>, noBlankProb: Prob, blankProb: Prob)
    returns (bestSeq: seq<int>, bestProb: Prob)
    requires Uniform(frames) && LastFits(prefix, frames)
    ensures Outcome(bestSeq, bestProb) == Search(frames, prefix, noBlankProb, blankProb)
    decreases |frames|
  {
    if |frames| == 0 {
      return prefix, AddProbabilities(noBlankProb, blankProb);
    }
    var exts, sameNoBlank, sameBlank := BuildExtensions(frames[0], prefix, noBlankProb, blankProb);
    exts := SortDesc(exts);
    SortedExtsFit(frames, prefix, noBlankProb, blankProb);
    assert Uniform(frames[1..]) by {
      forall t | 0 <= t < |frames| - 1
        ensures |frames[1..][t]| == |frames[0]|
      {
        assert frames[1..][t] == frames[t + 1];
      }
    }
    bestSeq, bestProb := [], 1.0;
    var i := 0;
    while i < |exts|
      invariant 0 <= i <= |exts|
      invariant Outcome(bestSeq, bestProb) == Explore(frames, prefix, noBlankProb, blankProb, exts, i)
    {
      var addition := exts[i].symbol;
      var prob := exts[i].prob;
      if !(i > 0 && prob < bestProb) {
        var s, p;
        if addition == -1 {
          s, p := PrefixSearchFrom(frames[1..], prefix, sameNoBlank, sameBlank);
        } else {
          var newPrefix := prefix + [addition];
          s, p := PrefixSearchFrom(frames[1..], newPrefix, prob, 0.0);
        }
        if i == 0 || p > bestProb {
          bestProb := p;
          bestSeq := s;
        }
      }
      i := i + 1;
    }
  }

  /** Splitting into runs (ctc/prefix_search.go:18-32). */
  method SplitRuns(frames: seq<Frame>, blankThresh: Prob) returns (subSeqs: seq<seq<Frame>>)
    requires NonEmpty(frames)
    ensures subSeqs == Runs(frames, blankThresh)
  {
    subSeqs := [];
    var subSeq: seq<Frame> := [];
    var t := 0;
    while t < |frames|
      invariant 0 <= t <= |frames|
      invariant Scan(frames[..t], blankThresh) == Scanned(subSeqs, subSeq)
    {
      var x := frames[t];
      assert frames[..t + 1][..t] == frames[..t];
      if x[|x| - 1] > blankThresh {
        if |subSeq| > 0 {
          subSeqs := subSeqs + [subSeq];
          subSeq := [];
        }
      } else {
        subSeq := subSeq + [x];
      }
      t := t + 1;
    }
    assert frames[..|frames|] == frames;
    if |subSeq| > 0 {
      subSeqs := subSeqs + [subSeq];
    }
  }

  /** PrefixSearch (ctc/prefix_search.go:17-40): the labellings of the runs,
      concatenated; an empty sequence decodes to nothing. */
  method PrefixSearch(frames: seq<Frame>, blankThresh: Prob) returns (res: seq<int>)
    requires Uniform(frames)
    ensures res == DecodeFrames(frames, blankThresh)
    ensures |res| <= |frames|
  {
    RunsUniform(frames, blankThresh);
    DecodeFramesLength(frames, blankThresh);
    var subSeqs := SplitRuns(frames, blankThresh);
    res := [];
    var k := 0;
    assert subSeqs[..0] == [];
    while k < |subSeqs|
      invariant 0 <= k <= |subSeqs| && AllUniform(subSeqs[..k])
      invariant res == Decode(subSeqs[..k])
    {
      DecodeStep(subSeqs, k);
      var subRes, _ := PrefixSearchFrom(subSeqs[k], [], 0.0, 1.0);
      res := res + subRes;
      k := k + 1;
    }
    assert subSeqs[..|subSeqs|] == subSeqs;
  }
}
