/** The four sequences of ctc/prefix_search_test.go:9-59 run through the
    model of PrefixSearch. The test gives each frame as the logs of round
    probabilities (log 0.9999, log 0.0001, ...); here the frames hold those
    probabilities. A frame is dropped when its blank exceeds the threshold,
    so the four log thresholds -1e-2, -1e-3, -1e-6 and -1e-10 fall into two
    bands of probability thresholds: exp(-1e-2) and exp(-1e-3) lie in
    [0.6, 0.9999), where the frames G and Q are dropped and the others kept,
    and exp(-1e-6) and exp(-1e-10) lie at or above 0.999998, where every
    frame is kept.

    The frames are the test's probabilities rounded to six decimal places.
    Only the blank of P changes: its log -0.510827290434046 is the log of
    0.599999, which P rounds to 0.6, so P sums to 1.000001. Both values
    keep P in both threshold bands; the searches are proved for 0.6.

    Search has no closed form, so each search below is unfolded node by
    node: the lemma for a node states its sorted extension list and the
    outcome of every branch the pruned loop explores. */
module CtcPrefixSearchExamples {
  import opened LogDomain
  import opened CtcPrefixSearch

  const G: Frame := [0.0001, 0.9999]
  const H: Frame := [0.9, 0.1]
  const Q: Frame := [0.000001, 0.000001, 0.999998]
  const P: Frame := [0.4, 0.000001, 0.6]
  const R: Frame := [0.2, 0.5, 0.3]

  const Seq0: seq<Frame> := [G, H, G, H, G, G]
  const Seq1: seq<Frame> := [Q, P, P, Q, R]
  const Seq2: seq<Frame> := [Q, P, Q, R]
  const Seq3: seq<Frame> := [P, Q, R]

  /** Every frame of the four sequences has the width of the first. */
  lemma SeqsUniform()
    ensures Uniform(Seq0) && Uniform(Seq1) && Uniform(Seq2) && Uniform(Seq3)
  {
    assert |G| == |H| == 2 && |Q| == |P| == |R| == 3;
  }

  /** A dropped frame ahead of the rest adds no run. */
  lemma {:induction false} RunsDropFirst(d: Frame, b: seq<Frame>, t: Prob)
    requires |d| >= 1 && NonEmpty(b) && Dropped(d, t)
    ensures NonEmpty([d] + b) && Runs([d] + b, t) == Runs(b, t)
  {
    assert [d] + b == [] + [d] + b;
    RunsSplit([], d, b, t);
  }

  /** A dropped frame after the rest adds no run. */
  lemma {:induction false} RunsDropLast(a: seq<Frame>, d: Frame, t: Prob)
    requires NonEmpty(a) && |d| >= 1 && Dropped(d, t)
    ensures NonEmpty(a + [d]) && Runs(a + [d], t) == Runs(a, t)
  {
    assert a + [d] == a + [d] + [];
    RunsSplit(a, d, [], t);
  }

  /** Two runs of kept frames around one dropped frame. */
  lemma {:induction false} RunsAround(a: seq<Frame>, d: Frame, b: seq<Frame>, t: Prob)
    requires |a| > 0 && |b| > 0 && NonEmpty(a) && |d| >= 1 && NonEmpty(b) && Dropped(d, t)
    requires forall k :: 0 <= k < |a| ==> !Dropped(a[k], t)
    requires forall k :: 0 <= k < |b| ==> !Dropped(b[k], t)
    ensures NonEmpty(a + [d] + b) && Runs(a + [d] + b, t) == [a, b]
  {
    RunsSplit(a, d, b, t);
    RunsWhole(a, t);
    RunsWhole(b, t);
  }

  /** With a threshold in [0.6, 0.9999) the dropped frames split each
      sequence into these runs. */
  lemma {:induction false} LooseRuns0(t: Prob)
    requires 0.6 <= t < 0.9999
    ensures Runs(Seq0, t) == [[H], [H]]
  {
    assert [H, G, H] == [H] + [G] + [H];
    RunsAround([H], G, [H], t);
    RunsDropLast([H, G, H], G, t);
    assert [H, G, H] + [G] == [H, G, H, G];
    RunsDropLast([H, G, H, G], G, t);
    assert [H, G, H, G] + [G] == [H, G, H, G, G];
    assert Seq0 == [G] + [H, G, H, G, G];
    RunsDropFirst(G, [H, G, H, G, G], t);
  }

  lemma {:induction false} LooseRuns1(t: Prob)
    requires 0.6 <= t < 0.9999
    ensures Runs(Seq1, t) == [[P, P], [R]]
  {
    assert [P, P, Q, R] == [P, P] + [Q] + [R];
    RunsAround([P, P], Q, [R], t);
    assert Seq1 == [Q] + [P, P, Q, R];
    RunsDropFirst(Q, [P, P, Q, R], t);
  }

  lemma {:induction false} LooseRuns2(t: Prob)
    requires 0.6 <= t < 0.9999
    ensures Runs(Seq2, t) == [[P], [R]]
  {
    assert [P, Q, R] == [P] + [Q] + [R];
    RunsAround([P], Q, [R], t);
    assert Seq2 == [Q] + [P, Q, R];
    RunsDropFirst(Q, [P, Q, R], t);
  }

  lemma {:induction false} LooseRuns3(t: Prob)
    requires 0.6 <= t < 0.9999
    ensures Runs(Seq3, t) == [[P], [R]]
  {
    assert Seq3 == [P] + [Q] + [R];
    RunsAround([P], Q, [R], t);
  }

  /** The labellings of two runs, one after the other. */
  lemma {:induction false} DecodeTwo(a: seq<Frame>, b: seq<Frame>)
    requires Uniform(a) && Uniform(b)
    ensures AllUniform([a, b])
    ensures Decode([a, b]) == Search(a, [], 0.0, 1.0).labels + Search(b, [], 0.0, 1.0).labels
  {
    assert [a, b][..1] == [a];
    DecodeOne(a);
  }

  lemma {:induction false} DecodeOne(a: seq<Frame>)
    requires Uniform(a)
    ensures AllUniform([a])
    ensures Decode([a]) == Search(a, [], 0.0, 1.0).labels
  {
    assert [a][..0] == [];
  }

  /** The labelling of a sequence split into two runs. */
  lemma {:induction false} DecodeRuns(frames: seq<Frame>, a: seq<Frame>, b: seq<Frame>, t: Prob)
    requires Uniform(frames) && Uniform(a) && Uniform(b) && NonEmpty(frames) && Runs(frames, t) == [a, b]
    ensures DecodeFrames(frames, t) == Search(a, [], 0.0, 1.0).labels + Search(b, [], 0.0, 1.0).labels
  {
    DecodeTwo(a, b);
  }

  /** PrefixSearch(seq, -1e-2) and PrefixSearch(seq, -1e-3) give [0, 0],
      [0, 1], [1] and [1]. */
  lemma {:induction false} LooseThresholds(t: Prob)
    requires 0.6 <= t < 0.9999
    ensures Uniform(Seq0) && DecodeFrames(Seq0, t) == [0, 0]
    ensures Uniform(Seq1) && DecodeFrames(Seq1, t) == [0, 1]
    ensures Uniform(Seq2) && DecodeFrames(Seq2, t) == [1]
    ensures Uniform(Seq3) && DecodeFrames(Seq3, t) == [1]
  {
    SeqsUniform();
    Loose0(t);
    Loose1(t);
    Loose23(t);
  }

  lemma {:induction false} Loose0(t: Prob)
    requires 0.6 <= t < 0.9999 && Uniform(Seq0)
    ensures DecodeFrames(Seq0, t) == [0, 0]
  {
    SearchH();
    LooseRuns0(t);
    DecodeRuns(Seq0, [H], [H], t);
  }

  lemma {:induction false} Loose1(t: Prob)
    requires 0.6 <= t < 0.9999 && Uniform(Seq1)
    ensures DecodeFrames(Seq1, t) == [0, 1]
  {
    SearchPP();
    SearchR();
    LooseRuns1(t);
    DecodeRuns(Seq1, [P, P], [R], t);
  }

  lemma {:induction false} Loose23(t: Prob)
    requires 0.6 <= t < 0.9999 && Uniform(Seq2) && Uniform(Seq3)
    ensures DecodeFrames(Seq2, t) == [1] && DecodeFrames(Seq3, t) == [1]
  {
    SearchP();
    SearchR();
    LooseRuns2(t);
    DecodeRuns(Seq2, [P], [R], t);
    LooseRuns3(t);
    DecodeRuns(Seq3, [P], [R], t);
  }

  /** The labelling of a sequence that is one run. */
  lemma {:induction false} DecodeWhole(frames: seq<Frame>, t: Prob)
    requires Uniform(frames) && |frames| > 0
    requires forall k :: 0 <= k < |frames| ==> !Dropped(frames[k], t)
    ensures DecodeFrames(frames, t) == Search(frames, [], 0.0, 1.0).labels
  {
    RunsWhole(frames, t);
    assert [frames][..0] == [];
  }

  /** PrefixSearch(seq, -1e-6) and PrefixSearch(seq, -1e-10) give the same
      labellings, with every frame searched. */
  lemma {:induction false} TightThresholds(t: Prob)
    requires 0.999998 <= t
    ensures Uniform(Seq0) && DecodeFrames(Seq0, t) == [0, 0]
    ensures Uniform(Seq1) && DecodeFrames(Seq1, t) == [0, 1]
    ensures Uniform(Seq2) && DecodeFrames(Seq2, t) == [1]
    ensures Uniform(Seq3) && DecodeFrames(Seq3, t) == [1]
  {
    SeqsUniform();
    Tight01(t);
    Tight23(t);
  }

  lemma {:induction false} Tight01(t: Prob)
    requires 0.999998 <= t && Uniform(Seq0) && Uniform(Seq1)
    ensures DecodeFrames(Seq0, t) == [0, 0] && DecodeFrames(Seq1, t) == [0, 1]
  {
    DecodeWhole(Seq0, t);
    SearchGHGHGG();
    DecodeWhole(Seq1, t);
    SearchQPPQR();
  }

  lemma {:induction false} Tight23(t: Prob)
    requires 0.999998 <= t && Uniform(Seq2) && Uniform(Seq3)
    ensures DecodeFrames(Seq2, t) == [1] && DecodeFrames(Seq3, t) == [1]
  {
    DecodeWhole(Seq2, t);
    SearchQPQR();
    DecodeWhole(Seq3, t);
    SearchPQR();
  }

  // ----- the searches, node by node -----

  /** Sorting two extensions: the less likely one goes last, and a tie
      keeps their order. */
  lemma SortPair(a: Ext, b: Ext)
    ensures SortDesc([a, b]) == if a.prob >= b.prob then [a, b] else [b, a]
  {
    assert [a, b][..1] == [a];
    assert [a][..0] == [];
    assert SortDesc([a]) == Insert([], a) == [a];
    if a.prob < b.prob {
      assert Insert([a], b) == Insert([], b) + [a];
    }
  }

  /** Sorting three extensions: the third is inserted after every one of
      the sorted first two that is at least as likely. */
  lemma SortTriple(a: Ext, b: Ext, c: Ext)
    ensures var s := SortDesc([a, b]);
      SortDesc([a, b, c]) ==
        if s[1].prob >= c.prob then s + [c]
        else if s[0].prob >= c.prob then [s[0], c, s[1]]
        else [c] + s
  {
    assert [a, b, c][..2] == [a, b];
    var s := SortDesc([a, b]);
    assert SortDesc([a, b, c]) == Insert(s, c);
    assert s[..1] == [s[0]] && s == [s[0], s[1]];
    assert [s[0]][..0] == [];
    if s[1].prob < c.prob {
      assert Insert(s, c) == Insert([s[0]], c) + [s[1]];
      if s[0].prob < c.prob {
        assert Insert([s[0]], c) == Insert([], c) + [s[0]];
      }
    }
  }

  lemma ExtsCase1()
    ensures SortDesc(Extensions(H, [], 0.0, 1.0)) == [Ext(0, 0.9), Ext(-1, 0.1)]
  {
    var e0 := Ext(0, 0.9);
    var e1 := Ext(-1, 0.1);
    assert Extensions(H, [], 0.0, 1.0) == [e0, e1] by {
      assert SymbolExts(H, [], 0.0, 1.0, 1) == [e0];
    }
    SortPair(e0, e1);
  }

  lemma ExtsCase2()
    ensures SortDesc(Extensions(P, [], 0.0, 1.0)) == [Ext(-1, 0.6), Ext(0, 0.4), Ext(1, 0.000001)]
  {
    var e0 := Ext(0, 0.4);
    var e1 := Ext(1, 0.000001);
    var e2 := Ext(-1, 0.6);
    assert Extensions(P, [], 0.0, 1.0) == [e0, e1, e2] by {
      assert SymbolExts(P, [], 0.0, 1.0, 1) == [e0];
      assert SymbolExts(P, [], 0.0, 1.0, 2) == [e0, e1];
    }
    SortPair(e0, e1);
    SortTriple(e0, e1, e2);
  }

  lemma ExtsCase3()
    ensures SortDesc(Extensions(R, [], 0.0, 1.0)) == [Ext(1, 0.5), Ext(-1, 0.3), Ext(0, 0.2)]
  {
    var e0 := Ext(0, 0.2);
    var e1 := Ext(1, 0.5);
    var e2 := Ext(-1, 0.3);
    assert Extensions(R, [], 0.0, 1.0) == [e0, e1, e2] by {
      assert SymbolExts(R, [], 0.0, 1.0, 1) == [e0];
      assert SymbolExts(R, [], 0.0, 1.0, 2) == [e0, e1];
    }
    SortPair(e0, e1);
    SortTriple(e0, e1, e2);
  }

  lemma ExtsCase5()
    ensures SortDesc(Extensions(P, [], 0.0, 0.6)) == [Ext(-1, 0.36), Ext(0, 0.24), Ext(1, 0.0000006)]
  {
    var e0 := Ext(0, 0.24);
    var e1 := Ext(1, 0.0000006);
    var e2 := Ext(-1, 0.36);
    assert Extensions(P, [], 0.0, 0.6) == [e0, e1, e2] by {
      assert SymbolExts(P, [], 0.0, 0.6, 1) == [e0];
      assert SymbolExts(P, [], 0.0, 0.6, 2) == [e0, e1];
    }
    SortPair(e0, e1);
    SortTriple(e0, e1, e2);
  }

  lemma ExtsCase6()
    ensures SortDesc(Extensions(P, [0], 0.4, 0.0)) == [Ext(-1, 0.4), Ext(1, 0.0000004), Ext(0, 0.0)]
  {
    var e0 := Ext(0, 0.0);
    var e1 := Ext(1, 0.0000004);
    var e2 := Ext(-1, 0.4);
    assert Extensions(P, [0], 0.4, 0.0) == [e0, e1, e2] by {
      assert SymbolExts(P, [0], 0.4, 0.0, 1) == [e0];
      assert SymbolExts(P, [0], 0.4, 0.0, 2) == [e0, e1];
    }
    SortPair(e0, e1);
    SortTriple(e0, e1, e2);
  }

  lemma ExtsCase8()
    ensures SortDesc(Extensions(Q, [], 0.0, 0.6)) == [Ext(-1, 0.5999988), Ext(0, 0.0000006), Ext(1, 0.0000006)]
  {
    var e0 := Ext(0, 0.0000006);
    var e1 := Ext(1, 0.0000006);
    var e2 := Ext(-1, 0.5999988);
    assert Extensions(Q, [], 0.0, 0.6) == [e0, e1, e2] by {
      assert SymbolExts(Q, [], 0.0, 0.6, 1) == [e0];
      assert SymbolExts(Q, [], 0.0, 0.6, 2) == [e0, e1];
    }
    SortPair(e0, e1);
    SortTriple(e0, e1, e2);
  }

  lemma ExtsCase9()
    ensures SortDesc(Extensions(R, [], 0.0, 0.5999988)) == [Ext(1, 0.2999994), Ext(-1, 0.17999964), Ext(0, 0.11999976)]
  {
    var e0 := Ext(0, 0.11999976);
    var e1 := Ext(1, 0.2999994);
    var e2 := Ext(-1, 0.17999964);
    assert Extensions(R, [], 0.0, 0.5999988) == [e0, e1, e2] by {
      assert SymbolExts(R, [], 0.0, 0.5999988, 1) == [e0];
      assert SymbolExts(R, [], 0.0, 0.5999988, 2) == [e0, e1];
    }
    SortPair(e0, e1);
    SortTriple(e0, e1, e2);
  }

  lemma ExtsCase10()
    ensures SortDesc(Extensions(Q, [0], 0.4, 0.0)) == [Ext(-1, 0.3999996), Ext(1, 0.0000004), Ext(0, 0.0)]
  {
    var e0 := Ext(0, 0.0);
    var e1 := Ext(1, 0.0000004);
    var e2 := Ext(-1, 0.3999996);
    assert Extensions(Q, [0], 0.4, 0.0) == [e0, e1, e2] by {
      assert SymbolExts(Q, [0], 0.4, 0.0, 1) == [e0];
      assert SymbolExts(Q, [0], 0.4, 0.0, 2) == [e0, e1];
    }
    SortPair(e0, e1);
    SortTriple(e0, e1, e2);
  }

  lemma ExtsCase11()
    ensures SortDesc(Extensions(R, [0], 0.0000004, 0.3999992)) == [Ext(1, 0.1999998), Ext(-1, 0.11999996), Ext(0, 0.07999984)]
  {
    var e0 := Ext(0, 0.07999984);
    var e1 := Ext(1, 0.1999998);
    var e2 := Ext(-1, 0.11999996);
    assert Extensions(R, [0], 0.0000004, 0.3999992) == [e0, e1, e2] by {
      assert SymbolExts(R, [0], 0.0000004, 0.3999992, 1) == [e0];
      assert SymbolExts(R, [0], 0.0000004, 0.3999992, 2) == [e0, e1];
    }
    SortPair(e0, e1);
    SortTriple(e0, e1, e2);
  }

  lemma ExtsCase12()
    ensures SortDesc(Extensions(Q, [], 0.0, 1.0)) == [Ext(-1, 0.999998), Ext(0, 0.000001), Ext(1, 0.000001)]
  {
    var e0 := Ext(0, 0.000001);
    var e1 := Ext(1, 0.000001);
    var e2 := Ext(-1, 0.999998);
    assert Extensions(Q, [], 0.0, 1.0) == [e0, e1, e2] by {
      assert SymbolExts(Q, [], 0.0, 1.0, 1) == [e0];
      assert SymbolExts(Q, [], 0.0, 1.0, 2) == [e0, e1];
    }
    SortPair(e0, e1);
    SortTriple(e0, e1, e2);
  }

  lemma ExtsCase13()
    ensures SortDesc(Extensions(P, [], 0.0, 0.999998)) == [Ext(-1, 0.5999988), Ext(0, 0.3999992), Ext(1, 0.000000999998)]
  {
    var e0 := Ext(0, 0.3999992);
    var e1 := Ext(1, 0.000000999998);
    var e2 := Ext(-1, 0.5999988);
    assert Extensions(P, [], 0.0, 0.999998) == [e0, e1, e2] by {
      assert SymbolExts(P, [], 0.0, 0.999998, 1) == [e0];
      assert SymbolExts(P, [], 0.0, 0.999998, 2) == [e0, e1];
    }
    SortPair(e0, e1);
    SortTriple(e0, e1, e2);
  }

  lemma ExtsCase14()
    ensures SortDesc(Extensions(Q, [], 0.0, 0.5999988)) == [Ext(-1, 0.5999976000024), Ext(0, 0.0000005999988), Ext(1, 0.0000005999988)]
  {
    var e0 := Ext(0, 0.0000005999988);
    var e1 := Ext(1, 0.0000005999988);
    var e2 := Ext(-1, 0.5999976000024);
    assert Extensions(Q, [], 0.0, 0.5999988) == [e0, e1, e2] by {
      assert SymbolExts(Q, [], 0.0, 0.5999988, 1) == [e0];
      assert SymbolExts(Q, [], 0.0, 0.5999988, 2) == [e0, e1];
    }
    SortPair(e0, e1);
    SortTriple(e0, e1, e2);
  }

  lemma ExtsCase15()
    ensures SortDesc(Extensions(R, [], 0.0, 0.5999976000024)) == [Ext(1, 0.2999988000012), Ext(-1, 0.17999928000072), Ext(0, 0.11999952000048)]
  {
    var e0 := Ext(0, 0.11999952000048);
    var e1 := Ext(1, 0.2999988000012);
    var e2 := Ext(-1, 0.17999928000072);
    assert Extensions(R, [], 0.0, 0.5999976000024) == [e0, e1, e2] by {
      assert SymbolExts(R, [], 0.0, 0.5999976000024, 1) == [e0];
      assert SymbolExts(R, [], 0.0, 0.5999976000024, 2) == [e0, e1];
    }
    SortPair(e0, e1);
    SortTriple(e0, e1, e2);
  }

  lemma ExtsCase16()
    ensures SortDesc(Extensions(Q, [0], 0.3999992, 0.0)) == [Ext(-1, 0.3999988000008), Ext(1, 0.0000003999992), Ext(0, 0.0)]
  {
    var e0 := Ext(0, 0.0);
    var e1 := Ext(1, 0.0000003999992);
    var e2 := Ext(-1, 0.3999988000008);
    assert Extensions(Q, [0], 0.3999992, 0.0) == [e0, e1, e2] by {
      assert SymbolExts(Q, [0], 0.3999992, 0.0, 1) == [e0];
      assert SymbolExts(Q, [0], 0.3999992, 0.0, 2) == [e0, e1];
    }
    SortPair(e0, e1);
    SortTriple(e0, e1, e2);
  }

  lemma ExtsCase17()
    ensures SortDesc(Extensions(R, [0], 0.0000003999992, 0.3999984000016)) == [Ext(1, 0.1999994000004), Ext(-1, 0.11999972000008), Ext(0, 0.07999968000032)]
  {
    var e0 := Ext(0, 0.07999968000032);
    var e1 := Ext(1, 0.1999994000004);
    var e2 := Ext(-1, 0.11999972000008);
    assert Extensions(R, [0], 0.0000003999992, 0.3999984000016) == [e0, e1, e2] by {
      assert SymbolExts(R, [0], 0.0000003999992, 0.3999984000016, 1) == [e0];
      assert SymbolExts(R, [0], 0.0000003999992, 0.3999984000016, 2) == [e0, e1];
    }
    SortPair(e0, e1);
    SortTriple(e0, e1, e2);
  }

  lemma ExtsCase20()
    ensures SortDesc(Extensions(P, [], 0.0, 0.5999988)) == [Ext(-1, 0.35999928), Ext(0, 0.23999952), Ext(1, 0.0000005999988)]
  {
    var e0 := Ext(0, 0.23999952);
    var e1 := Ext(1, 0.0000005999988);
    var e2 := Ext(-1, 0.35999928);
    assert Extensions(P, [], 0.0, 0.5999988) == [e0, e1, e2] by {
      assert SymbolExts(P, [], 0.0, 0.5999988, 1) == [e0];
      assert SymbolExts(P, [], 0.0, 0.5999988, 2) == [e0, e1];
    }
    SortPair(e0, e1);
    SortTriple(e0, e1, e2);
  }

  lemma ExtsCase21()
    ensures SortDesc(Extensions(Q, [], 0.0, 0.35999928)) == [Ext(-1, 0.35999856000144), Ext(0, 0.00000035999928), Ext(1, 0.00000035999928)]
  {
    var e0 := Ext(0, 0.00000035999928);
    var e1 := Ext(1, 0.00000035999928);
    var e2 := Ext(-1, 0.35999856000144);
    assert Extensions(Q, [], 0.0, 0.35999928) == [e0, e1, e2] by {
      assert SymbolExts(Q, [], 0.0, 0.35999928, 1) == [e0];
      assert SymbolExts(Q, [], 0.0, 0.35999928, 2) == [e0, e1];
    }
    SortPair(e0, e1);
    SortTriple(e0, e1, e2);
  }

  lemma ExtsCase22()
    ensures SortDesc(Extensions(R, [], 0.0, 0.35999856000144)) == [Ext(1, 0.17999928000072), Ext(-1, 0.107999568000432), Ext(0, 0.071999712000288)]
  {
    var e0 := Ext(0, 0.071999712000288);
    var e1 := Ext(1, 0.17999928000072);
    var e2 := Ext(-1, 0.107999568000432);
    assert Extensions(R, [], 0.0, 0.35999856000144) == [e0, e1, e2] by {
      assert SymbolExts(R, [], 0.0, 0.35999856000144, 1) == [e0];
      assert SymbolExts(R, [], 0.0, 0.35999856000144, 2) == [e0, e1];
    }
    SortPair(e0, e1);
    SortTriple(e0, e1, e2);
  }

  lemma ExtsCase23()
    ensures SortDesc(Extensions(Q, [0], 0.23999952, 0.0)) == [Ext(-1, 0.23999928000048), Ext(1, 0.00000023999952), Ext(0, 0.0)]
  {
    var e0 := Ext(0, 0.0);
    var e1 := Ext(1, 0.00000023999952);
    var e2 := Ext(-1, 0.23999928000048);
    assert Extensions(Q, [0], 0.23999952, 0.0) == [e0, e1, e2] by {
      assert SymbolExts(Q, [0], 0.23999952, 0.0, 1) == [e0];
      assert SymbolExts(Q, [0], 0.23999952, 0.0, 2) == [e0, e1];
    }
    SortPair(e0, e1);
    SortTriple(e0, e1, e2);
  }

  lemma ExtsCase24()
    ensures SortDesc(Extensions(R, [0], 0.00000023999952, 0.23999904000096)) == [Ext(1, 0.11999964000024), Ext(-1, 0.071999832000048), Ext(0, 0.047999808000192)]
  {
    var e0 := Ext(0, 0.047999808000192);
    var e1 := Ext(1, 0.11999964000024);
    var e2 := Ext(-1, 0.071999832000048);
    assert Extensions(R, [0], 0.00000023999952, 0.23999904000096) == [e0, e1, e2] by {
      assert SymbolExts(R, [0], 0.00000023999952, 0.23999904000096, 1) == [e0];
      assert SymbolExts(R, [0], 0.00000023999952, 0.23999904000096, 2) == [e0, e1];
    }
    SortPair(e0, e1);
    SortTriple(e0, e1, e2);
  }

  lemma ExtsCase25()
    ensures SortDesc(Extensions(P, [0], 0.3999992, 0.0)) == [Ext(-1, 0.3999992), Ext(1, 0.0000003999992), Ext(0, 0.0)]
  {
    var e0 := Ext(0, 0.0);
    var e1 := Ext(1, 0.0000003999992);
    var e2 := Ext(-1, 0.3999992);
    assert Extensions(P, [0], 0.3999992, 0.0) == [e0, e1, e2] by {
      assert SymbolExts(P, [0], 0.3999992, 0.0, 1) == [e0];
      assert SymbolExts(P, [0], 0.3999992, 0.0, 2) == [e0, e1];
    }
    SortPair(e0, e1);
    SortTriple(e0, e1, e2);
  }

  lemma ExtsCase26()
    ensures SortDesc(Extensions(Q, [0], 0.15999968, 0.23999952)) == [Ext(-1, 0.39999856000128), Ext(1, 0.0000003999992), Ext(0, 0.00000023999952)]
  {
    var e0 := Ext(0, 0.00000023999952);
    var e1 := Ext(1, 0.0000003999992);
    var e2 := Ext(-1, 0.39999856000128);
    assert Extensions(Q, [0], 0.15999968, 0.23999952) == [e0, e1, e2] by {
      assert SymbolExts(Q, [0], 0.15999968, 0.23999952, 1) == [e0];
      assert SymbolExts(Q, [0], 0.15999968, 0.23999952, 2) == [e0, e1];
    }
    SortPair(e0, e1);
    SortTriple(e0, e1, e2);
  }

  lemma ExtsCase27()
    ensures SortDesc(Extensions(R, [0], 0.00000015999968, 0.3999984000016)) == [Ext(1, 0.19999928000064), Ext(-1, 0.11999960000032), Ext(0, 0.07999968000032)]
  {
    var e0 := Ext(0, 0.07999968000032);
    var e1 := Ext(1, 0.19999928000064);
    var e2 := Ext(-1, 0.11999960000032);
    assert Extensions(R, [0], 0.00000015999968, 0.3999984000016) == [e0, e1, e2] by {
      assert SymbolExts(R, [0], 0.00000015999968, 0.3999984000016, 1) == [e0];
      assert SymbolExts(R, [0], 0.00000015999968, 0.3999984000016, 2) == [e0, e1];
    }
    SortPair(e0, e1);
    SortTriple(e0, e1, e2);
  }

  lemma ExtsCase28()
    ensures SortDesc(Extensions(G, [], 0.0, 1.0)) == [Ext(-1, 0.9999), Ext(0, 0.0001)]
  {
    var e0 := Ext(0, 0.0001);
    var e1 := Ext(-1, 0.9999);
    assert Extensions(G, [], 0.0, 1.0) == [e0, e1] by {
      assert SymbolExts(G, [], 0.0, 1.0, 1) == [e0];
    }
    SortPair(e0, e1);
  }

  lemma ExtsCase29()
    ensures SortDesc(Extensions(H, [], 0.0, 0.9999)) == [Ext(0, 0.89991), Ext(-1, 0.09999)]
  {
    var e0 := Ext(0, 0.89991);
    var e1 := Ext(-1, 0.09999);
    assert Extensions(H, [], 0.0, 0.9999) == [e0, e1] by {
      assert SymbolExts(H, [], 0.0, 0.9999, 1) == [e0];
    }
    SortPair(e0, e1);
  }

  lemma ExtsCase30()
    ensures SortDesc(Extensions(G, [0], 0.89991, 0.0)) == [Ext(-1, 0.89991), Ext(0, 0.0)]
  {
    var e0 := Ext(0, 0.0);
    var e1 := Ext(-1, 0.89991);
    assert Extensions(G, [0], 0.89991, 0.0) == [e0, e1] by {
      assert SymbolExts(G, [0], 0.89991, 0.0, 1) == [e0];
    }
    SortPair(e0, e1);
  }

  lemma ExtsCase31()
    ensures SortDesc(Extensions(H, [0], 0.000089991, 0.899820009)) == [Ext(0, 0.8098380081), Ext(-1, 0.0900719919)]
  {
    var e0 := Ext(0, 0.8098380081);
    var e1 := Ext(-1, 0.0900719919);
    assert Extensions(H, [0], 0.000089991, 0.899820009) == [e0, e1] by {
      assert SymbolExts(H, [0], 0.000089991, 0.899820009, 1) == [e0];
    }
    SortPair(e0, e1);
  }

  lemma ExtsCase32()
    ensures SortDesc(Extensions(G, [0, 0], 0.8098380081, 0.0)) == [Ext(-1, 0.8098380081), Ext(0, 0.0)]
  {
    var e0 := Ext(0, 0.0);
    var e1 := Ext(-1, 0.8098380081);
    assert Extensions(G, [0, 0], 0.8098380081, 0.0) == [e0, e1] by {
      assert SymbolExts(G, [0, 0], 0.8098380081, 0.0, 1) == [e0];
    }
    SortPair(e0, e1);
  }

  lemma ExtsCase33()
    ensures SortDesc(Extensions(G, [0, 0], 0.00008098380081, 0.80975702429919)) == [Ext(-1, 0.809757032397570081), Ext(0, 0.000080975702429919)]
  {
    var e0 := Ext(0, 0.000080975702429919);
    var e1 := Ext(-1, 0.809757032397570081);
    assert Extensions(G, [0, 0], 0.00008098380081, 0.80975702429919) == [e0, e1] by {
      assert SymbolExts(G, [0, 0], 0.00008098380081, 0.80975702429919, 1) == [e0];
    }
    SortPair(e0, e1);
  }

  lemma SearchH()
    ensures Search([H], [], 0.0, 1.0) == Outcome([0], 0.9)
  {
    var e0, e1 := Ext(0, 0.9), Ext(-1, 0.1);
    var best := Outcome([0], 0.9);
    ExtsCase1();
    assert Branch([H], [], 0.0, 1.0, e0) == best by {
      assert [] + [0] == [0];
      assert Search([], [0], 0.9, 0.0) == best;
    }
    assert Explore([H], [], 0.0, 1.0, [e0, e1], 1) == best;
    assert Explore([H], [], 0.0, 1.0, [e0, e1], 2) == best by {
      assert e1.prob < best.prob;
    }
  }


  lemma SearchP()
    ensures Search([P], [], 0.0, 1.0) == Outcome([], 0.6)
  {
    ExtsCase2();
    assert Branch([P], [], 0.0, 1.0, Ext(-1, 0.6)) == Outcome([], 0.6) by {
      assert Search([], [], 0.0, 0.6) == Outcome([], 0.6);
    }
    assert Explore([P], [], 0.0, 1.0, [Ext(-1, 0.6), Ext(0, 0.4), Ext(1, 0.000001)], 1) == Outcome([], 0.6);
    assert Explore([P], [], 0.0, 1.0, [Ext(-1, 0.6), Ext(0, 0.4), Ext(1, 0.000001)], 2) == Outcome([], 0.6);
    assert Explore([P], [], 0.0, 1.0, [Ext(-1, 0.6), Ext(0, 0.4), Ext(1, 0.000001)], 3) == Outcome([], 0.6);
  }

  lemma SearchR()
    ensures Search([R], [], 0.0, 1.0) == Outcome([1], 0.5)
  {
    ExtsCase3();
    assert Branch([R], [], 0.0, 1.0, Ext(1, 0.5)) == Outcome([1], 0.5) by {
      assert [] + [1] == [1];
      assert Search([], [1], 0.5, 0.0) == Outcome([1], 0.5);
    }
    assert Explore([R], [], 0.0, 1.0, [Ext(1, 0.5), Ext(-1, 0.3), Ext(0, 0.2)], 1) == Outcome([1], 0.5);
    assert Explore([R], [], 0.0, 1.0, [Ext(1, 0.5), Ext(-1, 0.3), Ext(0, 0.2)], 2) == Outcome([1], 0.5);
    assert Explore([R], [], 0.0, 1.0, [Ext(1, 0.5), Ext(-1, 0.3), Ext(0, 0.2)], 3) == Outcome([1], 0.5);
  }

  lemma SearchCase4()
    ensures Search([P], [], 0.0, 0.6) == Outcome([], 0.36)
  {
    ExtsCase5();
    assert Branch([P], [], 0.0, 0.6, Ext(-1, 0.36)) == Outcome([], 0.36) by {
      assert Search([], [], 0.0, 0.36) == Outcome([], 0.36);
    }
    assert Explore([P], [], 0.0, 0.6, [Ext(-1, 0.36), Ext(0, 0.24), Ext(1, 0.0000006)], 1) == Outcome([], 0.36);
    assert Explore([P], [], 0.0, 0.6, [Ext(-1, 0.36), Ext(0, 0.24), Ext(1, 0.0000006)], 2) == Outcome([], 0.36);
    assert Explore([P], [], 0.0, 0.6, [Ext(-1, 0.36), Ext(0, 0.24), Ext(1, 0.0000006)], 3) == Outcome([], 0.36);
  }

  lemma SearchCase5()
    ensures Search([P], [0], 0.4, 0.0) == Outcome([0], 0.4)
  {
    ExtsCase6();
    assert Branch([P], [0], 0.4, 0.0, Ext(-1, 0.4)) == Outcome([0], 0.4) by {
      assert Search([], [0], 0.16, 0.24) == Outcome([0], 0.4);
    }
    assert Explore([P], [0], 0.4, 0.0, [Ext(-1, 0.4), Ext(1, 0.0000004), Ext(0, 0.0)], 1) == Outcome([0], 0.4);
    assert Explore([P], [0], 0.4, 0.0, [Ext(-1, 0.4), Ext(1, 0.0000004), Ext(0, 0.0)], 2) == Outcome([0], 0.4);
    assert Explore([P], [0], 0.4, 0.0, [Ext(-1, 0.4), Ext(1, 0.0000004), Ext(0, 0.0)], 3) == Outcome([0], 0.4);
  }

  lemma SearchPP()
    ensures Search([P, P], [], 0.0, 1.0) == Outcome([0], 0.4)
  {
    ExtsCase2();
    assert [P, P][1..] == [P];
    assert Branch([P, P], [], 0.0, 1.0, Ext(-1, 0.6)) == Outcome([], 0.36) by {
      SearchCase4();
    }
    assert Explore([P, P], [], 0.0, 1.0, [Ext(-1, 0.6), Ext(0, 0.4), Ext(1, 0.000001)], 1) == Outcome([], 0.36);
    assert Branch([P, P], [], 0.0, 1.0, Ext(0, 0.4)) == Outcome([0], 0.4) by {
      assert [] + [0] == [0];
      SearchCase5();
    }
    assert Explore([P, P], [], 0.0, 1.0, [Ext(-1, 0.6), Ext(0, 0.4), Ext(1, 0.000001)], 2) == Outcome([0], 0.4);
    assert Explore([P, P], [], 0.0, 1.0, [Ext(-1, 0.6), Ext(0, 0.4), Ext(1, 0.000001)], 3) == Outcome([0], 0.4);
  }

  lemma SearchCase7()
    ensures Search([R], [], 0.0, 0.5999988) == Outcome([1], 0.2999994)
  {
    ExtsCase9();
    assert Branch([R], [], 0.0, 0.5999988, Ext(1, 0.2999994)) == Outcome([1], 0.2999994) by {
      assert [] + [1] == [1];
      assert Search([], [1], 0.2999994, 0.0) == Outcome([1], 0.2999994);
    }
    assert Explore([R], [], 0.0, 0.5999988, [Ext(1, 0.2999994), Ext(-1, 0.17999964), Ext(0, 0.11999976)], 1) == Outcome([1], 0.2999994);
    assert Explore([R], [], 0.0, 0.5999988, [Ext(1, 0.2999994), Ext(-1, 0.17999964), Ext(0, 0.11999976)], 2) == Outcome([1], 0.2999994);
    assert Explore([R], [], 0.0, 0.5999988, [Ext(1, 0.2999994), Ext(-1, 0.17999964), Ext(0, 0.11999976)], 3) == Outcome([1], 0.2999994);
  }

  lemma SearchCase8()
    ensures Search([Q, R], [], 0.0, 0.6) == Outcome([1], 0.2999994)
  {
    ExtsCase8();
    assert [Q, R][1..] == [R];
    assert Branch([Q, R], [], 0.0, 0.6, Ext(-1, 0.5999988)) == Outcome([1], 0.2999994) by {
      SearchCase7();
    }
    assert Explore([Q, R], [], 0.0, 0.6, [Ext(-1, 0.5999988), Ext(0, 0.0000006), Ext(1, 0.0000006)], 1) == Outcome([1], 0.2999994);
    assert Explore([Q, R], [], 0.0, 0.6, [Ext(-1, 0.5999988), Ext(0, 0.0000006), Ext(1, 0.0000006)], 2) == Outcome([1], 0.2999994);
    assert Explore([Q, R], [], 0.0, 0.6, [Ext(-1, 0.5999988), Ext(0, 0.0000006), Ext(1, 0.0000006)], 3) == Outcome([1], 0.2999994);
  }

  lemma SearchCase9()
    ensures Search([R], [0], 0.0000004, 0.3999992) == Outcome([0, 1], 0.1999998)
  {
    ExtsCase11();
    assert Branch([R], [0], 0.0000004, 0.3999992, Ext(1, 0.1999998)) == Outcome([0, 1], 0.1999998) by {
      assert [0] + [1] == [0, 1];
      assert Search([], [0, 1], 0.1999998, 0.0) == Outcome([0, 1], 0.1999998);
    }
    assert Explore([R], [0], 0.0000004, 0.3999992, [Ext(1, 0.1999998), Ext(-1, 0.11999996), Ext(0, 0.07999984)], 1) == Outcome([0, 1], 0.1999998);
    assert Explore([R], [0], 0.0000004, 0.3999992, [Ext(1, 0.1999998), Ext(-1, 0.11999996), Ext(0, 0.07999984)], 2) == Outcome([0, 1], 0.1999998);
    assert Explore([R], [0], 0.0000004, 0.3999992, [Ext(1, 0.1999998), Ext(-1, 0.11999996), Ext(0, 0.07999984)], 3) == Outcome([0, 1], 0.1999998);
  }

  lemma SearchCase10()
    ensures Search([Q, R], [0], 0.4, 0.0) == Outcome([0, 1], 0.1999998)
  {
    ExtsCase10();
    assert [Q, R][1..] == [R];
    assert Branch([Q, R], [0], 0.4, 0.0, Ext(-1, 0.3999996)) == Outcome([0, 1], 0.1999998) by {
      SearchCase9();
    }
    assert Explore([Q, R], [0], 0.4, 0.0, [Ext(-1, 0.3999996), Ext(1, 0.0000004), Ext(0, 0.0)], 1) == Outcome([0, 1], 0.1999998);
    assert Explore([Q, R], [0], 0.4, 0.0, [Ext(-1, 0.3999996), Ext(1, 0.0000004), Ext(0, 0.0)], 2) == Outcome([0, 1], 0.1999998);
    assert Explore([Q, R], [0], 0.4, 0.0, [Ext(-1, 0.3999996), Ext(1, 0.0000004), Ext(0, 0.0)], 3) == Outcome([0, 1], 0.1999998);
  }

  lemma SearchPQR()
    ensures Search([P, Q, R], [], 0.0, 1.0) == Outcome([1], 0.2999994)
  {
    ExtsCase2();
    assert [P, Q, R][1..] == [Q, R];
    assert Branch([P, Q, R], [], 0.0, 1.0, Ext(-1, 0.6)) == Outcome([1], 0.2999994) by {
      SearchCase8();
    }
    assert Explore([P, Q, R], [], 0.0, 1.0, [Ext(-1, 0.6), Ext(0, 0.4), Ext(1, 0.000001)], 1) == Outcome([1], 0.2999994);
    assert Branch([P, Q, R], [], 0.0, 1.0, Ext(0, 0.4)) == Outcome([0, 1], 0.1999998) by {
      assert [] + [0] == [0];
      SearchCase10();
    }
    assert Explore([P, Q, R], [], 0.0, 1.0, [Ext(-1, 0.6), Ext(0, 0.4), Ext(1, 0.000001)], 2) == Outcome([1], 0.2999994);
    assert Explore([P, Q, R], [], 0.0, 1.0, [Ext(-1, 0.6), Ext(0, 0.4), Ext(1, 0.000001)], 3) == Outcome([1], 0.2999994);
  }

  lemma SearchCase12()
    ensures Search([R], [], 0.0, 0.5999976000024) == Outcome([1], 0.2999988000012)
  {
    ExtsCase15();
    assert Branch([R], [], 0.0, 0.5999976000024, Ext(1, 0.2999988000012)) == Outcome([1], 0.2999988000012) by {
      assert [] + [1] == [1];
      assert Search([], [1], 0.2999988000012, 0.0) == Outcome([1], 0.2999988000012);
    }
    assert Explore([R], [], 0.0, 0.5999976000024, [Ext(1, 0.2999988000012), Ext(-1, 0.17999928000072), Ext(0, 0.11999952000048)], 1) == Outcome([1], 0.2999988000012);
    assert Explore([R], [], 0.0, 0.5999976000024, [Ext(1, 0.2999988000012), Ext(-1, 0.17999928000072), Ext(0, 0.11999952000048)], 2) == Outcome([1], 0.2999988000012);
    assert Explore([R], [], 0.0, 0.5999976000024, [Ext(1, 0.2999988000012), Ext(-1, 0.17999928000072), Ext(0, 0.11999952000048)], 3) == Outcome([1], 0.2999988000012);
  }

  lemma SearchCase13()
    ensures Search([Q, R], [], 0.0, 0.5999988) == Outcome([1], 0.2999988000012)
  {
    ExtsCase14();
    assert [Q, R][1..] == [R];
    assert Branch([Q, R], [], 0.0, 0.5999988, Ext(-1, 0.5999976000024)) == Outcome([1], 0.2999988000012) by {
      SearchCase12();
    }
    assert Explore([Q, R], [], 0.0, 0.5999988, [Ext(-1, 0.5999976000024), Ext(0, 0.0000005999988), Ext(1, 0.0000005999988)], 1) == Outcome([1], 0.2999988000012);
    assert Explore([Q, R], [], 0.0, 0.5999988, [Ext(-1, 0.5999976000024), Ext(0, 0.0000005999988), Ext(1, 0.0000005999988)], 2) == Outcome([1], 0.2999988000012);
    assert Explore([Q, R], [], 0.0, 0.5999988, [Ext(-1, 0.5999976000024), Ext(0, 0.0000005999988), Ext(1, 0.0000005999988)], 3) == Outcome([1], 0.2999988000012);
  }

  lemma SearchCase14()
    ensures Search([R], [0], 0.0000003999992, 0.3999984000016) == Outcome([0, 1], 0.1999994000004)
  {
    ExtsCase17();
    assert Branch([R], [0], 0.0000003999992, 0.3999984000016, Ext(1, 0.1999994000004)) == Outcome([0, 1], 0.1999994000004) by {
      assert [0] + [1] == [0, 1];
      assert Search([], [0, 1], 0.1999994000004, 0.0) == Outcome([0, 1], 0.1999994000004);
    }
    assert Explore([R], [0], 0.0000003999992, 0.3999984000016, [Ext(1, 0.1999994000004), Ext(-1, 0.11999972000008), Ext(0, 0.07999968000032)], 1) == Outcome([0, 1], 0.1999994000004);
    assert Explore([R], [0], 0.0000003999992, 0.3999984000016, [Ext(1, 0.1999994000004), Ext(-1, 0.11999972000008), Ext(0, 0.07999968000032)], 2) == Outcome([0, 1], 0.1999994000004);
    assert Explore([R], [0], 0.0000003999992, 0.3999984000016, [Ext(1, 0.1999994000004), Ext(-1, 0.11999972000008), Ext(0, 0.07999968000032)], 3) == Outcome([0, 1], 0.1999994000004);
  }

  lemma SearchCase15()
    ensures Search([Q, R], [0], 0.3999992, 0.0) == Outcome([0, 1], 0.1999994000004)
  {
    ExtsCase16();
    assert [Q, R][1..] == [R];
    assert Branch([Q, R], [0], 0.3999992, 0.0, Ext(-1, 0.3999988000008)) == Outcome([0, 1], 0.1999994000004) by {
      SearchCase14();
    }
    assert Explore([Q, R], [0], 0.3999992, 0.0, [Ext(-1, 0.3999988000008), Ext(1, 0.0000003999992), Ext(0, 0.0)], 1) == Outcome([0, 1], 0.1999994000004);
    assert Explore([Q, R], [0], 0.3999992, 0.0, [Ext(-1, 0.3999988000008), Ext(1, 0.0000003999992), Ext(0, 0.0)], 2) == Outcome([0, 1], 0.1999994000004);
    assert Explore([Q, R], [0], 0.3999992, 0.0, [Ext(-1, 0.3999988000008), Ext(1, 0.0000003999992), Ext(0, 0.0)], 3) == Outcome([0, 1], 0.1999994000004);
  }

  lemma SearchCase16()
    ensures Search([P, Q, R], [], 0.0, 0.999998) == Outcome([1], 0.2999988000012)
  {
    ExtsCase13();
    assert [P, Q, R][1..] == [Q, R];
    assert Branch([P, Q, R], [], 0.0, 0.999998, Ext(-1, 0.5999988)) == Outcome([1], 0.2999988000012) by {
      SearchCase13();
    }
    assert Explore([P, Q, R], [], 0.0, 0.999998, [Ext(-1, 0.5999988), Ext(0, 0.3999992), Ext(1, 0.000000999998)], 1) == Outcome([1], 0.2999988000012);
    assert Branch([P, Q, R], [], 0.0, 0.999998, Ext(0, 0.3999992)) == Outcome([0, 1], 0.1999994000004) by {
      assert [] + [0] == [0];
      SearchCase15();
    }
    assert Explore([P, Q, R], [], 0.0, 0.999998, [Ext(-1, 0.5999988), Ext(0, 0.3999992), Ext(1, 0.000000999998)], 2) == Outcome([1], 0.2999988000012);
    assert Explore([P, Q, R], [], 0.0, 0.999998, [Ext(-1, 0.5999988), Ext(0, 0.3999992), Ext(1, 0.000000999998)], 3) == Outcome([1], 0.2999988000012);
  }

  lemma SearchQPQR()
    ensures Search([Q, P, Q, R], [], 0.0, 1.0) == Outcome([1], 0.2999988000012)
  {
    ExtsCase12();
    assert [Q, P, Q, R][1..] == [P, Q, R];
    assert Branch([Q, P, Q, R], [], 0.0, 1.0, Ext(-1, 0.999998)) == Outcome([1], 0.2999988000012) by {
      SearchCase16();
    }
    assert Explore([Q, P, Q, R], [], 0.0, 1.0, [Ext(-1, 0.999998), Ext(0, 0.000001), Ext(1, 0.000001)], 1) == Outcome([1], 0.2999988000012);
    assert Explore([Q, P, Q, R], [], 0.0, 1.0, [Ext(-1, 0.999998), Ext(0, 0.000001), Ext(1, 0.000001)], 2) == Outcome([1], 0.2999988000012);
    assert Explore([Q, P, Q, R], [], 0.0, 1.0, [Ext(-1, 0.999998), Ext(0, 0.000001), Ext(1, 0.000001)], 3) == Outcome([1], 0.2999988000012);
  }

  lemma SearchCase18()
    ensures Search([R], [], 0.0, 0.35999856000144) == Outcome([1], 0.17999928000072)
  {
    ExtsCase22();
    assert Branch([R], [], 0.0, 0.35999856000144, Ext(1, 0.17999928000072)) == Outcome([1], 0.17999928000072) by {
      assert [] + [1] == [1];
      assert Search([], [1], 0.17999928000072, 0.0) == Outcome([1], 0.17999928000072);
    }
    assert Explore([R], [], 0.0, 0.35999856000144, [Ext(1, 0.17999928000072), Ext(-1, 0.107999568000432), Ext(0, 0.071999712000288)], 1) == Outcome([1], 0.17999928000072);
    assert Explore([R], [], 0.0, 0.35999856000144, [Ext(1, 0.17999928000072), Ext(-1, 0.107999568000432), Ext(0, 0.071999712000288)], 2) == Outcome([1], 0.17999928000072);
    assert Explore([R], [], 0.0, 0.35999856000144, [Ext(1, 0.17999928000072), Ext(-1, 0.107999568000432), Ext(0, 0.071999712000288)], 3) == Outcome([1], 0.17999928000072);
  }

  lemma SearchCase19()
    ensures Search([Q, R], [], 0.0, 0.35999928) == Outcome([1], 0.17999928000072)
  {
    ExtsCase21();
    assert [Q, R][1..] == [R];
    assert Branch([Q, R], [], 0.0, 0.35999928, Ext(-1, 0.35999856000144)) == Outcome([1], 0.17999928000072) by {
      SearchCase18();
    }
    assert Explore([Q, R], [], 0.0, 0.35999928, [Ext(-1, 0.35999856000144), Ext(0, 0.00000035999928), Ext(1, 0.00000035999928)], 1) == Outcome([1], 0.17999928000072);
    assert Explore([Q, R], [], 0.0, 0.35999928, [Ext(-1, 0.35999856000144), Ext(0, 0.00000035999928), Ext(1, 0.00000035999928)], 2) == Outcome([1], 0.17999928000072);
    assert Explore([Q, R], [], 0.0, 0.35999928, [Ext(-1, 0.35999856000144), Ext(0, 0.00000035999928), Ext(1, 0.00000035999928)], 3) == Outcome([1], 0.17999928000072);
  }

  lemma SearchCase20()
    ensures Search([R], [0], 0.00000023999952, 0.23999904000096) == Outcome([0, 1], 0.11999964000024)
  {
    ExtsCase24();
    assert Branch([R], [0], 0.00000023999952, 0.23999904000096, Ext(1, 0.11999964000024)) == Outcome([0, 1], 0.11999964000024) by {
      assert [0] + [1] == [0, 1];
      assert Search([], [0, 1], 0.11999964000024, 0.0) == Outcome([0, 1], 0.11999964000024);
    }
    assert Explore([R], [0], 0.00000023999952, 0.23999904000096, [Ext(1, 0.11999964000024), Ext(-1, 0.071999832000048), Ext(0, 0.047999808000192)], 1) == Outcome([0, 1], 0.11999964000024);
    assert Explore([R], [0], 0.00000023999952, 0.23999904000096, [Ext(1, 0.11999964000024), Ext(-1, 0.071999832000048), Ext(0, 0.047999808000192)], 2) == Outcome([0, 1], 0.11999964000024);
    assert Explore([R], [0], 0.00000023999952, 0.23999904000096, [Ext(1, 0.11999964000024), Ext(-1, 0.071999832000048), Ext(0, 0.047999808000192)], 3) == Outcome([0, 1], 0.11999964000024);
  }

  lemma SearchCase21()
    ensures Search([Q, R], [0], 0.23999952, 0.0) == Outcome([0, 1], 0.11999964000024)
  {
    ExtsCase23();
    assert [Q, R][1..] == [R];
    assert Branch([Q, R], [0], 0.23999952, 0.0, Ext(-1, 0.23999928000048)) == Outcome([0, 1], 0.11999964000024) by {
      SearchCase20();
    }
    assert Explore([Q, R], [0], 0.23999952, 0.0, [Ext(-1, 0.23999928000048), Ext(1, 0.00000023999952), Ext(0, 0.0)], 1) == Outcome([0, 1], 0.11999964000024);
    assert Explore([Q, R], [0], 0.23999952, 0.0, [Ext(-1, 0.23999928000048), Ext(1, 0.00000023999952), Ext(0, 0.0)], 2) == Outcome([0, 1], 0.11999964000024);
    assert Explore([Q, R], [0], 0.23999952, 0.0, [Ext(-1, 0.23999928000048), Ext(1, 0.00000023999952), Ext(0, 0.0)], 3) == Outcome([0, 1], 0.11999964000024);
  }

  lemma SearchCase22()
    ensures Search([P, Q, R], [], 0.0, 0.5999988) == Outcome([1], 0.17999928000072)
  {
    ExtsCase20();
    assert [P, Q, R][1..] == [Q, R];
    assert Branch([P, Q, R], [], 0.0, 0.5999988, Ext(-1, 0.35999928)) == Outcome([1], 0.17999928000072) by {
      SearchCase19();
    }
    assert Explore([P, Q, R], [], 0.0, 0.5999988, [Ext(-1, 0.35999928), Ext(0, 0.23999952), Ext(1, 0.0000005999988)], 1) == Outcome([1], 0.17999928000072);
    assert Branch([P, Q, R], [], 0.0, 0.5999988, Ext(0, 0.23999952)) == Outcome([0, 1], 0.11999964000024) by {
      assert [] + [0] == [0];
      SearchCase21();
    }
    assert Explore([P, Q, R], [], 0.0, 0.5999988, [Ext(-1, 0.35999928), Ext(0, 0.23999952), Ext(1, 0.0000005999988)], 2) == Outcome([1], 0.17999928000072);
    assert Explore([P, Q, R], [], 0.0, 0.5999988, [Ext(-1, 0.35999928), Ext(0, 0.23999952), Ext(1, 0.0000005999988)], 3) == Outcome([1], 0.17999928000072);
  }

  lemma SearchCase23()
    ensures Search([R], [0], 0.00000015999968, 0.3999984000016) == Outcome([0, 1], 0.19999928000064)
  {
    ExtsCase27();
    assert Branch([R], [0], 0.00000015999968, 0.3999984000016, Ext(1, 0.19999928000064)) == Outcome([0, 1], 0.19999928000064) by {
      assert [0] + [1] == [0, 1];
      assert Search([], [0, 1], 0.19999928000064, 0.0) == Outcome([0, 1], 0.19999928000064);
    }
    assert Explore([R], [0], 0.00000015999968, 0.3999984000016, [Ext(1, 0.19999928000064), Ext(-1, 0.11999960000032), Ext(0, 0.07999968000032)], 1) == Outcome([0, 1], 0.19999928000064);
    assert Explore([R], [0], 0.00000015999968, 0.3999984000016, [Ext(1, 0.19999928000064), Ext(-1, 0.11999960000032), Ext(0, 0.07999968000032)], 2) == Outcome([0, 1], 0.19999928000064);
    assert Explore([R], [0], 0.00000015999968, 0.3999984000016, [Ext(1, 0.19999928000064), Ext(-1, 0.11999960000032), Ext(0, 0.07999968000032)], 3) == Outcome([0, 1], 0.19999928000064);
  }

  lemma SearchCase24()
    ensures Search([Q, R], [0], 0.15999968, 0.23999952) == Outcome([0, 1], 0.19999928000064)
  {
    ExtsCase26();
    assert [Q, R][1..] == [R];
    assert Branch([Q, R], [0], 0.15999968, 0.23999952, Ext(-1, 0.39999856000128)) == Outcome([0, 1], 0.19999928000064) by {
      SearchCase23();
    }
    assert Explore([Q, R], [0], 0.15999968, 0.23999952, [Ext(-1, 0.39999856000128), Ext(1, 0.0000003999992), Ext(0, 0.00000023999952)], 1) == Outcome([0, 1], 0.19999928000064);
    assert Explore([Q, R], [0], 0.15999968, 0.23999952, [Ext(-1, 0.39999856000128), Ext(1, 0.0000003999992), Ext(0, 0.00000023999952)], 2) == Outcome([0, 1], 0.19999928000064);
    assert Explore([Q, R], [0], 0.15999968, 0.23999952, [Ext(-1, 0.39999856000128), Ext(1, 0.0000003999992), Ext(0, 0.00000023999952)], 3) == Outcome([0, 1], 0.19999928000064);
  }

  lemma SearchCase25()
    ensures Search([P, Q, R], [0], 0.3999992, 0.0) == Outcome([0, 1], 0.19999928000064)
  {
    ExtsCase25();
    assert [P, Q, R][1..] == [Q, R];
    assert Branch([P, Q, R], [0], 0.3999992, 0.0, Ext(-1, 0.3999992)) == Outcome([0, 1], 0.19999928000064) by {
      SearchCase24();
    }
    assert Explore([P, Q, R], [0], 0.3999992, 0.0, [Ext(-1, 0.3999992), Ext(1, 0.0000003999992), Ext(0, 0.0)], 1) == Outcome([0, 1], 0.19999928000064);
    assert Explore([P, Q, R], [0], 0.3999992, 0.0, [Ext(-1, 0.3999992), Ext(1, 0.0000003999992), Ext(0, 0.0)], 2) == Outcome([0, 1], 0.19999928000064);
    assert Explore([P, Q, R], [0], 0.3999992, 0.0, [Ext(-1, 0.3999992), Ext(1, 0.0000003999992), Ext(0, 0.0)], 3) == Outcome([0, 1], 0.19999928000064);
  }

  lemma SearchCase26()
    ensures Search([P, P, Q, R], [], 0.0, 0.999998) == Outcome([0, 1], 0.19999928000064)
  {
    ExtsCase13();
    assert [P, P, Q, R][1..] == [P, Q, R];
    assert Branch([P, P, Q, R], [], 0.0, 0.999998, Ext(-1, 0.5999988)) == Outcome([1], 0.17999928000072) by {
      SearchCase22();
    }
    assert Explore([P, P, Q, R], [], 0.0, 0.999998, [Ext(-1, 0.5999988), Ext(0, 0.3999992), Ext(1, 0.000000999998)], 1) == Outcome([1], 0.17999928000072);
    assert Branch([P, P, Q, R], [], 0.0, 0.999998, Ext(0, 0.3999992)) == Outcome([0, 1], 0.19999928000064) by {
      assert [] + [0] == [0];
      SearchCase25();
    }
    assert Explore([P, P, Q, R], [], 0.0, 0.999998, [Ext(-1, 0.5999988), Ext(0, 0.3999992), Ext(1, 0.000000999998)], 2) == Outcome([0, 1], 0.19999928000064);
    assert Explore([P, P, Q, R], [], 0.0, 0.999998, [Ext(-1, 0.5999988), Ext(0, 0.3999992), Ext(1, 0.000000999998)], 3) == Outcome([0, 1], 0.19999928000064);
  }

  lemma SearchQPPQR()
    ensures Search([Q, P, P, Q, R], [], 0.0, 1.0) == Outcome([0, 1], 0.19999928000064)
  {
    ExtsCase12();
    assert [Q, P, P, Q, R][1..] == [P, P, Q, R];
    assert Branch([Q, P, P, Q, R], [], 0.0, 1.0, Ext(-1, 0.999998)) == Outcome([0, 1], 0.19999928000064) by {
      SearchCase26();
    }
    assert Explore([Q, P, P, Q, R], [], 0.0, 1.0, [Ext(-1, 0.999998), Ext(0, 0.000001), Ext(1, 0.000001)], 1) == Outcome([0, 1], 0.19999928000064);
    assert Explore([Q, P, P, Q, R], [], 0.0, 1.0, [Ext(-1, 0.999998), Ext(0, 0.000001), Ext(1, 0.000001)], 2) == Outcome([0, 1], 0.19999928000064);
    assert Explore([Q, P, P, Q, R], [], 0.0, 1.0, [Ext(-1, 0.999998), Ext(0, 0.000001), Ext(1, 0.000001)], 3) == Outcome([0, 1], 0.19999928000064);
  }

  lemma SearchCase28()
    ensures Search([G], [0, 0], 0.00008098380081, 0.80975702429919) == Outcome([0, 0], 0.809757032397570081)
  {
    ExtsCase33();
    assert Branch([G], [0, 0], 0.00008098380081, 0.80975702429919, Ext(-1, 0.809757032397570081)) == Outcome([0, 0], 0.809757032397570081) by {
      assert Search([], [0, 0], 0.000000008098380081, 0.80975702429919) == Outcome([0, 0], 0.809757032397570081);
    }
    assert Explore([G], [0, 0], 0.00008098380081, 0.80975702429919, [Ext(-1, 0.809757032397570081), Ext(0, 0.000080975702429919)], 1) == Outcome([0, 0], 0.809757032397570081);
    assert Explore([G], [0, 0], 0.00008098380081, 0.80975702429919, [Ext(-1, 0.809757032397570081), Ext(0, 0.000080975702429919)], 2) == Outcome([0, 0], 0.809757032397570081);
  }

  lemma SearchCase29()
    ensures Search([G, G], [0, 0], 0.8098380081, 0.0) == Outcome([0, 0], 0.809757032397570081)
  {
    ExtsCase32();
    assert [G, G][1..] == [G];
    assert Branch([G, G], [0, 0], 0.8098380081, 0.0, Ext(-1, 0.8098380081)) == Outcome([0, 0], 0.809757032397570081) by {
      SearchCase28();
    }
    assert Explore([G, G], [0, 0], 0.8098380081, 0.0, [Ext(-1, 0.8098380081), Ext(0, 0.0)], 1) == Outcome([0, 0], 0.809757032397570081);
    assert Explore([G, G], [0, 0], 0.8098380081, 0.0, [Ext(-1, 0.8098380081), Ext(0, 0.0)], 2) == Outcome([0, 0], 0.809757032397570081);
  }

  lemma SearchCase30()
    ensures Search([H, G, G], [0], 0.000089991, 0.899820009) == Outcome([0, 0], 0.809757032397570081)
  {
    ExtsCase31();
    assert [H, G, G][1..] == [G, G];
    assert Branch([H, G, G], [0], 0.000089991, 0.899820009, Ext(0, 0.8098380081)) == Outcome([0, 0], 0.809757032397570081) by {
      assert [0] + [0] == [0, 0];
      SearchCase29();
    }
    assert Explore([H, G, G], [0], 0.000089991, 0.899820009, [Ext(0, 0.8098380081), Ext(-1, 0.0900719919)], 1) == Outcome([0, 0], 0.809757032397570081);
    assert Explore([H, G, G], [0], 0.000089991, 0.899820009, [Ext(0, 0.8098380081), Ext(-1, 0.0900719919)], 2) == Outcome([0, 0], 0.809757032397570081);
  }

  lemma SearchCase31()
    ensures Search([G, H, G, G], [0], 0.89991, 0.0) == Outcome([0, 0], 0.809757032397570081)
  {
    ExtsCase30();
    assert [G, H, G, G][1..] == [H, G, G];
    assert Branch([G, H, G, G], [0], 0.89991, 0.0, Ext(-1, 0.89991)) == Outcome([0, 0], 0.809757032397570081) by {
      SearchCase30();
    }
    assert Explore([G, H, G, G], [0], 0.89991, 0.0, [Ext(-1, 0.89991), Ext(0, 0.0)], 1) == Outcome([0, 0], 0.809757032397570081);
    assert Explore([G, H, G, G], [0], 0.89991, 0.0, [Ext(-1, 0.89991), Ext(0, 0.0)], 2) == Outcome([0, 0], 0.809757032397570081);
  }

  lemma SearchCase32()
    ensures Search([H, G, H, G, G], [], 0.0, 0.9999) == Outcome([0, 0], 0.809757032397570081)
  {
    ExtsCase29();
    assert [H, G, H, G, G][1..] == [G, H, G, G];
    assert Branch([H, G, H, G, G], [], 0.0, 0.9999, Ext(0, 0.89991)) == Outcome([0, 0], 0.809757032397570081) by {
      assert [] + [0] == [0];
      SearchCase31();
    }
    assert Explore([H, G, H, G, G], [], 0.0, 0.9999, [Ext(0, 0.89991), Ext(-1, 0.09999)], 1) == Outcome([0, 0], 0.809757032397570081);
    assert Explore([H, G, H, G, G], [], 0.0, 0.9999, [Ext(0, 0.89991), Ext(-1, 0.09999)], 2) == Outcome([0, 0], 0.809757032397570081);
  }

  lemma SearchGHGHGG()
    ensures Search([G, H, G, H, G, G], [], 0.0, 1.0) == Outcome([0, 0], 0.809757032397570081)
  {
    ExtsCase28();
    assert [G, H, G, H, G, G][1..] == [H, G, H, G, G];
    assert Branch([G, H, G, H, G, G], [], 0.0, 1.0, Ext(-1, 0.9999)) == Outcome([0, 0], 0.809757032397570081) by {
      SearchCase32();
    }
    assert Explore([G, H, G, H, G, G], [], 0.0, 1.0, [Ext(-1, 0.9999), Ext(0, 0.0001)], 1) == Outcome([0, 0], 0.809757032397570081);
    assert Explore([G, H, G, H, G, G], [], 0.0, 1.0, [Ext(-1, 0.9999), Ext(0, 0.0001)], 2) == Outcome([0, 0], 0.809757032397570081);
  }

}
