# speechrecog core in Dafny

This project models the computational core of the `speechrecog` repository:

- **Connectionist Temporal Classification (CTC).** `ctc/ctc.go`, `ctc/best_path.go` and `ctc/prefix_search.go` cover:
  - the forward recursion over the blank-infused label that gives the likelihood of a label;
  - the gradient step that pushes an upstream gradient back through one frame of that recursion;
  - the whole reverse pass, from the final sum of the last two positions back through every frame;
  - best-path decoding;
  - blank-threshold prefix-search decoding.
- **The MFCC front end.** `mfcc/source.go`, `mfcc/velocity.go`, `mfcc/mel.go` and `mfcc/mfcc.go` cover:
  - the overlapping-window `Framer`;
  - the linear-interpolating `rateChanger`;
  - the velocity augmentation of coefficient vectors;
  - the triangular mel filter bank;
  - the option defaults;
  - the window-reading loop of `coeffChan`.
- **The browser WAV code.** `recorder/assets/jswav.js` covers:
  - the 44-byte RIFF/WAVE header;
  - sample access;
  - time-to-index conversion and cropping of a `Sound`;
  - the 16-bit PCM encoding and buffering done by `WavNode`.

How the values are represented:
- **CTC.** The source works on natural logarithms of probabilities. The model works on the probabilities themselves: a `Prob` is a non-negative real.
  - A log value `x` of the source is `exp(x)` here, and negative infinity is `0.0`.
  - Adding two log values becomes multiplication.
  - `addProbabilitiesFloat` becomes `LogDomain.AddProbabilities`, which keeps the source's branches and is proved equal to the sum.
  - Gradients are plain reals, because a derivative with respect to a log input has the same value in both domains.
- **MFCC and JavaScript numbers.** Samples, Go `float64` values and JavaScript numbers are `real`.
- **Bytes.** They are the `WavBytes.byte` newtype.
- **DataView conversions.** These are written out: ToUint16/ToUint32 truncate and reduce modulo 2^16/2^32, `Math.round` rounds halves up, and the little-endian layout is explicit.

Structure:
- Every state-changing part of the source is a `class` or a method over `array`s whose `ensures` ties the new state to a specification function. The Go structs with mutable fields become classes: `Framer`, `rateChanger`, `velocitySource`, `coeffChan`, `Header`, `Sound` and `WavNode`.
- The CTC loops are methods with loop invariants, proved equal to the recursive definitions.
- The properties are lemmas about those definitions. Among them:
  - the forward recursion equals the brute-force path sum of the test suite;
  - the gradient conserves the upstream total;
  - the prefix search's pruning never loses the best branch;
  - the Framer passes its input through when the step equals the size;
  - the filter bank response is linear and non-negative;
  - bin rounding is to the nearest bin;
  - every header field reads back what was written;
  - a cropped sound has the original's samples.

Modules, one per file:

| module | contents |
|---|---|
| `Sums` | finite sums |
| `LogDomain` | `addProbabilities`, `productSumPartials` and their tangent versions |
| `CtcLattice` | the blank-infused label and one forward step |
| `CtcLikelihood` | `LogLikelihood` |
| `CtcExact` | the brute-force likelihood and the adjoint proof |
| `CtcGradient` | `PropagateGradient` |
| `CtcBackward` | the reverse pass over the whole table |
| `CtcBestPath` | best-path decoding |
| `CtcPrefixSearch` | prefix-search decoding |
| `CtcPrefixSearchExamples` | the test cases of `ctc/prefix_search_test.go` |
| `MfccSource` | `Framer` and `rateChanger` |
| `MfccVelocity` | `AddVelocities` |
| `MfccMel` | a mel bin's response |
| `MfccMelBinner` | `newMelBinner` and `hertzToBin` |
| `Mfcc` | options and `coeffChan` |
| `WavBytes` | DataView conversions |
| `WavHeader` | `Header` |
| `WavSound` | `Sound` |
| `WavRecorder` | `WavNode` |

## Model

| member | source | states |
|---|---|---|
| LogDomain.AddProbabilities | ctc/ctc.go:373-383 | the log-sum-exp of two log probabilities, with both infinite-operand shortcuts, is exactly the sum of the probabilities; zero is an identity on either side |
| LogDomain.AddProbabilitiesIdentityAndSymmetry | ctc/ctc.go:373-383 | adding zero returns the other operand, and the operation is symmetric |
| LogDomain.ProductSumPartials | ctc/ctc.go:295-305 | the two partials of log(a+b) split the upstream value in proportion a : b; they are zero when both operands are zero, and otherwise sum to the upstream value |
| LogDomain.SplitSum | ctc/ctc.go:295-305 | upstream·a/(a+b) and upstream·b/(a+b) are the two shares, and they add back to the upstream value |
| LogDomain.ChainedShares | ctc/ctc.go:188-195 | partials chained through a nested sum (x2+x1)+x0 give each term its share of upstream in the whole three-term sum |
| LogDomain.AddProbabilitiesPartials | ctc/ctc.go:341-355 | the partials of the addProbabilities node always add up to upstream; for a non-zero sum they are the two operands' shares, and a zero first operand hands all of upstream to the second, including when both are zero |
| LogDomain.NestedShare | ctc/ctc.go:188-195 | a share of a share is the share in the outer sum |
| LogDomain.AddProbabilitiesR | ctc/ctc.go:385-397 | the value is the sum, and the tangent is the probability-weighted mean of the operands' tangents, with the infinite-operand shortcuts; zero tangents give a zero tangent |
| LogDomain.ProductSumPartialsR | ctc/ctc.go:307-319 | the value partials are those of ProductSumPartials; zero tangents in give zero tangent partials |
| CtcLattice.EmitIndex | ctc/ctc.go:58-70 | position s of the blank-infused label emits the blank (last frame entry) when s is even, and label[(s-1)/2] when s is odd; the index is in the frame |
| CtcLattice.StepIsEmitTimesFeed | ctc/ctc.go:58-71 | every entry of one forward step is the emitted symbol's probability times the sum of the predecessors that may feed it: itself, the previous position, and the one before that when the label's neighbours differ |
| CtcLattice.Init | ctc/ctc.go:45-49 | the start vector has width 2·\|label\|+1, all its mass on position 0 |
| CtcLikelihood.InitProbs | ctc/ctc.go:45-49 | the array built equals Init(label) |
| CtcLikelihood.BlankEntry | ctc/ctc.go:58-61 | an even entry of the new vector is the blank probability times its feeders |
| CtcLikelihood.SymbolEntry | ctc/ctc.go:63-70 | an odd entry is the label symbol's probability times its feeders, including the skip when neighbouring labels differ |
| CtcLikelihood.SymbolFeed | ctc/ctc.go:64-69 | the source's positionSum is the feeder sum of the lattice |
| CtcLikelihood.EmitFeedIsStep | ctc/ctc.go:55-71 | a vector that agrees with emit·feed everywhere is the forward step |
| CtcLikelihood.BlankPass | ctc/ctc.go:58-62 | the blank loop sets exactly the even entries to their step values and leaves the odd ones alone |
| CtcLikelihood.SymbolPass | ctc/ctc.go:63-71 | the symbol loop sets exactly the odd entries and leaves the even ones alone |
| CtcLikelihood.StepProbs | ctc/ctc.go:55-71 | the new vector equals the forward step of the last one |
| CtcLikelihood.ForwardStep | ctc/ctc.go:54-78 | running the frames from t on is one step at frame t followed by the frames from t+1 |
| CtcLikelihood.LogLikelihood | ctc/ctc.go:30-81 | with no frames the result is 1 for the empty label and 0 otherwise; the table holds the forward vectors frame by frame; the result is the sum of the last two positions; that value equals the brute-force path sum |
| CtcExact.LikelihoodIsExact | ctc/ctc_test.go:229-250 | the forward recursion's likelihood equals the recursive sum over all alignments that the test suite uses as its reference |
| CtcExact.ExactUnfold | ctc/ctc_test.go:229-250 | the reference recursion splits on the first frame: stay on blank, repeat the last symbol, or advance to the next label symbol when it differs from the last |
| CtcExact.SuffixesStep | ctc/ctc_test.go:229-250 | the vector of suffix likelihoods for all lattice positions is the backward step of the suffix vector one frame later |
| CtcExact.Adjoint | ctc/ctc.go:58-71 | for every vector b, the forward step dotted with b equals the previous vector dotted with the backward step of b |
| CtcExact.ForwardAdjoint | ctc/ctc.go:54-78 | running all frames forward from v and taking the final likelihood equals v dotted with the suffix likelihoods |
| CtcGradient.LastGradConserves | ctc/ctc.go:178-201 | the gradient with respect to the previous vector carries exactly the upstream mass of the positions that have a feeder; when every position past 0 has positive feed, it carries the whole upstream total |
| CtcGradient.InputGradConserves | ctc/ctc.go:174-200 | the gradient with respect to the frame's log inputs sums to the total upstream gradient |
| CtcGradient.PartsSplit | ctc/ctc.go:186-200 | a position's gradient sent to its own, previous and skip feeders adds up to the upstream value it keeps |
| CtcGradient.PartsVanish | ctc/ctc.go:186-200 | a position never sends gradient to a predecessor outside the lattice |
| CtcGradient.PairParts | ctc/ctc.go:196-199 | the two-feeder partials of the source are the lattice shares |
| CtcGradient.SkipParts | ctc/ctc.go:188-195 | the chained three-feeder partials of the source are the lattice shares |
| CtcGradient.LastGradDone | ctc/ctc.go:179-201 | the accumulation order of the two loops gives LastGrad |
| CtcGradient.InputGradDone | ctc/ctc.go:173-200 | the accumulation order gives InputGrad |
| CtcGradient.StartGrads | ctc/ctc.go:173-177 | position 0's contributions start both gradient vectors |
| CtcGradient.BlankGrad | ctc/ctc.go:179-184 | one blank position adds its partials to the previous-vector gradient and its upstream to the blank input |
| CtcGradient.SymbolGrad | ctc/ctc.go:185-201 | one symbol position adds its partials (two or three feeders) and its upstream to its symbol's input |
| CtcGradient.PairGrad | ctc/ctc.go:196-199 | the two-feeder update adds productSumPartials into the two entries and nothing else |
| CtcGradient.SkipGrad | ctc/ctc.go:188-195 | the three-feeder update adds the chained partials into three entries |
| CtcGradient.BlankLoop | ctc/ctc.go:179-184 | the blank loop accumulates all even positions |
| CtcGradient.SymbolLoop | ctc/ctc.go:185-201 | the symbol loop accumulates all odd positions |
| CtcGradient.PropagateGradient | ctc/ctc.go:165-209 | the two gradient vectors produced are LastGrad and InputGrad, whose totals the conservation lemmas state |
| CtcBackward.FinalGradConserves | ctc/ctc.go:80 | when the likelihood is non-zero, the final sum hands the last vector all of the caller's upstream, and nothing to a position of probability 0 |
| CtcBackward.StepBack | ctc/ctc.go:165-209 | if no upstream reaches a zero position of a step's result, lastGrad has the same total as upstream and reaches no zero position of the previous vector |
| CtcBackward.UpstreamConserves | ctc/ctc.go:203-205 | on the forward table with a non-zero likelihood, the upstream handed to every vector of the chain adds up to the caller's upstream |
| CtcBackward.FrameGradConserves | ctc/ctc.go:206-208 | on the forward table with a non-zero likelihood, every frame's gradient adds up to the caller's upstream |
| CtcBackward.GradsConserve | ctc/ctc.go:206-208 | the same for a whole list of frame gradients |
| CtcBackward.PropagateAll | ctc/ctc.go:165-209 | seeded by the final sum's partials and run from the last frame to the first, each lastGrad becoming the next upstream, the pass gives every frame the InputGrad of the upstream of the vector after it; on the forward table with a non-zero likelihood each frame's gradient adds up to the caller's upstream; no frames give no gradients |
| CtcBackward.LikelihoodGradient | ctc/ctc.go:30-81 | the forward pass followed by the reverse pass returns the likelihood and one gradient per frame, each adding up to the upstream when the likelihood is non-zero |
| CtcBestPath.ArgMax | ctc/best_path.go:21-31 | the index of a maximum entry, the last one among ties; 0 for an empty vector |
| CtcBestPath.MaxIdx | ctc/best_path.go:21-31 | the loop returns the last index of a maximum (0 when empty) |
| CtcBestPath.TokenOf | ctc/best_path.go:10-11 | a frame reads as blank exactly when its arg-max is its last entry |
| CtcBestPath.Tokens | ctc/best_path.go:9-10 | one token per frame |
| CtcBestPath.Merge | ctc/best_path.go:11-16 | merging keeps the last token, draws only from the input, and leaves no two equal neighbours |
| CtcBestPath.DropBlanks | ctc/best_path.go:11-16 | only symbols of the input survive |
| CtcBestPath.CollapseBlank | ctc/best_path.go:11-12 | a trailing blank adds nothing |
| CtcBestPath.CollapseRepeat | ctc/best_path.go:13 | repeating the last token adds nothing |
| CtcBestPath.CollapseNew | ctc/best_path.go:13-15 | a symbol differing from the last token is appended |
| CtcBestPath.RepeatAcrossBlank | ctc/best_path.go:11-15 | a symbol repeated across a blank is emitted twice |
| CtcBestPath.RepeatMerged | ctc/best_path.go:13 | a symbol repeated on adjacent frames is emitted once |
| CtcBestPath.BestPath | ctc/best_path.go:6-19 | the result is the collapsed arg-max path, no longer than the input; empty input gives empty output |
| CtcBestPath.BestPathHasNoBlank | ctc/best_path.go:6-19 | no output symbol is the blank index |
| CtcPrefixSearch.SymbolExts | ctc/prefix_search.go:58-65 | one extension per non-blank symbol; repeating the prefix's last symbol needs an intervening blank, otherwise any ending may continue |
| CtcPrefixSearch.Extensions | ctc/prefix_search.go:56-74 | one entry per frame entry: the symbol extensions followed by the stay-put entry (symbol -1), whose probability is that of SameNoBlank plus SameBlank |
| CtcPrefixSearch.SameBlank | ctc/prefix_search.go:68 | staying with a blank: the total prefix probability times the blank |
| CtcPrefixSearch.SameNoBlank | ctc/prefix_search.go:69-73 | staying by repeating the last symbol: the no-blank probability times that symbol; impossible for the empty prefix |
| CtcPrefixSearch.StayProb | ctc/prefix_search.go:74 | the stay-put probability is the sum of both ways to stay |
| CtcPrefixSearch.ExtensionsBounded | ctc/prefix_search.go:56-74 | for a normalised frame, no extension is more probable than the prefix itself |
| CtcPrefixSearch.StayBounded | ctc/prefix_search.go:68-74 | the stay-put probability is at most the prefix probability |
| CtcPrefixSearch.SymbolExtBounded | ctc/prefix_search.go:60-64 | a symbol extension whose symbol probability is at most 1 is at most the prefix probability |
| CtcPrefixSearch.InsertPermutes | ctc/prefix_search.go:76 | insertion keeps the multiset of extensions |
| CtcPrefixSearch.InsertSorted | ctc/prefix_search.go:122-124 | insertion into a descending list keeps it descending |
| CtcPrefixSearch.SortDescSorts | ctc/prefix_search.go:76 | the sort result is in descending probability and is a permutation of its input |
| CtcPrefixSearch.Search | ctc/prefix_search.go:48-101 | the result extends the prefix by at most one label per frame; with no frames it is the prefix with its total probability |
| CtcPrefixSearch.Explore | ctc/prefix_search.go:78-98 | once a branch has been taken, the best so far extends the prefix within the frame budget |
| CtcPrefixSearch.Branch | ctc/prefix_search.go:86-93 | following one extension extends the prefix within the frame budget |
| CtcPrefixSearch.SearchBound | ctc/prefix_search.go:48-101 | on normalised frames, the best labelling found is no more probable than the prefix it started from |
| CtcPrefixSearch.ExploreBound | ctc/prefix_search.go:78-98 | the best found among the explored branches is within the prefix probability |
| CtcPrefixSearch.BranchBound | ctc/prefix_search.go:86-93 | a branch never ends up more probable than its extension |
| CtcPrefixSearch.SortedExtsFit | ctc/prefix_search.go:56-76 | the sorted extensions are valid branches of the search |
| CtcPrefixSearch.PruningIsSound | ctc/prefix_search.go:78-82 | skipping extensions less probable than the best found so far changes nothing: the pruned loop returns what the loop over every extension returns |
| CtcPrefixSearch.ExploreAllIsBest | ctc/prefix_search.go:94-97 | the unpruned loop's result is at least as probable as every branch it looked at |
| CtcPrefixSearch.SearchIsBest | ctc/prefix_search.go:48-101 | the search result is at least as probable as the result of following any of the first frame's extensions |
| CtcPrefixSearch.Kept | ctc/prefix_search.go:20-29 | the frames kept are, in order, exactly those whose blank probability does not exceed the threshold |
| CtcPrefixSearch.Scan | ctc/prefix_search.go:20-29 | every closed run is non-empty, and the closed runs followed by the open one are the frames kept |
| CtcPrefixSearch.Runs | ctc/prefix_search.go:18-32 | the segments are non-empty, and their concatenation is the kept frames |
| CtcPrefixSearch.RunsFlatten | ctc/prefix_search.go:18-32 | concatenating the segments gives the kept frames |
| CtcPrefixSearch.RunsSplit | ctc/prefix_search.go:21-25 | a dropped frame cuts the input: the segments are those of the part before it followed by those of the part after it |
| CtcPrefixSearch.RunsWhole | ctc/prefix_search.go:30-32 | frames that are all kept form a single segment |
| CtcPrefixSearch.RunsUniform | ctc/prefix_search.go:18-32 | segments of uniform-width frames have that width |
| CtcPrefixSearch.Decode | ctc/prefix_search.go:34-39 | the concatenated per-segment results are no longer than the frames |
| CtcPrefixSearch.DecodeStep | ctc/prefix_search.go:35-38 | each segment appends its own search result, starting from the empty prefix with probability 1 |
| CtcPrefixSearch.DecodeFrames | ctc/prefix_search.go:17-40 | no frames give no labels |
| CtcPrefixSearch.DecodeFramesLength | ctc/prefix_search.go:17-40 | at most one label per frame |
| CtcPrefixSearch.SymbolExtensions | ctc/prefix_search.go:58-65 | the loop builds exactly SymbolExts |
| CtcPrefixSearch.StayParts | ctc/prefix_search.go:68-73 | the two stay probabilities are SameBlank and SameNoBlank |
| CtcPrefixSearch.BuildExtensions | ctc/prefix_search.go:56-74 | the extension list is Extensions |
| CtcPrefixSearch.PrefixSearchFrom | ctc/prefix_search.go:48-101 | the recursive, pruned method returns Search's labelling and probability |
| CtcPrefixSearch.SplitRuns | ctc/prefix_search.go:18-32 | the splitting loop returns Runs |
| CtcPrefixSearch.PrefixSearch | ctc/prefix_search.go:17-40 | the decoded labels are DecodeFrames of the input, at most one per frame |
| CtcPrefixSearchExamples.LooseThresholds | ctc/prefix_search_test.go:9-59 | for every threshold t with 0.6 <= t < 0.9999 (the band holding exp(-1e-2) and exp(-1e-3)), the four test sequences decode to [0,0], [0,1], [1] and [1] |
| CtcPrefixSearchExamples.TightThresholds | ctc/prefix_search_test.go:9-59 | for every threshold of at least 0.999998 (holding exp(-1e-6) and exp(-1e-10)), the four test sequences decode to the same labellings |
| CtcPrefixSearchExamples.SortPair | ctc/prefix_search.go:122-124 | two extensions sort the more probable first, keeping their order on a tie |
| CtcPrefixSearchExamples.SortTriple | ctc/prefix_search.go:122-124 | a third extension goes after, between or before the sorted first two, according to its probability |
| CtcPrefixSearchExamples.RunsDropFirst | ctc/prefix_search.go:21-25 | a dropped first frame contributes no segment |
| CtcPrefixSearchExamples.RunsDropLast | ctc/prefix_search.go:21-25 | a dropped last frame contributes no segment |
| CtcPrefixSearchExamples.RunsAround | ctc/prefix_search.go:20-32 | one dropped frame between two stretches of kept frames gives exactly those two segments |
| CtcPrefixSearchExamples.LooseRuns0 | ctc/prefix_search_test.go:11-18 | in the 0.6 band, the first test sequence splits into two one-frame segments |
| CtcPrefixSearchExamples.LooseRuns1 | ctc/prefix_search_test.go:19-29 | in the 0.6 band, the second test sequence splits into a two-frame and a one-frame segment |
| CtcPrefixSearchExamples.DecodeRuns | ctc/prefix_search.go:34-39 | with two segments, decoding concatenates their two searches |
| CtcPrefixSearchExamples.DecodeWhole | ctc/prefix_search.go:17-40 | when every frame is kept, decoding is a single search from the empty prefix |
| CtcPrefixSearchExamples.SearchGHGHGG | ctc/prefix_search_test.go:11-18 | searching the whole first test sequence gives [0,0] |
| CtcPrefixSearchExamples.SearchQPPQR | ctc/prefix_search_test.go:19-29 | searching the whole second test sequence gives [0,1] |
| CtcPrefixSearchExamples.SearchQPQR | ctc/prefix_search_test.go:30-35 | searching the whole third test sequence gives [1] |
| CtcPrefixSearchExamples.SearchPQR | ctc/prefix_search_test.go:36-40 | searching the whole fourth test sequence gives [1] |
| MfccSource.SliceSource.ReadSamples | mfcc/source_test.go:15-25 | copies at most the buffer size from the remaining input, and reports end of input exactly when nothing was copied |
| MfccSource.Framed | mfcc/source.go:13-24 | the windowed stream is no shorter than its input and begins with the input's first window |
| MfccSource.FramedPassThrough | mfcc/source.go:13-24 | with the step equal to the size, framing is the identity |
| MfccSource.FramedExample | mfcc/source_test.go:27-41 | samples 1, -1, 0.5, 0.3, 0.2, 1, 0.5 with size 3 and step 2 give the test's ten expected outputs |
| MfccSource.FramedAt | mfcc/source.go:13-24 | the first window is the input unchanged |
| MfccSource.FramedWindowEnd | mfcc/source.go:78-83 | after a full window ends, the stream continues with the windows of the input shifted by the step |
| MfccSource.Replay | mfcc/source.go:59-61 | a cached sample is replayed first and the rest of the stream is unchanged |
| MfccSource.FetchMid | mfcc/source.go:62-77 | within a window, a fresh sample is emitted and, once past the step, kept for the next window |
| MfccSource.FetchEnd | mfcc/source.go:62-83 | the sample that closes a window starts the replay of the next window's overlap |
| MfccSource.Exhausted | mfcc/source.go:62-74 | with no cache and no input the stream is over |
| MfccSource.Framer.constructor | mfcc/source.go:25-35 | a new Framer produces exactly Framed of the wrapped source's samples |
| MfccSource.Framer.ReadSample | mfcc/source.go:58-85 | produces the next sample of the framed stream, or reports that there is none exactly when the stream is empty |
| MfccSource.Framer.Fill | mfcc/source.go:41-50 | fills at most hi-lo slots with the next stream samples; on a short read writes 0 at the stop slot; leaves all other slots alone |
| MfccSource.Framer.ReadInto | mfcc/source.go:43 | one slot gets the next sample, or 0 when the stream is over |
| MfccSource.Framer.ReadSamples | mfcc/source.go:37-56 | n = min(requested, remaining) samples of Framed are delivered in order; the error is sticky and is raised exactly on a short read; a short read writes one 0 after the data; nothing else changes |
| MfccSource.InterpAt | mfcc/source.go:144 | interpolation at time b+m is the linear blend of samples b and b+1 |
| MfccSource.StepsTime | mfcc/source.go:145 | after k outputs the time is k/Ratio input samples |
| MfccSource.SameRate | mfcc/source.go:104-147 | at ratio 1 the k-th output is the k-th input |
| MfccSource.RateChanger.constructor | mfcc/source.go:93-102 | a new changer has produced nothing and steps 1/Ratio input samples per output |
| MfccSource.RateChanger.Start | mfcc/source.go:149-166 | starting needs two input samples and fails exactly when there are fewer |
| MfccSource.RateChanger.ReadNext | mfcc/source.go:168-182 | shifts the two-sample lookahead by one input sample, or fails with the input exhausted |
| MfccSource.RateChanger.Advance | mfcc/source.go:133-142 | skipping readCount input samples lands on samples base+readCount and +1, or fails exactly when they do not exist |
| MfccSource.RateChanger.Seek | mfcc/source.go:126-142 | positions the lookahead around the next output time, or fails exactly when that time is past the input |
| MfccSource.RateChanger.ReadSample | mfcc/source.go:125-147 | the k-th output is the linear interpolation of the input at time k/Ratio; the changer fails exactly when that time is past the input |
| MfccSource.RateChanger.Emit | mfcc/source.go:144-146 | emits the interpolated sample and advances the time by 1/Ratio |
| MfccSource.RateChanger.ReadSamples | mfcc/source.go:104-123 | every delivered sample is the interpolated one for its output index; the error is sticky and raised exactly on a short read; a short read writes a 0 after the data and happens only when the input runs out |
| MfccVelocity.Diff | mfcc/velocity.go:42-63 | the velocity part has the width of the older vector |
| MfccVelocity.Zeros | mfcc/velocity.go:36-38 | a vector of n zeros |
| MfccVelocity.Assemble | mfcc/velocity.go:36-63 | the output is the coefficients followed by the differences, padded with zeros to twice the width |
| MfccVelocity.ListCoeffSource.NextCoeffs | mfcc/velocity.go:10-14 | a list source returns its vectors in order, then an error forever |
| MfccVelocity.VelocitySource.constructor | mfcc/velocity.go:10-14 | the wrapper starts with nothing emitted |
| MfccVelocity.VelocitySource.NextCoeffs | mfcc/velocity.go:24-69 | the i-th output is Augmented(i): the first frame with the forward difference, middle frames with half the central difference, the last with the backward difference, a lone frame with zeros; an error after the last and forever |
| MfccVelocity.AugmentedShape | mfcc/velocity.go:3-9 | each output is twice the input width and starts with the input coefficients |
| MfccVelocity.LinearVelocity | mfcc/velocity.go:3-9 | for coefficients that change by the same vector d each frame, every velocity is d |
| MfccVelocity.ConstantVelocity | mfcc/velocity.go:3-9 | constant coefficients have zero velocity |
| MfccMel.Apply | mfcc/mel.go:11-22 | the loop computes the bin's triangular response |
| MfccMel.AddRising | mfcc/mel.go:13-16 | the rising edge's weighted sum |
| MfccMel.AddFalling | mfcc/mel.go:17-20 | the falling edge's weighted sum |
| MfccMel.ApplyAll | mfcc/mel.go:56-63 | one response per bin, in order |
| MfccMel.LoopWeights | mfcc/mel.go:13-20 | the weights of the two loops are those of one triangle |
| MfccMel.ResponseIsWeighted | mfcc/mel.go:11-22 | for a bin with ordered indices, the two loops' response is the sum of the triangular weight times the power over the indices strictly inside the bin |
| MfccMel.WeightShape | mfcc/mel.go:11-22 | the triangle is 1 at its middle, strictly between 0 and 1 on the rising edge, in (0,1] on the falling edge, and 0 outside |
| MfccMel.WeightBounded | mfcc/mel.go:11-22 | every weight is in [0,1] |
| MfccMel.DotAdd | mfcc/mel.go:11-22 | a weighted sum is additive in the powers |
| MfccMel.DotScale | mfcc/mel.go:11-22 | a weighted sum is homogeneous |
| MfccMel.ResponseAdditive | mfcc/mel.go:11-22 | a bin's response to p+q is the sum of its responses |
| MfccMel.ResponseHomogeneous | mfcc/mel.go:11-22 | a bin's response to c·p is c times its response |
| MfccMel.ResponseNonNegative | mfcc/mel.go:11-22 | a non-negative power spectrum gives a non-negative response |
| MfccMel.ResponseReadsOnlyInside | mfcc/mel.go:11-22 | a response depends only on the powers strictly inside the bin |
| MfccMel.ApplyExample | mfcc/mel_test.go:8-16 | the bin (1,3,6) over powers 1..7 gives the test value 3·0.5+4+5·2/3+6·1/3 |
| MfccMel.Add | mfcc/mel.go:11-22 | element-wise sum |
| MfccMel.Scale | mfcc/mel.go:11-22 | element-wise scaling |
| MfccMelBinner.HertzToBin | mfcc/mel.go:73-84 | the bin is the floor or the ceiling of the capped fractional bin |
| MfccMelBinner.Pick | mfcc/mel.go:77-83 | picks the floor when it is strictly closer, otherwise the ceiling |
| MfccMelBinner.RoundsHalfUp | mfcc/mel.go:73-84 | for non-negative frequencies, the choice is rounding half up of the capped bin |
| MfccMelBinner.RoundUncapped | mfcc/mel.go:73-84 | below the Nyquist cap the frequency-space comparison equals bin-space rounding |
| MfccMelBinner.RoundCapped | mfcc/mel.go:76 | at or past the cap the result rounds fftSize/2 |
| MfccMelBinner.NearestBin | mfcc/mel.go:73-84 | the bin chosen is at least as close as any other integer, and the higher one on a tie |
| MfccMelBinner.BinRange | mfcc/mel.go:73-84 | output bins lie between 0 and (fftSize+1)/2 |
| MfccMelBinner.NegativeHertz | mfcc/mel.go:73-84 | a negative frequency gives the ceiling, because Go's int conversion truncates |
| MfccMelBinner.HertzToBinMonotone | mfcc/mel.go:73-84 | a higher frequency never gives a lower bin |
| MfccMelBinner.EvenSpacing | mfcc/mel.go:33-38 | mel points are evenly spaced from minMels to maxMels |
| MfccMelBinner.MelPoints | mfcc/mel.go:33-38 | the loop builds binCount+2 points, the interior ones evenly spaced |
| MfccMelBinner.BinIndices | mfcc/mel.go:40-43 | each point maps to its FFT bin |
| MfccMelBinner.MakeBins | mfcc/mel.go:45-52 | bin i spans fftPoints i, i+1, i+2 |
| MfccMelBinner.NewMelBinner | mfcc/mel.go:26-54 | binCount triangular bins with the maximum frequency capped at Nyquist; neighbouring bins share edges |
| MfccMelBinner.EdgesOrdered | mfcc/mel.go:26-54 | with a monotone mel-to-hertz map, the edges never decrease |
| MfccMelBinner.EdgesReadable | mfcc/mel.go:26-54 | every bin reads powers inside an fftSize/2+1 spectrum |
| Mfcc.IntOrDefault | mfcc/mfcc.go:172-178 | zero selects the default, anything else is kept |
| Mfcc.FloatOrDefault | mfcc/mfcc.go:180-186 | zero selects the default, anything else is kept |
| Mfcc.IntDefaultIff | mfcc/mfcc.go:172-178 | the default is produced exactly for zero or the default itself, and defaulting is idempotent |
| Mfcc.FloatDefaultIff | mfcc/mfcc.go:180-186 | the same for floats |
| Mfcc.WindowTime | mfcc/mfcc.go:92-95 | the window is the option or the default, never zero |
| Mfcc.OverlapTime | mfcc/mfcc.go:101-106 | disabling overlap forces zero, otherwise the option or the default |
| Mfcc.OverlapSamples | mfcc/mfcc.go:107-111 | the overlap is capped at fftSize-1 |
| Mfcc.Derive | mfcc/mfcc.go:87-130 | every setting is its option or its default, and the Framer step is fftSize minus the overlap and at least 1 |
| Mfcc.StepBounds | mfcc/mfcc.go:107-124 | for non-negative options the step lies between 1 and fftSize |
| Mfcc.StepAtMostSize | mfcc/mfcc.go:108-124 | the step is within fftSize exactly when the overlap is non-negative |
| Mfcc.DisabledOverlap | mfcc/mfcc.go:102-103 | with overlap disabled, windows do not overlap |
| Mfcc.DefaultSettings | mfcc/mfcc.go:87-130 | the zero options give fftSize 512, rate 25600, overlap 256, step 256, 26 bins, 300–8000 Hz and 13 coefficients |
| Mfcc.CoeffChan.constructor | mfcc/mfcc.go:117-129 | a new channel reads windows of windowSize from its Framer |
| Mfcc.CoeffChan.NextCoeffs | mfcc/mfcc.go:141-163 | returns the next windowSize samples of the framed stream, zero-padded; fails only when the stream was empty; the error is sticky; the stream advances by the samples used |
| Mfcc.CoeffChan.ReadWindow | mfcc/mfcc.go:146-154 | the read loop fills min(windowSize, remaining) slots with the next samples |
| Mfcc.CoeffChan.ReadPass | mfcc/mfcc.go:149-153 | one pass reads into the unfilled tail of the buffer and keeps what was filled |
| Mfcc.CoeffChan.ReadPassAsWritten | mfcc/mfcc.go:149 | as written, the first pass offers an empty slice, reads nothing and leaves everything unchanged |
| WavBytes.Trunc | recorder/assets/jswav.js:165-176 | rounds toward zero |
| WavBytes.ToUint8 | recorder/assets/jswav.js:242 | the byte stored is the truncated value modulo 2^8 |
| WavBytes.ToUint16 | recorder/assets/jswav.js:169-174 | the stored 16-bit value is congruent to the truncated value |
| WavBytes.ToUint32 | recorder/assets/jswav.js:168-175 | the stored 32-bit value is congruent to the truncated value |
| WavBytes.ToUintExact | recorder/assets/jswav.js:165-176 | in-range whole numbers are stored unchanged |
| WavBytes.Round | recorder/assets/jswav.js:308 | Math.round is the nearest integer, halves up |
| WavBytes.AsInt16 | recorder/assets/jswav.js:260 | the two's-complement reading of a 16-bit field |
| WavBytes.Le16RoundTrip | recorder/assets/jswav.js:135-154 | reading back the two bytes written gives the value |
| WavBytes.Get16RoundTrip | recorder/assets/jswav.js:135-154 | rewriting the value read gives the bytes back |
| WavBytes.Le32RoundTrip | recorder/assets/jswav.js:135-154 | the 32-bit round trip |
| WavBytes.Get32RoundTrip | recorder/assets/jswav.js:135-154 | the inverse 32-bit round trip |
| WavBytes.GetPut16 | recorder/assets/jswav.js:165-176 | a 16-bit store reads back, and every other byte is kept |
| WavBytes.GetPut32 | recorder/assets/jswav.js:165-176 | a 32-bit store reads back, and every other byte is kept |
| WavBytes.Get16Put32 | recorder/assets/jswav.js:165-176 | a 32-bit store leaves non-overlapping 16-bit fields unchanged |
| WavBytes.Get32Put16 | recorder/assets/jswav.js:165-176 | a 16-bit store leaves non-overlapping 32-bit fields unchanged |
| WavBytes.Put16Prefix | recorder/assets/jswav.js:165-176 | a store inside the header does not touch the data after it |
| WavBytes.Put32Prefix | recorder/assets/jswav.js:165-176 | the same for 32-bit stores |
| WavHeader.Ascii | recorder/assets/jswav.js:157-162 | byte codes of an ASCII string |
| WavHeader.ChunkNames | recorder/assets/jswav.js:157-162 | the four constants written are "RIFF", "WAVE", "fmt " and "data" in byte order |
| WavHeader.SampleCount | recorder/assets/jswav.js:147-150 | the count is non-negative, and zero exactly when the data size is |
| WavHeader.Duration | recorder/assets/jswav.js:143-145 | the duration is non-negative, and zero exactly when the data size is |
| WavHeader.DefaultsWaveHeader | recorder/assets/jswav.js:156-163 | after setDefaults the buffer has the constant RIFF/WAVE/PCM layout |
| WavHeader.DefaultsPrefix | recorder/assets/jswav.js:156-163 | setDefaults touches only the header |
| WavHeader.FieldsKeepWaveHeader | recorder/assets/jswav.js:165-176 | setFields keeps the constant layout |
| WavHeader.LayoutReadBack | recorder/assets/jswav.js:165-176 | each field written reads back through its getter |
| WavHeader.FieldsReadBack | recorder/assets/jswav.js:165-176 | after setFields, the getters return the ToUint conversions of channels, rate, bits, data size, RIFF size, byte rate and block align |
| WavHeader.FieldsExact | recorder/assets/jswav.js:165-176 | for values that fit, channels, rate, bits and data size read back exactly |
| WavHeader.CountOverFrame | recorder/assets/jswav.js:147-150 | getSampleCount inverts setFields's total size |
| WavHeader.SampleCountReadBack | recorder/assets/jswav.js:147-176 | after setFields(count,...) the header reports count samples |
| WavHeader.FreshHeaderRead | recorder/assets/jswav.js:156-176 | a fresh header is a valid WAVE header reporting the fields given |
| WavHeader.NewHeaderRead | recorder/assets/jswav.js:231-237 | a new buffer with its header set reports the fields given |
| WavHeader.NewHeaderZeros | recorder/assets/jswav.js:231 | the data part of a new buffer is zero |
| WavHeader.ZerosHeader | recorder/assets/jswav.js:231-237 | setDefaults then setFields on a zero buffer gives the new header |
| WavHeader.HeadFields | recorder/assets/jswav.js:135-154 | the getters read only the first 44 bytes |
| WavHeader.SetUint16 | recorder/assets/jswav.js:169 | the DataView store writes Put16 of the converted value |
| WavHeader.SetUint32 | recorder/assets/jswav.js:168 | the DataView store writes Put32 of the converted value |
| WavHeader.Header.constructor | recorder/assets/jswav.js:131-133 | a header is its view |
| WavHeader.Header.SetDefaults | recorder/assets/jswav.js:156-163 | the buffer becomes Defaults of its old contents |
| WavHeader.Header.SetFields | recorder/assets/jswav.js:165-176 | the buffer becomes Fields of its old contents |
| WavHeader.NewWave | recorder/assets/jswav.js:231-237 | the new buffer is the header followed by zeros |
| WavSound.GetSample | recorder/assets/jswav.js:248-264 | 8- and 16-bit samples lie in [-1,1); any other width has no sample |
| WavSound.IndexAt | recorder/assets/jswav.js:276-281 | the index is clamped to [0, samples] |
| WavSound.IndexForTime | recorder/assets/jswav.js:276-281 | the index lies in [0, sample count] |
| WavSound.IndexAtRate | recorder/assets/jswav.js:276-281 | the index is floor(time·rate), clamped |
| WavSound.IndexForTimeMonotone | recorder/assets/jswav.js:276-281 | a later time never gives an earlier index |
| WavSound.SampleCountFrames | recorder/assets/jswav.js:147-150 | a well-formed sound's sample count is its whole number of frames |
| WavSound.FrameAt | recorder/assets/jswav.js:276-281 | the index of a time is a whole frame number within the sound |
| WavSound.Cropped | recorder/assets/jswav.js:219-246 | the crop has a 44-byte header plus the block bytes of the frames, copied from the right offset |
| WavSound.CropHeader | recorder/assets/jswav.js:236-237 | the crop's header reports hi-lo frames with the original rate, bits and channels |
| WavSound.CroppedWellFormed | recorder/assets/jswav.js:219-246 | a non-empty crop is a well-formed sound of hi-lo frames |
| WavSound.CroppedHead | recorder/assets/jswav.js:231-237 | the crop's header is a fresh header for its frames |
| WavSound.CropSample | recorder/assets/jswav.js:219-264 | sample (i, j) of the crop is sample (lo+i, j) of the original |
| WavSound.ShiftedSample | recorder/assets/jswav.js:248-264 | shifting data by whole frames shifts the samples |
| WavSound.CopyBytes | recorder/assets/jswav.js:240-243 | the copy loop appends the source bytes after the header |
| WavSound.Sound.constructor | recorder/assets/jswav.js:179-183 | a sound views its buffer through a header |
| WavSound.Sound.Crop | recorder/assets/jswav.js:219-246 | crop(start, end) yields a new sound holding Cropped of the frames between the two time indices |
| WavSound.Sound.CropFrames | recorder/assets/jswav.js:224-245 | cropping by frame indices yields Cropped |
| WavRecorder.Encode | recorder/assets/jswav.js:322 | the integer is value·32768 rounded to nearest |
| WavRecorder.Word | recorder/assets/jswav.js:323 | the stored word is congruent to the encoded integer |
| WavRecorder.Decode | recorder/assets/jswav.js:260 | reading a word back gives a value in [-1,1) |
| WavRecorder.SampleRoundTrip | recorder/assets/jswav.js:322-323 | recording then reading a sample in range loses at most half a quantisation step |
| WavRecorder.FullScaleWraps | recorder/assets/jswav.js:322-323 | a sample of exactly 1.0 encodes to 32768 and reads back as -1.0 |
| WavRecorder.Pcm16 | recorder/assets/jswav.js:320-326 | two bytes per sample |
| WavRecorder.Pcm16Append | recorder/assets/jswav.js:320-326 | encoding distributes over concatenation |
| WavRecorder.Pcm16At | recorder/assets/jswav.js:320-326 | sample k occupies bytes 2k and 2k+1 |
| WavRecorder.InterleavedAt | recorder/assets/jswav.js:320-322 | the value at i·ch+j is channel j at frame i |
| WavRecorder.InterleavedLength | recorder/assets/jswav.js:320-326 | n frames of ch channels give n·ch values |
| WavRecorder.FrameValuesAt | recorder/assets/jswav.js:321-322 | the j-th value of a frame is channel j |
| WavRecorder.ConcatPush | recorder/assets/jswav.js:327 | pushing a buffer appends its bytes to the recording |
| WavRecorder.PushEncoded | recorder/assets/jswav.js:315-327 | after a push, the buffers still encode all samples recorded so far |
| WavRecorder.SetInt16 | recorder/assets/jswav.js:323 | the store writes the two bytes of the word and keeps the rest |
| WavRecorder.EncodeFrame | recorder/assets/jswav.js:321-325 | the inner loop writes one frame's encoding |
| WavRecorder.FillBlock | recorder/assets/jswav.js:319-326 | the loop writes the encoding of the interleaved block |
| WavRecorder.EncodeBlock | recorder/assets/jswav.js:317-326 | the pushed buffer is the encoding of the interleaved block |
| WavRecorder.CopyBuffer | recorder/assets/jswav.js:350-352 | one buffer is copied at its offset and nothing else changes |
| WavRecorder.RecordedPush | recorder/assets/jswav.js:346-353 | copying the next buffer extends the recorded data |
| WavRecorder.CopyBuffers | recorder/assets/jswav.js:345-353 | the copy loop lays all buffers down in order after the header |
| WavRecorder.RecordedWord | recorder/assets/jswav.js:345-353 | each sample's word sits at its offset, with zeros after the data |
| WavRecorder.RecordedHeader | recorder/assets/jswav.js:336-342 | the recording's header is a valid 16-bit WAVE header with the stored rate and frame count |
| WavRecorder.RecordingFrames | recorder/assets/jswav.js:336-342 | a non-empty recording is a well-formed sound of sampleCount frames |
| WavRecorder.RecordingSample | recorder/assets/jswav.js:248-264 | sample (i, j) of the recording is the decoded word of recorded value i·ch+j |
| WavRecorder.RecordedSample | recorder/assets/jswav.js:334-356 | sample (i, j) of the sound produced is the decoded word of channel j's value at frame i, for every recorded frame |
| WavRecorder.RecordedValue | recorder/assets/jswav.js:322-323 | a recorded value reads back within [-1,1) |
| WavRecorder.WavNode.constructor | recorder/assets/jswav.js:292-297 | a new node has no buffers, no samples, and no rate or channel count |
| WavRecorder.WavNode.TakeFormat | recorder/assets/jswav.js:307-312 | the rate and channel count are taken from the first input and then kept |
| WavRecorder.WavNode.PushBlock | recorder/assets/jswav.js:315-327 | the sample count grows by the block length, and the encoded interleaved block is pushed |
| WavRecorder.WavNode.OnAudioProcess | recorder/assets/jswav.js:305-331 | the format is fixed by the first input, and each call appends its interleaved, encoded samples |
| WavRecorder.WavNode.Sound | recorder/assets/jswav.js:334-356 | the sound has a fresh header for the recorded count, rate, 16 bits and channels, followed by all pushed buffers in order |

## Left out

- FFT, DCT and logarithm: `mfcc/fft.go` and `mfcc/dct.go` are not part of this model. Neither are the logarithm of the bank energies (mfcc/mfcc.go:165-169) or the exp/log of the CTC log domain, which become exact arithmetic on probabilities. `Mfcc.CoeffChan.NextCoeffs` therefore returns the zero-padded window that would be transformed.
- Mel conversions: `hertzToMels` and `melsToHertz` (mfcc/mel.go:65-71) are parameters of `NewMelBinner` (`hzToMel`, `melToHz`), because `math.Log` and `math.Exp` have no exact real counterpart. `EdgesOrdered` only assumes that `melToHz` is monotone.
- Pipeline wiring: the composition in `MFCC` (mfcc/mfcc.go:117-129) of a Framer over a rateChanger over the caller's source, with the filter bank, is not built. Each stage is modelled over the slice source of the tests, and `CoeffChan` reads from a Framer.
- Floating point: Go `float64` and JavaScript numbers are exact reals. Rounding, NaN and infinities (other than the log-domain negative infinity, modelled as 0) are not modelled.
  - Where the source divides by a header field that may be zero, `requires` exclude that case. This applies to `WavHeader.SampleCount`, `WavHeader.Duration` and `WavSound.IndexForTime`.
- Integer width: Go `int` overflow is not modelled; integers are unbounded.
- MfccVelocity.VelocitySource.NextCoeffs: coefficient vectors of one source are required to have one width. The source would read out of range, or mix widths, for a source violating this.
- MfccSource.RateChanger.ReadSamples: the end of input is characterised by the time passing the last sample, not by the exact count. The count follows from `Emitted` and the sticky error.
- MfccSource.Framer.ReadSamples, MfccSource.RateChanger.ReadSamples and MfccSource.RateChanger.Start: the wrapped Source is the slice source of the tests, which returns data without an error and an error only with no data. So the retry loops of `readSample`, `readNext` and `start` (mfcc/source.go:64-73, 152-158, 171-178) run at most once. Three behaviours of other sources are not captured. A source that returns its last sample together with an error makes Go count that sample and record the error in the same call (mfcc/source.go:44-53, 110-117), so "the error is raised exactly on a short read" does not hold for it. A source that returns (0, nil) makes Go retry forever. The error itself is a flag rather than the source's error value.
- LogLikelihoodR (ctc/ctc.go:85-148): the tangent recursion is present only through `LogDomain.AddProbabilitiesR` and `LogDomain.ProductSumPartialsR`. The R-step of ctc/ctc.go:231-293 is not modelled. Its empty-sequence case returns a tangent of negative infinity, which has no real counterpart.
- CtcLikelihood.LogLikelihood: for an empty label with frames, the source adds entry -2 of a one-entry vector through the autofunc library (ctc/ctc.go:80). That behaviour is not visible. The model uses the single entry, which agrees with the reference likelihood.
- Autofunc plumbing is not modelled because it belongs to an external library. This covers `Output`, `vectorEntry` and `autofunc.Slice` (ctc/ctc.go:157-159, 321-337), the `AddScaler`, `Exp`, `Log` and `Add` nodes that `addProbabilities` builds (ctc/ctc.go:347-354), and what the library's `Variable` does with the gradient it receives. The value of those nodes is `LogDomain.AddProbabilities`, and their partials are `LogDomain.AddProbabilitiesPartials`.
- CtcBackward.PropagateAll: the `Constant` checks (ctc/ctc.go:161-163, 166-168, 203-208) are not modelled. The pass reaches every frame, as it does when every frame is a variable of the gradient; the gradient of the start vector is computed and dropped, since the start vector is never a variable of the gradient.
- Excluded files: ctc/rgradienter.go and ctc/total_cost.go are not part of this model.
- CtcPrefixSearch.SortDesc: Go's `sort.Sort` is not stable, and the order it leaves equal-probability extensions in is not specified. From Go 1.19 the library sorts lists of at most 12 elements by insertion, as the model does; on longer lists the orders may differ. The model uses a stable insertion sort. Its contract states only what `sort.Sort` promises: a descending permutation.
- CtcPrefixSearchExamples.LooseThresholds: the test's frames are logs of round probabilities, so they are modelled by the probabilities themselves, and the logged thresholds become bands of probabilities. The probabilities are rounded to six decimal places: the blank of the test's frame P is 0.599999 and is modelled as 0.6.
- Recorder and browser interface (recorder/assets/jswav.js:1-127), `Sound.fromBase64`, `Sound.base64`, `Sound.average` and `Sound.histogram` (jswav.js:184-217, 266-274): user-interface and encoding code outside the core.
- Script-processor wiring: the creation of the script processor (jswav.js:298-304) and the output-buffer assignment (jswav.js:330) are host API calls.
- WavSound.GetSample: the source's default channel (missing argument) and its NaN for other widths are modelled as a required channel and `None`.
- WavSound.Sound.Crop: an end index below the start index makes the source throw a RangeError, either at the allocation of a negative-length buffer or, when the buffer is shorter than 44 bytes, at the header stores (jswav.js:231-237). The model requires the start index not to exceed the end index, and a well-formed buffer. Equal indices, which include a later start time that clamps to the same index, give an empty crop in both.
- WavRecorder.WavNode.OnAudioProcess: the input's channel data is required to cover the stored channel count. A later input with fewer channels makes `getChannelData` throw in the source.
- WavRecorder.WavNode: pushed ArrayBuffers are kept as byte sequences, because the source never writes them after pushing. The event callback is split into `TakeFormat` and `PushBlock`, which `OnAudioProcess` calls in the source's order.
- WavHeader.Header.SetFields: the arguments are integers, as at both call sites. A fractional bits or channel count would make JavaScript store a truncated value, and that case is not modelled.

## Findings

| source | as written | input that shows it | evidently intended | confidence | as-written member | corrected member |
|---|---|---|---|---|---|---|
| mfcc/mfcc.go:149 | `coeffChan.NextCoeffs` reads into `buf[:have]`, which is empty on the first pass, so the Framer returns 0 samples and no error and `have` never grows | any MFCC source with windowSize > 0 and at least one sample: the loop makes no progress | read into the unfilled tail `buf[have:]` | not executed | Mfcc.CoeffChan.ReadPassAsWritten | Mfcc.CoeffChan.ReadWindow |
