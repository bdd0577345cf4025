/** Mask R-CNN mask-target generation (`MaskTargetGenerator.forward`): unmatched
    proposals are pointed at the first ground-truth mask, the batch is split per
    image, each proposal's ground-truth mask is pooled by `roi_align` and
    replicated into every class channel, and a 0/1 weight marks the one channel
    of the proposal's class. `roi_align` is external and appears only through its
    shape contract. */
module MaskTarget {

  import opened Wrappers
  import opened Seqs
  import Arith

  /** A proposal box `(x1, y1, x2, y2)`. */
  datatype Roi = Roi(x1: real, y1: real, x2: real, y2: real)

  /** A proposal row with its batch index prepended, as `roi_align` expects. */
  datatype PaddedRoi = PaddedRoi(batchIndex: int, box: Roi)

  /** `roi_align(masks, padded_rois, (ms, ms), 1.0, sampling_ratio=2)` for one
      proposal: the mask `batchIndex` of the image's masks, cropped by the box and
      pooled to an `ms` by `ms` grid. */
  type RoiAlign = (seq<Matrix>, PaddedRoi, nat) -> Matrix

  /** The shape contract of `roi_align`: an `ms` by `ms` grid. */
  ghost predicate PoolsToSize(align: RoiAlign) {
    forall masks, p, ms {:trigger align(masks, p, ms)} :: IsMatrix(align(masks, p, ms), ms, ms)
  }

  /** The ways the forward pass raises. */
  datatype MaskError =
    | InvalidImageCount   // `num_images <= 0`: division by zero or a negative split size
    | EmptySplit          // fewer rows than images: a split size of 0
    | BatchNotPerImage    // split size of 2 or more: `squeeze_` keeps the batch axis and the `cat` of line 77 fails
    | NoClasses           // `num_classes < 1`: `torch.stack` of an empty list
    | TupleHasNoSqueeze   // `squeeze_` called on the tuple `torch.split` returns

  /** The output pair: targets and weights, both `(B, N, C, MS, MS)`. */
  datatype MaskOutputs = MaskOutputs(targets: seq<seq<seq<Matrix>>>, weights: seq<seq<seq<Matrix>>>)

  /** Line 67: a match of `-1` (or any negative) becomes 0. */
  function Clamp(m: int): (r: int)
    ensures r >= 0
    ensures m >= 0 ==> r == m
    ensures m < 0 ==> r == 0
  {
    if m >= 0 then m else 0
  }

  function ClampMatches(ms: seq<int>): (r: seq<int>)
    ensures |r| == |ms|
    ensures forall n | 0 <= n < |ms| :: r[n] >= 0
    ensures forall n | 0 <= n < |ms| :: ms[n] >= 0 ==> r[n] == ms[n]
    ensures forall n | 0 <= n < |ms| :: ms[n] < 0 ==> r[n] == 0
  {
    seq(|ms|, n requires 0 <= n < |ms| => Clamp(ms[n]))
  }

  /** Clamping twice is clamping once. */
  lemma ClampIdempotent(ms: seq<int>)
    ensures ClampMatches(ClampMatches(ms)) == ClampMatches(ms)
  {
  }

  /** `_split(x, 0, num_images, True)` as written (lines 54-59). `torch.split`
      returns a tuple, so the `isinstance(x, list)` test is false and `squeeze_`
      is called on the tuple itself, which has no such method. */
  function SplitAsWritten<T>(xs: seq<T>, numImages: int): (r: Result<seq<T>, MaskError>)
    ensures r.Err?
  {
    if numImages <= 0 then Err(InvalidImageCount)
    else
      var size := |xs| / numImages;
      if size == 0 then Err(EmptySplit)
      else Err(TupleHasNoSqueeze)  // the chunks arrive as a tuple: the else branch of line 56
  }

  /** `_split(x, 0, num_images, True)` as intended: the chunks of `torch.split`,
      each squeezed along the batch axis. Squeezing removes that axis only from a
      chunk of one row, so the result is usable only when the split size
      `B // num_images` is exactly 1; it is then the batch itself, image by image. */
  function SplitPerImage<T>(xs: seq<T>, numImages: int): (r: Result<seq<T>, MaskError>)
    ensures r.Ok? <==> 0 < numImages <= |xs| < 2 * numImages
    ensures r.Ok? ==> r.value == xs
    ensures numImages <= 0 ==> r == Err(InvalidImageCount)
    ensures 0 < numImages && |xs| < numImages ==> r == Err(EmptySplit)
    ensures 0 < numImages && 2 * numImages <= |xs| ==> r == Err(BatchNotPerImage)
  {
    if numImages <= 0 then Err(InvalidImageCount)
    else
      var size := |xs| / numImages;
      Arith.DivIsZeroOrOne(|xs|, numImages);
      if size == 0 then Err(EmptySplit)
      else if size != 1 then Err(BatchNotPerImage)
      else
        var parts := Chunks(xs, size);
        var squeezed := seq(|parts|, i requires 0 <= i < |parts| => parts[i][0]);
        assert squeezed == xs by {
          FlattenLength(parts, 1);
          forall i | 0 <= i < |parts|
            ensures squeezed[i] == xs[i]
          {
            FlattenAt(parts, 1, i, 0);
          }
        }
        Ok(squeezed)
  }

  /** A single-image batch split into one image is the smallest input on which
      the split as written raises and the intended split returns the image. */
  lemma SplitBugWitness<T>(x: T)
    ensures SplitAsWritten([x], 1) == Err(TupleHasNoSqueeze)
    ensures SplitPerImage([x], 1) == Ok([x])
  {
  }

  /** An `ms` by `ms` grid holding `v` everywhere. */
  function Fill(ms: nat, v: real): (g: Matrix)
    ensures IsMatrix(g, ms, ms)
    ensures forall i, j | 0 <= i < ms && 0 <= j < ms :: g[i][j] == v
  {
    seq(ms, i => seq(ms, j => v))
  }

  /** The weight of class channel `c` (0-based) for a proposal of class `cls`:
      `ones * (cls == c + 1)` (lines 86, 90). */
  function ChannelWeight(ms: nat, cls: int, c: nat): (w: Matrix)
    ensures IsMatrix(w, ms, ms)
    ensures cls == c + 1 ==> forall i, j | 0 <= i < ms && 0 <= j < ms :: w[i][j] == 1.0
    ensures cls != c + 1 ==> forall i, j | 0 <= i < ms && 0 <= j < ms :: w[i][j] == 0.0
  {
    Fill(ms, if cls == c + 1 then 1.0 else 0.0)
  }

  /** The loop body of lines 76-93 for one image: pooled masks replicated per
      class, 0/1 weights per class, each stacked class-major and permuted to
      proposal-major. */
  function ImageTargets(gt: seq<Matrix>, rois: seq<Roi>, matches: seq<int>, cls: seq<int>, numClasses: nat, ms: nat, align: RoiAlign): (r: (seq<seq<Matrix>>, seq<seq<Matrix>>))
    requires |matches| == |rois| && |cls| == |rois|
    requires PoolsToSize(align)
    ensures |r.0| == |rois| && |r.1| == |rois|
    ensures forall n | 0 <= n < |rois| :: |r.0[n]| == numClasses && |r.1[n]| == numClasses
    ensures forall n, c | 0 <= n < |rois| && 0 <= c < numClasses ::
      r.0[n][c] == align(gt, PaddedRoi(matches[n], rois[n]), ms)
    ensures forall n, c | 0 <= n < |rois| && 0 <= c < numClasses ::
      r.1[n][c] == ChannelWeight(ms, cls[n], c)
  {
    var pooled := seq(|rois|, n requires 0 <= n < |rois| => align(gt, PaddedRoi(matches[n], rois[n]), ms));
    var targetsByClass := seq(numClasses, c => pooled);
    var weightsByClass := seq(numClasses, c requires 0 <= c < numClasses =>
      seq(|rois|, n requires 0 <= n < |rois| => ChannelWeight(ms, cls[n], c)));
    (Transpose(targetsByClass, |rois|), Transpose(weightsByClass, |rois|))
  }

  /** The inputs of the forward pass for `B` images of `N` proposals each:
      `rois` (B, N), `gtMasks` (B, M), `matches` (B, N), `clsTargets` (B, N). */
  datatype MaskInputs = MaskInputs(rois: seq<seq<Roi>>, gtMasks: seq<seq<Matrix>>, matches: seq<seq<int>>, clsTargets: seq<seq<int>>)
  {
    /** One batch size, and one proposal count shared by every image and every per-proposal input. */
    predicate WellShaped() {
      && |gtMasks| == |rois| && |matches| == |rois| && |clsTargets| == |rois|
      && (forall b, b2 | 0 <= b < |rois| && 0 <= b2 < |rois| :: |rois[b]| == |rois[b2]|)
      && (forall b | 0 <= b < |rois| :: |matches[b]| == |rois[b]| && |clsTargets[b]| == |rois[b]|)
    }

    /** Image `b` alone, as a batch of one. */
    function Image(b: nat): MaskInputs
      requires WellShaped() && b < |rois|
    {
      MaskInputs([rois[b]], [gtMasks[b]], [matches[b]], [clsTargets[b]])
    }
  }

  /** Every image's targets and weights, gathered image by image. */
  function BatchTargets(gts: seq<seq<Matrix>>, rois: seq<seq<Roi>>, matches: seq<seq<int>>, cls: seq<seq<int>>,
                        numClasses: nat, ms: nat, align: RoiAlign): (o: MaskOutputs)
    requires |gts| == |rois| && |matches| == |rois| && |cls| == |rois|
    requires forall b | 0 <= b < |rois| :: |matches[b]| == |rois[b]| && |cls[b]| == |rois[b]|
    requires PoolsToSize(align)
    ensures |o.targets| == |rois| && |o.weights| == |rois|
    ensures forall b | 0 <= b < |rois| ::
      var t := ImageTargets(gts[b], rois[b], matches[b], cls[b], numClasses, ms, align);
      o.targets[b] == t.0 && o.weights[b] == t.1
  {
    var per := seq(|rois|, b requires 0 <= b < |rois| =>
      ImageTargets(gts[b], rois[b], matches[b], cls[b], numClasses, ms, align));
    MaskOutputs(seq(|per|, b requires 0 <= b < |per| => per[b].0),
                seq(|per|, b requires 0 <= b < |per| => per[b].1))
  }

  /** `MaskTargetGenerator.forward` (lines 34-98) with the tuple bug of `_split`
      corrected: the per-image split is `SplitPerImage`. As written, `_split`
      always raises (`SplitAsWritten`), and so does `forward`. */
  function MaskTargets(inp: MaskInputs, numImages: int, numClasses: int, ms: nat, align: RoiAlign): (r: Result<MaskOutputs, MaskError>)
    requires inp.WellShaped()
    requires PoolsToSize(align)
    ensures var bs := |inp.rois|;
      r.Ok? <==> 0 < numImages <= bs < 2 * numImages && numClasses >= 1
    ensures !(0 < numImages <= |inp.rois| < 2 * numImages) ==> r == SplitPerImage(inp.gtMasks, numImages).PropagateFailure()
    ensures r.Ok? ==>
      && |r.value.targets| == |inp.rois| && |r.value.weights| == |inp.rois|
      && forall b | 0 <= b < |inp.rois| ::
           && |r.value.targets[b]| == |inp.rois[b]| && |r.value.weights[b]| == |inp.rois[b]|
           && forall n | 0 <= n < |inp.rois[b]| ::
                && |r.value.targets[b][n]| == numClasses && |r.value.weights[b][n]| == numClasses
                && forall c | 0 <= c < numClasses ::
                     IsMatrix(r.value.targets[b][n][c], ms, ms) && IsMatrix(r.value.weights[b][n][c], ms, ms)
    ensures r.Ok? ==>
      forall b, n, c | 0 <= b < |inp.rois| && 0 <= n < |inp.rois[b]| && 0 <= c < numClasses ::
        r.value.targets[b][n][c] == align(inp.gtMasks[b], PaddedRoi(Clamp(inp.matches[b][n]), inp.rois[b][n]), ms)
    ensures r.Ok? ==>
      forall b, n, c | 0 <= b < |inp.rois| && 0 <= n < |inp.rois[b]| && 0 <= c < numClasses ::
        r.value.weights[b][n][c] == ChannelWeight(ms, inp.clsTargets[b][n], c)
  {
    match SplitPerImage(inp.gtMasks, numImages)
    case Err(e) => Err(e)
    case Ok(gts) =>
      // every other input has the same batch size, so its split succeeds too
      var boxes := SplitPerImage(inp.rois, numImages).value;
      var clamped := seq(|inp.matches|, b requires 0 <= b < |inp.matches| => ClampMatches(inp.matches[b]));
      var idx := SplitPerImage(clamped, numImages).value;
      var cls := SplitPerImage(inp.clsTargets, numImages).value;
      if numClasses < 1 then Err(NoClasses)
      else
        Ok(BatchTargets(gts, boxes, idx, cls, numClasses, ms, align))
  }

  /** For a grid of at least one cell the weight is all ones exactly for the
      proposal's own class channel, and all zeros for every other channel. */
  lemma ChannelWeightIndicator(ms: nat, cls: int, c: nat)
    requires ms > 0
    ensures ChannelWeight(ms, cls, c) == Fill(ms, 1.0) <==> cls == c + 1
    ensures ChannelWeight(ms, cls, c) == Fill(ms, 0.0) <==> cls != c + 1
  {
    assert Fill(ms, 1.0)[0][0] != Fill(ms, 0.0)[0][0];
  }

  /** `mask_masks[b, n, c]` is all ones iff `cls_targets[b, n] == c + 1`, and all zeros otherwise. */
  lemma WeightIsIndicator(inp: MaskInputs, numImages: int, numClasses: int, ms: nat, align: RoiAlign, b: nat, n: nat, c: nat)
    requires inp.WellShaped() && PoolsToSize(align)
    requires MaskTargets(inp, numImages, numClasses, ms, align).Ok?
    requires ms > 0 && b < |inp.rois| && n < |inp.rois[b]| && c < numClasses
    ensures var w := MaskTargets(inp, numImages, numClasses, ms, align).value.weights[b][n][c];
      && (w == Fill(ms, 1.0) <==> inp.clsTargets[b][n] == c + 1)
      && (w == Fill(ms, 0.0) <==> inp.clsTargets[b][n] != c + 1)
  {
    ChannelWeightIndicator(ms, inp.clsTargets[b][n], c);
  }

  /** A proposal has at most one active channel. */
  lemma AtMostOneActive(inp: MaskInputs, numImages: int, numClasses: int, ms: nat, align: RoiAlign, b: nat, n: nat, c1: nat, c2: nat)
    requires inp.WellShaped() && PoolsToSize(align)
    requires MaskTargets(inp, numImages, numClasses, ms, align).Ok?
    requires ms > 0 && b < |inp.rois| && n < |inp.rois[b]| && c1 < numClasses && c2 < numClasses
    requires MaskTargets(inp, numImages, numClasses, ms, align).value.weights[b][n][c1] == Fill(ms, 1.0)
    requires MaskTargets(inp, numImages, numClasses, ms, align).value.weights[b][n][c2] == Fill(ms, 1.0)
    ensures c1 == c2
  {
    WeightIsIndicator(inp, numImages, numClasses, ms, align, b, n, c1);
    WeightIsIndicator(inp, numImages, numClasses, ms, align, b, n, c2);
  }

  /** A proposal whose class lies outside `1..num_classes` (0, the background,
      in particular) has no active channel; one inside has its channel `cls - 1` active. */
  lemma ActiveChannel(inp: MaskInputs, numImages: int, numClasses: int, ms: nat, align: RoiAlign, b: nat, n: nat)
    requires inp.WellShaped() && PoolsToSize(align)
    requires MaskTargets(inp, numImages, numClasses, ms, align).Ok?
    requires ms > 0 && b < |inp.rois| && n < |inp.rois[b]|
    ensures var w := MaskTargets(inp, numImages, numClasses, ms, align).value.weights[b][n];
      var cls := inp.clsTargets[b][n];
      && (!(1 <= cls <= numClasses) ==> forall c | 0 <= c < numClasses :: w[c] == Fill(ms, 0.0))
      && (1 <= cls <= numClasses ==> w[cls - 1] == Fill(ms, 1.0))
  {
    var w := MaskTargets(inp, numImages, numClasses, ms, align).value.weights[b][n];
    forall c | 0 <= c < numClasses
      ensures w[c] == Fill(ms, if inp.clsTargets[b][n] == c + 1 then 1.0 else 0.0)
    {
    }
  }

  /** Every class channel of a proposal carries the same pooled mask: the target
      is replicated, never zeroed. */
  lemma TargetsReplicated(inp: MaskInputs, numImages: int, numClasses: int, ms: nat, align: RoiAlign, b: nat, n: nat, c1: nat, c2: nat)
    requires inp.WellShaped() && PoolsToSize(align)
    requires MaskTargets(inp, numImages, numClasses, ms, align).Ok?
    requires b < |inp.rois| && n < |inp.rois[b]| && c1 < numClasses && c2 < numClasses
    ensures var t := MaskTargets(inp, numImages, numClasses, ms, align).value.targets;
      t[b][n][c1] == t[b][n][c2]
  {
  }

  /** An unmatched proposal (negative match) is pooled from the image's first mask. */
  lemma UnmatchedUsesFirstMask(inp: MaskInputs, numImages: int, numClasses: int, ms: nat, align: RoiAlign, b: nat, n: nat, c: nat)
    requires inp.WellShaped() && PoolsToSize(align)
    requires MaskTargets(inp, numImages, numClasses, ms, align).Ok?
    requires b < |inp.rois| && n < |inp.rois[b]| && c < numClasses
    requires inp.matches[b][n] < 0
    ensures MaskTargets(inp, numImages, numClasses, ms, align).value.targets[b][n][c]
      == align(inp.gtMasks[b], PaddedRoi(0, inp.rois[b][n]), ms)
  {
  }

  /** Each image is processed on its own: its outputs are those of a batch holding only it. */
  lemma {:induction false} ImagesIndependent(inp: MaskInputs, numImages: int, numClasses: int, ms: nat, align: RoiAlign, b: nat)
    requires inp.WellShaped() && PoolsToSize(align)
    requires MaskTargets(inp, numImages, numClasses, ms, align).Ok?
    requires b < |inp.rois|
    ensures MaskTargets(inp.Image(b), 1, numClasses, ms, align).Ok?
    ensures var whole := MaskTargets(inp, numImages, numClasses, ms, align).value;
      var alone := MaskTargets(inp.Image(b), 1, numClasses, ms, align).value;
      whole.targets[b] == alone.targets[0] && whole.weights[b] == alone.weights[0]
  {
    var whole := MaskTargets(inp, numImages, numClasses, ms, align).value;
    var one := inp.Image(b);
    var alone := MaskTargets(one, 1, numClasses, ms, align).value;
    forall n | 0 <= n < |inp.rois[b]|
      ensures whole.targets[b][n] == alone.targets[0][n] && whole.weights[b][n] == alone.weights[0][n]
    {
      assert one.rois[0] == inp.rois[b] && one.matches[0] == inp.matches[b];
      assert one.gtMasks[0] == inp.gtMasks[b] && one.clsTargets[0] == inp.clsTargets[b];
    }
  }
}
