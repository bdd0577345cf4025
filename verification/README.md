# SSD configuration and Mask R-CNN mask targets, modelled in Dafny

This project models two pieces of deterministic bookkeeping from a PyTorch
detection model zoo.

**SSD detector** (`model/models_zoo/ssd/ssd.py`). The model covers:
- how the constructor derives its layer count, anchor-size pairs, broadcast
  aspect ratios and fail-fast checks;
- the per-layer anchor allocation schedule and predictor widths;
- the feature-grid sizes of `anchors()`;
- `set_nms`;
- how the inference branch of `forward` lays out, suppresses, truncates and
  splits its per-class detections;
- `get_ssd` and the eight preset detectors.

**Mask R-CNN mask targets** (`model/models_zoo/mask_rcnn/rcnn_target.py`,
`MaskTargetGenerator.forward`). The model covers:
- clamping of unmatched proposals;
- the per-image split of the batch;
- `roi_align` pooling of each proposal's matched ground-truth mask;
- replication of that mask into every class channel;
- the 0/1 per-class weights.

Files:
- `wrappers.dfy`: `Option`/`Result`.
- `arith.dfy`: integer-division facts. With a positive divisor, Python's `//` and `%` agree with Dafny's.
- `seqs.dfy`: block concatenation, Python list repetition, `torch.split` chunks, axis swap.
- `ssd_config.dfy`: the constructor.
- `ssd_anchors.dfy`: grid sizes and the anchor concatenation.
- `ssd_forward.dfy`: the inference branch.
- `ssd_factory.dfy`: `get_ssd` and the presets.
- `mask_target.dfy`: the mask-target generator.

The numerical operators are imported from modules that are not part of this model. They are the anchor
generator, the box decoder, softmax with the per-class decoder, `box_nms` and
`roi_align`. Each is a function-valued parameter. A ghost predicate states
only its output shape (`GeneratesPerCell`, `ShapeContracts`, `PoolsToSize`).
The feature extractor's channel list is an input, and so is the anchor
generator's per-cell depth.

Tensors are sequences. A 2-d tensor is a `Matrix` (`seq<seq<real>>`), and
floating point is `real`. An operation that raises in Python returns `Err`
with a reason. `torch.cat` and `torch.stack` refuse an empty list, so
concatenating no layers or no classes is an `EmptyConcat` error. A `view`
with an inferred `-1` dimension cannot reshape a batch of no images, so an
empty batch in `forward` is an `EmptyBatchView` error.

Where the code and its documentation disagree, the model follows the code:
- The `ratios` docstring (ssd.py:54-56) asks for one entry per layer, but
  lines 115-116 repeat a flat list with list repetition. A flat list of `k`
  numbers becomes `k * num_layers` numbers, so the check of line 117 accepts a
  flat list only when `k == 1` (`FlatBroadcastLength`, `FlatRatiosNotPropagated`).
- The mask-target docstring (rcnn_target.py:43) gives class targets in
  `[0, num_class)`. The loop at line 84 compares them with `1..num_classes`,
  so channel `c` is active for class `c + 1`, and class 0 activates nothing.
- The mask targets are not zeroed outside the proposal's class. Every
  channel carries the pooled mask, and only the weights are 0/1 (lines 84-93).
- `MaskTargets` does not model `forward` exactly as written. As written,
  `_split` (rcnn_target.py:54-59) always raises, because it calls `squeeze_` on
  the tuple that `torch.split` returns (`SplitAsWritten`, and see "## Findings").
  `MaskTargets` models `forward` with that tuple bug corrected
  (`SplitPerImage`). With the correction, the split at line 55 cuts the batch
  into chunks of `B // num_images` rows. The per-image loop works only when
  that size is exactly 1, that is when `num_images <= B < 2 * num_images`. It
  then yields `B` images, not `num_images`.

## Model

| member | source | states |
|---|---|---|
| SsdConfig.Build | model/models_zoo/ssd/ssd.py:108-159 | Construction succeeds iff the layer count is defined, positive, one less than the number of sizes, and equal to the broadcast ratio count. A list of lists must have one list per layer, and a flat list only one number. With no base network the features must be a ready extractor. An undefined layer count, then a size-count mismatch, are reported before the other failures. The layer count is `len(ratios)` without a base network, else `len(features) + len(num_filters) - 1 + global_pool`. Head `i` gets channel `i`, size pair `i`, ratio `i`, step `i` and allocation `i`. It predicts `depth * (classes + 1)` class and `depth * 4` box outputs. `zip` stops at the shortest list |
| SsdConfig.NumLayers | model/models_zoo/ssd/ssd.py:108-111 | Without a base network the layer count is `len(ratios)`. With one it fails (`len` of a callable or of `None`) iff the features are a ready extractor or there are no filters; otherwise it is `len(features) + len(num_filters) - 1 + global_pool` |
| SsdConfig.BroadcastRatios | model/models_zoo/ssd/ssd.py:115-116 | A list of lists keeps one entry per list. A flat list becomes `len(ratios) * num_layers` scalars (none for `num_layers <= 0`), entry `j` being `ratios[j % len(ratios)]` |
| SsdConfig.Heads | model/models_zoo/ssd/ssd.py:151-159 | `zip` stops at the shortest of channels, size pairs, ratios and steps. Head `i` takes entry `i` of each. Allocation sizes start at `anchor_alloc_size` and go to `max(prev // 2, 16)`. Each head predicts `depth * (classes + 1)` class and `depth * 4` box outputs |
| SsdConfig.SizePairs | model/models_zoo/ssd/ssd.py:113 | There are `len(sizes) - 1` pairs, and pair `i` is `(sizes[i], sizes[i+1])` |
| SsdConfig.SizePairsRoundTrip | model/models_zoo/ssd/ssd.py:113 | Consecutive pairs share their boundary, and the first size plus every pair's upper bound recovers the sizes |
| SsdConfig.FlatBroadcastLength | model/models_zoo/ssd/ssd.py:115-117 | A flat list repeated for `n > 0` layers has `n` entries iff it holds one number |
| SsdConfig.BroadcastLength | model/models_zoo/ssd/ssd.py:115-120 | The broadcast has one entry per layer iff a list of lists has `n` lists, or a flat list has one number |
| SsdConfig.AllocSizes | model/models_zoo/ssd/ssd.py:151-156 | The schedule has one entry per layer and starts at `anchor_alloc_size`. Each next entry is `max(prev // 2, 16)`, and every entry after the first is at least 16 |
| SsdConfig.AllocSizesNonIncreasing | model/models_zoo/ssd/ssd.py:151-156 | The schedule never grows after the first entry. It never grows from the first entry on when that entry is at least 16 |
| SsdConfig.AllocSizesClosedForm | model/models_zoo/ssd/ssd.py:151-156 | Entry `i >= 1` equals `max(anchor_alloc_size // 2**i, 16)` |
| SsdConfig.SetNms | model/models_zoo/ssd/ssd.py:188-211 | The three suppression settings take the given values, and every other field is unchanged |
| SsdConfig.SetNmsLastWins | model/models_zoo/ssd/ssd.py:209-211 | The second of two calls wins, and setting the current values changes nothing |
| SsdAnchors.GridSizesShape | model/models_zoo/ssd/ssd.py:177-181 | The grid sizes end in 1 and start at `ceil(s)` when `s >= 2`. They strictly decrease, and each is at least 1 |
| SsdAnchors.AnchorGridSizes | model/models_zoo/ssd/ssd.py:176-181 | The loop, started at `base_size / 8`, computes the recursive grid list, and that list ends in 1 |
| SsdAnchors.PresetGridSizes | model/models_zoo/ssd/ssd.py:177-181 | Base 300 gives grids `[38, 19, 10, 5, 3, 1]`, and base 512 gives `[64, 32, 16, 8, 4, 2, 1]` |
| SsdAnchors.GridSizesFrom | model/models_zoo/ssd/ssd.py:177-181 | The grid list is never empty: the final 1 is always appended |
| SsdAnchors.StackLayersLayer | model/models_zoo/ssd/ssd.py:182-185 | In the stacked anchors, layer `i`'s generated anchors sit between the anchor counts of the first `i` and the first `i + 1` layers |
| SsdAnchors.ConcatAnchors | model/models_zoo/ssd/ssd.py:182-185 | The concatenation fails with `EmptyConcat` iff `zip` pairs up no layer. Otherwise it has four columns and one row per anchor of every zipped layer |
| SsdAnchors.ConcatAnchorsLayer | model/models_zoo/ssd/ssd.py:182-185 | Rows `AnchorCount(layers before i)` up to `AnchorCount(layers up to i)` of the concatenation are exactly layer `i`'s generated anchors |
| SsdAnchors.Anchors | model/models_zoo/ssd/ssd.py:176-186 | `anchors()` fails iff there is no anchor generator (the grid list is never empty). Otherwise it yields one 4-column row per anchor over the layers on their square grids |
| SsdForward.Assemble | model/models_zoo/ssd/ssd.py:233-239 | With K classes and N anchors, the assembly fails with `EmptyConcat` iff K is 0, and otherwise has K·N rows of 6 columns |
| SsdForward.AssembleRowLayout | model/models_zoo/ssd/ssd.py:233-239 | Row `i·N + a` is `[cls_ids[a,i], scores[a,i]] + bbox[a]` |
| SsdForward.AssembleRowOrigin | model/models_zoo/ssd/ssd.py:233-239 | Conversely, every row `j` is class `j / N`'s row for anchor `j % N` |
| SsdForward.SplitColumns | model/models_zoo/ssd/ssd.py:245-247 | Ids, scores and boxes have one entry per row, and boxes have 4 columns |
| SsdForward.SplitJoinRoundTrip | model/models_zoo/ssd/ssd.py:245-247 | The three column groups rejoin into the rows, and splitting rejoined columns returns them |
| SsdForward.PostProcess | model/models_zoo/ssd/ssd.py:240-244 | Suppression runs only for `0 < nms_thresh < 1`. Truncation to `post_nms` rows happens only then and only for `post_nms > 0`; otherwise every row is returned. The call fails iff truncation asks for more rows than exist |
| SsdForward.PostNmsOnlyWhenEnabled | model/models_zoo/ssd/ssd.py:240-244 | With suppression disabled, `nms_topk` and `post_nms` have no effect, and the rows come back unchanged |
| SsdForward.ImageRows | model/models_zoo/ssd/ssd.py:230-239 | One image's decoded detections fail with `EmptyConcat` iff K is 0, and otherwise form K·N rows of 6 columns |
| SsdForward.ImageColumns | model/models_zoo/ssd/ssd.py:240-247 | One image's columns have `post_nms` entries when truncation applies, else K·N, and rejoined they are its post-processed rows |
| SsdForward.Forward | model/models_zoo/ssd/ssd.py:213-248 | The batch fails iff no layer is zipped, the batch is empty, K is 0, or enabled truncation exceeds K·N. The errors come in the code's order: no layer gives `EmptyConcat`, then an empty batch gives `EmptyBatchView`, then K = 0 gives `EmptyConcat`, and only then can the truncation give `NarrowOutOfRange`. Otherwise each image gets `post_nms` rows when truncation applies, else K·N. Each image's columns, rejoined, are its post-processed rows |
| SsdForward.ForwardRowLayout | model/models_zoo/ssd/ssd.py:227-247 | With suppression disabled, output row `i·N + a` holds class `i`'s decoded id and score for anchor `a`, and that anchor's decoded box |
| SsdFactory.BaseSizeOfWeightName | model/models_zoo/ssd/ssd.py:336 | The base size reads back from the weight name `ssd_<base>_<name>_<dataset>`, even when name and dataset contain underscores |
| SsdFactory.WeightNameSeparatesBaseSizes | model/models_zoo/ssd/ssd.py:336 | Different base sizes never give the same weight name |
| SsdFactory.WeightName | model/models_zoo/ssd/ssd.py:336 | The weight name starts with `ssd_` and is longer than name and dataset together |
| SsdFactory.ConstructorArgs | model/models_zoo/ssd/ssd.py:330-332 | The backbone flag is `pretrained_base` unless `pretrained` is set. A ready extractor gets no base network; otherwise the base network is `name`, which may be `None`. The other arguments pass through |
| SsdFactory.GetSsd | model/models_zoo/ssd/ssd.py:274-339 | A constructor failure is passed on. When `pretrained` is set and `name` or `dataset` is `None`, joining the weight name fails. Otherwise `get_ssd` succeeds with the constructor's detector. The backbone is pretrained only when full weights are not requested. A weight name is recorded iff `pretrained`. It is the join of line 336, and it encodes the base size |
| SsdFactory.PresetRequest | model/models_zoo/ssd/ssd.py:342-579 | Each preset passes its caller's classes, pretrained flags and keyword arguments through unchanged, names its base network and dataset, and uses base size 300 or 512 |
| SsdFactory.PresetRatios | model/models_zoo/ssd/ssd.py:361 | The preset ratio table has `wide + 3` lists: `[1, 2, 0.5]` first and last twice, with the 5-ratio list between |
| SsdFactory.PresetTablesConsistent | model/models_zoo/ssd/ssd.py:342-579 | Every preset has `len(sizes) == len(ratios) + 1 == len(steps) + 1`. VGG presets pass a ready extractor; the others tap 2 outputs and append 5 layers |
| SsdFactory.PresetConstructs | model/models_zoo/ssd/ssd.py:100-159 | Every preset's constructor call succeeds, with one layer per step, unless a non-VGG preset is given `global_pool`. That case fails the sizes check |
| SsdFactory.PresetBuilds | model/models_zoo/ssd/ssd.py:342-579 | Every preset's `get_ssd` succeeds, with one layer per step, unless a non-VGG preset is given `global_pool`. That case fails the sizes check |
| SsdFactory.PresetWeightNames | model/models_zoo/ssd/ssd.py:336 | Every preset built through `get_ssd` with `pretrained=True` records the weight file named after that preset, `ssd_<size>_<network>_<dataset>` (for example `ssd_512_mobilenet1.0_voc`, `PresetWeightFiles`) |
| SsdFactory.PresetIdentityOf | model/models_zoo/ssd/ssd.py:342-579 | Each preset's `get_ssd` call names its own base size (300 or 512), base network (`vgg16_atrous`, `resnet50_v1` or `mobilenet1.0`) and dataset (`voc` or `coco`) |
| SsdFactory.FlatRatiosNotPropagated | model/models_zoo/ssd/ssd.py:115-117 | A flat `[1, 2, 0.5]` for six layers becomes 18 numbers, and construction fails the layer check |
| Seqs.Repeat | model/models_zoo/ssd/ssd.py:116 | List repetition `xs * n` has `len(xs) * n` elements (none for `n <= 0`), and element `j` is `xs[j % len(xs)]` |
| Seqs.Chunks | model/models_zoo/mask_rcnn/rcnn_target.py:55 | `torch.split` chunks concatenate back to the input. There is always at least one chunk, and an empty input gives one empty chunk. Each chunk is at most the split size, non-empty for a non-empty input, and all but the last have exactly that size |
| Seqs.Transpose | model/models_zoo/mask_rcnn/rcnn_target.py:92-93 | Stacking then permuting the two leading axes puts `x[c][n]` at `[n][c]` |
| Seqs.TransposeInvolution | model/models_zoo/mask_rcnn/rcnn_target.py:92-93 | Swapping the axes twice gives the stack back |
| MaskTarget.Clamp | model/models_zoo/mask_rcnn/rcnn_target.py:67 | A match is never negative after clamping: a non-negative match is kept and a negative one becomes 0 |
| MaskTarget.ClampMatches | model/models_zoo/mask_rcnn/rcnn_target.py:67 | Every negative match becomes 0, non-negative matches are unchanged, and all results are non-negative |
| MaskTarget.ClampIdempotent | model/models_zoo/mask_rcnn/rcnn_target.py:67 | Clamping twice is clamping once |
| MaskTarget.SplitAsWritten | model/models_zoo/mask_rcnn/rcnn_target.py:54-59 | The split as written raises on every input |
| MaskTarget.SplitPerImage | model/models_zoo/mask_rcnn/rcnn_target.py:54-59 | The intended split succeeds iff `0 < num_images <= B < 2 * num_images`, and then returns the batch image by image. It fails when `num_images <= 0`, when the chunk size is 0, and when the chunk size is 2 or more |
| MaskTarget.SplitBugWitness | model/models_zoo/mask_rcnn/rcnn_target.py:54-59 | For a one-image batch, the split as written raises while the intended split returns the image |
| MaskTarget.ImageTargets | model/models_zoo/mask_rcnn/rcnn_target.py:75-93 | For one image, every class channel of proposal `n` is `roi_align` of the image's masks at index `match[n]` cropped by `roi[n]`. The weight of channel `c` is all `(cls[n] == c + 1)` |
| MaskTarget.MaskTargets | model/models_zoo/mask_rcnn/rcnn_target.py:34-98 | This is `forward` with the `_split` tuple bug of "## Findings" corrected; as written, `_split` always raises (`SplitAsWritten`). The call succeeds iff the split works and there is at least one class. Both outputs then have shape `(B, N, C, MS, MS)`. `targets[b,n,c]` is `roi_align` at the clamped match, and `weights[b,n,c]` is the class-`c + 1` indicator |
| MaskTarget.ChannelWeight | model/models_zoo/mask_rcnn/rcnn_target.py:86-90 | Channel `c`'s weight is an `MS × MS` grid, all ones when the proposal's class is `c + 1` and all zeros otherwise |
| MaskTarget.ChannelWeightIndicator | model/models_zoo/mask_rcnn/rcnn_target.py:86-90 | For a non-empty grid, a channel weight is all ones iff the class is `c + 1`, and all zeros iff it is not |
| MaskTarget.WeightIsIndicator | model/models_zoo/mask_rcnn/rcnn_target.py:84-90 | `mask_masks[b,n,c]` is all ones iff `cls_target[b,n] == c + 1`, and all zeros otherwise |
| MaskTarget.AtMostOneActive | model/models_zoo/mask_rcnn/rcnn_target.py:84-90 | Two active channels of one proposal are the same channel |
| MaskTarget.ActiveChannel | model/models_zoo/mask_rcnn/rcnn_target.py:84-90 | A class outside `1..num_classes` (background 0 included) activates no channel; a class inside activates channel `cls - 1` |
| MaskTarget.TargetsReplicated | model/models_zoo/mask_rcnn/rcnn_target.py:82-92 | All class channels of a proposal carry the same pooled mask |
| MaskTarget.UnmatchedUsesFirstMask | model/models_zoo/mask_rcnn/rcnn_target.py:67-79 | A proposal with a negative match is pooled from the image's mask 0 |
| MaskTarget.ImagesIndependent | model/models_zoo/mask_rcnn/rcnn_target.py:73-93 | Each image's outputs equal those of a batch that holds only that image |

## Left out

- The anchor generator, box decoder, softmax with the per-class decoder, `box_nms` and `roi_align` are not modelled numerically. Their source is not part of this model, and only their output shapes are stated.
- The backbone, `FeatureExpander`, the convolutional predictors, the multibox loss and the training branch of `forward` are neural-network layers with floating-point maths. The feature maps' spatial sizes and the flattened predictions enter `Forward` as inputs.
- Loading pretrained weights (`torch.load`, `get_model_file`) is file I/O. `GetSsd` records the weight name it would load.
- `reset_class` is a commented-out stub with no behaviour.
- The `isinstance(ratios, list)` assertion of line 114 is not modelled, because the model's ratio argument is always a list (`RatioSpec`).
- The keyword arguments `use_1x1_transition`, `use_bn`, `reduce_ratio`, `min_depth`, `stds`, `norm_layer` and `norm_kwargs` are not modelled. They only configure external layers. So is `get_ssd`'s `channels`, which is passed only to the external extractor; the extractor's resulting channel list is an input of `Build`.
- `num_rois` is not modelled, because `MaskTargetGenerator` stores it but `forward` never reads it.
- `mask_size` is one square size `MS`, because a rectangular `(h, w)` changes nothing in the channel logic.
- The dataset class lists (`VOCDetection.CLASSES`, `COCODetection.CLASSES`) are not part of this model. The presets take the class names as a parameter.
- `pretrained` and `pretrained_base` are booleans. The string form (a weight hashtag) is treated like `True`.
- Floating point is modelled by `real`. `base_size / 8` and its halvings are exact, matching the source whenever the values are dyadic.
- The input tensors are assumed to have the documented shapes: `MaskInputs.WellShaped` for the mask generator, and `IsMatrix` shapes for the forward pass.
- SsdAnchors.GeneratesPerCell: the generator contract assumes every feature map fits the generator's precomputed `anchor_alloc_size` grid, because the anchor generator's source is not part of this model. A larger map would be sliced short by the generator, and the anchor count would then fall below the one stated here.
- SsdAnchors.GridSizesFrom: its own contract states only that the list is never empty. Its shape (ends in 1, strictly decreasing, starts at `ceil(s)`) is proved in `GridSizesShape`.
- SsdFactory.WeightName: its contract states the prefix and a length bound only. That the base size reads back is proved in `BaseSizeOfWeightName`.
- SsdFactory.PresetRequest: its contract states what every preset shares. The per-preset values are stated elsewhere, but not all of them:
  - `PresetIdentityOf` states each preset's base size, base network and dataset.
  - `PresetTablesConsistent` states only the form of the ratio argument, the lengths of the size, ratio and step tables, and the kind of features each preset passes. The numbers inside the size, ratio, step and filter tables appear only in the body of `PresetRequest`; no contract restates them.
  - `PresetBuilds` states which presets build.
- SsdAnchors.AnchorGridSizes: the method's contract states that the list ends in 1. That every entry is at least 1 is proved separately in `GridSizesShape`.

## Findings

| source | as written | input that shows it | evidently intended | confidence | as-written member | corrected member |
|---|---|---|---|---|---|---|
| model/models_zoo/mask_rcnn/rcnn_target.py:54-59 | `_split` tests `isinstance(x, list)` on the result of `torch.split`, which is a tuple. So the else branch calls `squeeze_` on the tuple itself, and a tuple has no such method | a batch of one image with `num_images = 1` | treat the tuple like a list and squeeze each chunk along the batch axis | not executed | MaskTarget.SplitAsWritten (with MaskTarget.SplitBugWitness) | MaskTarget.SplitPerImage (used by MaskTarget.MaskTargets) |
