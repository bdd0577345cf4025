/** Configuration derivation of the SSD detector's constructor: the number of
    prediction layers, the (min, max) anchor-size pairs, the broadcast of the
    aspect ratios, the fail-fast consistency checks, and the per-layer anchor
    allocation grid and predictor widths. */
module SsdConfig {

  import opened Wrappers
  import opened Seqs
  import Arith

  /** The `features` argument: a ready multi-output extractor (a callable), or the
      names of the base network's internal outputs to tap. Only their number matters. */
  datatype Features = Extractor | Outputs(count: nat)

  /** The `ratios` argument: one flat list (its first element is a number) or one
      list per layer (its first element is a list). */
  datatype RatioSpec = Flat(values: seq<real>) | PerLayer(lists: seq<seq<real>>) {
    function Length(): nat {
      match this
      case Flat(vs) => |vs|
      case PerLayer(ls) => |ls|
    }
  }

  /** One layer's entry of the broadcast ratios: a bare number (from a flat list)
      or that layer's list. */
  datatype LayerRatio = Scalar(ratio: real) | Ratios(ratios: seq<real>)

  /** The (min, max) anchor sizes of one layer. */
  datatype SizePair = SizePair(lo: real, hi: real)

  /** Non-maximum suppression settings: overlap threshold, top-k and post-NMS count. */
  datatype NmsParams = NmsParams(thresh: real, topk: int, postNms: int)

  /** The constructor arguments the configuration logic reads. */
  datatype SsdArgs = SsdArgs(
    network: Option<string>,
    baseSize: int,
    features: Features,
    filters: Option<seq<int>>,
    sizes: seq<real>,
    ratios: RatioSpec,
    steps: seq<int>,
    classes: seq<string>,
    globalPool: bool,
    pretrained: bool,
    nms: NmsParams,
    anchorAllocSize: int)

  /** One prediction layer: its anchor generator's arguments and the widths of its
      class and box predictors. */
  datatype Head = Head(
    inChannels: nat,
    sizes: SizePair,
    ratio: LayerRatio,
    step: int,
    allocSize: int,
    numAnchors: nat,
    classOutputs: nat,
    boxOutputs: nat)

  /** A constructed detector. `pretrainedBase` is the flag handed to the feature extractor. */
  datatype Ssd = Ssd(
    baseSize: int,
    numLayers: nat,
    sizes: seq<SizePair>,
    ratios: seq<LayerRatio>,
    classes: seq<string>,
    pretrainedBase: bool,
    nms: NmsParams,
    heads: seq<Head>)

  /** Why construction fails: `len()` of a callable or of `None` (TypeError), the
      three assertions, an empty ratio list (IndexError on `ratios[0]`), or a list
      of output names where a callable extractor is expected (TypeError). */
  datatype ConfigError =
    | FeaturesNotSized
    | SizesMismatch
    | RatiosEmpty
    | LayersMismatch
    | NoLayers
    | FeaturesNotCallable

  /** `SSDAnchorGenerator(im_size, sizes, ratios, step, alloc).num_depth`, the
      anchors per grid cell of one layer. The generator is external. */
  type AnchorDepth = (int, SizePair, LayerRatio, int, int) -> nat

  /** The layer count: the ratio count for a ready extractor, otherwise the tapped
      outputs plus the appended layers, less one, plus one for a global pool. */
  function NumLayers(args: SsdArgs): (r: Result<int, ConfigError>)
    ensures r.Err? <==> args.network.Some? && (args.features.Extractor? || args.filters.None?)
    ensures r.Err? ==> r.error == FeaturesNotSized
    ensures args.network.None? ==> r == Ok(args.ratios.Length())
    ensures r.Ok? && args.network.Some? ==>
      r.value == args.features.count + |args.filters.value| - 1 + (if args.globalPool then 1 else 0)
  {
    match args.network
    case None => Ok(args.ratios.Length())
    case Some(_) =>
      if args.features.Extractor? || args.filters.None? then Err(FeaturesNotSized)
      else Ok(args.features.count + |args.filters.value| - 1 + (if args.globalPool then 1 else 0))
  }

  /** `zip(sizes[:-1], sizes[1:])`: each size paired with its successor. */
  function SizePairs(sizes: seq<real>): (pairs: seq<SizePair>)
    ensures |pairs| == if |sizes| == 0 then 0 else |sizes| - 1
    ensures forall i | 0 <= i < |pairs| :: pairs[i] == SizePair(sizes[i], sizes[i + 1])
  {
    if |sizes| <= 1 then [] else [SizePair(sizes[0], sizes[1])] + SizePairs(sizes[1..])
  }

  /** The sizes a list of pairs spans: the first lower bound, then every upper bound. */
  function Bounds(pairs: seq<SizePair>, first: real): seq<real> {
    [first] + seq(|pairs|, i requires 0 <= i < |pairs| => pairs[i].hi)
  }

  /** Pairing loses nothing: consecutive pairs share an end point and the sizes can
      be read back from the pairs. */
  lemma SizePairsRoundTrip(sizes: seq<real>)
    requires |sizes| > 0
    ensures forall i | 0 <= i < |SizePairs(sizes)| - 1 :: SizePairs(sizes)[i].hi == SizePairs(sizes)[i + 1].lo
    ensures Bounds(SizePairs(sizes), sizes[0]) == sizes
  {
    var b := Bounds(SizePairs(sizes), sizes[0]);
    assert |b| == |sizes|;
    forall i | 0 <= i < |b|
      ensures b[i] == sizes[i]
    {
      if i > 0 {
        assert b[i] == SizePairs(sizes)[i - 1].hi;
      }
    }
  }

  /** Lines 115-116 as written: a flat list is repeated `numLayers` times with list
      repetition (`ratios * num_layers`); a list of lists is kept. */
  function BroadcastRatios(spec: RatioSpec, numLayers: int): (rs: seq<LayerRatio>)
    ensures spec.PerLayer? ==> |rs| == |spec.lists|
    ensures spec.PerLayer? ==> forall i | 0 <= i < |rs| :: rs[i] == Ratios(spec.lists[i])
    ensures spec.Flat? ==> |rs| == if numLayers <= 0 then 0 else |spec.values| * numLayers
    ensures spec.Flat? ==> forall i | 0 <= i < |rs| :: rs[i] == Scalar(spec.values[i % |spec.values|])
  {
    match spec
    case PerLayer(ls) => seq(|ls|, i requires 0 <= i < |ls| => Ratios(ls[i]))
    case Flat(vs) =>
      var rep := Repeat(vs, numLayers);
      seq(|rep|, i requires 0 <= i < |rep| => Scalar(rep[i]))
  }

  /** A flat list of `k` numbers repeated for `n > 0` layers has `n` entries only
      when `k == 1`. */
  lemma FlatBroadcastLength(vs: seq<real>, n: int)
    requires n > 0
    ensures |BroadcastRatios(Flat(vs), n)| == n <==> |vs| == 1
  {
    var k := |vs|;
    assert |BroadcastRatios(Flat(vs), n)| == k * n;
    if k == 0 {
    } else if k >= 2 {
      assert k * n == n + (k - 1) * n;
      Arith.MulMono(k - 1, n);
    }
  }

  /** The broadcast has one entry per layer exactly when a list of lists has one
      list per layer or a flat list has a single number. */
  lemma BroadcastLength(spec: RatioSpec, n: int)
    ensures n > 0 ==>
      (|BroadcastRatios(spec, n)| == n <==>
        (spec.PerLayer? ==> |spec.lists| == n) && (spec.Flat? ==> |spec.values| == 1))
  {
    if n > 0 && spec.Flat? {
      FlatBroadcastLength(spec.values, n);
    }
  }

  /** The allocation grid handed to each successive anchor generator (lines
      151-156): it starts at `anchor_alloc_size` and is halved, flooring, after
      each layer but never below 16. */
  function AllocSizes(asz: int, n: nat): (r: seq<int>)
    ensures |r| == n
    ensures n > 0 ==> r[0] == asz
    ensures forall i | 0 <= i < n - 1 :: r[i + 1] == Max(r[i] / 2, 16)
    ensures forall i | 1 <= i < n :: r[i] >= 16
    decreases n
  {
    if n == 0 then [] else [asz] + AllocSizes(Max(asz / 2, 16), n - 1)
  }

  /** Past the first layer the allocation grid never grows; from the first layer
      on when it starts at 16 or more. */
  lemma {:induction false} AllocSizesNonIncreasing(asz: int, n: nat, i: nat, j: nat)
    requires i <= j < n
    requires i >= 1 || asz >= 16
    ensures AllocSizes(asz, n)[j] <= AllocSizes(asz, n)[i]
    decreases j - i
  {
    var r := AllocSizes(asz, n);
    if i < j {
      AllocSizesNonIncreasing(asz, n, i + 1, j);
      assert r[i + 1] == Max(r[i] / 2, 16);
      assert r[i] >= 16;
    }
  }

  function Pow2(i: nat): (p: nat)
    ensures p > 0
  {
    if i == 0 then 1 else 2 * Pow2(i - 1)
  }

  /** Closed form of the schedule: layer `i >= 1` gets `max(asz // 2**i, 16)`. */
  lemma {:induction false} AllocSizesClosedForm(asz: int, n: nat, i: nat)
    requires 1 <= i < n
    ensures AllocSizes(asz, n)[i] == Max(asz / Pow2(i), 16)
  {
    var r := AllocSizes(asz, n);
    assert r[i] == Max(r[i - 1] / 2, 16);
    if i == 1 {
    } else {
      AllocSizesClosedForm(asz, n, i - 1);
      var x := asz / Pow2(i - 1);
      Arith.DivDiv(asz, Pow2(i - 1));
      assert Pow2(i) == Pow2(i - 1) * 2;
      assert x / 2 == asz / Pow2(i);
    }
  }

  /** The prediction layers (lines 151-159): `zip` stops at the shortest of the
      extractor's channels, the size pairs, the ratios and the steps. */
  function Heads(
    baseSize: int, channels: seq<nat>, pairs: seq<SizePair>, ratios: seq<LayerRatio>,
    steps: seq<int>, numClasses: nat, asz: int, depth: AnchorDepth): (hs: seq<Head>)
    ensures |hs| == Min(Min(|channels|, |pairs|), Min(|ratios|, |steps|))
    ensures forall i | 0 <= i < |hs| ::
      && hs[i].inChannels == channels[i] && hs[i].sizes == pairs[i]
      && hs[i].ratio == ratios[i] && hs[i].step == steps[i]
      && hs[i].numAnchors == depth(baseSize, pairs[i], ratios[i], steps[i], hs[i].allocSize)
      && hs[i].classOutputs == hs[i].numAnchors * (numClasses + 1)
      && hs[i].boxOutputs == hs[i].numAnchors * 4
    ensures |hs| > 0 ==> hs[0].allocSize == asz
    ensures forall i | 0 <= i < |hs| - 1 :: hs[i + 1].allocSize == Max(hs[i].allocSize / 2, 16)
  {
    var n := Min(Min(|channels|, |pairs|), Min(|ratios|, |steps|));
    var allocs := AllocSizes(asz, n);
    seq(n, i requires 0 <= i < n =>
      var d := depth(baseSize, pairs[i], ratios[i], steps[i], allocs[i]);
      Head(channels[i], pairs[i], ratios[i], steps[i], allocs[i], d, d * (numClasses + 1), d * 4))
  }

  /** The constructor. `channels` is the feature extractor's per-output channel list
      and `depth` the anchor generators' per-cell anchor count, both external. */
  function Build(args: SsdArgs, channels: seq<nat>, depth: AnchorDepth): (r: Result<Ssd, ConfigError>)
    ensures NumLayers(args).Err? ==> r == Err(FeaturesNotSized)
    ensures NumLayers(args).Ok? && |args.sizes| != NumLayers(args).value + 1 ==> r == Err(SizesMismatch)
    ensures r.Ok? <==>
      && NumLayers(args).Ok?
      && var n := NumLayers(args).value;
      && n > 0
      && |args.sizes| == n + 1
      && (args.ratios.PerLayer? ==> |args.ratios.lists| == n)
      && (args.ratios.Flat? ==> |args.ratios.values| == 1)
      && (args.network.None? ==> args.features.Extractor?)
    ensures r.Ok? ==>
      var net := r.value;
      && net.numLayers == NumLayers(args).value
      && (args.network.None? ==> net.numLayers == args.ratios.Length())
      && (args.network.Some? ==>
            && args.features.Outputs? && args.filters.Some?
            && net.numLayers == args.features.count + |args.filters.value| - 1 + (if args.globalPool then 1 else 0))
      && net.sizes == SizePairs(args.sizes)
      && |net.sizes| == |net.ratios| == net.numLayers
      && net.ratios == BroadcastRatios(args.ratios, net.numLayers)
      && net.baseSize == args.baseSize
      && net.classes == args.classes
      && net.pretrainedBase == args.pretrained
      && net.nms == args.nms
      && |net.heads| == Min(Min(|channels|, net.numLayers), |args.steps|)
    ensures r.Ok? ==>
      var net := r.value;
      forall i | 0 <= i < |net.heads| ::
        var h := net.heads[i];
        && h.inChannels == channels[i]
        && h.sizes == net.sizes[i]
        && h.ratio == net.ratios[i]
        && h.step == args.steps[i]
        && h.allocSize == AllocSizes(args.anchorAllocSize, |net.heads|)[i]
        && h.numAnchors == depth(args.baseSize, h.sizes, h.ratio, h.step, h.allocSize)
        && h.classOutputs == h.numAnchors * (|args.classes| + 1)
        && h.boxOutputs == h.numAnchors * 4
  {
    var n :- NumLayers(args);
    if |args.sizes| != n + 1 then Err(SizesMismatch)
    else if args.ratios.Length() == 0 then Err(RatiosEmpty)
    else
      var pairs := SizePairs(args.sizes);
      var ratios := BroadcastRatios(args.ratios, n);
      BroadcastLength(args.ratios, n);
      if !(n == |pairs| && n == |ratios|) then Err(LayersMismatch)
      else if n <= 0 then Err(NoLayers)
      else if args.network.None? && !args.features.Extractor? then Err(FeaturesNotCallable)
      else
        Ok(Ssd(args.baseSize, n, pairs, ratios, args.classes, args.pretrained, args.nms,
               Heads(args.baseSize, channels, pairs, ratios, args.steps, |args.classes|, args.anchorAllocSize, depth)))
  }

  /** `set_nms`: replaces the three suppression settings and nothing else. */
  function SetNms(net: Ssd, thresh: real, topk: int, postNms: int): (r: Ssd)
    ensures r.nms.thresh == thresh && r.nms.topk == topk && r.nms.postNms == postNms
    ensures r.(nms := net.nms) == net
  {
    net.(nms := NmsParams(thresh, topk, postNms))
  }

  /** Setting the suppression parameters twice keeps only the second setting, and
      setting the current ones changes nothing. */
  lemma SetNmsLastWins(net: Ssd, t1: real, k1: int, p1: int, t2: real, k2: int, p2: int)
    ensures SetNms(SetNms(net, t1, k1, p1), t2, k2, p2) == SetNms(net, t2, k2, p2)
    ensures SetNms(net, net.nms.thresh, net.nms.topk, net.nms.postNms) == net
  {
  }
}
