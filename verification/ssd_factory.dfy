/** The SSD factory: `get_ssd` and the eight preset detectors. `get_ssd` clears
    the backbone's pretrained flag when full pretrained weights are requested,
    taps a named base network only when the features are not a ready extractor,
    and names the weights `ssd_<base size>_<name>_<dataset>`. Loading the weights
    is file I/O and is left out; the model records the name it would load. */
module SsdFactory {

  import opened Wrappers
  import opened Seqs
  import opened SsdConfig

  /** Decimal digits. */
  predicate IsDigits(s: string) {
    |s| > 0 && forall i | 0 <= i < |s| :: '0' <= s[i] <= '9'
  }

  function DigitChar(d: nat): char
    requires d < 10
  {
    ('0' as int + d) as char
  }

  /** Python's `str` on a non-negative integer. */
  function NatToString(n: nat): (s: string)
    ensures IsDigits(s)
    decreases n
  {
    if n < 10 then [DigitChar(n)] else NatToString(n / 10) + [DigitChar(n % 10)]
  }

  /** Python's `str` on an integer. */
  function IntToString(i: int): string {
    if i < 0 then "-" + NatToString(-i) else NatToString(i)
  }

  /** The value of a string of decimal digits. */
  function ParseNat(s: string): nat
    requires IsDigits(s)
  {
    var last := s[|s| - 1] as int - '0' as int;
    if |s| == 1 then last else ParseNat(s[..|s| - 1]) * 10 + last
  }

  /** Python's `int` on an optionally signed string of decimal digits. */
  function ParseInt(s: string): Option<int> {
    if |s| > 0 && s[0] == '-' && IsDigits(s[1..]) then Some(-(ParseNat(s[1..]) as int))
    else if IsDigits(s) then Some(ParseNat(s))
    else None
  }

  lemma {:induction false} ParseNatToString(n: nat)
    ensures ParseNat(NatToString(n)) == n
    decreases n
  {
    var s := NatToString(n);
    if n >= 10 {
      ParseNatToString(n / 10);
      assert s[..|s| - 1] == NatToString(n / 10);
    }
  }

  /** Reading back an integer's decimal form gives the integer. */
  lemma ParseIntToString(i: int)
    ensures ParseInt(IntToString(i)) == Some(i)
  {
    var s := IntToString(i);
    if i < 0 {
      ParseNatToString(-i);
      assert s[0] == '-' && s[1..] == NatToString(-i);
    } else {
      ParseNatToString(i);
      assert s == NatToString(i) && '0' <= s[0] <= '9';
    }
  }

  /** The position of the first `c` in `s`, if any. */
  function IndexOf(s: string, c: char): (k: Option<nat>)
    ensures k.Some? ==> k.value < |s| && s[k.value] == c && forall j | 0 <= j < k.value :: s[j] != c
    ensures k.None? ==> forall j | 0 <= j < |s| :: s[j] != c
  {
    if |s| == 0 then None
    else if s[0] == c then Some(0)
    else match IndexOf(s[1..], c)
      case None => None
      case Some(k) => Some(k + 1)
  }

  /** Line 336: `'_'.join(('ssd', str(base_size), name, dataset))`. The name
      starts with `ssd_` and holds the name and dataset; `BaseSizeOfWeightName`
      reads the base size back. */
  function WeightName(baseSize: int, name: string, dataset: string): (w: string)
    ensures |w| >= 6 + |name| + |dataset| && w[..4] == "ssd_"
  {
    "ssd_" + IntToString(baseSize) + "_" + name + "_" + dataset
  }

  /** The base size a weight name encodes: the integer between the first two underscores. */
  function BaseSizeOf(weights: string): Option<int> {
    if |weights| >= 4 && weights[..4] == "ssd_" then
      var rest := weights[4..];
      match IndexOf(rest, '_')
      case None => None
      case Some(k) => ParseInt(rest[..k])
    else None
  }

  /** The base size can be read back from a weight name, whatever the name and
      dataset (which may themselves hold underscores). */
  lemma BaseSizeOfWeightName(baseSize: int, name: string, dataset: string)
    ensures BaseSizeOf(WeightName(baseSize, name, dataset)) == Some(baseSize)
  {
    var w := WeightName(baseSize, name, dataset);
    var digits := IntToString(baseSize);
    var rest := w[4..];
    assert w[..4] == "ssd_";
    assert rest == digits + "_" + name + "_" + dataset;
    assert forall j | 0 <= j < |digits| :: digits[j] != '_';
    assert rest[|digits|] == '_';
    assert IndexOf(rest, '_') == Some(|digits|);
    assert rest[..|digits|] == digits;
    ParseIntToString(baseSize);
  }

  /** Two detectors of different base sizes never share a weight name. */
  lemma WeightNameSeparatesBaseSizes(b1: int, n1: string, d1: string, b2: int, n2: string, d2: string)
    requires WeightName(b1, n1, d1) == WeightName(b2, n2, d2)
    ensures b1 == b2
  {
    BaseSizeOfWeightName(b1, n1, d1);
    BaseSizeOfWeightName(b2, n2, d2);
  }

  /** The constructor keyword arguments the presets pass through `**kwargs`. */
  datatype SsdOptions = SsdOptions(globalPool: bool, nms: NmsParams, anchorAllocSize: int)

  /** The constructor's defaults: no global pool, NMS 0.45 / 400 / 100, allocation 128. */
  const DefaultOptions := SsdOptions(false, NmsParams(0.45, 400, 100), 128)

  /** The arguments of `get_ssd` the factory logic reads. */
  datatype SsdRequest = SsdRequest(
    name: Option<string>,
    baseSize: int,
    features: Features,
    filters: Option<seq<int>>,
    sizes: seq<real>,
    ratios: RatioSpec,
    steps: seq<int>,
    classes: seq<string>,
    dataset: Option<string>,
    pretrained: bool,
    pretrainedBase: bool,
    options: SsdOptions)

  /** Why `get_ssd` fails: the constructor rejects its arguments, or the weight name
      is to be joined from a `name` or `dataset` that is `None`, which `str.join`
      refuses. */
  datatype FactoryError = Config(ConfigError) | JoinOfNone

  /** A detector and the name of the weights loaded into it, if any. */
  datatype Detector = Detector(net: Ssd, weights: Option<string>)

  /** The constructor arguments `get_ssd` derives (lines 330-332). */
  function ConstructorArgs(req: SsdRequest): (args: SsdArgs)
    ensures args.pretrained == (!req.pretrained && req.pretrainedBase)
    ensures req.features.Extractor? ==> args.network.None?
    ensures args.network.Some? ==> req.name.Some? && args.network == req.name
    ensures req.features.Outputs? ==> args.network == req.name
    ensures args.(network := None, pretrained := false) ==
      SsdArgs(None, req.baseSize, req.features, req.filters, req.sizes, req.ratios, req.steps,
              req.classes, req.options.globalPool, false, req.options.nms, req.options.anchorAllocSize)
  {
    var pretrainedBase := if req.pretrained then false else req.pretrainedBase;
    var baseName := if req.features.Extractor? then None else req.name;
    SsdArgs(baseName, req.baseSize, req.features, req.filters, req.sizes, req.ratios, req.steps,
            req.classes, req.options.globalPool, pretrainedBase, req.options.nms, req.options.anchorAllocSize)
  }

  /** `get_ssd` (lines 274-339). `channels` and `depth` stand for the feature
      extractor's channel list and the anchor generators' depth, both external. */
  function GetSsd(req: SsdRequest, channels: seq<nat>, depth: AnchorDepth): (r: Result<Detector, FactoryError>)
    ensures var b := Build(ConstructorArgs(req), channels, depth);
      && (b.Err? ==> r == Err(Config(b.error)))
      && (b.Ok? && req.pretrained && (req.name.None? || req.dataset.None?) ==> r == Err(JoinOfNone))
      && (r.Ok? <==> b.Ok? && (req.pretrained ==> req.name.Some? && req.dataset.Some?))
      && (r.Ok? ==> r.value.net == b.value)
    ensures r.Ok? ==> r.value.net.pretrainedBase == (!req.pretrained && req.pretrainedBase)
    ensures r.Ok? ==> (r.value.weights.Some? <==> req.pretrained)
    ensures r.Ok? && req.pretrained ==> BaseSizeOf(r.value.weights.value) == Some(req.baseSize)
    ensures r.Ok? && req.pretrained ==> r.value.weights == Some(WeightName(req.baseSize, req.name.value, req.dataset.value))
  {
    match Build(ConstructorArgs(req), channels, depth)
    case Err(e) => Err(Config(e))
    case Ok(net) =>
      if !req.pretrained then Ok(Detector(net, None))
      else if req.name.None? || req.dataset.None? then Err(JoinOfNone)
      else
        BaseSizeOfWeightName(req.baseSize, req.name.value, req.dataset.value);
        Ok(Detector(net, Some(WeightName(req.baseSize, req.name.value, req.dataset.value))))
  }

  /** The eight preset detectors (lines 342-579). */
  datatype Preset =
    | Ssd300Vgg16AtrousVoc
    | Ssd300Vgg16AtrousCoco
    | Ssd512Vgg16AtrousVoc
    | Ssd512Vgg16AtrousCoco
    | Ssd512Resnet50V1Voc
    | Ssd512Resnet50V1Coco
    | Ssd512Mobilenet10Voc
    | Ssd512Mobilenet10Coco
  {
    /** Whether the preset uses the ready-made VGG extractor (`features` a callable). */
    predicate IsVgg() {
      this in {Ssd300Vgg16AtrousVoc, Ssd300Vgg16AtrousCoco, Ssd512Vgg16AtrousVoc, Ssd512Vgg16AtrousCoco}
    }
  }

  const Small: seq<real> := [1.0, 2.0, 0.5]
  const Wide: seq<real> := [1.0, 2.0, 0.5, 3.0, 1.0 / 3.0]

  /** `[[1, 2, 0.5]] + [[1, 2, 0.5, 3, 1.0 / 3]] * wide + [[1, 2, 0.5]] * 2`. */
  function PresetRatios(wide: nat): (ls: seq<seq<real>>)
    ensures |ls| == wide + 3
    ensures ls[0] == Small && ls[wide + 1] == Small && ls[wide + 2] == Small
    ensures forall i | 1 <= i <= wide :: ls[i] == Wide
  {
    var ls := [Small] + Repeat([Wide], wide) + Repeat([Small], 2);
    assert forall i | 1 <= i <= wide :: ls[i] == Repeat([Wide], wide)[i - 1];
    ls
  }

  /** The `get_ssd` call of each preset, with the dataset's class names, the two
      pretrained flags and the constructor keyword arguments passed in. */
  function PresetRequest(p: Preset, classes: seq<string>, pretrained: bool, pretrainedBase: bool, options: SsdOptions): (req: SsdRequest)
    ensures req.classes == classes && req.options == options
    ensures req.pretrained == pretrained && req.pretrainedBase == pretrainedBase
    ensures req.name.Some? && req.dataset.Some?
    ensures req.baseSize == 300 || req.baseSize == 512
  {
    match p
    case Ssd300Vgg16AtrousVoc =>
      SsdRequest(Some("vgg16_atrous"), 300, Extractor, None, [30.0, 60.0, 111.0, 162.0, 213.0, 264.0, 315.0],
        PerLayer(PresetRatios(3)), [8, 16, 32, 64, 100, 300], classes, Some("voc"), pretrained, pretrainedBase, options)
    case Ssd300Vgg16AtrousCoco =>
      SsdRequest(Some("vgg16_atrous"), 300, Extractor, None, [21.0, 45.0, 99.0, 153.0, 207.0, 261.0, 315.0],
        PerLayer(PresetRatios(3)), [8, 16, 32, 64, 100, 300], classes, Some("coco"), pretrained, pretrainedBase, options)
    case Ssd512Vgg16AtrousVoc =>
      SsdRequest(Some("vgg16_atrous"), 512, Extractor, None, [51.2, 76.8, 153.6, 230.4, 307.2, 384.0, 460.8, 537.6],
        PerLayer(PresetRatios(4)), [8, 16, 32, 64, 128, 256, 512], classes, Some("voc"), pretrained, pretrainedBase, options)
    case Ssd512Vgg16AtrousCoco =>
      SsdRequest(Some("vgg16_atrous"), 512, Extractor, None, [51.2, 76.8, 153.6, 230.4, 307.2, 384.0, 460.8, 537.6],
        PerLayer(PresetRatios(4)), [8, 16, 32, 64, 128, 256, 512], classes, Some("coco"), pretrained, pretrainedBase, options)
    case Ssd512Resnet50V1Voc =>
      SsdRequest(Some("resnet50_v1"), 512, Outputs(2), Some([2048, 512, 512, 256, 256]),
        [51.2, 102.4, 189.4, 276.4, 363.52, 450.6, 492.0],
        PerLayer(PresetRatios(3)), [16, 32, 64, 128, 256, 512], classes, Some("voc"), pretrained, pretrainedBase, options)
    case Ssd512Resnet50V1Coco =>
      SsdRequest(Some("resnet50_v1"), 512, Outputs(2), Some([2048, 512, 512, 256, 256]),
        [51.2, 133.12, 215.04, 296.96, 378.88, 460.8, 542.72],
        PerLayer(PresetRatios(3)), [16, 32, 64, 128, 256, 512], classes, Some("coco"), pretrained, pretrainedBase, options)
    case Ssd512Mobilenet10Voc =>
      SsdRequest(Some("mobilenet1.0"), 512, Outputs(2), Some([1024, 512, 512, 256, 256]),
        [51.2, 102.4, 189.4, 276.4, 363.52, 450.6, 492.0],
        PerLayer(PresetRatios(3)), [16, 32, 64, 128, 256, 512], classes, Some("voc"), pretrained, pretrainedBase, options)
    case Ssd512Mobilenet10Coco =>
      SsdRequest(Some("mobilenet1.0"), 512, Outputs(2), Some([1024, 512, 512, 256, 256]),
        [51.2, 102.4, 189.4, 276.4, 363.52, 450.6, 492.0],
        PerLayer(PresetRatios(3)), [16, 32, 64, 128, 256, 512], classes, Some("coco"), pretrained, pretrainedBase, options)
  }

  /** Every preset's tables agree: one more size than ratio lists, and as many
      steps as ratio lists. The VGG presets hand over a ready extractor; the others
      tap two outputs of their base network and append five layers. */
  lemma PresetTablesConsistent(p: Preset, classes: seq<string>, pretrained: bool, pretrainedBase: bool, options: SsdOptions)
    ensures var req := PresetRequest(p, classes, pretrained, pretrainedBase, options);
      && req.ratios.PerLayer?
      && |req.sizes| == |req.ratios.lists| + 1 == |req.steps| + 1
      && (p.IsVgg() ==> req.features == Extractor)
      && (!p.IsVgg() ==> req.features == Outputs(2) && req.filters.Some? && |req.filters.value| == 5 && |req.steps| == 6)
  {
  }

  /** A preset's constructor call succeeds exactly when its layer count matches its
      tables: always for the VGG presets, and for the others only without the extra
      global-pool layer. It then has one layer per step. */
  lemma PresetConstructs(p: Preset, classes: seq<string>, pretrained: bool, pretrainedBase: bool, options: SsdOptions, channels: seq<nat>, depth: AnchorDepth)
    ensures var req := PresetRequest(p, classes, pretrained, pretrainedBase, options);
      var b := Build(ConstructorArgs(req), channels, depth);
      && (b.Ok? <==> p.IsVgg() || !options.globalPool)
      && (b.Err? ==> b.error == SizesMismatch)
      && (b.Ok? ==> b.value.numLayers == |req.steps|)
  {
    var req := PresetRequest(p, classes, pretrained, pretrainedBase, options);
    PresetTablesConsistent(p, classes, pretrained, pretrainedBase, options);
    var args := ConstructorArgs(req);
    if p.IsVgg() {
      assert args.network.None?;
      assert NumLayers(args) == Ok(|req.ratios.lists|);
      assert Build(args, channels, depth).Ok?;
    } else {
      assert args.network.Some? && args.features == Outputs(2) && |args.filters.value| == 5;
      if options.globalPool {
        assert NumLayers(args) == Ok(7);
        assert Build(args, channels, depth) == Err(SizesMismatch);
      } else {
        assert NumLayers(args) == Ok(6);
        assert Build(args, channels, depth).Ok?;
      }
    }
  }

  /** A preset builds exactly when its layer count matches its tables: always for
      the VGG presets, and for the others only without the extra global-pool layer.
      It then has one layer per step, and pretrained weights can always be named. */
  lemma PresetBuilds(p: Preset, classes: seq<string>, pretrained: bool, pretrainedBase: bool, options: SsdOptions, channels: seq<nat>, depth: AnchorDepth)
    ensures var r := GetSsd(PresetRequest(p, classes, pretrained, pretrainedBase, options), channels, depth);
      && (r.Ok? <==> p.IsVgg() || !options.globalPool)
      && (r.Err? ==> r.error == Config(SizesMismatch))
      && (r.Ok? ==> r.value.net.numLayers == |PresetRequest(p, classes, pretrained, pretrainedBase, options).steps|)
  {
    PresetConstructs(p, classes, pretrained, pretrainedBase, options, channels, depth);
  }

  lemma DecimalForms()
    ensures IntToString(300) == "300" && IntToString(512) == "512"
  {
    assert DigitChar(3) == '3' && DigitChar(0) == '0' && DigitChar(5) == '5';
    assert DigitChar(1) == '1' && DigitChar(2) == '2';
    assert NatToString(30) == NatToString(3) + "0";
    assert NatToString(51) == NatToString(5) + "1";
  }

  /** The base size (in decimal), base network and dataset each preset names in
      its `get_ssd` call. */
  function PresetIdentity(p: Preset): (string, string, string)
  {
    match p
    case Ssd300Vgg16AtrousVoc => ("300", "vgg16_atrous", "voc")
    case Ssd300Vgg16AtrousCoco => ("300", "vgg16_atrous", "coco")
    case Ssd512Vgg16AtrousVoc => ("512", "vgg16_atrous", "voc")
    case Ssd512Vgg16AtrousCoco => ("512", "vgg16_atrous", "coco")
    case Ssd512Resnet50V1Voc => ("512", "resnet50_v1", "voc")
    case Ssd512Resnet50V1Coco => ("512", "resnet50_v1", "coco")
    case Ssd512Mobilenet10Voc => ("512", "mobilenet1.0", "voc")
    case Ssd512Mobilenet10Coco => ("512", "mobilenet1.0", "coco")
  }

  /** The weight file a preset loads when `pretrained=True`: its identity joined
      with underscores behind `ssd`. */
  function PresetWeightFile(p: Preset): string
  {
    var (digits, network, dataset) := PresetIdentity(p);
    "ssd_" + digits + "_" + network + "_" + dataset
  }

  /** A preset built with `pretrained=True` loads the weight file named after it. */
  lemma PresetWeightNames(p: Preset, classes: seq<string>, pretrainedBase: bool, options: SsdOptions, channels: seq<nat>, depth: AnchorDepth)
    ensures var r := GetSsd(PresetRequest(p, classes, true, pretrainedBase, options), channels, depth);
      r.Ok? ==> r.value.weights == Some(PresetWeightFile(p))
  {
    var req := PresetRequest(p, classes, true, pretrainedBase, options);
    PresetIdentityOf(p, classes, true, pretrainedBase, options);
    WeightNameSpelled(req.baseSize, PresetIdentity(p).0, req.name.value, req.dataset.value);
  }

  /** A preset's request carries the base size, base network and dataset of its
      identity. */
  lemma PresetIdentityOf(p: Preset, classes: seq<string>, pretrained: bool, pretrainedBase: bool, options: SsdOptions)
    ensures var req := PresetRequest(p, classes, pretrained, pretrainedBase, options);
      var (digits, network, dataset) := PresetIdentity(p);
      IntToString(req.baseSize) == digits && req.name == Some(network) && req.dataset == Some(dataset)
  {
    DecimalForms();
  }

  /** A weight file spelled out: the base network's own dot stays in the name. */
  lemma PresetWeightFiles()
    ensures PresetWeightFile(Ssd512Mobilenet10Voc) == "ssd_512_mobilenet1.0_voc"
  {
  }

  lemma WeightNameSpelled(baseSize: int, digits: string, name: string, dataset: string)
    requires IntToString(baseSize) == digits
    ensures WeightName(baseSize, name, dataset) == "ssd_" + digits + "_" + name + "_" + dataset
  {
  }

  /** A flat ratio list of three numbers for six tapped layers is repeated into
      eighteen numbers, so the layer check of line 117 fails. */
  lemma FlatRatiosNotPropagated(channels: seq<nat>, depth: AnchorDepth)
    ensures var args := SsdArgs(Some("resnet50_v1"), 512, Outputs(2), Some([2048, 512, 512, 256, 256]),
        [51.2, 102.4, 189.4, 276.4, 363.52, 450.6, 492.0], Flat(Small), [16, 32, 64, 128, 256, 512],
        [], false, false, DefaultOptions.nms, 128);
      |BroadcastRatios(args.ratios, 6)| == 18 && Build(args, channels, depth) == Err(LayersMismatch)
  {
  }
}
