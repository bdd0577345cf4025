/** The SSD anchor layout: the square feature-grid sizes `anchors()` feeds to the
    anchor generators, and the concatenation of the per-layer anchors. The
    generators themselves are external and appear only through a shape contract. */
module SsdAnchors {

  import opened Wrappers
  import opened Seqs
  import opened SsdConfig

  /** Spatial size of one feature map. */
  datatype FeatureShape = FeatureShape(height: nat, width: nat)

  /** One anchor generator's forward pass: the anchors of a layer for a feature map
      of the given shape, one row of four coordinates per anchor. */
  type AnchorGen = (Head, FeatureShape) -> Matrix

  /** The shape contract of the anchor generators: `depth` anchors per cell. */
  ghost predicate GeneratesPerCell(gen: AnchorGen) {
    forall h, f {:trigger gen(h, f)} :: IsMatrix(gen(h, f), f.height * f.width * h.numAnchors, 4)
  }

  /** Python's `math.ceil` on a real. */
  function Ceil(x: real): int {
    -((-x).Floor)
  }

  lemma CeilBounds(x: real)
    ensures Ceil(x) as real - 1.0 < x <= Ceil(x) as real
  {
  }

  /** Halving keeps the ceiling strictly smaller once `s >= 2`. */
  lemma CeilHalfSmaller(s: real)
    requires s >= 2.0
    ensures Ceil(s / 2.0) < Ceil(s)
  {
    CeilBounds(s);
    CeilBounds(s / 2.0);
  }

  /** The grid sizes from a scale `s` on: `ceil(s)` while `s // 2 > 0`, halving `s`
      each time, and a final 1. */
  function GridSizesFrom(s: real): (r: seq<nat>)
    ensures |r| >= 1
    decreases s.Floor
  {
    if (s / 2.0).Floor > 0 then [Ceil(s)] + GridSizesFrom(s / 2.0) else [1]
  }

  /** The grid list ends in 1, starts at `ceil(s)` once `s >= 2`, and strictly
      decreases, so every entry is at least 1. */
  lemma {:induction false} GridSizesShape(s: real)
    ensures var r := GridSizesFrom(s);
      && |r| >= 1 && r[|r| - 1] == 1
      && r[0] == (if s >= 2.0 then Ceil(s) else 1)
      && (forall i | 0 <= i < |r| - 1 :: r[i] > r[i + 1])
      && (forall i | 0 <= i < |r| :: r[i] >= 1)
    decreases s.Floor
  {
    var r := GridSizesFrom(s);
    if (s / 2.0).Floor > 0 {
      var rest := GridSizesFrom(s / 2.0);
      GridSizesShape(s / 2.0);
      CeilHalfSmaller(s);
      assert r == [Ceil(s)] + rest;
      assert r[1] == rest[0];
      forall i | 0 <= i < |r| - 1
        ensures r[i] > r[i + 1]
      {
        if i > 0 {
          assert r[i] == rest[i - 1] && r[i + 1] == rest[i];
        }
      }
      forall i | 0 <= i < |r|
        ensures r[i] >= 1
      {
        if i > 0 {
          assert r[i] == rest[i - 1];
        }
      }
    }
  }

  /** One step of the grid-size recursion, and its end. */
  lemma GridStep(s: real)
    ensures (s / 2.0).Floor > 0 ==>
      GridSizesFrom(s) == [Ceil(s)] + GridSizesFrom(s / 2.0) && 0 <= (s / 2.0).Floor < s.Floor
    ensures (s / 2.0).Floor <= 0 ==> GridSizesFrom(s) == [1]
  {
  }

  /** `anchors()` (lines 177-181) as a loop: the grids start at `base_size / 8`. */
  method AnchorGridSizes(baseSize: int) returns (grids: seq<nat>)
    ensures grids == GridSizesFrom(baseSize as real / 8.0)
    ensures |grids| >= 1 && grids[|grids| - 1] == 1
  {
    var s := baseSize as real / 8.0;
    grids := [];
    while (s / 2.0).Floor > 0
      invariant grids + GridSizesFrom(s) == GridSizesFrom(baseSize as real / 8.0)
      decreases s.Floor
    {
      GridStep(s);
      assert grids + GridSizesFrom(s) == (grids + [Ceil(s)]) + GridSizesFrom(s / 2.0);
      grids := grids + [Ceil(s)];
      s := s / 2.0;
    }
    GridStep(s);
    grids := grids + [1];
  }

  /** The grid sizes of the two base sizes the presets use. */
  lemma PresetGridSizes()
    ensures GridSizesFrom(300 as real / 8.0) == [38, 19, 10, 5, 3, 1]
    ensures GridSizesFrom(512 as real / 8.0) == [64, 32, 16, 8, 4, 2, 1]
  {
    GridStep(1.171875);
    GridStep(2.34375);
    GridStep(4.6875);
    GridStep(9.375);
    GridStep(18.75);
    GridStep(37.5);
    GridStep(1.0);
    GridStep(2.0);
    GridStep(4.0);
    GridStep(8.0);
    GridStep(16.0);
    GridStep(32.0);
    GridStep(64.0);
  }

  /** Anchors one layer contributes on its grid. */
  function LayerAnchorCount(h: Head, f: FeatureShape): nat {
    f.height * f.width * h.numAnchors
  }

  /** Total anchors over the layers `zip` pairs up. */
  function AnchorCount(heads: seq<Head>, shapes: seq<FeatureShape>): nat
    decreases |heads|
  {
    if |heads| == 0 || |shapes| == 0 then 0
    else LayerAnchorCount(heads[0], shapes[0]) + AnchorCount(heads[1..], shapes[1..])
  }

  /** The tensor-library failures of the forward pass: `torch.cat` of an empty
      list, `view` with an inferred `-1` dimension on a batch of no images (the
      size it would infer is ambiguous), and `narrow` to more rows than there are. */
  datatype TensorError = EmptyConcat | EmptyBatchView | NarrowOutOfRange

  /** Every zipped layer's anchors, layer after layer (empty when nothing is zipped). */
  function StackLayers(heads: seq<Head>, shapes: seq<FeatureShape>, gen: AnchorGen): (a: Matrix)
    requires GeneratesPerCell(gen)
    ensures IsMatrix(a, AnchorCount(heads, shapes), 4)
    ensures |heads| > 0 && |shapes| > 0 ==> a[..LayerAnchorCount(heads[0], shapes[0])] == gen(heads[0], shapes[0])
    decreases |heads|
  {
    if |heads| == 0 || |shapes| == 0 then []
    else
      var first := gen(heads[0], shapes[0]);
      var a := first + StackLayers(heads[1..], shapes[1..], gen);
      assert a[..|first|] == first;
      a
  }

  /** The anchor count of a non-empty prefix peels off its first layer. */
  lemma AnchorCountPrefix(heads: seq<Head>, shapes: seq<FeatureShape>, j: nat)
    requires 0 < j <= |heads| && j <= |shapes|
    ensures AnchorCount(heads[..j], shapes[..j])
      == LayerAnchorCount(heads[0], shapes[0]) + AnchorCount(heads[1..][..j - 1], shapes[1..][..j - 1])
  {
    assert heads[..j][1..] == heads[1..][..j - 1];
    assert shapes[..j][1..] == shapes[1..][..j - 1];
  }

  /** Layer `i`'s anchors, as the slice between the anchor counts of the first `i`
      and the first `i + 1` layers. */
  predicate LayerAt(heads: seq<Head>, shapes: seq<FeatureShape>, gen: AnchorGen, i: nat)
    requires GeneratesPerCell(gen)
    requires i < |heads| && i < |shapes|
  {
    var a := StackLayers(heads, shapes, gen);
    var lo, hi := AnchorCount(heads[..i], shapes[..i]), AnchorCount(heads[..i + 1], shapes[..i + 1]);
    lo <= hi <= |a| && a[lo..hi] == gen(heads[i], shapes[i])
  }

  /** The first layer opens the stack. */
  lemma LayerAtFirst(heads: seq<Head>, shapes: seq<FeatureShape>, gen: AnchorGen)
    requires GeneratesPerCell(gen)
    requires 0 < |heads| && 0 < |shapes|
    ensures LayerAt(heads, shapes, gen, 0)
  {
    var a := StackLayers(heads, shapes, gen);
    var l0 := LayerAnchorCount(heads[0], shapes[0]);
    AnchorCountPrefix(heads, shapes, 1);
    assert AnchorCount(heads[..0], shapes[..0]) == 0;
    assert AnchorCount(heads[..1], shapes[..1]) == l0;
    assert a[0..l0] == gen(heads[0], shapes[0]);
  }

  /** A later layer's place in the stack is its place in the stack of the tail,
      shifted past the first layer. */
  lemma LayerAtShift(heads: seq<Head>, shapes: seq<FeatureShape>, gen: AnchorGen, i: nat)
    requires GeneratesPerCell(gen)
    requires 0 < i < |heads| && i < |shapes|
    requires LayerAt(heads[1..], shapes[1..], gen, i - 1)
    ensures LayerAt(heads, shapes, gen, i)
  {
    var a := StackLayers(heads, shapes, gen);
    var first := gen(heads[0], shapes[0]);
    var rest := StackLayers(heads[1..], shapes[1..], gen);
    assert a == first + rest;
    var l0 := |first|;
    AnchorCountPrefix(heads, shapes, i);
    AnchorCountPrefix(heads, shapes, i + 1);
    var lo', hi' := AnchorCount(heads[1..][..i - 1], shapes[1..][..i - 1]), AnchorCount(heads[1..][..i], shapes[1..][..i]);
    assert AnchorCount(heads[..i], shapes[..i]) == l0 + lo';
    assert AnchorCount(heads[..i + 1], shapes[..i + 1]) == l0 + hi';
    SliceAfter(first, rest, lo', hi');
  }

  /** Every zipped layer sits in the stack where the anchor counts of the layers
      before it say. */
  lemma {:induction false} StackLayersLayer(heads: seq<Head>, shapes: seq<FeatureShape>, gen: AnchorGen, i: nat)
    requires GeneratesPerCell(gen)
    requires i < |heads| && i < |shapes|
    ensures LayerAt(heads, shapes, gen, i)
    decreases i
  {
    if i == 0 {
      LayerAtFirst(heads, shapes, gen);
    } else {
      StackLayersLayer(heads[1..], shapes[1..], gen, i - 1);
      LayerAtShift(heads, shapes, gen, i);
    }
  }

  /** `torch.cat` of every zipped layer's anchors (lines 184-185): an error when
      `zip` pairs up no layer at all, the layers' anchors in order otherwise. */
  function ConcatAnchors(heads: seq<Head>, shapes: seq<FeatureShape>, gen: AnchorGen): (r: Result<Matrix, TensorError>)
    requires GeneratesPerCell(gen)
    ensures r.Err? <==> |heads| == 0 || |shapes| == 0
    ensures r.Err? ==> r.error == EmptyConcat
    ensures r.Ok? ==> IsMatrix(r.value, AnchorCount(heads, shapes), 4)
  {
    if |heads| == 0 || |shapes| == 0 then Err(EmptyConcat)
    else Ok(StackLayers(heads, shapes, gen))
  }

  /** Layer `i` of the concatenation is exactly that layer's generated anchors,
      placed after the anchors of every earlier layer. */
  lemma ConcatAnchorsLayer(heads: seq<Head>, shapes: seq<FeatureShape>, gen: AnchorGen, i: nat)
    requires GeneratesPerCell(gen)
    requires i < |heads| && i < |shapes|
    ensures ConcatAnchors(heads, shapes, gen).Ok?
    ensures var a := ConcatAnchors(heads, shapes, gen).value;
      var lo, hi := AnchorCount(heads[..i], shapes[..i]), AnchorCount(heads[..i + 1], shapes[..i + 1]);
      lo <= hi <= |a| && a[lo..hi] == gen(heads[i], shapes[i])
  {
    StackLayersLayer(heads, shapes, gen, i);
    assert LayerAt(heads, shapes, gen, i);
  }

  /** The anchors of `anchors()`: every layer on its square grid of `GridSizesFrom`.
      The grid list is never empty, so this fails exactly when there is no head. */
  function Anchors(net: Ssd, gen: AnchorGen): (r: Result<Matrix, TensorError>)
    requires GeneratesPerCell(gen)
    ensures r.Err? <==> |net.heads| == 0
    ensures r.Ok? ==> IsMatrix(r.value, AnchorCount(net.heads, SquareShapes(GridSizesFrom(net.baseSize as real / 8.0))), 4)
  {
    ConcatAnchors(net.heads, SquareShapes(GridSizesFrom(net.baseSize as real / 8.0)), gen)
  }

  function SquareShapes(grids: seq<nat>): seq<FeatureShape> {
    seq(|grids|, i requires 0 <= i < |grids| => FeatureShape(grids[i], grids[i]))
  }
}
