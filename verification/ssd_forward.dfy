/** The inference branch of the SSD forward pass: decoded boxes and per-class
    (id, score) pairs are laid out as 6-column rows `[id, score, x1, y1, x2, y2]`,
    class-major along the anchor axis; suppression runs only for a threshold
    strictly between 0 and 1, and only then is the result truncated to `post_nms`
    rows; finally the columns are split back out. The decoders and the suppression
    itself are external and appear only through shape contracts. */
module SsdForward {

  import opened Wrappers
  import opened Seqs
  import opened SsdConfig
  import opened SsdAnchors
  import Arith

  /** The external operators of the forward pass. */
  datatype Ops = Ops(
    anchorGen: AnchorGen,
    /** `NormalizedBoxCenterDecoder(stds)`: (box offsets, anchors) to corner boxes. */
    boxDecoder: (Matrix, Matrix) -> Matrix,
    /** softmax then `MultiPerClassDecoder(K + 1, thresh=0.01)`: class logits to
        per-foreground-class ids and scores. */
    classDecoder: Matrix -> (Matrix, Matrix),
    /** `box_nms(rows, overlap_thresh, topk, score_index=1, coord_start=2, id_index=0)`. */
    nms: (Matrix, real, int) -> Matrix)

  /** The shape-only contracts of the external operators for `k` foreground classes. */
  ghost predicate ShapeContracts(ops: Ops, k: nat) {
    && GeneratesPerCell(ops.anchorGen)
    && (forall p, a {:trigger ops.boxDecoder(p, a)} ::
          IsMatrix(p, |p|, 4) && IsMatrix(a, |p|, 4) ==> IsMatrix(ops.boxDecoder(p, a), |p|, 4))
    && (forall c {:trigger ops.classDecoder(c)} :: IsMatrix(c, |c|, k + 1) ==>
          IsMatrix(ops.classDecoder(c).0, |c|, k) && IsMatrix(ops.classDecoder(c).1, |c|, k))
    && (forall m, t, topk {:trigger ops.nms(m, t, topk)} ::
          IsMatrix(m, |m|, 6) ==> IsMatrix(ops.nms(m, t, topk), |m|, 6))
  }

  /** Line 240: suppression runs only for `0 < nms_thresh < 1`. */
  predicate NmsEnabled(thresh: real) {
    0.0 < thresh < 1.0
  }

  /** The row of class `i` for anchor `a`: `[id, score] + box`. */
  function DetectionRow(ids: Matrix, scores: Matrix, boxes: Matrix, i: nat, a: nat): seq<real>
    requires a < |ids| && a < |scores| && a < |boxes|
    requires i < |ids[a]| && i < |scores[a]|
  {
    [ids[a][i], scores[a][i]] + boxes[a]
  }

  /** Class `i`'s block of rows: one row per anchor, in anchor order. */
  function ClassBlocks(ids: Matrix, scores: Matrix, boxes: Matrix, k: nat): (blocks: seq<Matrix>)
    requires IsMatrix(ids, |ids|, k) && IsMatrix(scores, |ids|, k) && IsMatrix(boxes, |ids|, 4)
    ensures |blocks| == k
    ensures forall i | 0 <= i < k :: IsMatrix(blocks[i], |ids|, 6)
  {
    seq(k, i requires 0 <= i < k =>
      seq(|ids|, a requires 0 <= a < |ids| => DetectionRow(ids, scores, boxes, i, a)))
  }

  /** Lines 233-239: one block of rows per foreground class, each block holding
      every anchor in order, the blocks concatenated along the anchor axis; with
      no foreground class the list handed to `torch.cat` is empty. */
  function Assemble(ids: Matrix, scores: Matrix, boxes: Matrix, k: nat): (r: Result<Matrix, TensorError>)
    requires IsMatrix(ids, |ids|, k) && IsMatrix(scores, |ids|, k) && IsMatrix(boxes, |ids|, 4)
    ensures r.Err? <==> k == 0
    ensures r.Err? ==> r.error == EmptyConcat
    ensures r.Ok? ==> IsMatrix(r.value, k * |ids|, 6)
  {
    if k == 0 then Err(EmptyConcat)
    else
      var blocks := ClassBlocks(ids, scores, boxes, k);
      FlattenMatrix(blocks, |ids|, 6);
      Ok(Flatten(blocks))
  }

  /** Row `i * N + a` of the assembly is class `i` of anchor `a`: `[id, score] + box`. */
  lemma AssembleRowLayout(ids: Matrix, scores: Matrix, boxes: Matrix, k: nat, i: nat, a: nat)
    requires IsMatrix(ids, |ids|, k) && IsMatrix(scores, |ids|, k) && IsMatrix(boxes, |ids|, 4)
    requires i < k && a < |ids|
    ensures Assemble(ids, scores, boxes, k).Ok?
    ensures i * |ids| + a < |Assemble(ids, scores, boxes, k).value|
    ensures Assemble(ids, scores, boxes, k).value[i * |ids| + a] == [ids[a][i], scores[a][i]] + boxes[a]
  {
    var blocks := ClassBlocks(ids, scores, boxes, k);
    FlattenAt(blocks, |ids|, i, a);
    assert blocks[i][a] == DetectionRow(ids, scores, boxes, i, a);
  }

  /** Conversely, every assembled row `j` is class `j / N` of anchor `j % N`. */
  lemma AssembleRowOrigin(ids: Matrix, scores: Matrix, boxes: Matrix, k: nat, j: nat)
    requires IsMatrix(ids, |ids|, k) && IsMatrix(scores, |ids|, k) && IsMatrix(boxes, |ids|, 4)
    requires Assemble(ids, scores, boxes, k).Ok? && j < |Assemble(ids, scores, boxes, k).value|
    ensures |ids| > 0 && j / |ids| < k
    ensures Assemble(ids, scores, boxes, k).value[j] == DetectionRow(ids, scores, boxes, j / |ids|, j % |ids|)
  {
    var n := |ids|;
    assert j < k * n;
    Arith.RowOfIndex(j, n, k);
    var i, a := j / n, j % n;
    AssembleRowLayout(ids, scores, boxes, k, i, a);
  }

  /** The three column groups of a 6-column result (lines 245-247). */
  datatype Columns = Columns(ids: seq<real>, scores: seq<real>, boxes: Matrix)

  /** Splits 6-column rows into ids (column 0), scores (column 1) and boxes (2..5). */
  function SplitColumns(rows: Matrix): (c: Columns)
    requires IsMatrix(rows, |rows|, 6)
    ensures |c.ids| == |c.scores| == |c.boxes| == |rows|
    ensures IsMatrix(c.boxes, |rows|, 4)
  {
    Columns(
      seq(|rows|, j requires 0 <= j < |rows| => rows[j][0]),
      seq(|rows|, j requires 0 <= j < |rows| => rows[j][1]),
      seq(|rows|, j requires 0 <= j < |rows| => rows[j][2..6]))
  }

  /** Reassembles rows from the three column groups. */
  function JoinColumns(c: Columns): Matrix
    requires |c.ids| == |c.scores| == |c.boxes|
  {
    seq(|c.ids|, j requires 0 <= j < |c.ids| => [c.ids[j], c.scores[j]] + c.boxes[j])
  }

  /** Splitting loses nothing: the columns put back together are the rows, and the
      rows split again are the columns. */
  lemma SplitJoinRoundTrip(rows: Matrix, c: Columns)
    requires IsMatrix(rows, |rows|, 6)
    requires |c.ids| == |c.scores| == |c.boxes| && IsMatrix(c.boxes, |c.boxes|, 4)
    ensures JoinColumns(SplitColumns(rows)) == rows
    ensures SplitColumns(JoinColumns(c)) == c
  {
    var j1 := JoinColumns(SplitColumns(rows));
    forall j | 0 <= j < |rows|
      ensures j1[j] == rows[j]
    {
      assert j1[j] == [rows[j][0], rows[j][1]] + rows[j][2..6];
    }
    var s := SplitColumns(JoinColumns(c));
    var joined := JoinColumns(c);
    forall j | 0 <= j < |c.ids|
      ensures s.boxes[j] == c.boxes[j]
    {
      assert joined[j][2..6] == c.boxes[j];
    }
  }

  /** Lines 240-244 on one image's rows: suppression when enabled, then truncation
      to the first `post_nms` rows when `post_nms > 0`; `narrow` refuses a length
      beyond the row count. */
  function PostProcess(rows: Matrix, p: NmsParams, nms: (Matrix, real, int) -> Matrix): (r: Result<Matrix, TensorError>)
    requires IsMatrix(rows, |rows|, 6)
    requires IsMatrix(nms(rows, p.thresh, p.topk), |rows|, 6)
    ensures !NmsEnabled(p.thresh) ==> r == Ok(rows)
    ensures NmsEnabled(p.thresh) && p.postNms <= 0 ==> r == Ok(nms(rows, p.thresh, p.topk))
    ensures NmsEnabled(p.thresh) && 0 < p.postNms <= |rows| ==> r == Ok(nms(rows, p.thresh, p.topk)[..p.postNms])
    ensures r.Err? <==> NmsEnabled(p.thresh) && p.postNms > |rows| && p.postNms > 0
    ensures r.Ok? ==> IsMatrix(r.value, if NmsEnabled(p.thresh) && p.postNms > 0 then p.postNms else |rows|, 6)
  {
    if NmsEnabled(p.thresh) then
      var kept := nms(rows, p.thresh, p.topk);
      if p.postNms > 0 then
        if p.postNms > |kept| then Err(NarrowOutOfRange) else Ok(kept[..p.postNms])
      else Ok(kept)
    else Ok(rows)
  }

  /** With suppression disabled, neither `nms_topk` nor `post_nms` has any effect:
      every assembled row comes back unchanged. */
  lemma PostNmsOnlyWhenEnabled(rows: Matrix, p: NmsParams, q: NmsParams, nms: (Matrix, real, int) -> Matrix)
    requires IsMatrix(rows, |rows|, 6)
    requires IsMatrix(nms(rows, p.thresh, p.topk), |rows|, 6)
    requires IsMatrix(nms(rows, q.thresh, q.topk), |rows|, 6)
    requires !NmsEnabled(p.thresh) && !NmsEnabled(q.thresh)
    ensures PostProcess(rows, p, nms) == PostProcess(rows, q, nms) == Ok(rows)
  {
  }

  /** One image's assembled rows from its predictions and the shared anchors. */
  function ImageRows(k: nat, anchors: Matrix, cls: Matrix, box: Matrix, ops: Ops): (r: Result<Matrix, TensorError>)
    requires ShapeContracts(ops, k)
    requires IsMatrix(anchors, |anchors|, 4)
    requires IsMatrix(cls, |anchors|, k + 1) && IsMatrix(box, |anchors|, 4)
    ensures r.Err? <==> k == 0
    ensures r.Err? ==> r.error == EmptyConcat
    ensures r.Ok? ==> IsMatrix(r.value, k * |anchors|, 6)
  {
    var boxes := ops.boxDecoder(box, anchors);
    var decoded := ops.classDecoder(cls);
    Assemble(decoded.0, decoded.1, boxes, k)
  }

  /** One image's output columns: its assembled rows post-processed, then split. */
  function ImageColumns(k: nat, anchors: Matrix, cls: Matrix, box: Matrix, ops: Ops, p: NmsParams): (c: Columns)
    requires ShapeContracts(ops, k) && k > 0
    requires IsMatrix(anchors, |anchors|, 4)
    requires IsMatrix(cls, |anchors|, k + 1) && IsMatrix(box, |anchors|, 4)
    requires !(NmsEnabled(p.thresh) && p.postNms > 0 && p.postNms > k * |anchors|)
    ensures var m := if NmsEnabled(p.thresh) && p.postNms > 0 then p.postNms else k * |anchors|;
      |c.ids| == m && |c.scores| == m && IsMatrix(c.boxes, m, 4)
    ensures PostProcess(ImageRows(k, anchors, cls, box, ops).value, p, ops.nms) == Ok(JoinColumns(c))
  {
    var rows := PostProcess(ImageRows(k, anchors, cls, box, ops).value, p, ops.nms).value;
    var c := SplitColumns(rows);
    SplitJoinRoundTrip(rows, c);
    c
  }

  /** The inference branch of `forward` (lines 213-248) over a batch. `shapes` are
      the feature maps' spatial sizes, `cls` and `box` each image's flattened class
      logits and box offsets (produced by the external backbone and predictors).
      The pass fails, in the order the code reaches the failures, when `zip`
      pairs up no layer (`torch.cat` of an empty list, lines 215-221), when the
      batch holds no image (`view((0, -1, K + 1))` cannot infer its `-1`, line
      221), when there is no foreground class (`torch.cat` of an empty list, line
      239), or when `post_nms` exceeds the rows (line 244); otherwise each image's
      output columns, joined back into rows, are its post-processed rows. */
  function Forward(net: Ssd, shapes: seq<FeatureShape>, cls: seq<Matrix>, box: seq<Matrix>, ops: Ops): (r: Result<seq<Columns>, TensorError>)
    requires ShapeContracts(ops, |net.classes|)
    requires |cls| == |box|
    requires forall b | 0 <= b < |cls| ::
      var n := AnchorCount(net.heads, shapes);
      IsMatrix(cls[b], n, |net.classes| + 1) && IsMatrix(box[b], n, 4)
    ensures var k, n := |net.classes|, AnchorCount(net.heads, shapes);
      var noLayer := |net.heads| == 0 || |shapes| == 0;
      && (r.Err? <==> noLayer || |cls| == 0 || k == 0
                      || (NmsEnabled(net.nms.thresh) && net.nms.postNms > 0 && net.nms.postNms > k * n))
      && (noLayer ==> r == Err(EmptyConcat))
      && (!noLayer && |cls| == 0 ==> r == Err(EmptyBatchView))
      && (!noLayer && |cls| > 0 && k == 0 ==> r == Err(EmptyConcat))
      && (r.Err? && !noLayer && |cls| > 0 && k > 0 ==> r == Err(NarrowOutOfRange))
    ensures r.Ok? ==> |r.value| == |cls|
    ensures r.Ok? ==>
      var k, n := |net.classes|, AnchorCount(net.heads, shapes);
      var m := if NmsEnabled(net.nms.thresh) && net.nms.postNms > 0 then net.nms.postNms else k * n;
      forall b | 0 <= b < |cls| ::
        |r.value[b].ids| == m && |r.value[b].scores| == m && IsMatrix(r.value[b].boxes, m, 4)
    ensures r.Ok? ==>
      var anchors := ConcatAnchors(net.heads, shapes, ops.anchorGen);
      && anchors.Ok?
      && forall b | 0 <= b < |cls| ::
        && ImageRows(|net.classes|, anchors.value, cls[b], box[b], ops).Ok?
        && |r.value[b].ids| == |r.value[b].scores| == |r.value[b].boxes|
        && PostProcess(ImageRows(|net.classes|, anchors.value, cls[b], box[b], ops).value, net.nms, ops.nms)
             == Ok(JoinColumns(r.value[b]))
  {
    var k := |net.classes|;
    if |net.heads| == 0 || |shapes| == 0 then Err(EmptyConcat)
    else if |cls| == 0 then Err(EmptyBatchView)
    else if k == 0 then Err(EmptyConcat)
    else
      var anchors := ConcatAnchors(net.heads, shapes, ops.anchorGen).value;
      var n := |anchors|;
      if NmsEnabled(net.nms.thresh) && net.nms.postNms > 0 && net.nms.postNms > k * n then
        Err(NarrowOutOfRange)
      else
        Ok(seq(|cls|, b requires 0 <= b < |cls| => ImageColumns(k, anchors, cls[b], box[b], ops, net.nms)))
  }

  /** When the pass succeeds, image `b`'s output depends on that image's predictions
      and the shared anchors alone. */
  lemma ForwardImage(net: Ssd, shapes: seq<FeatureShape>, cls: seq<Matrix>, box: seq<Matrix>, ops: Ops, b: nat)
    requires ShapeContracts(ops, |net.classes|)
    requires |cls| == |box|
    requires forall b | 0 <= b < |cls| ::
      var n := AnchorCount(net.heads, shapes);
      IsMatrix(cls[b], n, |net.classes| + 1) && IsMatrix(box[b], n, 4)
    requires b < |cls|
    requires Forward(net, shapes, cls, box, ops).Ok?
    ensures ConcatAnchors(net.heads, shapes, ops.anchorGen).Ok?
    ensures var anchors := ConcatAnchors(net.heads, shapes, ops.anchorGen).value;
      && |net.classes| > 0
      && IsMatrix(cls[b], |anchors|, |net.classes| + 1) && IsMatrix(box[b], |anchors|, 4)
      && !(NmsEnabled(net.nms.thresh) && net.nms.postNms > 0 && net.nms.postNms > |net.classes| * |anchors|)
      && Forward(net, shapes, cls, box, ops).value[b]
           == ImageColumns(|net.classes|, anchors, cls[b], box[b], ops, net.nms)
  {
  }

  /** With suppression disabled, output row `i * N + a` of every image holds class
      `i`'s decoded id and score for anchor `a` and that anchor's decoded box. */
  lemma ForwardRowLayout(net: Ssd, shapes: seq<FeatureShape>, cls: seq<Matrix>, box: seq<Matrix>, ops: Ops, b: nat, i: nat, a: nat)
    requires ShapeContracts(ops, |net.classes|)
    requires |cls| == |box|
    requires forall b | 0 <= b < |cls| ::
      var n := AnchorCount(net.heads, shapes);
      IsMatrix(cls[b], n, |net.classes| + 1) && IsMatrix(box[b], n, 4)
    requires !NmsEnabled(net.nms.thresh)
    requires b < |cls| && i < |net.classes| && a < AnchorCount(net.heads, shapes)
    ensures Forward(net, shapes, cls, box, ops).Ok?
    ensures var out := Forward(net, shapes, cls, box, ops).value[b];
      var anchors := ConcatAnchors(net.heads, shapes, ops.anchorGen).value;
      var decoded := ops.classDecoder(cls[b]);
      var j := i * |anchors| + a;
      && j < |out.ids|
      && out.ids[j] == decoded.0[a][i]
      && out.scores[j] == decoded.1[a][i]
      && out.boxes[j] == ops.boxDecoder(box[b], anchors)[a]
  {
    var k := |net.classes|;
    assert |net.heads| > 0 && |shapes| > 0;
    ForwardImage(net, shapes, cls, box, ops, b);
    var anchors := ConcatAnchors(net.heads, shapes, ops.anchorGen).value;
    var decoded := ops.classDecoder(cls[b]);
    var boxes := ops.boxDecoder(box[b], anchors);
    var rows := ImageRows(k, anchors, cls[b], box[b], ops).value;
    var out := ImageColumns(k, anchors, cls[b], box[b], ops, net.nms);
    assert JoinColumns(out) == rows;
    AssembleRowLayout(decoded.0, decoded.1, boxes, k, i, a);
    var j := i * |anchors| + a;
    assert rows[j] == [decoded.0[a][i], decoded.1[a][i]] + boxes[a];
    assert JoinColumns(out)[j] == [out.ids[j], out.scores[j]] + out.boxes[j];
  }
}
