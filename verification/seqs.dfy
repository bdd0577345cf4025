/** Sequence operations shared by the SSD and Mask R-CNN models: concatenation of
    blocks, Python list repetition, `torch.split` into fixed-size chunks, and
    row-major matrices of reals standing in for 2-d tensors. */
module Seqs {

  import Arith

  /** A 2-d tensor of reals, row-major. */
  type Matrix = seq<seq<real>>

  /** `m` has exactly `rows` rows of `cols` entries each. */
  predicate IsMatrix(m: Matrix, rows: nat, cols: nat) {
    |m| == rows && forall i | 0 <= i < |m| :: |m[i]| == cols
  }

  function Min(a: int, b: int): int {
    if a <= b then a else b
  }

  function Max(a: int, b: int): int {
    if a >= b then a else b
  }

  /** Concatenation of the blocks, in order (`torch.cat` along the leading axis). */
  function Flatten<T>(blocks: seq<seq<T>>): seq<T> {
    if |blocks| == 0 then [] else blocks[0] + Flatten(blocks[1..])
  }

  lemma {:induction false} FlattenLength<T>(blocks: seq<seq<T>>, w: nat)
    requires forall i | 0 <= i < |blocks| :: |blocks[i]| == w
    ensures |Flatten(blocks)| == |blocks| * w
  {
    if |blocks| > 0 {
      FlattenLength(blocks[1..], w);
      assert |blocks| * w == w + |blocks[1..]| * w;
    }
  }

  lemma {:induction false} FlattenAt<T>(blocks: seq<seq<T>>, w: nat, i: nat, a: nat)
    requires forall k | 0 <= k < |blocks| :: |blocks[k]| == w
    requires i < |blocks| && a < w
    ensures i * w + a < |Flatten(blocks)| && Flatten(blocks)[i * w + a] == blocks[i][a]
  {
    FlattenLength(blocks, w);
    Arith.RowMajorBound(i, w, a, |blocks|);
    if i > 0 {
      var rest := blocks[1..];
      FlattenAt(rest, w, i - 1, a);
      assert i * w + a == w + ((i - 1) * w + a);
    }
  }

  /** Stacking matrices of `w` rows and `c` columns gives `|blocks| * w` rows of `c` columns. */
  lemma {:induction false} FlattenMatrix(blocks: seq<Matrix>, w: nat, c: nat)
    requires forall i | 0 <= i < |blocks| :: IsMatrix(blocks[i], w, c)
    ensures IsMatrix(Flatten(blocks), |blocks| * w, c)
  {
    if |blocks| > 0 {
      FlattenMatrix(blocks[1..], w, c);
      assert |blocks| * w == w + |blocks[1..]| * w;
      var f := Flatten(blocks);
      assert f == blocks[0] + Flatten(blocks[1..]);
      forall j | 0 <= j < |f|
        ensures |f[j]| == c
      {
        if j >= w {
          assert f[j] == Flatten(blocks[1..])[j - w];
        }
      }
    }
  }

  /** A slice of the second part of a concatenation, shifted past the first. */
  lemma SliceAfter<T>(x: seq<T>, y: seq<T>, lo: nat, hi: nat)
    requires lo <= hi <= |y|
    ensures (x + y)[|x| + lo..|x| + hi] == y[lo..hi]
  {
  }

  /** Python's list repetition `xs * n`: `n` copies of `xs` one after the other,
      and the empty list when `n <= 0`. */
  function Repeat<T>(xs: seq<T>, n: int): (r: seq<T>)
    ensures |r| == if n <= 0 then 0 else |xs| * n
    ensures forall j | 0 <= j < |r| :: r[j] == xs[j % |xs|]
    decreases n
  {
    if n <= 0 then []
    else
      var rest := Repeat(xs, n - 1);
      var r := xs + rest;
      assert forall j | 0 <= j < |r| :: r[j] == xs[j % |xs|] by {
        forall j | 0 <= j < |r|
          ensures r[j] == xs[j % |xs|]
        {
          if j < |xs| {
            Arith.ModSmall(j, |xs|);
          } else {
            Arith.ModSub(j, |xs|);
            assert r[j] == rest[j - |xs|];
          }
        }
      }
      r
  }

  /** `torch.split(xs, size)` along the leading axis: consecutive chunks of
      `size` elements, the last one possibly shorter; an empty axis still gives
      one (empty) chunk. */
  function Chunks<T>(xs: seq<T>, size: nat): (r: seq<seq<T>>)
    requires size > 0
    ensures Flatten(r) == xs
    ensures |r| > 0 && |r[0]| == Min(size, |xs|)
    ensures forall i | 0 <= i < |r| :: |r[i]| <= size
    ensures |xs| > 0 ==> forall i | 0 <= i < |r| :: |r[i]| > 0
    ensures forall i | 0 <= i < |r| - 1 :: |r[i]| == size
    ensures |xs| == 0 ==> r == [[]]
    decreases |xs|
  {
    if |xs| <= size then
      assert Flatten([xs]) == xs + Flatten([xs][1..]);
      [xs]
    else
      var rest := Chunks(xs[size..], size);
      var r := [xs[..size]] + rest;
      assert r[1..] == rest;
      assert Flatten(r) == xs[..size] + xs[size..] == xs;
      r
  }

  /** Swapping the two leading axes of a stack of `|x|` rows of `cols` entries
      (`torch.stack(..., dim=0).permute((1, 0, ...))`). */
  function Transpose<T>(x: seq<seq<T>>, cols: nat): (r: seq<seq<T>>)
    requires forall c | 0 <= c < |x| :: |x[c]| == cols
    ensures |r| == cols
    ensures forall i | 0 <= i < cols :: |r[i]| == |x|
    ensures forall i, c | 0 <= i < cols && 0 <= c < |x| :: r[i][c] == x[c][i]
  {
    seq(cols, i requires 0 <= i < cols => seq(|x|, c requires 0 <= c < |x| => x[c][i]))
  }

  /** Swapping the axes twice gives the stack back. */
  lemma TransposeInvolution<T>(x: seq<seq<T>>, cols: nat)
    requires forall c | 0 <= c < |x| :: |x[c]| == cols
    ensures Transpose(Transpose(x, cols), |x|) == x
  {
    var t := Transpose(x, cols);
    var tt := Transpose(t, |x|);
    forall c | 0 <= c < |x|
      ensures tt[c] == x[c]
    {
      assert |tt[c]| == cols;
      forall i | 0 <= i < cols
        ensures tt[c][i] == x[c][i]
      {
        assert tt[c][i] == t[i][c];
      }
    }
  }
}
