/** The few numpy operations the fast paths of `profile_line` use: 2-D grids
    (a grayscale image is a grid of reals, a colour image a grid of pixel
    vectors with the channels last), rectangular slicing, channel selection,
    `np.newaxis`, `np.concatenate` along the channel axis and exact means
    along one axis. */
module NdArray {
  import opened PySlice

  type Plane = seq<seq<real>>
  type Cube = seq<seq<seq<real>>>

  /** `m` is an `h` by `w` array (numpy arrays are always rectangular). */
  predicate IsGrid<T>(m: seq<seq<T>>, h: nat, w: nat) {
    |m| == h && forall i :: 0 <= i < h ==> |m[i]| == w
  }

  /** `c` is an `h` by `w` by `d` array. */
  predicate IsCube(c: Cube, h: nat, w: nat, d: nat) {
    IsGrid(c, h, w) && forall i, j :: 0 <= i < h && 0 <= j < w ==> |c[i][j]| == d
  }

  // ---------------------------------------------------------------- means

  function Sum(xs: seq<real>): real {
    if xs == [] then 0.0 else xs[0] + Sum(xs[1..])
  }

  /** Exact arithmetic mean; numpy gives NaN for an empty slice, which the
      callers rule out. */
  function Mean(xs: seq<real>): real
    requires |xs| > 0
  {
    Sum(xs) / (|xs| as real)
  }

  lemma {:induction false} SumBounds(xs: seq<real>, lo: real, hi: real)
    requires forall i :: 0 <= i < |xs| ==> lo <= xs[i] <= hi
    ensures (|xs| as real) * lo <= Sum(xs) <= (|xs| as real) * hi
  {
    if xs != [] {
      SumBounds(xs[1..], lo, hi);
    }
  }

  /** A mean lies between any lower and upper bound of its elements. */
  lemma MeanBounds(xs: seq<real>, lo: real, hi: real)
    requires |xs| > 0
    requires forall i :: 0 <= i < |xs| ==> lo <= xs[i] <= hi
    ensures lo <= Mean(xs) <= hi
  {
    SumBounds(xs, lo, hi);
    var n := |xs| as real;
    assert Mean(xs) * n == Sum(xs);
  }

  /** The mean of a constant sequence is that constant. */
  lemma MeanOfConstant(xs: seq<real>, v: real)
    requires |xs| > 0
    requires forall i :: 0 <= i < |xs| ==> xs[i] == v
    ensures Mean(xs) == v
  {
    MeanBounds(xs, v, v);
  }

  // ---------------------------------------------------------- 2-D arrays

  /** `m[:, j]` */
  function Column(m: Plane, h: nat, w: nat, j: nat): (col: seq<real>)
    requires IsGrid(m, h, w) && j < w
    ensures |col| == h
    ensures forall i :: 0 <= i < h ==> col[i] == m[i][j]
  {
    seq(h, i requires 0 <= i < h => m[i][j])
  }

  /** `m.mean(axis=1)`: one mean per row. */
  function RowMeans(m: Plane, h: nat, w: nat): (r: seq<real>)
    requires IsGrid(m, h, w) && (h == 0 || w > 0)
    ensures |r| == h
    ensures forall i :: 0 <= i < h ==> r[i] == Mean(m[i])
  {
    seq(h, i requires 0 <= i < h => Mean(m[i]))
  }

  /** `m.mean(axis=0)`: one mean per column. */
  function ColumnMeans(m: Plane, h: nat, w: nat): (r: seq<real>)
    requires IsGrid(m, h, w) && (w == 0 || h > 0)
    ensures |r| == w
    ensures forall j :: 0 <= j < w ==> r[j] == Mean(Column(m, h, w, j))
  {
    seq(w, j requires 0 <= j < w => Mean(Column(m, h, w, j)))
  }

  /** `m[r0:r1, c0:c1]` under Python's slice rules, for any element type. */
  function Crop<T>(m: seq<seq<T>>, h: nat, w: nat, r0: int, r1: int, c0: int, c1: int): (p: seq<seq<T>>)
    requires IsGrid(m, h, w)
    ensures IsGrid(p, Len(r0, r1, h), Len(c0, c1, w))
    ensures forall i :: 0 <= i < |p| ==> p[i] == Take(m[Range(r0, r1, h).0 + i], c0, c1)
    ensures forall i, j :: 0 <= i < |p| && 0 <= j < |p[i]| ==>
      p[i][j] == m[Range(r0, r1, h).0 + i][Range(c0, c1, w).0 + j]
  {
    var rows := Take(m, r0, r1);
    seq(|rows|, i requires 0 <= i < |rows| => Take(rows[i], c0, c1))
  }

  // ---------------------------------------------------------- 3-D arrays

  /** Cropping a colour image keeps every pixel's channel count. */
  lemma CropKeepsDepth(c: Cube, h: nat, w: nat, d: nat, r0: int, r1: int, c0: int, c1: int)
    requires IsCube(c, h, w, d)
    ensures IsCube(Crop(c, h, w, r0, r1, c0, c1), Len(r0, r1, h), Len(c0, c1, w), d)
  {
  }

  /** `c[..., k]` */
  function Channel(c: Cube, h: nat, w: nat, d: nat, k: nat): (p: Plane)
    requires IsCube(c, h, w, d) && k < d
    ensures IsGrid(p, h, w)
    ensures forall i, j :: 0 <= i < h && 0 <= j < w ==> p[i][j] == c[i][j][k]
  {
    seq(h, i requires 0 <= i < h => Column(c[i], w, d, k))
  }

  /** `c[..., :n]` */
  function FirstChannels(c: Cube, h: nat, w: nat, d: nat, n: nat): (r: Cube)
    requires IsCube(c, h, w, d) && n <= d
    ensures IsCube(r, h, w, n)
    ensures forall i, j :: 0 <= i < h && 0 <= j < w ==> r[i][j] == c[i][j][..n]
  {
    seq(h, i requires 0 <= i < h => seq(w, j requires 0 <= j < w => c[i][j][..n]))
  }

  /** `p[..., np.newaxis]`: a one-channel array. */
  function NewAxis(p: Plane, h: nat, w: nat): (c: Cube)
    requires IsGrid(p, h, w)
    ensures IsCube(c, h, w, 1)
    ensures forall i, j :: 0 <= i < h && 0 <= j < w ==> c[i][j] == [p[i][j]]
  {
    seq(h, i requires 0 <= i < h => seq(w, j requires 0 <= j < w => [p[i][j]]))
  }

  /** `np.concatenate((c, p[..., np.newaxis]), axis=2)`: `p` becomes a new last channel. */
  function ConcatLast(c: Cube, p: Plane, h: nat, w: nat, d: nat): (r: Cube)
    requires IsCube(c, h, w, d) && IsGrid(p, h, w)
    ensures IsCube(r, h, w, d + 1)
    ensures forall i, j :: 0 <= i < h && 0 <= j < w ==> r[i][j] == c[i][j] + [p[i][j]]
  {
    seq(h, i requires 0 <= i < h => seq(w, j requires 0 <= j < w => c[i][j] + [p[i][j]]))
  }

  /** `c.mean(axis=1)`: for each row and channel, the mean across the row. */
  function MeanAxis1(c: Cube, h: nat, w: nat, d: nat): (r: Plane)
    requires IsCube(c, h, w, d) && (h == 0 || w > 0)
    ensures IsGrid(r, h, d)
    ensures forall i, k :: 0 <= i < h && 0 <= k < d ==> r[i][k] == Mean(Channel(c, h, w, d, k)[i])
  {
    seq(h, i requires 0 <= i < h => seq(d, k requires 0 <= k < d => Mean(Column(c[i], w, d, k))))
  }

  /** `c.mean(axis=0)`: for each column and channel, the mean down the column. */
  function MeanAxis0(c: Cube, h: nat, w: nat, d: nat): (r: Plane)
    requires IsCube(c, h, w, d) && (w == 0 || h > 0)
    ensures IsGrid(r, w, d)
    ensures forall j, k :: 0 <= j < w && 0 <= k < d ==>
      r[j][k] == Mean(Column(Channel(c, h, w, d, k), h, w, j))
  {
    seq(w, j requires 0 <= j < w => seq(d, k requires 0 <= k < d => Mean(Column(Channel(c, h, w, d, k), h, w, j))))
  }

  /** `p[..., np.newaxis][..., 0]` is `p` again. */
  lemma NewAxisChannel(p: Plane, h: nat, w: nat)
    requires IsGrid(p, h, w)
    ensures Channel(NewAxis(p, h, w), h, w, 1, 0) == p
  {
    var lhs := Channel(NewAxis(p, h, w), h, w, 1, 0);
    forall i | 0 <= i < h
      ensures lhs[i] == p[i]
    {
      assert |lhs[i]| == |p[i]| == w;
    }
  }

  /** Concatenating `p` after the `d` channels of `c` keeps channels
      `0 .. d - 1` of `c` and makes `p` channel `d`. */
  lemma ConcatLastChannels(c: Cube, p: Plane, h: nat, w: nat, d: nat, k: nat)
    requires IsCube(c, h, w, d) && IsGrid(p, h, w) && k <= d
    ensures Channel(ConcatLast(c, p, h, w, d), h, w, d + 1, k) == if k < d then Channel(c, h, w, d, k) else p
  {
    var lhs := Channel(ConcatLast(c, p, h, w, d), h, w, d + 1, k);
    var rhs := if k < d then Channel(c, h, w, d, k) else p;
    forall i | 0 <= i < h
      ensures lhs[i] == rhs[i]
    {
      assert |lhs[i]| == |rhs[i]| == w;
    }
  }

  /** Every row mean of a grid whose entries lie in `[lo, hi]` lies there too. */
  lemma RowMeansWithin(m: Plane, h: nat, w: nat, lo: real, hi: real)
    requires IsGrid(m, h, w) && (h == 0 || w > 0)
    requires forall i, j :: 0 <= i < h && 0 <= j < w ==> lo <= m[i][j] <= hi
    ensures forall i :: 0 <= i < h ==> lo <= RowMeans(m, h, w)[i] <= hi
  {
    forall i | 0 <= i < h
      ensures lo <= RowMeans(m, h, w)[i] <= hi
    {
      MeanBounds(m[i], lo, hi);
    }
  }

  /** Every column mean of a grid whose entries lie in `[lo, hi]` lies there too. */
  lemma ColumnMeansWithin(m: Plane, h: nat, w: nat, lo: real, hi: real)
    requires IsGrid(m, h, w) && (w == 0 || h > 0)
    requires forall i, j :: 0 <= i < h && 0 <= j < w ==> lo <= m[i][j] <= hi
    ensures forall j :: 0 <= j < w ==> lo <= ColumnMeans(m, h, w)[j] <= hi
  {
    forall j | 0 <= j < w
      ensures lo <= ColumnMeans(m, h, w)[j] <= hi
    {
      MeanBounds(Column(m, h, w, j), lo, hi);
    }
  }

  /** `c.mean(axis=1)[:, k]` lies within any bounds of channel `k`. */
  lemma MeanAxis1Within(c: Cube, h: nat, w: nat, d: nat, k: nat, lo: real, hi: real)
    requires IsCube(c, h, w, d) && (h == 0 || w > 0) && k < d
    requires forall i, j :: 0 <= i < h && 0 <= j < w ==> lo <= c[i][j][k] <= hi
    ensures forall i :: 0 <= i < h ==> lo <= MeanAxis1(c, h, w, d)[i][k] <= hi
  {
    var ch := Channel(c, h, w, d, k);
    RowMeansWithin(ch, h, w, lo, hi);
    forall i | 0 <= i < h
      ensures lo <= MeanAxis1(c, h, w, d)[i][k] <= hi
    {
      assert MeanAxis1(c, h, w, d)[i][k] == RowMeans(ch, h, w)[i];
    }
  }

  /** `c.mean(axis=0)[:, k]` lies within any bounds of channel `k`. */
  lemma MeanAxis0Within(c: Cube, h: nat, w: nat, d: nat, k: nat, lo: real, hi: real)
    requires IsCube(c, h, w, d) && (w == 0 || h > 0) && k < d
    requires forall i, j :: 0 <= i < h && 0 <= j < w ==> lo <= c[i][j][k] <= hi
    ensures forall j :: 0 <= j < w ==> lo <= MeanAxis0(c, h, w, d)[j][k] <= hi
  {
    var ch := Channel(c, h, w, d, k);
    ColumnMeansWithin(ch, h, w, lo, hi);
    forall j | 0 <= j < w
      ensures lo <= MeanAxis0(c, h, w, d)[j][k] <= hi
    {
      assert MeanAxis0(c, h, w, d)[j][k] == ColumnMeans(ch, h, w)[j];
    }
  }

  /** Slicing out a rectangle and then a channel is the same as taking the
      channel first and slicing it. */
  lemma CropChannel(c: Cube, h: nat, w: nat, d: nat, k: nat, r0: int, r1: int, c0: int, c1: int)
    requires IsCube(c, h, w, d) && k < d
    ensures IsCube(Crop(c, h, w, r0, r1, c0, c1), Len(r0, r1, h), Len(c0, c1, w), d)
    ensures Channel(Crop(c, h, w, r0, r1, c0, c1), Len(r0, r1, h), Len(c0, c1, w), d, k)
         == Crop(Channel(c, h, w, d, k), h, w, r0, r1, c0, c1)
  {
    CropKeepsDepth(c, h, w, d, r0, r1, c0, c1);
    var R, C := Len(r0, r1, h), Len(c0, c1, w);
    var lhs := Channel(Crop(c, h, w, r0, r1, c0, c1), R, C, d, k);
    var rhs := Crop(Channel(c, h, w, d, k), h, w, r0, r1, c0, c1);
    forall i | 0 <= i < R
      ensures lhs[i] == rhs[i]
    {
      assert |lhs[i]| == |rhs[i]| == C;
    }
  }

  /** Channel `k` survives keeping the first `n > k` channels unchanged. */
  lemma FirstChannelsChannel(c: Cube, h: nat, w: nat, d: nat, n: nat, k: nat)
    requires IsCube(c, h, w, d) && k < n <= d
    ensures Channel(FirstChannels(c, h, w, d, n), h, w, n, k) == Channel(c, h, w, d, k)
  {
    var lhs := Channel(FirstChannels(c, h, w, d, n), h, w, n, k);
    var rhs := Channel(c, h, w, d, k);
    forall i | 0 <= i < h
      ensures lhs[i] == rhs[i]
    {
      assert |lhs[i]| == |rhs[i]| == w;
    }
  }

  /** One pass of the stacking loop: the first channel on its own is the
      one-channel prefix, and appending channel `n` to the first `n` channels
      gives the first `n + 1`. */
  lemma StackChannel(c: Cube, h: nat, w: nat, d: nat, n: nat)
    requires IsCube(c, h, w, d) && n < d
    ensures n == 0 ==> NewAxis(Channel(c, h, w, d, 0), h, w) == FirstChannels(c, h, w, d, 1)
    ensures 0 < n ==>
      ConcatLast(FirstChannels(c, h, w, d, n), Channel(c, h, w, d, n), h, w, n) == FirstChannels(c, h, w, d, n + 1)
  {
    var next := FirstChannels(c, h, w, d, n + 1);
    var grown := if n == 0 then NewAxis(Channel(c, h, w, d, 0), h, w)
                 else ConcatLast(FirstChannels(c, h, w, d, n), Channel(c, h, w, d, n), h, w, n);
    forall i | 0 <= i < h
      ensures grown[i] == next[i]
    {
      forall j | 0 <= j < w
        ensures grown[i][j] == next[i][j]
      {
        assert c[i][j][..n + 1] == c[i][j][..n] + [c[i][j][n]];
      }
    }
  }
}
