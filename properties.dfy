/** Properties of the fast paths of `profile_line` that relate several calls
    or fix concrete inputs. */
module LineProfileProperties {
  import opened PySlice
  import opened NdArray
  import opened LineProfile

  /** Swapping the end points changes nothing on the fast paths: only the
      min and max of the along-line coordinates and the shared across-line
      coordinate are used. */
  lemma SwapEndpoints(img: Image, p1: Point, p2: Point, lw: int)
    requires Valid(img) && MeansDefined(img, p1, p2, lw) && Classify(p1, p2) != Oblique
    ensures MeansDefined(img, p2, p1, lw)
    ensures ProfileSpec(img, p2, p1, lw) == ProfileSpec(img, p1, p2, lw)
  {
    if Classify(p1, p2) == Vertical {
      assert AlongStart(p1.y, p2.y) == AlongStart(p2.y, p1.y) && AlongStop(p1.y, p2.y) == AlongStop(p2.y, p1.y);
      assert VerticalRows(img.h, p1.y, p2.y) == VerticalRows(img.h, p2.y, p1.y);
      match img {
        case Gray(h, w, m) =>
          assert VerticalBand(m, h, w, p1.x, p1.y, p2.y, lw) == VerticalBand(m, h, w, p2.x, p2.y, p1.y, lw);
        case Color(h, w, d, c) =>
          assert VerticalBand(c, h, w, p1.x, p1.y, p2.y, lw) == VerticalBand(c, h, w, p2.x, p2.y, p1.y, lw);
      }
    } else {
      assert AlongStart(p1.x, p2.x) == AlongStart(p2.x, p1.x) && AlongStop(p1.x, p2.x) == AlongStop(p2.x, p1.x);
      assert HorizontalCols(img.w, p1.x, p2.x) == HorizontalCols(img.w, p2.x, p1.x);
      match img {
        case Gray(h, w, m) =>
          assert HorizontalBand(m, h, w, p1.y, p1.x, p2.x, lw) == HorizontalBand(m, h, w, p2.y, p2.x, p1.x, lw);
        case Color(h, w, d, c) =>
          assert HorizontalBand(c, h, w, p1.y, p1.x, p2.x, lw) == HorizontalBand(c, h, w, p2.y, p2.x, p1.x, lw);
      }
    }
  }

  /** The number of profile entries does not depend on the line width, except
      on the grayscale horizontal path, whose entries are the band rows. */
  lemma LengthIgnoresWidth(img: Image, p1: Point, p2: Point, lw1: int, lw2: int)
    requires Valid(img) && Classify(p1, p2) != Oblique
    requires MeansDefined(img, p1, p2, lw1) && MeansDefined(img, p1, p2, lw2)
    requires ProfileSpec(img, p1, p2, lw1).Profile?
    requires Classify(p1, p2) == Vertical || img.Color?
    ensures ProfileSpec(img, p1, p2, lw2).Profile?
    ensures |ProfileSpec(img, p1, p2, lw1).values| == |ProfileSpec(img, p1, p2, lw2).values|
  {
  }

  /** Vertical profile of a grayscale image of constant value `v`: every
      entry is `[v]`. */
  lemma ConstantGrayVertical(m: Plane, h: nat, w: nat, x: int, y1: int, y2: int, lw: int, v: real)
    requires IsGrid(m, h, w) && VerticalMeansDefined(h, w, x, y1, y2, lw)
    requires forall i, j :: 0 <= i < h && 0 <= j < w ==> m[i][j] == v
    ensures forall i :: 0 <= i < VerticalRows(h, y1, y2) ==> GrayVertical(m, h, w, x, y1, y2, lw)[i] == [v]
  {
    var r := GrayVertical(m, h, w, x, y1, y2, lw);
    forall i | 0 <= i < |r|
      ensures r[i] == [v]
    {
      var row := Range(AlongStart(y1, y2), AlongStop(y1, y2), h).0 + i;
      MeanOfConstant(Take(m[row], AcrossStart(x, lw), AcrossStop(x, lw)), v);
    }
  }

  /** Horizontal profile of a grayscale image of constant value `v`: every
      entry is `[v]`. */
  lemma ConstantGrayHorizontal(m: Plane, h: nat, w: nat, y: int, x1: int, x2: int, lw: int, v: real)
    requires IsGrid(m, h, w) && HorizontalRowMeansDefined(h, w, y, x1, x2, lw)
    requires forall i, j :: 0 <= i < h && 0 <= j < w ==> m[i][j] == v
    ensures forall i :: 0 <= i < HorizontalRows(h, y, lw) ==> GrayHorizontal(m, h, w, y, x1, x2, lw)[i] == [v]
  {
    var r := GrayHorizontal(m, h, w, y, x1, x2, lw);
    forall i | 0 <= i < |r|
      ensures r[i] == [v]
    {
      var row := Range(AcrossStart(y, lw), AcrossStop(y, lw), h).0 + i;
      MeanOfConstant(Take(m[row], Min(x1, x2), Max(x1, x2) + 1), v);
    }
  }

  /** Vertical colour profile of an image whose first three channels are
      constant `v[0]`, `v[1]`, `v[2]`: every row is `v`. */
  lemma ConstantColorVertical(c: Cube, h: nat, w: nat, d: nat, x: int, y1: int, y2: int, lw: int, v: seq<real>)
    requires IsCube(c, h, w, d) && 3 <= d && |v| == 3 && VerticalMeansDefined(h, w, x, y1, y2, lw)
    requires forall i, j, k :: 0 <= i < h && 0 <= j < w && 0 <= k < 3 ==> c[i][j][k] == v[k]
    ensures forall i :: 0 <= i < VerticalRows(h, y1, y2) ==> ColorVertical(c, h, w, d, x, y1, y2, lw)[i] == v
  {
    var r := ColorVertical(c, h, w, d, x, y1, y2, lw);
    ColorVerticalByChannel(c, h, w, d, x, y1, y2, lw);
    forall k | 0 <= k < 3
      ensures forall i :: 0 <= i < |r| ==> r[i][k] == v[k]
    {
      ConstantGrayVertical(Channel(c, h, w, d, k), h, w, x, y1, y2, lw, v[k]);
    }
  }

  /** Horizontal colour profile of an image whose first three channels are
      constant `v[0]`, `v[1]`, `v[2]`: every row is `v`. */
  lemma ConstantColorHorizontal(c: Cube, h: nat, w: nat, d: nat, y: int, x1: int, x2: int, lw: int, v: seq<real>)
    requires IsCube(c, h, w, d) && 3 <= d && |v| == 3 && HorizontalColumnMeansDefined(h, w, y, x1, x2, lw)
    requires forall i, j, k :: 0 <= i < h && 0 <= j < w && 0 <= k < 3 ==> c[i][j][k] == v[k]
    ensures forall j :: 0 <= j < HorizontalCols(w, x1, x2) ==> ColorHorizontal(c, h, w, d, y, x1, x2, lw)[j] == v
  {
    var r := ColorHorizontal(c, h, w, d, y, x1, x2, lw);
    ColorHorizontalByChannel(c, h, w, d, y, x1, x2, lw);
    var R, C := HorizontalRows(h, y, lw), HorizontalCols(w, x1, x2);
    forall j, k | 0 <= j < |r| && 0 <= k < 3
      ensures r[j][k] == v[k]
    {
      var band := HorizontalBand(Channel(c, h, w, d, k), h, w, y, x1, x2, lw);
      MeanOfConstant(Column(band, R, C, j), v[k]);
    }
  }

  /** On a horizontal line whose band lies inside the image, the grayscale
      profile has one entry per band row, `2 * (lw / 2) + 1` of them, while
      the colour profile has one row per column between the end points. */
  lemma HorizontalLengths(img: Image, p1: Point, p2: Point, lw: int)
    requires Valid(img) && MeansDefined(img, p1, p2, lw) && Classify(p1, p2) == Horizontal
    requires img.Gray? || 3 <= img.d
    requires 0 <= lw && 0 <= p1.y - lw / 2 && p1.y + lw / 2 + 1 <= img.h
    requires 0 <= Min(p1.x, p2.x) && Max(p1.x, p2.x) < img.w
    ensures ProfileSpec(img, p1, p2, lw).Profile?
    ensures img.Gray? ==> |ProfileSpec(img, p1, p2, lw).values| == 2 * (lw / 2) + 1
    ensures img.Color? ==> |ProfileSpec(img, p1, p2, lw).values| == Max(p1.x, p2.x) - Min(p1.x, p2.x) + 1
  {
  }

  /** The horizontal line from `(1, 5)` to `(8, 5)` on a 10 by 10 colour
      image with constant channels `(1, 2, 3)` gives one row per column
      between the end points, eight in all, each `[1, 2, 3]`. */
  lemma ColorHorizontalCountsColumns()
    ensures ProfileSpec(Color(10, 10, 3, seq(10, i => seq(10, j => [1.0, 2.0, 3.0]))), Point(1, 5), Point(8, 5), 1)
         == Profile(3, seq(8, j => [1.0, 2.0, 3.0]))
  {
    var c := seq(10, i => seq(10, j => [1.0, 2.0, 3.0]));
    RangeInBounds(5, 6, 10);
    RangeInBounds(1, 9, 10);
    ConstantColorHorizontal(c, 10, 10, 3, 5, 1, 8, 1, [1.0, 2.0, 3.0]);
  }

  /** A vertical band that starts left of column 0 wraps to the far end of
      the row: at `x == 0` with width 3 the band `-1 : 2` is empty on any
      image at least three columns wide, so the means are undefined (NaN in
      numpy) whenever the line covers a row; at `x == 1` the band has all
      three columns. */
  lemma LeftEdgeBandWraps(m: Plane, h: nat, w: nat, y1: int, y2: int)
    requires IsGrid(m, h, w) && 3 <= w && 0 < VerticalRows(h, y1, y2)
    ensures !MeansDefined(Gray(h, w, m), Point(0, y1), Point(0, y2), 3)
    ensures MeansDefined(Gray(h, w, m), Point(1, y1), Point(1, y2), 3)
    ensures VerticalCols(w, 1, 3) == 3
  {
  }

  /** An image with no rows gives an empty profile that still has one
      column (grayscale) or three (colour), the shape the plotting code
      branches on. */
  lemma EmptyImageKeepsColumns(img: Image, p1: Point, p2: Point, lw: int)
    requires Valid(img) && MeansDefined(img, p1, p2, lw) && Classify(p1, p2) != Oblique
    requires img.h == 0 && (img.Gray? || 3 <= img.d)
    ensures ProfileSpec(img, p1, p2, lw) == Profile(if img.Gray? then 1 else 3, [])
  {
  }
}
