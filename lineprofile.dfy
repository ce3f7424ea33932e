/** The axis-aligned fast paths of `profile_line`: the intensity profile of an
    image along a vertical or horizontal scan line, averaged over a band of
    `linewidth` pixels across the line. Coordinates are integers; the band's
    half-width `linewidth / 2` is Python 2 integer division, which floors, as
    Dafny's `/` does for the divisor 2. */
module LineProfile {
  import opened PySlice
  import opened NdArray

  /** An end point `(x, y)`: `x` indexes columns, `y` indexes rows. */
  datatype Point = Point(x: int, y: int)

  /** A numpy image: rank 2 (grayscale) or rank 3 with the channels last. */
  datatype Image =
    | Gray(h: nat, w: nat, plane: Plane)
    | Color(h: nat, w: nat, d: nat, cube: Cube)

  predicate Valid(img: Image) {
    match img
    case Gray(h, w, m) => IsGrid(m, h, w)
    case Color(h, w, d, c) => IsCube(c, h, w, d)
  }

  /** Which branch of `profile_line` a pair of end points takes. */
  datatype Path = Vertical | Horizontal | Oblique

  /** What `profile_line` produces: an `(L, C)` profile, the `IndexError` a
      colour image with fewer than three channels raises, or control reaching
      the general (oblique) path with its nonzero `dx` and `dy`. A profile
      carries its column count `C` itself, as a numpy array carries its shape,
      so an empty profile still has 1 column (grayscale) or 3 (colour). */
  datatype Outcome =
    | Profile(cols: nat, values: Plane)
    | IndexError
    | General(dx: int, dy: int)

  /** `x1 == x2` is tested first, then `y1 == y2`; only a line with both
      coordinates different reaches the oblique path, where `dy / dx` is taken. */
  function Classify(p1: Point, p2: Point): (r: Path)
    ensures r == Vertical <==> p1.x == p2.x
    ensures r == Horizontal <==> p1.x != p2.x && p1.y == p2.y
    ensures r == Oblique <==> p2.x - p1.x != 0 && p2.y - p1.y != 0
  {
    if p1.x == p2.x then Vertical
    else if p1.y == p2.y then Horizontal
    else Oblique
  }

  function Min(a: int, b: int): int { if a <= b then a else b }
  function Max(a: int, b: int): int { if a <= b then b else a }

  // Slice bounds: along the line `min(a1, a2) : max(a1, a2) + 1`, across it
  // `c - linewidth / 2 : c + linewidth / 2 + 1`.
  function AlongStart(a1: int, a2: int): int { Min(a1, a2) }
  function AlongStop(a1: int, a2: int): int { Max(a1, a2) + 1 }
  function AcrossStart(c: int, lw: int): int { c - lw / 2 }
  function AcrossStop(c: int, lw: int): int { c + lw / 2 + 1 }

  /** Rows of a vertical band (one per image row between the end points). */
  function VerticalRows(h: nat, y1: int, y2: int): nat { Len(AlongStart(y1, y2), AlongStop(y1, y2), h) }
  /** Columns of a vertical band (the pixels averaged across the line). */
  function VerticalCols(w: nat, x: int, lw: int): nat { Len(AcrossStart(x, lw), AcrossStop(x, lw), w) }
  /** Rows of a horizontal band (the pixels across the line). */
  function HorizontalRows(h: nat, y: int, lw: int): nat { Len(AcrossStart(y, lw), AcrossStop(y, lw), h) }
  /** Columns of a horizontal band (one per image column between the end points). */
  function HorizontalCols(w: nat, x1: int, x2: int): nat { Len(AlongStart(x1, x2), AlongStop(x1, x2), w) }

  /** `img[min(y1, y2) : max(y1, y2) + 1, x - lw / 2 : x + lw / 2 + 1]` */
  function VerticalBand<T>(m: seq<seq<T>>, h: nat, w: nat, x: int, y1: int, y2: int, lw: int): seq<seq<T>>
    requires IsGrid(m, h, w)
  {
    Crop(m, h, w, AlongStart(y1, y2), AlongStop(y1, y2), AcrossStart(x, lw), AcrossStop(x, lw))
  }

  /** `img[y - lw / 2 : y + lw / 2 + 1, min(x1, x2) : max(x1, x2) + 1]` */
  function HorizontalBand<T>(m: seq<seq<T>>, h: nat, w: nat, y: int, x1: int, x2: int, lw: int): seq<seq<T>>
    requires IsGrid(m, h, w)
  {
    Crop(m, h, w, AcrossStart(y, lw), AcrossStop(y, lw), AlongStart(x1, x2), AlongStop(x1, x2))
  }

  // numpy's mean of an empty slice is NaN; these say no averaged group is empty.

  /** Mean across a vertical band (`axis=1`). */
  predicate VerticalMeansDefined(h: nat, w: nat, x: int, y1: int, y2: int, lw: int) {
    VerticalRows(h, y1, y2) == 0 || VerticalCols(w, x, lw) > 0
  }

  /** Mean along a horizontal band (`axis=1`, the grayscale branch). */
  predicate HorizontalRowMeansDefined(h: nat, w: nat, y: int, x1: int, x2: int, lw: int) {
    HorizontalRows(h, y, lw) == 0 || HorizontalCols(w, x1, x2) > 0
  }

  /** Mean across a horizontal band (`axis=0`, the colour branch). */
  predicate HorizontalColumnMeansDefined(h: nat, w: nat, y: int, x1: int, x2: int, lw: int) {
    HorizontalCols(w, x1, x2) == 0 || HorizontalRows(h, y, lw) > 0
  }

  // ------------------------------------------------------------ grayscale

  /** Vertical line on a grayscale image: one entry per band row, each the
      mean of that image row over the columns `x - lw / 2 : x + lw / 2 + 1`. */
  function GrayVertical(m: Plane, h: nat, w: nat, x: int, y1: int, y2: int, lw: int): (r: Plane)
    requires IsGrid(m, h, w) && VerticalMeansDefined(h, w, x, y1, y2, lw)
    ensures IsGrid(r, VerticalRows(h, y1, y2), 1)
    ensures 0 <= Min(y1, y2) && Max(y1, y2) < h ==> |r| == Max(y1, y2) - Min(y1, y2) + 1
    ensures forall i :: 0 <= i < |r| ==>
      r[i][0] == Mean(Take(m[Range(AlongStart(y1, y2), AlongStop(y1, y2), h).0 + i], AcrossStart(x, lw), AcrossStop(x, lw)))
  {
    var means := RowMeans(VerticalBand(m, h, w, x, y1, y2, lw), VerticalRows(h, y1, y2), VerticalCols(w, x, lw));
    seq(|means|, i requires 0 <= i < |means| => [means[i]])
  }

  /** Horizontal line on a grayscale image. The mean is taken with `axis=1`,
      i.e. ALONG the line: the profile has one entry per band row (across the
      line), each the mean of that image row over the span between the end
      points. */
  function GrayHorizontal(m: Plane, h: nat, w: nat, y: int, x1: int, x2: int, lw: int): (r: Plane)
    requires IsGrid(m, h, w) && HorizontalRowMeansDefined(h, w, y, x1, x2, lw)
    ensures IsGrid(r, HorizontalRows(h, y, lw), 1)
    ensures forall i :: 0 <= i < |r| ==>
      r[i][0] == Mean(Take(m[Range(AcrossStart(y, lw), AcrossStop(y, lw), h).0 + i], Min(x1, x2), Max(x1, x2) + 1))
  {
    var means := RowMeans(HorizontalBand(m, h, w, y, x1, x2, lw), HorizontalRows(h, y, lw), HorizontalCols(w, x1, x2));
    seq(|means|, i requires 0 <= i < |means| => [means[i]])
  }

  // --------------------------------------------------------------- colour

  /** Vertical line on a colour image, read as one numpy expression:
      `img[rows, cols, :3].mean(axis=1)`. */
  function ColorVertical(c: Cube, h: nat, w: nat, d: nat, x: int, y1: int, y2: int, lw: int): (r: Plane)
    requires IsCube(c, h, w, d) && 3 <= d && VerticalMeansDefined(h, w, x, y1, y2, lw)
    ensures IsGrid(r, VerticalRows(h, y1, y2), 3)
  {
    var R, C := VerticalRows(h, y1, y2), VerticalCols(w, x, lw);
    CropKeepsDepth(c, h, w, d, AlongStart(y1, y2), AlongStop(y1, y2), AcrossStart(x, lw), AcrossStop(x, lw));
    MeanAxis1(FirstChannels(VerticalBand(c, h, w, x, y1, y2, lw), R, C, d, 3), R, C, 3)
  }

  /** Horizontal line on a colour image: `img[rows, cols, :3].mean(axis=0)`. */
  function ColorHorizontal(c: Cube, h: nat, w: nat, d: nat, y: int, x1: int, x2: int, lw: int): (r: Plane)
    requires IsCube(c, h, w, d) && 3 <= d && HorizontalColumnMeansDefined(h, w, y, x1, x2, lw)
    ensures IsGrid(r, HorizontalCols(w, x1, x2), 3)
  {
    var R, C := HorizontalRows(h, y, lw), HorizontalCols(w, x1, x2);
    CropKeepsDepth(c, h, w, d, AcrossStart(y, lw), AcrossStop(y, lw), AlongStart(x1, x2), AlongStop(x1, x2));
    MeanAxis0(FirstChannels(HorizontalBand(c, h, w, y, x1, x2, lw), R, C, d, 3), R, C, 3)
  }

  /** Column `k` of a vertical colour profile is the grayscale vertical
      profile of channel `k`; channels from index 3 on are ignored. */
  lemma ColorVerticalByChannel(c: Cube, h: nat, w: nat, d: nat, x: int, y1: int, y2: int, lw: int)
    requires IsCube(c, h, w, d) && 3 <= d && VerticalMeansDefined(h, w, x, y1, y2, lw)
    ensures forall i, k :: 0 <= i < VerticalRows(h, y1, y2) && 0 <= k < 3 ==>
      ColorVertical(c, h, w, d, x, y1, y2, lw)[i][k]
      == GrayVertical(Channel(c, h, w, d, k), h, w, x, y1, y2, lw)[i][0]
  {
    var r0, r1, c0, c1 := AlongStart(y1, y2), AlongStop(y1, y2), AcrossStart(x, lw), AcrossStop(x, lw);
    var R, C := VerticalRows(h, y1, y2), VerticalCols(w, x, lw);
    var band := VerticalBand(c, h, w, x, y1, y2, lw);
    CropKeepsDepth(c, h, w, d, r0, r1, c0, c1);
    forall k | 0 <= k < 3
      ensures forall i :: 0 <= i < R ==>
        ColorVertical(c, h, w, d, x, y1, y2, lw)[i][k]
        == GrayVertical(Channel(c, h, w, d, k), h, w, x, y1, y2, lw)[i][0]
    {
      FirstChannelsChannel(band, R, C, d, 3, k);
      CropChannel(c, h, w, d, k, r0, r1, c0, c1);
    }
  }

  /** Entry `(j, k)` of a horizontal colour profile is the mean of channel
      `k` down column `j` of the band, over the band rows
      `y - lw / 2 : y + lw / 2 + 1`. */
  lemma ColorHorizontalByChannel(c: Cube, h: nat, w: nat, d: nat, y: int, x1: int, x2: int, lw: int)
    requires IsCube(c, h, w, d) && 3 <= d && HorizontalColumnMeansDefined(h, w, y, x1, x2, lw)
    ensures forall j, k :: 0 <= j < HorizontalCols(w, x1, x2) && 0 <= k < 3 ==>
      ColorHorizontal(c, h, w, d, y, x1, x2, lw)[j][k]
      == ColumnMeans(HorizontalBand(Channel(c, h, w, d, k), h, w, y, x1, x2, lw), HorizontalRows(h, y, lw), HorizontalCols(w, x1, x2))[j]
  {
    var r0, r1, c0, c1 := AcrossStart(y, lw), AcrossStop(y, lw), AlongStart(x1, x2), AlongStop(x1, x2);
    var R, C := HorizontalRows(h, y, lw), HorizontalCols(w, x1, x2);
    var band := HorizontalBand(c, h, w, y, x1, x2, lw);
    CropKeepsDepth(c, h, w, d, r0, r1, c0, c1);
    forall k | 0 <= k < 3
      ensures forall j :: 0 <= j < C ==>
        ColorHorizontal(c, h, w, d, y, x1, x2, lw)[j][k]
        == ColumnMeans(HorizontalBand(Channel(c, h, w, d, k), h, w, y, x1, x2, lw), R, C)[j]
    {
      FirstChannelsChannel(band, R, C, d, 3, k);
      CropChannel(c, h, w, d, k, r0, r1, c0, c1);
    }
  }

  // ------------------------------------------------------------- dispatch

  /** The preconditions under which no NaN arises: colour images with fewer
      than three channels fail before any mean is taken. */
  predicate MeansDefined(img: Image, p1: Point, p2: Point, lw: int) {
    (img.Color? && img.d < 3) ||
    match Classify(p1, p2)
    case Vertical => VerticalMeansDefined(img.h, img.w, p1.x, p1.y, p2.y, lw)
    case Horizontal =>
      if img.Gray? then HorizontalRowMeansDefined(img.h, img.w, p1.y, p1.x, p2.x, lw)
      else HorizontalColumnMeansDefined(img.h, img.w, p1.y, p1.x, p2.x, lw)
    case Oblique => true
  }

  /** `profile_line(img, (p1, p2), linewidth)` as a function of its inputs. */
  function ProfileSpec(img: Image, p1: Point, p2: Point, lw: int): (o: Outcome)
    requires Valid(img) && MeansDefined(img, p1, p2, lw)
    ensures o.General? <==> Classify(p1, p2) == Oblique
    ensures o.General? ==> o.dx != 0 && o.dy != 0
    ensures o.IndexError? <==> Classify(p1, p2) != Oblique && img.Color? && img.d < 3
    ensures o.Profile? ==> o.cols == (if img.Gray? then 1 else 3) && IsGrid(o.values, |o.values|, o.cols)
  {
    match Classify(p1, p2)
    case Vertical =>
      (match img
       case Gray(h, w, m) => Profile(1, GrayVertical(m, h, w, p1.x, p1.y, p2.y, lw))
       case Color(h, w, d, c) =>
         if d < 3 then IndexError else Profile(3, ColorVertical(c, h, w, d, p1.x, p1.y, p2.y, lw)))
    case Horizontal =>
      (match img
       case Gray(h, w, m) => Profile(1, GrayHorizontal(m, h, w, p1.y, p1.x, p2.x, lw))
       case Color(h, w, d, c) =>
         if d < 3 then IndexError else Profile(3, ColorHorizontal(c, h, w, d, p1.y, p1.x, p2.x, lw)))
    case Oblique => General(p2.x - p1.x, p2.y - p1.y)
  }

  // ------------------------------------------------------ stacking loops

  /** The colour vertical branch as the source runs it: for channel indices
      0, 1, 2 slice the band of that channel and stack it onto `pixels`
      (the first pass starts the stack, standing for the recovery from the
      then-unbound `pixels`), then average across the line. A missing
      channel raises `IndexError`. */
  method StackVertical(c: Cube, h: nat, w: nat, d: nat, x: int, y1: int, y2: int, lw: int) returns (o: Outcome)
    requires IsCube(c, h, w, d) && (d < 3 || VerticalMeansDefined(h, w, x, y1, y2, lw))
    ensures d < 3 ==> o == IndexError
    ensures 3 <= d ==> o == Profile(3, ColorVertical(c, h, w, d, x, y1, y2, lw))
  {
    var r0, r1, c0, c1 := AlongStart(y1, y2), AlongStop(y1, y2), AcrossStart(x, lw), AcrossStop(x, lw);
    var R, C := VerticalRows(h, y1, y2), VerticalCols(w, x, lw);
    ghost var band := VerticalBand(c, h, w, x, y1, y2, lw);
    CropKeepsDepth(c, h, w, d, r0, r1, c0, c1);
    var pixels: Cube := [];
    var i := 0;
    while i < 3
      invariant 0 <= i <= 3 && i <= d
      invariant 0 < i ==> pixels == FirstChannels(band, R, C, d, i)
    {
      if d <= i {
        return IndexError;
      }
      var temp := Crop(Channel(c, h, w, d, i), h, w, r0, r1, c0, c1);
      CropChannel(c, h, w, d, i, r0, r1, c0, c1);
      StackChannel(band, R, C, d, i);
      if i == 0 {
        pixels := NewAxis(temp, R, C);
      } else {
        pixels := ConcatLast(pixels, temp, R, C, i);
      }
      i := i + 1;
    }
    o := Profile(3, MeanAxis1(pixels, R, C, 3));
  }

  /** The colour horizontal branch: the same stacking over the horizontal
      band, then the mean across the line (`axis=0`). */
  method StackHorizontal(c: Cube, h: nat, w: nat, d: nat, y: int, x1: int, x2: int, lw: int) returns (o: Outcome)
    requires IsCube(c, h, w, d) && (d < 3 || HorizontalColumnMeansDefined(h, w, y, x1, x2, lw))
    ensures d < 3 ==> o == IndexError
    ensures 3 <= d ==> o == Profile(3, ColorHorizontal(c, h, w, d, y, x1, x2, lw))
  {
    var r0, r1, c0, c1 := AcrossStart(y, lw), AcrossStop(y, lw), AlongStart(x1, x2), AlongStop(x1, x2);
    var R, C := HorizontalRows(h, y, lw), HorizontalCols(w, x1, x2);
    ghost var band := HorizontalBand(c, h, w, y, x1, x2, lw);
    CropKeepsDepth(c, h, w, d, r0, r1, c0, c1);
    var pixels: Cube := [];
    var i := 0;
    while i < 3
      invariant 0 <= i <= 3 && i <= d
      invariant 0 < i ==> pixels == FirstChannels(band, R, C, d, i)
    {
      if d <= i {
        return IndexError;
      }
      var temp := Crop(Channel(c, h, w, d, i), h, w, r0, r1, c0, c1);
      CropChannel(c, h, w, d, i, r0, r1, c0, c1);
      StackChannel(band, R, C, d, i);
      if i == 0 {
        pixels := NewAxis(temp, R, C);
      } else {
        pixels := ConcatLast(pixels, temp, R, C, i);
      }
      i := i + 1;
    }
    o := Profile(3, MeanAxis0(pixels, R, C, 3));
  }

  /** `profile_line` on the fast paths; the oblique path is reported, not run. */
  method ProfileLine(img: Image, p1: Point, p2: Point, lw: int) returns (o: Outcome)
    requires Valid(img) && MeansDefined(img, p1, p2, lw)
    ensures o == ProfileSpec(img, p1, p2, lw)
  {
    if p1.x == p2.x {
      match img {
        case Gray(h, w, m) =>
          o := Profile(1, GrayVertical(m, h, w, p1.x, p1.y, p2.y, lw));
        case Color(h, w, d, c) =>
          o := StackVertical(c, h, w, d, p1.x, p1.y, p2.y, lw);
      }
    } else if p1.y == p2.y {
      match img {
        case Gray(h, w, m) =>
          o := Profile(1, GrayHorizontal(m, h, w, p1.y, p1.x, p2.x, lw));
        case Color(h, w, d, c) =>
          o := StackHorizontal(c, h, w, d, p1.y, p1.x, p2.x, lw);
      }
    } else {
      o := General(p2.x - p1.x, p2.y - p1.y);
    }
  }
}
