# Line profile fast paths (scikit-image viewer)

This project models the axis-aligned part of `profile_line` in
`skimage/viewer/plugins/lineprofile.py`: the intensity profile of an image
along a scan line from `point1` to `point2`, averaged over a band of
`linewidth` pixels across the line, when the line is vertical or horizontal.

- `PySlice` (`pyslice.dfy`) gives Python's rules for a step-1 slice
  `s[start:stop]`. A negative bound has the length added, both bounds are
  clamped to `[0, n]`, and the slice is empty when the adjusted start is not
  below the adjusted stop.
- `NdArray` (`ndarray.dfy`) gives the numpy operations the fast paths use.
  These are 2-D slicing, channel selection, `np.newaxis`,
  `np.concatenate(..., axis=2)`, and exact means over `axis=0` and `axis=1`.
- `LineProfile` (`lineprofile.dfy`) holds the branch choice and the four fast
  paths: vertical or horizontal, on a grayscale or a colour image.
  - The grayscale paths are single slice-then-mean expressions, written as
    functions.
  - The colour paths loop over channel indices 0, 1 and 2 and grow a stacked
    `pixels` array. They are methods with a loop, proved equal to one
    reference function per path (`img[rows, cols, :3].mean(axis)`).
  - `ProfileLine` is the whole dispatch, proved equal to the function
    `ProfileSpec`.
- `LineProfileProperties` (`properties.dfy`) holds the lemmas that relate
  several calls: endpoint symmetry, width independence, constant images, and
  the lengths of horizontal profiles.

Modelling choices:
- Coordinates and `linewidth` are integers. The source converts the end
  points to `float64` (lines 160-161), so every fast-path slice bound is a
  float. The model reads each integral float bound as that integer. This is
  the numpy behaviour before 1.12, where float indices are truncated (from
  1.8 on with a `DeprecationWarning`). On numpy 1.12 and later a float slice
  bound raises `TypeError`, so there every fast path fails, and the model
  does not describe that.
- The tests `x1 == x2` and `y1 == y2` (lines 165 and 184) compare `float64`
  values. The model compares exact integers, so it differs for coordinates
  above 2^53, which can round to the same float.
- The half-width `linewidth / 2` is Python 2 integer division. For the
  divisor 2 it floors, exactly as Dafny's `/` does.
- Pixel values are exact reals, and means are exact.
- An image is rank 2 (`Gray`) or rank 3 with channels last (`Color`). Its
  shape is carried explicitly, so empty images keep their width and depth.

Behaviour of the code that the model keeps, where a cleaner design would
differ:
- On a grayscale image the horizontal path averages with `axis=1` (line 188),
  which is along the line. Its profile has one entry per band row
  (`2 * (lw / 2) + 1` inside the image), not one per column between the end
  points. The colour horizontal path (line 201) averages with `axis=0` and has
  one row per column. See `GrayHorizontal` and `HorizontalLengths`.
- Identical end points take the vertical path and give a profile, not an
  error.
- The width is not checked. A width of 0 selects one pixel, like width 1. A
  negative width gives an empty band away from the image edges.
- A band that starts left of column 0 (or above row 0) wraps to the far end
  under Python's slice rules. At `x == 0` with width 3, on an image at least
  three columns wide, the band is empty, and numpy's mean is then NaN. See
  `LeftEdgeBandWraps`.
- A colour image with fewer than three channels raises `IndexError`.
  Channels beyond index 2 are ignored.
- The profile length follows the code, not the docstring (lines 156-157),
  which promises the ceiling of the scan line's length. Inside the image, a
  vertical line from `y1` to `y2` gives `|y2 - y1| + 1` entries, one more than
  that ceiling. The grayscale horizontal path gives `2 * (lw / 2) + 1`,
  whatever the line's length.
- An empty profile keeps its column count, as numpy's shape `(0, 1)` or
  `(0, 3)` does. The plotting code branches on that count (line 133), so the
  outcome `Profile` carries it explicitly. See `EmptyImageKeepsColumns`.
- Because the image is a value, the fast paths cannot change it.

## Model

| member | source | states |
|---|---|---|
| `PySlice.Range` | skimage/viewer/plugins/lineprofile.py:167-168 | the selected index range satisfies `lo <= hi <= n` |
| `PySlice.RangeSelects` | skimage/viewer/plugins/lineprofile.py:167-168 | index `i` is selected exactly when `0 <= i < n` and it lies between the wrapped start and stop (Python's definition) |
| `PySlice.RangeInBounds` | skimage/viewer/plugins/lineprofile.py:167-168 | bounds already inside the sequence are taken unchanged, so the slice has `stop - start` elements |
| `PySlice.Bound` | skimage/viewer/plugins/lineprofile.py:167-168 | definition of one Python slice bound: the adjusted bound lies in `[0, n]`, and a bound that is already in range after wrapping is kept |
| `PySlice.Len` | skimage/viewer/plugins/lineprofile.py:167-168 | definition of the element count of `s[start:stop]`: never more than `n`; `RangeInBounds` and `NegativeStartWraps` give its value |
| `PySlice.NegativeStartWraps` | skimage/viewer/plugins/lineprofile.py:168 | a negative start counts from the end, so the slice is empty when the wrapped start reaches the stop |
| `PySlice.Take` | skimage/viewer/plugins/lineprofile.py:167-168 | `s[start:stop]` has `Len` elements, and element `k` is `s[lo + k]` |
| `NdArray.SumBounds` | skimage/viewer/plugins/lineprofile.py:169 | a sum of `n` elements bounded by `lo` and `hi` lies between `n * lo` and `n * hi` |
| `NdArray.MeanBounds` | skimage/viewer/plugins/lineprofile.py:169 | a mean lies between any bounds of its elements |
| `NdArray.MeanOfConstant` | skimage/viewer/plugins/lineprofile.py:169 | the mean of a constant sequence is that constant |
| `NdArray.Column` | skimage/viewer/plugins/lineprofile.py:201 | definition of numpy's `m[:, j]`: `h` entries, entry `i` is `m[i][j]` |
| `NdArray.RowMeans` | skimage/viewer/plugins/lineprofile.py:169 | definition of numpy's `m.mean(axis=1)`: one exact mean per row; `RowMeansWithin` bounds it |
| `NdArray.ColumnMeans` | skimage/viewer/plugins/lineprofile.py:201 | definition of numpy's `m.mean(axis=0)`: one exact mean per column; `ColumnMeansWithin` bounds it |
| `NdArray.RowMeansWithin` | skimage/viewer/plugins/lineprofile.py:169 | when every entry lies in `[lo, hi]`, so does every row mean |
| `NdArray.ColumnMeansWithin` | skimage/viewer/plugins/lineprofile.py:201 | when every entry lies in `[lo, hi]`, so does every column mean |
| `NdArray.Crop` | skimage/viewer/plugins/lineprofile.py:167-168 | `m[r0:r1, c0:c1]` is `Len(r0, r1, h)` by `Len(c0, c1, w)`, each row is the column slice of the matching image row, and entry `(i, j)` is `m[rlo + i][clo + j]` |
| `NdArray.Channel` | skimage/viewer/plugins/lineprofile.py:174 | definition of numpy's channel index `c[..., k]`: an `h` by `w` grid whose entry `(i, j)` is `c[i][j][k]` |
| `NdArray.FirstChannels` | skimage/viewer/plugins/lineprofile.py:171-181 | definition of `c[..., :n]`, what the three loop passes build: each pixel keeps its first `n` channels |
| `NdArray.NewAxis` | skimage/viewer/plugins/lineprofile.py:179-181 | definition of `p[..., np.newaxis]`: a one-channel array whose pixel `(i, j)` is `[p[i][j]]` |
| `NdArray.NewAxisChannel` | skimage/viewer/plugins/lineprofile.py:179-181 | adding the axis and then taking channel 0 gives back `p` |
| `NdArray.ConcatLast` | skimage/viewer/plugins/lineprofile.py:175-176 | definition of `np.concatenate((c, p[..., np.newaxis]), axis=2)`: `d + 1` channels, with `p[i][j]` appended to each pixel |
| `NdArray.ConcatLastChannels` | skimage/viewer/plugins/lineprofile.py:175-176 | after concatenation, channels below `d` are those of `c` and channel `d` is `p` |
| `NdArray.MeanAxis1` | skimage/viewer/plugins/lineprofile.py:182 | definition of `c.mean(axis=1)`: an `h` by `d` grid whose entry `(i, k)` is the mean of row `i` of channel `k` |
| `NdArray.MeanAxis1Within` | skimage/viewer/plugins/lineprofile.py:182 | when channel `k` lies in `[lo, hi]`, so does column `k` of `c.mean(axis=1)` |
| `NdArray.MeanAxis0` | skimage/viewer/plugins/lineprofile.py:201 | definition of `c.mean(axis=0)`: a `w` by `d` grid whose entry `(j, k)` is the mean of column `j` of channel `k` |
| `NdArray.MeanAxis0Within` | skimage/viewer/plugins/lineprofile.py:201 | when channel `k` lies in `[lo, hi]`, so does column `k` of `c.mean(axis=0)` |
| `NdArray.CropChannel` | skimage/viewer/plugins/lineprofile.py:173-181 | cropping then taking channel `k` equals taking channel `k` then cropping |
| `NdArray.FirstChannelsChannel` | skimage/viewer/plugins/lineprofile.py:171-182 | keeping the first `n > k` channels leaves channel `k` unchanged |
| `NdArray.StackChannel` | skimage/viewer/plugins/lineprofile.py:171-181 | the first pass of the loop starts the stack with channel 0, and each later pass appends channel `i`, so after pass `i` the stack is the first `i + 1` channels |
| `LineProfile.Classify` | skimage/viewer/plugins/lineprofile.py:162-204 | vertical iff `x1 == x2`; horizontal iff `x1 != x2 && y1 == y2`; the oblique path (and its `dy / dx`) is reached iff `dx != 0 && dy != 0` |
| `LineProfile.GrayVertical` | skimage/viewer/plugins/lineprofile.py:166-169 | one single-column row per band row, which is `max - min + 1` rows when in bounds; entry `i` is the mean of image row `rlo + i` over columns `x - lw/2 : x + lw/2 + 1` |
| `LineProfile.GrayHorizontal` | skimage/viewer/plugins/lineprofile.py:185-188 | one single-column row per band row `y - lw/2 : y + lw/2 + 1` (not per column); entry `i` is the mean of that row over `min(x) : max(x) + 1` |
| `LineProfile.ColorVertical` | skimage/viewer/plugins/lineprofile.py:170-182 | the vertical colour profile has one row per band row and exactly 3 columns |
| `LineProfile.ColorHorizontal` | skimage/viewer/plugins/lineprofile.py:190-201 | the horizontal colour profile has one row per column `min(x) : max(x) + 1` and exactly 3 columns |
| `LineProfile.ColorVerticalByChannel` | skimage/viewer/plugins/lineprofile.py:170-182 | column `k < 3` of the vertical colour profile equals the grayscale vertical profile of channel `k` |
| `LineProfile.ColorHorizontalByChannel` | skimage/viewer/plugins/lineprofile.py:190-201 | entry `(j, k)` of the horizontal colour profile is the mean of channel `k` over the band rows in column `j` |
| `LineProfile.ProfileSpec` | skimage/viewer/plugins/lineprofile.py:159-204 | the oblique outcome occurs exactly on the oblique path, with `dx != 0 && dy != 0`; `IndexError` occurs exactly for a colour image with fewer than 3 channels on a fast path; a profile carries 1 column (grayscale) or 3 (colour), even when it is empty, and every row has that many entries |
| `LineProfile.StackVertical` | skimage/viewer/plugins/lineprofile.py:170-182 | the stacking loop raises `IndexError` when there are fewer than 3 channels, and otherwise returns `img[rows, cols, :3].mean(axis=1)` |
| `LineProfile.StackHorizontal` | skimage/viewer/plugins/lineprofile.py:189-201 | the stacking loop raises `IndexError` when there are fewer than 3 channels, and otherwise returns `img[rows, cols, :3].mean(axis=0)` |
| `LineProfile.ProfileLine` | skimage/viewer/plugins/lineprofile.py:159-203 | the dispatch with its stacking loops returns exactly `ProfileSpec` |
| `LineProfileProperties.SwapEndpoints` | skimage/viewer/plugins/lineprofile.py:165-201 | swapping `point1` and `point2` leaves every fast-path outcome identical |
| `LineProfileProperties.LengthIgnoresWidth` | skimage/viewer/plugins/lineprofile.py:165-201 | the profile length does not depend on `linewidth` on the vertical paths and the colour horizontal path |
| `LineProfileProperties.ConstantGrayVertical` | skimage/viewer/plugins/lineprofile.py:166-169 | on a constant grayscale image every vertical profile entry is `[v]` |
| `LineProfileProperties.ConstantGrayHorizontal` | skimage/viewer/plugins/lineprofile.py:185-188 | on a constant grayscale image every horizontal profile entry is `[v]` |
| `LineProfileProperties.ConstantColorVertical` | skimage/viewer/plugins/lineprofile.py:170-182 | with constant channels `v[0..3]` every vertical colour profile row is `v` |
| `LineProfileProperties.ConstantColorHorizontal` | skimage/viewer/plugins/lineprofile.py:190-201 | with constant channels `v[0..3]` every horizontal colour profile row is `v` |
| `LineProfileProperties.HorizontalLengths` | skimage/viewer/plugins/lineprofile.py:184-201 | with the band in bounds, the grayscale horizontal profile has `2 * (lw / 2) + 1` entries and the colour one has `max(x) - min(x) + 1` |
| `LineProfileProperties.ColorHorizontalCountsColumns` | skimage/viewer/plugins/lineprofile.py:190-201 | the line `(1, 5)` to `(8, 5)` on a 10 by 10 image with channels `(1, 2, 3)` gives 8 rows, each `[1, 2, 3]` |
| `LineProfileProperties.EmptyImageKeepsColumns` | skimage/viewer/plugins/lineprofile.py:128-138 | an image with no rows gives an empty profile with 1 column (grayscale) or 3 (colour), the `shape[1]` that `reset_axes` tests |
| `LineProfileProperties.LeftEdgeBandWraps` | skimage/viewer/plugins/lineprofile.py:167-168 | on an image at least 3 columns wide, at `x == 0` with width 3 the column band wraps and is empty, so the means are undefined; at `x == 1` the band has 3 columns |

## Left out

- The oblique path (lines 203-229) is left out. It uses floating-point `arctan2`, `cos`, `hypot` and `linspace`, and samples through `scipy.ndimage.map_coordinates`, whose interpolation is not part of this model. The model only reports that control reaches it, with nonzero `dx` and `dy`.
- The `LineProfile` plugin class (lines 14-138) is left out. It is GUI plumbing: matplotlib axes, the line tool, redraw, printing and warnings.
- Fractional coordinates and widths are left out. Coordinates and `linewidth` are integers.
- numpy 1.12 and later are left out. Lines 160-161 make every slice bound a float, and those versions raise `TypeError` on it. The model follows the older truncating behaviour on every fast path.
- Float equality of coordinates above 2^53 is left out. The branch tests at lines 165 and 184 compare exact integers in the model.
- Empty means are left out. numpy returns NaN with a warning for the mean of an empty slice. Each path instead requires that no averaged group is empty; an empty along-line slice (an empty profile) is still allowed.
- The exception mechanics of the colour paths are left out. The `NameError` on the first pass and the bare `except` are modelled by their effect: pass 0 starts the stack, and a missing channel gives `IndexError`.
- Images of rank other than 2 or 3 are left out. The source sends every non-2-D image down the colour path.
- Floating-point rounding and dtypes are left out. Values are exact reals, so numpy's conversion of integer images to `float64` means is not modelled.
- Views versus copies are left out. numpy slices are views, but the model works on values, and aliasing is not captured.
- `LineProfile.ColorVertical`: its own contract states only the shape; the per-channel values are stated by `ColorVerticalByChannel`.
- `LineProfile.ColorHorizontal`: its own contract states only the shape; the per-channel values are stated by `ColorHorizontalByChannel`.
