# NormalizeKeypoints in Dafny

This project is a Dafny model of the NormalizeKeypoints playground script. The
script loads two lists of 3D keypoint records, `TW_Keypoints` and
`CA_Keypoints`, and combines them. Over the combined list it computes a global
minimum, maximum and range for each axis. It then rescales each record into a
square box whose side is `min(width, height)` of the target size.

Everything lives in one module, `Keypoints`, in `keypoints.dfy`. The module
mirrors the single source file `Contents.swift`, which is pure: it builds lists
with comprehensions and takes minima, maxima and straight-line arithmetic. So
the model uses datatypes, functions and lemmas, with no classes and no loops.

- `Keypoint3D(id: Option<int>, keypoints: seq<real>)` is the record.
- `CGFloat` is modelled as `real`, so the arithmetic is exact and rounding is
  abstracted away. `CGSize` is `Size(width, height)`.
- The three top-level per-axis extractions are modelled by `AxisValues(data, axis)`.
- The six global constants and three ranges are modelled by
  `ComputeGlobalBounds(tw, ca)`, which returns one `AxisBounds(lo, hi)` per
  axis, with `Range() == hi - lo`. Swift's `min()`/`max()` return optionals,
  modelled as `Minimum`/`Maximum` returning `Option<real>`. The `?? 0` and
  `?? 1` defaults are `GetOr`.
- `normalizeKeypoint3D` keeps its own signature, with six scalars and a size.
  `Normalize` passes it the fields of a `GlobalBounds` value. The Swift
  function reads coordinates 0 to 2 unchecked, and only after its guard. The
  model therefore requires `|keypoints| >= 3` only when the guard passes.
  Records with fewer coordinates are still accepted when the guard fails, and
  are returned unchanged, as in the source.
- The two reporting loops become `ReportLines`. For the first ten records (or
  fewer) it pairs the original coordinates with the normalised ones.
  `Reports` applies it to both input lists, with the bounds of `tw + ca` and
  the 100 by 100 target size. Printing is not modelled.

## Model

| member | source | states |
|---|---|---|
| `Keypoints.AxisValues` | Contents.swift:35-37 | The extracted list is no longer than the record list. Its length equals the record list's length exactly when every record has a coordinate at that index. |
| `Keypoints.AxisValuesSingleton` | Contents.swift:35-37 | One record contributes `[keypoints[axis]]` when it has that index, and nothing otherwise. |
| `Keypoints.AxisValuesAppend` | Contents.swift:32-37 | Extracting from a concatenation gives the concatenation of the extractions. With the singleton case, this fixes the result as the present coordinates in record order. |
| `Keypoints.AxisValuesSkipsShort` | Contents.swift:35-37 | A record too short for an axis can be removed from any position without changing that axis's extracted list. It is skipped for that axis only. |
| `Keypoints.AxisValuesColumn` | Contents.swift:35-37 | When every record has the axis, the extracted list has one entry per record, and entry `j` is `data[j].keypoints[axis]`. |
| `Keypoints.AxisValuesMembership` | Contents.swift:35-37 | A value is in the extracted list if and only if some record that has the index holds that value there. |
| `Keypoints.Option.GetOr` | Contents.swift:40-45 | The `??` operator: a present value is returned as it is, and a missing one is replaced by the default. |
| `Keypoints.Minimum` | Contents.swift:40-44 | Returns none exactly for the empty list. Otherwise the result is an element of the list and no element is smaller. |
| `Keypoints.Maximum` | Contents.swift:41-45 | Returns none exactly for the empty list. Otherwise the result is an element of the list and no element is larger. |
| `Keypoints.AxisBoundsOf` | Contents.swift:40-45 | An empty list gives min 0 and max 1. A non-empty list gives a min and max that are both elements of it. Every element lies between min and max, and min <= max. |
| `Keypoints.AxisBounds.Range` | Contents.swift:48-50 | The range is the distance from min to max: `min + range == max`. |
| `Keypoints.RangeZeroIffConstant` | Contents.swift:48-50 | The range `max - min` is never negative. It is 0 if and only if the extracted list is non-empty and all its values are equal, so an empty axis has range 1. |
| `Keypoints.ComputeGlobalBounds` | Contents.swift:32-50 | The six global constants and three ranges over `tw + ca`. Every range is at least 0, and two empty lists give min 0 and max 1 on every axis. Its relation to the records is stated by `GlobalBoundsSplit`, `CoordinateWithinBounds` and `GuardFailsIffConstantAxis`. |
| `Keypoints.GlobalBoundsSplit` | Contents.swift:28-37 | The bounds over `tw + ca` are the bounds over the x, y or z values of `tw` followed by those of `ca`. |
| `Keypoints.CoordinateWithinBounds` | Contents.swift:32-45 | For every record of the combined list that has the axis, that coordinate lies within the axis's global min and max. |
| `Keypoints.Side` | Contents.swift:62-64 | The shared numerator is at most the width and at most the height, and it equals one of the two. |
| `Keypoints.GuardPasses` | Contents.swift:60 | The guard's `else` branch, which returns the record unchanged, is taken exactly when some range is at most 0. |
| `Keypoints.NormalizeCoordinate` | Contents.swift:62-68 | For a positive range, the rescaled value `r` is the unique solution of `r * range == (v - min) * side`. |
| `Keypoints.NormalizeCoordinateEndpoints` | Contents.swift:62-68 | The axis minimum maps to 0, and minimum plus range maps to the side. |
| `Keypoints.NormalizeCoordinateMonotone` | Contents.swift:62-68 | When the side is non-negative, rescaling preserves the order of coordinates. |
| `Keypoints.NormalizeCoordinateInBox` | Contents.swift:62-68 | When the side is non-negative, a coordinate in `[min, min + range]` maps into `[0, side]`. |
| `Keypoints.NormalizeKeypoint3D` | Contents.swift:58-70 | If any range is not strictly positive, the record is returned unchanged. Otherwise the result keeps the `id` and has exactly three coordinates. Coordinate `i` is the value `r` with `r * range_i == (keypoints[i] - min_i) * min(w, h)`. Three coordinates are required only when the guard passes. |
| `Keypoints.Normalize` | Contents.swift:75-81 | The call both reports make, with the global minima and ranges taken from one `GlobalBounds` value. The `id` is always kept. If the guard fails, the record is returned unchanged. Otherwise there are three coordinates, and coordinate `i` satisfies `r * range_i == (keypoints[i] - min_i) * min(w, h)`. |
| `Keypoints.GuardFailsIffConstantAxis` | Contents.swift:48-60 | Over the combined data, the guard rejects if and only if some axis's extracted list is non-empty and constant. |
| `Keypoints.NormalizeAtMinima` | Contents.swift:58-70 | Against any bounds whose guard passes, a record whose coordinates 0 to 2 are the minima normalises to `(0, 0, 0)` and keeps its `id`. Any further coordinates are dropped. |
| `Keypoints.NormalizeAtMaxima` | Contents.swift:58-70 | Against any bounds whose guard passes, a record whose coordinates 0 to 2 are the maxima normalises to `(s, s, s)` with `s = min(w, h)`, and keeps its `id`. |
| `Keypoints.NormalizeMinimaToOrigin` | Contents.swift:32-70 | When the guard passes, a record whose coordinates 0 to 2 are the global minima of `tw + ca` normalises to `(0, 0, 0)` and keeps its `id`. The record may have more than three coordinates. |
| `Keypoints.NormalizeMaximaToCorner` | Contents.swift:32-70 | When the guard passes, a record whose coordinates 0 to 2 are the global maxima of `tw + ca` normalises to `(s, s, s)` with `s = min(w, h)` on every axis, and keeps its `id`. |
| `Keypoints.NormalizeDatasetIntoBox` | Contents.swift:32-70 | Take any record of `tw + ca` with three coordinates, a positive guard and a non-negative side. Normalised against the global bounds, it keeps its `id`, has three coordinates, and each lies in `[0, min(w, h)]`. |
| `Keypoints.ReportLines` | Contents.swift:73-83 | A report has `min(|records|, 10)` lines. Line `k` pairs record `k`'s original coordinates with its normalised coordinates. |
| `Keypoints.Reports` | Contents.swift:73-83 | The two reports of the script. Each holds one line for each of the first ten (or fewer) records of `tw`, and of `ca`. Each line pairs a record's original coordinates with its coordinates normalised against the bounds of `tw + ca` into the 100 by 100 target size. |
| `Keypoints.EmptyDataDefaults` | Contents.swift:28-50 | With two empty lists, every axis has min 0, max 1 and range 1, so the guard passes. |
| `Keypoints.ExampleBounds` | Contents.swift:32-50 | The records `(0,0,0)` and `(10,10,10)` have global bounds 0 and 10 on every axis. |
| `Keypoints.TwoRecordExample` | Contents.swift:58-75 | In the 100 by 100 box used by the reports, those two records normalise to `(0,0,0)` and `(100,100,100)`, keeping their ids. |

## Left out

- `loadJSON` (Contents.swift:11-25) is left out because it does bundle lookup, file reads and JSON decoding, all foreign I/O. The two input lists are parameters standing for `loadJSON(...) ?? []`. A missing file, a load failure and an empty file therefore all look like the empty list, as in the source.
- All `print` output is left out: the bounds lines (52-54), the headings, and the `Original:`/`Normalized:` lines. `ReportLines` returns the pairs those lines would show.
- `import PlaygroundSupport` and the platform types are left out. `CGFloat` is exact `real`: IEEE-754 rounding, infinities and NaN are not modelled. NaN would otherwise change what `min()`/`max()` and the `> 0` guard return.
- `Keypoints.NormalizeKeypoint3D`: a record with fewer than three coordinates crashes the source when the guard passes. The model expresses this as a precondition instead of modelling the crash.
