/**
  Global min-max normalisation of 3D keypoints.

  Two lists of keypoint records are combined, the global minimum, maximum and
  range of each of the three axes are computed over the combined list, and each
  record is rescaled into a square box whose side is the smaller of the target
  width and height.

  Floating-point numbers are modelled as exact `real`s: rounding is abstracted away.
 */
module Keypoints {

  datatype Option<T> = None | Some(value: T) {
    /** The value, or `default` when there is none (the `??` operator). */
    function GetOr(default: T): (r: T)
      ensures Some? ==> r == value
      ensures None? ==> r == default
    {
      match this
      case Some(v) => v
      case None => default
    }
  }

  /** A keypoint record: an optional identifier and its coordinates (x, y, z expected). */
  datatype Keypoint3D = Keypoint3D(id: Option<int>, keypoints: seq<real>)

  /** The target box of normalisation. */
  datatype Size = Size(width: real, height: real)

  /** Global bounds of one axis; the empty list gives the defaults 0 and 1. */
  datatype AxisBounds = AxisBounds(lo: real, hi: real) {
    function Range(): (r: real)
      ensures lo + r == hi
    {
      hi - lo
    }
  }

  /** Global bounds of the three axes. */
  datatype GlobalBounds = GlobalBounds(x: AxisBounds, y: AxisBounds, z: AxisBounds)

  /** The target size used by the reports: 100 by 100. */
  const TARGET_SIZE := Size(100.0, 100.0)

  // ---------------------------------------------------------------------------
  // Per-axis extraction
  // ---------------------------------------------------------------------------

  /** True when `record` has a coordinate at index `axis`. */
  predicate HasAxis(record: Keypoint3D, axis: nat) {
    axis < |record.keypoints|
  }

  /**
    The coordinate at index `axis` of every record that has one, in order;
    records that are too short are skipped.
   */
  function AxisValues(data: seq<Keypoint3D>, axis: nat): (vs: seq<real>)
    ensures |vs| <= |data|
    ensures |vs| == |data| <==> forall j :: 0 <= j < |data| ==> HasAxis(data[j], axis)
  {
    if data == [] then []
    else
      (if HasAxis(data[0], axis) then [data[0].keypoints[axis]] else [])
      + AxisValues(data[1..], axis)
  }

  /** Extraction over a single record keeps its coordinate exactly when it is present. */
  lemma AxisValuesSingleton(record: Keypoint3D, axis: nat)
    ensures AxisValues([record], axis)
            == if HasAxis(record, axis) then [record.keypoints[axis]] else []
  {}

  /** Extraction distributes over concatenation, so it keeps the order of the records. */
  lemma {:induction false} AxisValuesAppend(a: seq<Keypoint3D>, b: seq<Keypoint3D>, axis: nat)
    ensures AxisValues(a + b, axis) == AxisValues(a, axis) + AxisValues(b, axis)
  {
    if a == [] {
      assert a + b == b;
    } else {
      assert (a + b)[0] == a[0];
      assert (a + b)[1..] == a[1..] + b;
      AxisValuesAppend(a[1..], b, axis);
    }
  }

  /** A record too short for `axis` contributes nothing to that axis, wherever it stands. */
  lemma AxisValuesSkipsShort(a: seq<Keypoint3D>, record: Keypoint3D, b: seq<Keypoint3D>, axis: nat)
    requires !HasAxis(record, axis)
    ensures AxisValues(a + [record] + b, axis) == AxisValues(a + b, axis)
  {
    AxisValuesAppend(a + [record], b, axis);
    AxisValuesAppend(a, [record], axis);
    AxisValuesAppend(a, b, axis);
    AxisValuesSingleton(record, axis);
  }

  /** When every record has the axis, the extracted list is the axis column, index for index. */
  lemma {:induction false} AxisValuesColumn(data: seq<Keypoint3D>, axis: nat)
    requires forall j :: 0 <= j < |data| ==> HasAxis(data[j], axis)
    ensures |AxisValues(data, axis)| == |data|
    ensures forall j :: 0 <= j < |data| ==> AxisValues(data, axis)[j] == data[j].keypoints[axis]
  {
    if data != [] {
      AxisValuesColumn(data[1..], axis);
    }
  }

  /** A value is extracted exactly when some record has it at index `axis`. */
  lemma {:induction false} AxisValuesMembership(data: seq<Keypoint3D>, axis: nat, v: real)
    ensures v in AxisValues(data, axis)
            <==> exists j :: 0 <= j < |data| && HasAxis(data[j], axis) && data[j].keypoints[axis] == v
  {
    if data != [] {
      AxisValuesMembership(data[1..], axis, v);
      if v in AxisValues(data[1..], axis) {
        var j :| 0 <= j < |data[1..]| && HasAxis(data[1..][j], axis) && data[1..][j].keypoints[axis] == v;
        assert data[j + 1] == data[1..][j];
      }
      if exists j :: 0 <= j < |data| && HasAxis(data[j], axis) && data[j].keypoints[axis] == v {
        var j :| 0 <= j < |data| && HasAxis(data[j], axis) && data[j].keypoints[axis] == v;
        if j > 0 {
          assert data[1..][j - 1] == data[j];
        }
      }
    }
  }

  // ---------------------------------------------------------------------------
  // Global bounds
  // ---------------------------------------------------------------------------

  /** The least element of `s`, or none when `s` is empty. */
  function Minimum(s: seq<real>): (r: Option<real>)
    ensures r.None? <==> |s| == 0
    ensures r.Some? ==> r.value in s && forall k :: 0 <= k < |s| ==> r.value <= s[k]
  {
    if |s| == 0 then None
    else
      match Minimum(s[1..])
      case None => Some(s[0])
      case Some(m) => Some(if s[0] <= m then s[0] else m)
  }

  /** The greatest element of `s`, or none when `s` is empty. */
  function Maximum(s: seq<real>): (r: Option<real>)
    ensures r.None? <==> |s| == 0
    ensures r.Some? ==> r.value in s && forall k :: 0 <= k < |s| ==> s[k] <= r.value
  {
    if |s| == 0 then None
    else
      match Maximum(s[1..])
      case None => Some(s[0])
      case Some(m) => Some(if s[0] >= m then s[0] else m)
  }

  /** Minimum and maximum of an extracted list, defaulting to 0 and 1. */
  function AxisBoundsOf(values: seq<real>): (b: AxisBounds)
    ensures |values| == 0 ==> b == AxisBounds(0.0, 1.0)
    ensures |values| > 0 ==> b.lo in values && b.hi in values
    ensures forall k :: 0 <= k < |values| ==> b.lo <= values[k] <= b.hi
    ensures b.lo <= b.hi
  {
    AxisBounds(Minimum(values).GetOr(0.0), Maximum(values).GetOr(1.0))
  }

  /** True when every element of `values` is the same. */
  predicate AllEqual(values: seq<real>) {
    forall j, k :: 0 <= j < |values| && 0 <= k < |values| ==> values[j] == values[k]
  }

  /** An axis range is never negative, and it is zero exactly when the axis is non-empty and constant. */
  lemma RangeZeroIffConstant(values: seq<real>)
    ensures AxisBoundsOf(values).Range() >= 0.0
    ensures |values| == 0 ==> AxisBoundsOf(values).Range() == 1.0
    ensures AxisBoundsOf(values).Range() == 0.0 <==> |values| > 0 && AllEqual(values)
  {}

  /**
    Global bounds of every axis over the combined list `tw + ca`. Their relation to
    the records is stated by GlobalBoundsSplit, CoordinateWithinBounds and
    GuardFailsIffConstantAxis.
   */
  function ComputeGlobalBounds(tw: seq<Keypoint3D>, ca: seq<Keypoint3D>): (g: GlobalBounds)
    ensures g.x.Range() >= 0.0 && g.y.Range() >= 0.0 && g.z.Range() >= 0.0
    ensures tw + ca == [] ==> g == GlobalBounds(AxisBounds(0.0, 1.0), AxisBounds(0.0, 1.0), AxisBounds(0.0, 1.0))
  {
    var all := tw + ca;
    GlobalBounds(AxisBoundsOf(AxisValues(all, 0)), AxisBoundsOf(AxisValues(all, 1)), AxisBoundsOf(AxisValues(all, 2)))
  }

  /** The bounds over `tw + ca` are the bounds over the concatenated extractions of each list. */
  lemma GlobalBoundsSplit(tw: seq<Keypoint3D>, ca: seq<Keypoint3D>)
    ensures ComputeGlobalBounds(tw, ca).x == AxisBoundsOf(AxisValues(tw, 0) + AxisValues(ca, 0))
    ensures ComputeGlobalBounds(tw, ca).y == AxisBoundsOf(AxisValues(tw, 1) + AxisValues(ca, 1))
    ensures ComputeGlobalBounds(tw, ca).z == AxisBoundsOf(AxisValues(tw, 2) + AxisValues(ca, 2))
  {
    AxisValuesAppend(tw, ca, 0);
    AxisValuesAppend(tw, ca, 1);
    AxisValuesAppend(tw, ca, 2);
  }

  /** Every coordinate of every record of `data` lies within the global bounds of its axis. */
  lemma CoordinateWithinBounds(data: seq<Keypoint3D>, j: nat, axis: nat)
    requires j < |data| && HasAxis(data[j], axis)
    ensures AxisBoundsOf(AxisValues(data, axis)).lo <= data[j].keypoints[axis]
    ensures data[j].keypoints[axis] <= AxisBoundsOf(AxisValues(data, axis)).hi
  {
    var vs := AxisValues(data, axis);
    AxisValuesMembership(data, axis, data[j].keypoints[axis]);
    var k :| 0 <= k < |vs| && vs[k] == data[j].keypoints[axis];
  }

  // ---------------------------------------------------------------------------
  // Normalisation
  // ---------------------------------------------------------------------------

  /** The side of the target square: the smaller of width and height. */
  function Side(size: Size): (s: real)
    ensures s <= size.width && s <= size.height
    ensures s == size.width || s == size.height
  {
    if size.width <= size.height then size.width else size.height
  }

  /** The guard of normalisation: all three ranges strictly positive. */
  predicate GuardPasses(rangeX: real, rangeY: real, rangeZ: real)
    ensures !GuardPasses(rangeX, rangeY, rangeZ) <==> rangeX <= 0.0 || rangeY <= 0.0 || rangeZ <= 0.0
  {
    rangeX > 0.0 && rangeY > 0.0 && rangeZ > 0.0
  }

  /**
    One rescaled coordinate: shifted by the axis minimum and scaled by side / range.
    The result is the `r` with r * range == (v - lo) * side.
   */
  function NormalizeCoordinate(v: real, lo: real, range: real, side: real): (r: real)
    requires range > 0.0
    ensures r * range == (v - lo) * side
  {
    (v - lo) * (side / range)
  }

  /** The axis minimum maps to 0 and minimum plus range to the side. */
  lemma NormalizeCoordinateEndpoints(lo: real, range: real, side: real)
    requires range > 0.0
    ensures NormalizeCoordinate(lo, lo, range, side) == 0.0
    ensures NormalizeCoordinate(lo + range, lo, range, side) == side
  {}

  /** With a non-negative side, rescaling preserves order. */
  lemma NormalizeCoordinateMonotone(u: real, v: real, lo: real, range: real, side: real)
    requires range > 0.0 && side >= 0.0 && u <= v
    ensures NormalizeCoordinate(u, lo, range, side) <= NormalizeCoordinate(v, lo, range, side)
  {}

  /** With a non-negative side, a value between lo and lo + range maps into [0, side]. */
  lemma NormalizeCoordinateInBox(v: real, lo: real, range: real, side: real)
    requires range > 0.0 && side >= 0.0 && lo <= v <= lo + range
    ensures 0.0 <= NormalizeCoordinate(v, lo, range, side) <= side
  {}

  /**
    Rescales one record with the given global minima and ranges. When a range is
    not positive the record is returned unchanged; otherwise coordinates 0, 1 and 2
    are read without a bounds check, so they must exist.
   */
  function NormalizeKeypoint3D(keypoint: Keypoint3D, minX: real, rangeX: real, minY: real, rangeY: real,
                               minZ: real, rangeZ: real, size: Size): (r: Keypoint3D)
    requires GuardPasses(rangeX, rangeY, rangeZ) ==> |keypoint.keypoints| >= 3
    ensures !GuardPasses(rangeX, rangeY, rangeZ) ==> r == keypoint
    ensures GuardPasses(rangeX, rangeY, rangeZ) ==> r.id == keypoint.id && |r.keypoints| == 3
    ensures GuardPasses(rangeX, rangeY, rangeZ) ==>
              && r.keypoints[0] * rangeX == (keypoint.keypoints[0] - minX) * Side(size)
              && r.keypoints[1] * rangeY == (keypoint.keypoints[1] - minY) * Side(size)
              && r.keypoints[2] * rangeZ == (keypoint.keypoints[2] - minZ) * Side(size)
  {
    if !GuardPasses(rangeX, rangeY, rangeZ) then keypoint
    else
      var side := Side(size);
      Keypoint3D(keypoint.id, [NormalizeCoordinate(keypoint.keypoints[0], minX, rangeX, side),
                               NormalizeCoordinate(keypoint.keypoints[1], minY, rangeY, side),
                               NormalizeCoordinate(keypoint.keypoints[2], minZ, rangeZ, side)])
  }

  /** True when the record may be normalised against `g`: it has three coordinates if the guard passes. */
  predicate Normalizable(keypoint: Keypoint3D, g: GlobalBounds) {
    GuardPasses(g.x.Range(), g.y.Range(), g.z.Range()) ==> |keypoint.keypoints| >= 3
  }

  /** Normalisation against global bounds, as the reports call it. */
  function Normalize(keypoint: Keypoint3D, g: GlobalBounds, size: Size): (r: Keypoint3D)
    requires Normalizable(keypoint, g)
    ensures r.id == keypoint.id
    ensures !GuardPasses(g.x.Range(), g.y.Range(), g.z.Range()) ==> r == keypoint
    ensures GuardPasses(g.x.Range(), g.y.Range(), g.z.Range()) ==>
              && |r.keypoints| == 3
              && r.keypoints[0] * g.x.Range() == (keypoint.keypoints[0] - g.x.lo) * Side(size)
              && r.keypoints[1] * g.y.Range() == (keypoint.keypoints[1] - g.y.lo) * Side(size)
              && r.keypoints[2] * g.z.Range() == (keypoint.keypoints[2] - g.z.lo) * Side(size)
  {
    NormalizeKeypoint3D(keypoint, g.x.lo, g.x.Range(), g.y.lo, g.y.Range(), g.z.lo, g.z.Range(), size)
  }

  /** The guard fails exactly when some axis of the combined data is non-empty and constant. */
  lemma GuardFailsIffConstantAxis(tw: seq<Keypoint3D>, ca: seq<Keypoint3D>)
    ensures var g := ComputeGlobalBounds(tw, ca);
            !GuardPasses(g.x.Range(), g.y.Range(), g.z.Range())
            <==> || (|AxisValues(tw + ca, 0)| > 0 && AllEqual(AxisValues(tw + ca, 0)))
                 || (|AxisValues(tw + ca, 1)| > 0 && AllEqual(AxisValues(tw + ca, 1)))
                 || (|AxisValues(tw + ca, 2)| > 0 && AllEqual(AxisValues(tw + ca, 2)))
  {
    RangeZeroIffConstant(AxisValues(tw + ca, 0));
    RangeZeroIffConstant(AxisValues(tw + ca, 1));
    RangeZeroIffConstant(AxisValues(tw + ca, 2));
  }

  /** Against any bounds whose guard passes, a record at the minima normalises to the origin. */
  lemma NormalizeAtMinima(keypoint: Keypoint3D, g: GlobalBounds, size: Size)
    requires GuardPasses(g.x.Range(), g.y.Range(), g.z.Range())
    requires |keypoint.keypoints| >= 3
    requires keypoint.keypoints[0] == g.x.lo && keypoint.keypoints[1] == g.y.lo && keypoint.keypoints[2] == g.z.lo
    ensures Normalize(keypoint, g, size) == Keypoint3D(keypoint.id, [0.0, 0.0, 0.0])
  {
    var side := Side(size);
    NormalizeCoordinateEndpoints(g.x.lo, g.x.Range(), side);
    NormalizeCoordinateEndpoints(g.y.lo, g.y.Range(), side);
    NormalizeCoordinateEndpoints(g.z.lo, g.z.Range(), side);
  }

  /** Against any bounds whose guard passes, a record at the maxima normalises to the far corner. */
  lemma NormalizeAtMaxima(keypoint: Keypoint3D, g: GlobalBounds, size: Size)
    requires GuardPasses(g.x.Range(), g.y.Range(), g.z.Range())
    requires |keypoint.keypoints| >= 3
    requires keypoint.keypoints[0] == g.x.hi && keypoint.keypoints[1] == g.y.hi && keypoint.keypoints[2] == g.z.hi
    ensures var s := Side(size); Normalize(keypoint, g, size) == Keypoint3D(keypoint.id, [s, s, s])
  {
    var side := Side(size);
    NormalizeCoordinateEndpoints(g.x.lo, g.x.Range(), side);
    NormalizeCoordinateEndpoints(g.y.lo, g.y.Range(), side);
    NormalizeCoordinateEndpoints(g.z.lo, g.z.Range(), side);
  }

  /** A record whose first three coordinates sit at the global minima normalises to the origin. */
  lemma NormalizeMinimaToOrigin(tw: seq<Keypoint3D>, ca: seq<Keypoint3D>, keypoint: Keypoint3D, size: Size)
    requires var g := ComputeGlobalBounds(tw, ca);
             GuardPasses(g.x.Range(), g.y.Range(), g.z.Range())
             && |keypoint.keypoints| >= 3
             && keypoint.keypoints[0] == g.x.lo && keypoint.keypoints[1] == g.y.lo && keypoint.keypoints[2] == g.z.lo
    ensures Normalize(keypoint, ComputeGlobalBounds(tw, ca), size) == Keypoint3D(keypoint.id, [0.0, 0.0, 0.0])
  {
    NormalizeAtMinima(keypoint, ComputeGlobalBounds(tw, ca), size);
  }

  /** A record whose first three coordinates sit at the global maxima normalises to min(width, height) on every axis. */
  lemma NormalizeMaximaToCorner(tw: seq<Keypoint3D>, ca: seq<Keypoint3D>, keypoint: Keypoint3D, size: Size)
    requires var g := ComputeGlobalBounds(tw, ca);
             GuardPasses(g.x.Range(), g.y.Range(), g.z.Range())
             && |keypoint.keypoints| >= 3
             && keypoint.keypoints[0] == g.x.hi && keypoint.keypoints[1] == g.y.hi && keypoint.keypoints[2] == g.z.hi
    ensures var s := Side(size);
            Normalize(keypoint, ComputeGlobalBounds(tw, ca), size) == Keypoint3D(keypoint.id, [s, s, s])
  {
    NormalizeAtMaxima(keypoint, ComputeGlobalBounds(tw, ca), size);
  }

  /**
    Every record of the combined data with three coordinates, normalised against the
    global bounds, keeps its identifier and lands in the box [0, side]^3 when the side
    is non-negative and the guard passes.
   */
  lemma NormalizeDatasetIntoBox(tw: seq<Keypoint3D>, ca: seq<Keypoint3D>, j: nat, size: Size)
    requires j < |tw + ca| && |(tw + ca)[j].keypoints| >= 3 && Side(size) >= 0.0
    requires var g := ComputeGlobalBounds(tw, ca); GuardPasses(g.x.Range(), g.y.Range(), g.z.Range())
    ensures var r := Normalize((tw + ca)[j], ComputeGlobalBounds(tw, ca), size);
            && r.id == (tw + ca)[j].id
            && |r.keypoints| == 3
            && 0.0 <= r.keypoints[0] <= Side(size)
            && 0.0 <= r.keypoints[1] <= Side(size)
            && 0.0 <= r.keypoints[2] <= Side(size)
  {
    var all := tw + ca;
    var g := ComputeGlobalBounds(tw, ca);
    var side := Side(size);
    CoordinateWithinBounds(all, j, 0);
    CoordinateWithinBounds(all, j, 1);
    CoordinateWithinBounds(all, j, 2);
    NormalizeCoordinateInBox(all[j].keypoints[0], g.x.lo, g.x.Range(), side);
    NormalizeCoordinateInBox(all[j].keypoints[1], g.y.lo, g.y.Range(), side);
    NormalizeCoordinateInBox(all[j].keypoints[2], g.z.lo, g.z.Range(), side);
  }

  // ---------------------------------------------------------------------------
  // Reports
  // ---------------------------------------------------------------------------

  /** How many records a report shows: the first ten, or fewer. */
  const REPORT_LIMIT := 10

  /**
    The lines of one report: for each of the first ten (or fewer) records, its original
    coordinates paired with its normalised coordinates. Printing is not modelled.
   */
  function ReportLines(records: seq<Keypoint3D>, g: GlobalBounds, size: Size): (lines: seq<(seq<real>, seq<real>)>)
    requires ReportNormalizable(records, g)
    ensures |lines| == if |records| < REPORT_LIMIT then |records| else REPORT_LIMIT
    ensures forall k :: 0 <= k < |lines| ==>
              lines[k].0 == records[k].keypoints && lines[k].1 == Normalize(records[k], g, size).keypoints
  {
    var shown := if |records| < REPORT_LIMIT then records else records[..REPORT_LIMIT];
    seq(|shown|, k requires 0 <= k < |shown| => (shown[k].keypoints, Normalize(shown[k], g, size).keypoints))
  }

  /** True when the first ten (or fewer) records of `records` may be normalised against `g`. */
  predicate ReportNormalizable(records: seq<Keypoint3D>, g: GlobalBounds) {
    forall k :: 0 <= k < |records| && k < REPORT_LIMIT ==> Normalizable(records[k], g)
  }

  /**
    Both reports of the script: the first ten (or fewer) records of each input list,
    normalised against the global bounds of the combined list into TARGET_SIZE.
   */
  function Reports(tw: seq<Keypoint3D>, ca: seq<Keypoint3D>): (out: (seq<(seq<real>, seq<real>)>, seq<(seq<real>, seq<real>)>))
    requires ReportNormalizable(tw, ComputeGlobalBounds(tw, ca)) && ReportNormalizable(ca, ComputeGlobalBounds(tw, ca))
    ensures |out.0| == (if |tw| < REPORT_LIMIT then |tw| else REPORT_LIMIT)
    ensures |out.1| == (if |ca| < REPORT_LIMIT then |ca| else REPORT_LIMIT)
    ensures forall k :: 0 <= k < |out.0| ==>
              out.0[k] == (tw[k].keypoints, Normalize(tw[k], ComputeGlobalBounds(tw, ca), TARGET_SIZE).keypoints)
    ensures forall k :: 0 <= k < |out.1| ==>
              out.1[k] == (ca[k].keypoints, Normalize(ca[k], ComputeGlobalBounds(tw, ca), TARGET_SIZE).keypoints)
  {
    var g := ComputeGlobalBounds(tw, ca);
    (ReportLines(tw, g, TARGET_SIZE), ReportLines(ca, g, TARGET_SIZE))
  }

  // ---------------------------------------------------------------------------
  // Worked examples
  // ---------------------------------------------------------------------------

  /** Empty inputs give the defaults 0, 1 and range 1 on every axis, so the guard passes. */
  lemma EmptyDataDefaults()
    ensures var g := ComputeGlobalBounds([], []);
            && g == GlobalBounds(AxisBounds(0.0, 1.0), AxisBounds(0.0, 1.0), AxisBounds(0.0, 1.0))
            && g.x.Range() == 1.0 && g.y.Range() == 1.0 && g.z.Range() == 1.0
            && GuardPasses(g.x.Range(), g.y.Range(), g.z.Range())
  {}

  /** The bounds of a two-element list in increasing order are its two elements. */
  lemma BoundsOfPair(a: real, b: real)
    requires a <= b
    ensures AxisBoundsOf([a, b]) == AxisBounds(a, b)
  {}

  /** The two records of the worked example: (0,0,0) with id 1 and (10,10,10) with id 2. */
  const EXAMPLE_RECORDS := [Keypoint3D(Some(1), [0.0, 0.0, 0.0]), Keypoint3D(Some(2), [10.0, 10.0, 10.0])]

  /** The example's global bounds are 0 and 10 on every axis. */
  lemma ExampleBounds()
    ensures ComputeGlobalBounds(EXAMPLE_RECORDS, [])
            == GlobalBounds(AxisBounds(0.0, 10.0), AxisBounds(0.0, 10.0), AxisBounds(0.0, 10.0))
  {
    var tw := EXAMPLE_RECORDS;
    assert tw + [] == tw;
    AxisValuesColumn(tw, 0);
    AxisValuesColumn(tw, 1);
    AxisValuesColumn(tw, 2);
    assert AxisValues(tw, 0) == [0.0, 10.0];
    assert AxisValues(tw, 1) == [0.0, 10.0];
    assert AxisValues(tw, 2) == [0.0, 10.0];
    BoundsOfPair(0.0, 10.0);
  }

  /** In a 100 by 100 box the example normalises to (0,0,0) and (100,100,100). */
  lemma TwoRecordExample()
    ensures var g := ComputeGlobalBounds(EXAMPLE_RECORDS, []);
            && Normalize(EXAMPLE_RECORDS[0], g, TARGET_SIZE) == Keypoint3D(Some(1), [0.0, 0.0, 0.0])
            && Normalize(EXAMPLE_RECORDS[1], g, TARGET_SIZE) == Keypoint3D(Some(2), [100.0, 100.0, 100.0])
  {
    var tw := EXAMPLE_RECORDS;
    ExampleBounds();
    NormalizeMinimaToOrigin(tw, [], tw[0], TARGET_SIZE);
    NormalizeMaximaToCorner(tw, [], tw[1], TARGET_SIZE);
  }
}
