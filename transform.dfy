/**
  The bookkeeping part of the cached-matrix transform: the write-once choice of
  evaluation points (every cell of a reference grid, or a scattered point list),
  the normalised physical extent of the reference domain, and the conversions
  between dense buffers and the per-dimension vectors the sparse matrix works on.
*/
module Transform {
  import opened Exceptions

  /** How the transform is evaluated; UNKNOWN until one of the two modes is chosen. */
  datatype InterpolationMode = Unknown | GridMode | PointsMode

  /** The two refused mode changes. */
  datatype ModeError = ScatteredToRegular | RegularToScattered

  type Point = seq<real>

  /**
    A reference image domain: its size, spacing, origin and direction, and the
    affine map from (continuous) grid indices to physical points that the image
    geometry defines.
  */
  datatype Domain = Domain(
    size: seq<nat>,
    spacing: seq<real>,
    origin: seq<real>,
    direction: seq<seq<real>>,
    toPhysical: seq<real> -> seq<real>)

  /** The domain has `dim` axes and maps `dim`-dimensional indices to `dim`-dimensional points. */
  ghost predicate WellFormed(dom: Domain, dim: nat) {
    && |dom.size| == dim
    && forall ci: seq<real> :: |ci| == dim ==> |dom.toPhysical(ci)| == dim
  }

  /** A dense vector image: its geometry and one vector per pixel, in linear-index order. */
  datatype VectorField = VectorField(
    size: seq<nat>,
    spacing: seq<real>,
    origin: seq<real>,
    direction: seq<seq<real>>,
    buffer: seq<Point>)

  function Zeros(n: nat): (z: seq<real>)
    ensures |z| == n && forall i :: 0 <= i < n ==> z[i] == 0.0
  {
    seq(n, _ => 0.0)
  }

  /** Number of pixels of a region of the given size. */
  function PixelCount(size: seq<nat>): nat {
    if size == [] then 1 else size[0] * PixelCount(size[1..])
  }

  /** The grid index of a linear offset, first axis fastest, for a region starting at index 0. */
  function ComputeIndex(size: seq<nat>, offset: nat): (idx: seq<nat>)
    ensures |idx| == |size|
  {
    if size == [] then []
    else if size[0] == 0 then [0] + ComputeIndex(size[1..], 0)
    else [offset % size[0]] + ComputeIndex(size[1..], offset / size[0])
  }

  /** The linear offset of a grid index, first axis fastest (the inverse of ComputeIndex). */
  function LinearOffset(size: seq<nat>, idx: seq<nat>): nat
    requires |idx| == |size|
  {
    if size == [] then 0 else idx[0] + size[0] * LinearOffset(size[1..], idx[1..])
  }

  predicate InRegion(size: seq<nat>, idx: seq<nat>) {
    |idx| == |size| && forall d :: 0 <= d < |size| ==> idx[d] < size[d]
  }

  lemma MulMonotone(a: nat, b: nat, c: nat)
    requires b <= c
    ensures a * b <= a * c
  {}

  /** Division by s undoes r + s * q when r < s. */
  lemma DivModOf(q: nat, s: nat, r: nat)
    requires r < s
    ensures (r + s * q) / s == q && (r + s * q) % s == r
  {
    var a := r + s * q;
    var k, m := a / s, a % s;
    assert s * k + m == s * q + r;
    if k > q {
      MulMonotone(s, q + 1, k);
      assert false;
    } else if k < q {
      MulMonotone(s, k + 1, q);
      assert false;
    }
  }

  /** Every offset below the pixel count names a cell inside the region, and maps back to itself. */
  lemma {:induction false} ComputeIndexRoundTrip(size: seq<nat>, offset: nat)
    requires offset < PixelCount(size)
    ensures InRegion(size, ComputeIndex(size, offset))
    ensures LinearOffset(size, ComputeIndex(size, offset)) == offset
  {
    if size != [] {
      var s, rest := size[0], size[1..];
      assert s > 0;
      var q, r := offset / s, offset % s;
      assert offset == r + s * q;
      if q >= PixelCount(rest) {
        MulMonotone(s, PixelCount(rest), q);
        assert false;
      }
      ComputeIndexRoundTrip(rest, q);
      var idx := ComputeIndex(size, offset);
      assert idx == [r] + ComputeIndex(rest, q);
      assert idx[1..] == ComputeIndex(rest, q);
      forall d | 0 <= d < |size| ensures idx[d] < size[d] {
        if d > 0 { assert idx[d] == ComputeIndex(rest, q)[d - 1]; }
      }
    }
  }

  /** An in-region first coordinate plus s times an in-range rest stays below the pixel count. */
  lemma OffsetBound(i: nat, s: nat, q: nat, p: nat)
    requires i < s && q < p
    ensures i + s * q < s * p
  {
    MulMonotone(s, q + 1, p);
  }

  /** Every cell inside the region has an offset below the pixel count, from which ComputeIndex recovers it. */
  lemma {:induction false} LinearOffsetRoundTrip(size: seq<nat>, idx: seq<nat>)
    requires InRegion(size, idx)
    ensures LinearOffset(size, idx) < PixelCount(size)
    ensures ComputeIndex(size, LinearOffset(size, idx)) == idx
  {
    if size != [] {
      var s, rest, tail := size[0], size[1..], idx[1..];
      assert InRegion(rest, tail) by {
        forall d | 0 <= d < |rest| ensures tail[d] < rest[d] {
          assert idx[d + 1] < size[d + 1];
        }
      }
      LinearOffsetRoundTrip(rest, tail);
      var q := LinearOffset(rest, tail);
      var offset := LinearOffset(size, idx);
      assert idx[0] < s;
      assert offset == idx[0] + s * q;
      OffsetBound(idx[0], s, q, PixelCount(rest));
      DivModOf(q, s, idx[0]);
      assert ComputeIndex(size, offset) == [offset % s] + ComputeIndex(rest, offset / s);
      assert idx == [idx[0]] + tail;
    }
  }

  /** A grid index as a continuous index. */
  function AsContinuous(idx: seq<nat>): (ci: seq<real>)
    ensures |ci| == |idx|
  {
    seq(|idx|, d requires 0 <= d < |idx| => idx[d] as real)
  }

  /** The physical location of the cell with the given linear offset. */
  function CellLocation(dom: Domain, offset: nat): Point {
    dom.toPhysical(AsContinuous(ComputeIndex(dom.size, offset)))
  }

  /** The physical locations of the first `n` cells, in linear-index order. */
  function GridLocations(dom: Domain, n: nat): (locs: seq<Point>)
    ensures |locs| == n
  {
    if n == 0 then [] else GridLocations(dom, n - 1) + [CellLocation(dom, n - 1)]
  }

  /**
    Location i of the enumeration is the physical point of the cell at linear
    offset i, and while the enumeration stays within the pixel count that cell
    lies inside the region.
  */
  lemma {:induction false} GridLocationsAt(dom: Domain, n: nat, i: nat)
    requires i < n
    ensures GridLocations(dom, n)[i] == CellLocation(dom, i)
    ensures n <= PixelCount(dom.size) ==> InRegion(dom.size, ComputeIndex(dom.size, i))
  {
    if i < n - 1 {
      GridLocationsAt(dom, n - 1, i);
    }
    if n <= PixelCount(dom.size) {
      ComputeIndexRoundTrip(dom.size, i);
    }
  }

  /** Two different offsets below the pixel count name two different cells. */
  lemma GridCellsDistinct(size: seq<nat>, i: nat, j: nat)
    requires i < PixelCount(size) && j < PixelCount(size) && i != j
    ensures ComputeIndex(size, i) != ComputeIndex(size, j)
  {
    ComputeIndexRoundTrip(size, i);
    ComputeIndexRoundTrip(size, j);
  }

  /** The continuous index of the centre of the first cell's low corner, -0.5 on every axis. */
  function LowCornerIndex(dim: nat): seq<real> {
    seq(dim, _ => -0.5)
  }

  /** The continuous index of the last cell's high corner, size - 0.5 on every axis. */
  function HighCornerIndex(size: seq<nat>): seq<real> {
    seq(|size|, d requires 0 <= d < |size| => size[d] as real - 0.5)
  }

  function Min(a: real, b: real): real { if a <= b then a else b }
  function Max(a: real, b: real): real { if a <= b then b else a }

  /** The part of a dense buffer the sparse matrix uses: the first entries, zero-padded to the buffer's length. */
  function ZeroPadded(prefix: seq<real>, length: nat): (v: seq<real>)
    requires |prefix| <= length
  {
    prefix + Zeros(length - |prefix|)
  }

  /** Component `c` of every vector of a vector buffer. */
  function Column(buffer: seq<Point>, c: nat): (col: seq<real>)
    requires forall r :: 0 <= r < |buffer| ==> c < |buffer[r]|
    ensures |col| == |buffer|
  {
    seq(|buffer|, r requires 0 <= r < |buffer| => buffer[r][c])
  }

  /** Reference definition of Vectorize: the first n entries of the buffer, zero-padded. */
  function Vectorized(buffer: seq<real>, n: nat): seq<real>
    requires n <= |buffer|
  {
    ZeroPadded(buffer[..n], |buffer|)
  }

  /** Reference definition of VectorizeField: every component column, vectorized on its own. */
  function VectorizedField(buffer: seq<Point>, dim: nat, n: nat): seq<seq<real>>
    requires n <= |buffer|
    requires forall r :: 0 <= r < |buffer| ==> |buffer[r]| == dim
  {
    seq(dim, c requires 0 <= c < dim => Vectorized(Column(buffer, c), n))
  }

  /** Entry r of a vectorized buffer is the buffer's entry when r < n, and zero otherwise. */
  lemma VectorizedAt(buffer: seq<real>, n: nat, r: nat)
    requires n <= |buffer| && r < |buffer|
    ensures |Vectorized(buffer, n)| == |buffer|
    ensures Vectorized(buffer, n)[r] == if r < n then buffer[r] else 0.0
  {}

  /** When every pixel is a parameter, vectorizing loses nothing. */
  lemma VectorizedIdentity(buffer: seq<real>)
    ensures Vectorized(buffer, |buffer|) == buffer
  {
    assert buffer[..|buffer|] == buffer;
  }

  /**
    Round trip: when the parameter count equals the pixel count, reading component
    d of point id back out of the per-dimension vectors gives the field's vector.
  */
  lemma VectorizedFieldRoundTrip(buffer: seq<Point>, dim: nat, id: nat)
    requires forall r :: 0 <= r < |buffer| ==> |buffer[r]| == dim
    requires id < |buffer|
    ensures forall d :: 0 <= d < dim ==>
      |VectorizedField(buffer, dim, |buffer|)[d]| == |buffer| &&
      VectorizedField(buffer, dim, |buffer|)[d][id] == buffer[id][d]
  {
    forall d | 0 <= d < dim
      ensures |VectorizedField(buffer, dim, |buffer|)[d]| == |buffer|
      ensures VectorizedField(buffer, dim, |buffer|)[d][id] == buffer[id][d]
    {
      VectorizedIdentity(Column(buffer, d));
    }
  }

  class CachedMatrixTransform {
    /** Number of spatial dimensions (the template parameter NDimensions). */
    const dim: nat

    var numberOfParameters: nat
    var numberOfPoints: nat
    var useImageOutput: bool
    var interpolationMode: InterpolationMode
    /** Per-dimension value vectors: pointValues[d][id] is component d at evaluation point id. */
    var pointValues: seq<seq<real>>
    var pointLocations: seq<Point>
    var displacementField: VectorField

    var referenceSize: seq<nat>
    var referenceSpacing: seq<real>
    var referenceOrigin: seq<real>
    var domainDirection: seq<seq<real>>
    /** The low (domainExtent[0]) and high (domainExtent[1]) corners of the reference domain. */
    var extentLow: Point
    var extentHigh: Point

    /** Modification time stamp; `Modified()` advances it. */
    var mTime: nat

    ghost predicate Valid()
      reads this
    {
      |pointValues| == dim
    }

    /** A fresh transform: no points, no image output, mode still unknown, empty value vectors. */
    constructor (dim: nat, numberOfParameters: nat)
      ensures Valid()
      ensures this.dim == dim && this.numberOfParameters == numberOfParameters
      ensures numberOfPoints == 0 && !useImageOutput && interpolationMode == Unknown
      ensures pointValues == seq(dim, _ => []) && pointLocations == []
    {
      this.dim := dim;
      this.numberOfParameters := numberOfParameters;
      numberOfPoints := 0;
      useImageOutput := false;
      interpolationMode := Unknown;
      pointValues := seq(dim, _ => []);
      pointLocations := [];
      displacementField := VectorField([], [], [], [], []);
      referenceSize, referenceSpacing, referenceOrigin, domainDirection := [], [], [], [];
      extentLow, extentHigh := [], [];
      mTime := 0;
    }

    /** The vector at evaluation point `id`, assembled from every dimension's value vector; reads only. */
    method GetPointValue(id: nat) returns (v: seq<real>)
      requires Valid()
      requires forall d :: 0 <= d < dim ==> id < |pointValues[d]|
      ensures |v| == dim
      ensures forall d :: 0 <= d < dim ==> v[d] == pointValues[d][id]
    {
      v := Zeros(dim);
      for d := 0 to dim
        invariant |v| == dim
        invariant forall e :: 0 <= e < d ==> v[e] == pointValues[e][id]
      {
        v := v[d := pointValues[d][id]];
      }
    }

    /**
      Records the reference domain's geometry and its physical extent: the images
      of the outer cell corners, ordered so that the low corner is below the high
      corner on every axis.
    */
    method SetPhysicalDomainInformation(dom: Domain)
      requires WellFormed(dom, dim)
      modifies this`referenceSize, this`referenceSpacing, this`referenceOrigin,
               this`domainDirection, this`extentLow, this`extentHigh
      ensures referenceSize == dom.size && referenceSpacing == dom.spacing
      ensures referenceOrigin == dom.origin && domainDirection == dom.direction
      ensures |extentLow| == dim && |extentHigh| == dim
      ensures forall i :: 0 <= i < dim ==> extentLow[i] <= extentHigh[i]
      ensures forall i :: 0 <= i < dim ==>
        var lo, hi := dom.toPhysical(LowCornerIndex(dim))[i], dom.toPhysical(HighCornerIndex(dom.size))[i];
        extentLow[i] == Min(lo, hi) && extentHigh[i] == Max(lo, hi)
    {
      referenceSize := dom.size;
      referenceSpacing := dom.spacing;
      referenceOrigin := dom.origin;
      domainDirection := dom.direction;
      ghost var lo := dom.toPhysical(LowCornerIndex(dim));
      ghost var hi := dom.toPhysical(HighCornerIndex(dom.size));
      extentLow := dom.toPhysical(LowCornerIndex(dim));
      extentHigh := dom.toPhysical(HighCornerIndex(dom.size));
      for i := 0 to dim
        modifies this`extentLow, this`extentHigh
        invariant |extentLow| == dim && |extentHigh| == dim
        invariant forall k :: 0 <= k < i ==> extentLow[k] == Min(lo[k], hi[k]) && extentHigh[k] == Max(lo[k], hi[k])
        invariant forall k :: i <= k < dim ==> extentLow[k] == lo[k] && extentHigh[k] == hi[k]
      {
        if extentHigh[i] < extentLow[i] {
          var tmp := extentLow[i];
          extentLow := extentLow[i := extentHigh[i]];
          extentHigh := extentHigh[i := tmp];
        }
      }
    }

    /**
      Switches to grid mode over `dom`: refused once scattered points were set;
      otherwise installs a zero field over the domain (a new field, so the
      transform is marked modified) and appends the physical location of every
      cell, in linear-index order, to the point list.
    */
    method SetOutputReference(dom: Domain) returns (status: Outcome<ModeError>)
      requires |dom.size| == dim
      modifies this`interpolationMode, this`useImageOutput, this`displacementField,
               this`numberOfPoints, this`pointLocations, this`mTime
      ensures old(interpolationMode) == PointsMode ==>
        && status == Throw(ScatteredToRegular)
        && interpolationMode == old(interpolationMode) && pointLocations == old(pointLocations)
        && numberOfPoints == old(numberOfPoints) && useImageOutput == old(useImageOutput)
        && displacementField == old(displacementField) && mTime == old(mTime)
      ensures old(interpolationMode) != PointsMode ==>
        && status == Pass
        && interpolationMode == GridMode && useImageOutput
        && displacementField == VectorField(dom.size, dom.spacing, dom.origin, dom.direction,
                                            seq(PixelCount(dom.size), _ => Zeros(dim)))
        && mTime == old(mTime) + 1
        && numberOfPoints == PixelCount(dom.size)
        && pointLocations == old(pointLocations) + GridLocations(dom, PixelCount(dom.size))
    {
      if interpolationMode == PointsMode {
        return Throw(ScatteredToRegular);
      } else {
        interpolationMode := GridMode;
      }
      useImageOutput := true;
      displacementField := VectorField(dom.size, dom.spacing, dom.origin, dom.direction,
                                       seq(PixelCount(dom.size), _ => Zeros(dim)));
      mTime := mTime + 1;
      numberOfPoints := PixelCount(dom.size);
      for i := 0 to numberOfPoints
        modifies this`pointLocations
        invariant pointLocations == old(pointLocations) + GridLocations(dom, i)
      {
        pointLocations := pointLocations + [CellLocation(dom, i)];
      }
      status := Pass;
    }

    /**
      Switches to points mode: refused once a grid was set; otherwise the point
      list becomes exactly `points` and the transform is marked modified.
    */
    method SetOutputPoints(points: seq<Point>) returns (status: Outcome<ModeError>)
      modifies this`interpolationMode, this`pointLocations, this`numberOfPoints, this`mTime
      ensures old(interpolationMode) == GridMode ==>
        && status == Throw(RegularToScattered)
        && interpolationMode == GridMode && pointLocations == old(pointLocations)
        && numberOfPoints == old(numberOfPoints) && mTime == old(mTime)
      ensures old(interpolationMode) != GridMode ==>
        && status == Pass
        && interpolationMode == PointsMode
        && pointLocations == points && numberOfPoints == |points|
        && mTime == old(mTime) + 1
    {
      if interpolationMode == GridMode {
        return Throw(RegularToScattered);
      } else {
        interpolationMode := PointsMode;
      }
      pointLocations := points;
      numberOfPoints := |points|;
      mTime := mTime + 1;
      status := Pass;
    }

    /** Flattens a scalar coefficient buffer: its first numberOfParameters entries, zero-padded. */
    method Vectorize(buffer: seq<real>) returns (v: seq<real>)
      requires numberOfParameters <= |buffer|
      ensures v == Vectorized(buffer, numberOfParameters)
    {
      v := Zeros(|buffer|);
      for row := 0 to numberOfParameters
        invariant |v| == |buffer|
        invariant forall r :: 0 <= r < |buffer| ==> v[r] == if r < row then buffer[r] else 0.0
      {
        v := v[row := buffer[row]];
      }
      forall r | 0 <= r < |buffer| ensures v[r] == Vectorized(buffer, numberOfParameters)[r] {
        VectorizedAt(buffer, numberOfParameters, r);
      }
    }

    /**
      Splits a vector field buffer into one vector per dimension: out[c][r] is
      component c of pixel r for the first numberOfParameters pixels, zero after.
    */
    method VectorizeField(buffer: seq<Point>) returns (out: seq<seq<real>>)
      requires numberOfParameters <= |buffer|
      requires forall r :: 0 <= r < |buffer| ==> |buffer[r]| == dim
      ensures out == VectorizedField(buffer, dim, numberOfParameters)
    {
      out := seq(dim, _ => Zeros(|buffer|));
      for row := 0 to numberOfParameters
        invariant |out| == dim
        invariant forall c :: 0 <= c < dim ==> |out[c]| == |buffer|
        invariant forall c, r :: 0 <= c < dim && 0 <= r < row ==> out[c][r] == buffer[r][c]
        invariant forall c, r :: 0 <= c < dim && row <= r < |buffer| ==> out[c][r] == 0.0
      {
        var v := buffer[row];
        for col := 0 to dim
          invariant |out| == dim
          invariant forall c :: 0 <= c < dim ==> |out[c]| == |buffer|
          invariant forall c, r :: 0 <= c < dim && 0 <= r < row ==> out[c][r] == buffer[r][c]
          invariant forall c, r :: 0 <= c < dim && row < r < |buffer| ==> out[c][r] == 0.0
          invariant forall c :: 0 <= c < col ==> out[c][row] == v[c]
          invariant forall c :: col <= c < dim ==> out[c][row] == 0.0
        {
          out := out[col := out[col][row := v[col]]];
        }
      }
      forall c | 0 <= c < dim ensures out[c] == VectorizedField(buffer, dim, numberOfParameters)[c] {
        var col := Column(buffer, c);
        forall r | 0 <= r < |buffer| ensures out[c][r] == Vectorized(col, numberOfParameters)[r] {
          VectorizedAt(col, numberOfParameters, r);
          assert col[r] == buffer[r][c];
        }
      }
    }
  }
}
