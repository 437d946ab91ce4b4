/** Head-coupled stereo viewing: the webcam face box is turned into a viewer
    position (a calibrated fit for the distance, a linear map around the
    video centre for x and y), the position is copied into the view
    parameters, the two convergence modes exclude each other, and the
    off-axis projection coefficients come from the near-plane bounds. */
module Tracking {
  import opened Vectors

  // ---------------------------------------------------------------------
  // Distance calibration

  /** A calibration sample: the face box width as a fraction of the video
      width, and the viewer distance measured at it. */
  datatype Sample = Sample(s: real, d: real)

  const M1 := Sample(0.9, 0.1)
  const M2 := Sample(0.5, 0.22)

  /** The coefficients of the fit `distance = a / s + b` through two samples. */
  function FitA(m1: Sample, m2: Sample): real
    requires m1.s != m2.s
  {
    (m1.d - m2.d) * m1.s * m2.s / (m2.s - m1.s)
  }

  function FitB(m1: Sample, m2: Sample): real
    requires m1.s != m2.s && m2.s != 0.0
  {
    m2.d - FitA(m1, m2) / m2.s
  }

  const A: real := FitA(M1, M2)
  const B: real := FitB(M1, M2)

  /** How far the tracker coordinates reach on either side of the centre. */
  const WiggleFactor: real := 0.3

  /** The fitted curve. */
  function Distance(a: real, b: real, s: real): real
    requires s != 0.0
  {
    a / s + b
  }

  /** The fit passes exactly through both samples. */
  lemma FitPassesThrough(m1: Sample, m2: Sample)
    requires m1.s != m2.s && m1.s != 0.0 && m2.s != 0.0
    ensures Distance(FitA(m1, m2), FitB(m1, m2), m1.s) == m1.d
    ensures Distance(FitA(m1, m2), FitB(m1, m2), m2.s) == m2.d
  {
    FitAScaled(m1, m2);
    FitGap(FitA(m1, m2), (m1.d - m2.d) / (m2.s - m1.s), m1, m2);
  }

  /** The fitted curve drops by exactly `d1 - d2` from the first size to
      the second. */
  lemma FitGap(a: real, k: real, m1: Sample, m2: Sample)
    requires m1.s != m2.s && m1.s != 0.0 && m2.s != 0.0
    requires k == (m1.d - m2.d) / (m2.s - m1.s) && a == k * (m1.s * m2.s)
    ensures a / m1.s - a / m2.s == m1.d - m2.d
  {
    QuotientGap(k, m1.s, m2.s);
    DivTimesBack(m1.d - m2.d, m2.s - m1.s);
  }

  /** `a = k * s1 * s2` with `k` the slope of the distances over the sizes. */
  lemma FitAScaled(m1: Sample, m2: Sample)
    requires m1.s != m2.s
    ensures FitA(m1, m2) == ((m1.d - m2.d) / (m2.s - m1.s)) * (m1.s * m2.s)
  {
    ProductOverDivisor(m1.d - m2.d, m1.s * m2.s, m2.s - m1.s);
    assert (m1.d - m2.d) * m1.s * m2.s == (m1.d - m2.d) * (m1.s * m2.s);
  }

  lemma QuotientGap(k: real, s: real, t: real)
    requires s != 0.0 && t != 0.0
    ensures k * (s * t) / s - k * (s * t) / t == k * (t - s)
  {
    DropFactor(k, s, t);
    DropFactor(k, t, s);
    assert t * s == s * t;
  }

  lemma ProductOverDivisor(x: real, y: real, z: real)
    requires z != 0.0
    ensures x * y / z == (x / z) * y
  {
  }

  lemma DropFactor(k: real, s: real, t: real)
    requires s != 0.0
    ensures k * (s * t) / s == k * t
  {
  }

  lemma DivTimesBack(x: real, z: real)
    requires z != 0.0
    ensures (x / z) * z == x
  {
  }

  /** The calibration constants of the demo: `a = 0.135`, `b = -0.05`. */
  lemma CalibrationConstants()
    ensures A == 0.135 && B == -0.05
  {
  }

  /** With `a > 0` a wider face box, that is a nearer face, gives a smaller
      distance. */
  lemma DistanceDecreases(a: real, b: real, s1: real, s2: real)
    requires a > 0.0 && 0.0 < s1 < s2
    ensures Distance(a, b, s2) < Distance(a, b, s1)
  {
    assert a / s2 * s2 == a && a / s1 * s1 == a;
    assert a / s2 * s1 < a / s2 * s2;
  }

  // ---------------------------------------------------------------------
  // Tracker coordinates

  /** A detection's bounding box, in video pixels. */
  datatype BoundingBox = BoundingBox(originX: real, originY: real, width: real, height: real)

  /** One tracker axis from the box centre on that axis and the video extent:
      0 at the video centre, `WiggleFactor` at the near edge, falling to
      `-WiggleFactor` at the far edge (the image is mirrored). */
  function TrackerAxis(center: real, extent: real): real
    requires extent != 0.0
  {
    ((-center / extent) + 0.5) * 2.0 * WiggleFactor
  }

  /** `computeCoordinatesFromDetection(detection)`, the video size passed in. */
  function TrackerPosition(box: BoundingBox, videoWidth: real, videoHeight: real): (r: Vec3)
    requires videoWidth != 0.0 && videoHeight != 0.0 && box.width != 0.0
    ensures r.z == Distance(A, B, box.width / videoWidth)
  {
    var centerX := box.originX + box.width / 2.0;
    var centerY := box.originY + box.height / 2.0;
    var boxFactor := box.width / videoWidth;
    NonzeroQuotient(box.width, videoWidth);
    Vec3(TrackerAxis(centerX, videoWidth), TrackerAxis(centerY, videoHeight), A / boxFactor + B)
  }

  lemma NonzeroQuotient(x: real, y: real)
    requires x != 0.0 && y != 0.0
    ensures x / y != 0.0
  {
  }

  /** A centre at the middle of the video maps to 0. */
  lemma TrackerAxisCentred(extent: real)
    requires extent != 0.0
    ensures TrackerAxis(extent / 2.0, extent) == 0.0
  {
    assert (extent / 2.0) / extent == 0.5;
  }

  /** A box centred in the video puts the viewer on the axis. */
  lemma TrackerPositionCentred(box: BoundingBox, videoWidth: real, videoHeight: real)
    requires videoWidth != 0.0 && videoHeight != 0.0 && box.width != 0.0
    requires box.originX + box.width / 2.0 == videoWidth / 2.0
    requires box.originY + box.height / 2.0 == videoHeight / 2.0
    ensures TrackerPosition(box, videoWidth, videoHeight).x == 0.0
    ensures TrackerPosition(box, videoWidth, videoHeight).y == 0.0
  {
    TrackerAxisCentred(videoWidth);
    TrackerAxisCentred(videoHeight);
  }

  /** A centre inside the video maps into `[-WiggleFactor, WiggleFactor]`. */
  lemma TrackerAxisRange(center: real, extent: real)
    requires extent > 0.0 && 0.0 <= center <= extent
    ensures -WiggleFactor <= TrackerAxis(center, extent) <= WiggleFactor
  {
    var q := center / extent;
    assert q * extent == center;
    assert 0.0 <= q <= 1.0;
  }

  /** Moving the centre toward the far edge lowers the coordinate. */
  lemma TrackerAxisDecreases(c1: real, c2: real, extent: real)
    requires extent > 0.0 && c1 < c2
    ensures TrackerAxis(c2, extent) < TrackerAxis(c1, extent)
  {
    var q1, q2 := c1 / extent, c2 / extent;
    assert q1 * extent == c1 && q2 * extent == c2;
    assert q1 < q2;
  }

  /** A face box as wide as a calibration sample gives that sample's
      distance. */
  lemma TrackerAtCalibration(box: BoundingBox, videoWidth: real, videoHeight: real)
    requires videoWidth != 0.0 && videoHeight != 0.0 && box.width != 0.0
    ensures box.width / videoWidth == M1.s ==> TrackerPosition(box, videoWidth, videoHeight).z == M1.d
    ensures box.width / videoWidth == M2.s ==> TrackerPosition(box, videoWidth, videoHeight).z == M2.d
  {
    FitPassesThrough(M1, M2);
  }

  // ---------------------------------------------------------------------
  // The view parameters

  /** The GUI parameters of the stereo view. */
  class ViewParams {
    var ipd: real
    var convergence: real
    var convergenceMesh: bool
    var converge: bool
    var cameraX: real
    var cameraY: real
    var cameraZ: real
    var stereo: bool
    var toeIn: bool
    var offAxis: bool
    var screenWidth: real

    /** Exactly one of the two convergence modes is selected. */
    predicate OneMode()
      reads this
    {
      offAxis == !toeIn
    }

    /** The initial values. */
    constructor ()
      ensures ipd == 0.006 && convergence == 0.5 && !convergenceMesh && !converge
      ensures cameraX == 0.0 && cameraY == 0.0 && cameraZ == 0.5
      ensures !stereo && toeIn && !offAxis && screenWidth == 0.52
      ensures OneMode()
    {
      ipd, convergence, convergenceMesh, converge := 0.006, 0.5, false, false;
      cameraX, cameraY, cameraZ := 0.0, 0.0, 0.5;
      stereo, toeIn, offAxis, screenWidth := false, true, false, 0.52;
    }

    /** `updateCameraPosition(p)`: the camera parameters take the position;
        nothing else changes. */
    method UpdateCameraPosition(p: Vec3)
      modifies this
      ensures cameraX == p.x && cameraY == p.y && cameraZ == p.z
      ensures ipd == old(ipd) && convergence == old(convergence) && convergenceMesh == old(convergenceMesh)
      ensures converge == old(converge) && stereo == old(stereo) && toeIn == old(toeIn)
      ensures offAxis == old(offAxis) && screenWidth == old(screenWidth)
    {
      cameraX := p.x;
      cameraY := p.y;
      cameraZ := p.z;
    }

    /** The GUI sets ToeIn to `v`; its change handler sets OffAxis to the
        opposite. Nothing else changes. */
    method SetToeIn(v: bool)
      modifies this
      ensures toeIn == v && offAxis == !v && OneMode()
      ensures ipd == old(ipd) && convergence == old(convergence) && convergenceMesh == old(convergenceMesh)
      ensures converge == old(converge) && stereo == old(stereo) && screenWidth == old(screenWidth)
      ensures cameraX == old(cameraX) && cameraY == old(cameraY) && cameraZ == old(cameraZ)
    {
      toeIn := v;
      offAxis := !toeIn;
    }

    /** The GUI sets OffAxis to `v`; its change handler sets ToeIn to the
        opposite. Nothing else changes. */
    method SetOffAxis(v: bool)
      modifies this
      ensures offAxis == v && toeIn == !v && OneMode()
      ensures ipd == old(ipd) && convergence == old(convergence) && convergenceMesh == old(convergenceMesh)
      ensures converge == old(converge) && stereo == old(stereo) && screenWidth == old(screenWidth)
      ensures cameraX == old(cameraX) && cameraY == old(cameraY) && cameraZ == old(cameraZ)
    {
      offAxis := v;
      toeIn := !offAxis;
    }
  }

  /** The detection step of `predictWebcam` for one new video frame: with at
      least one face, the first one's tracker position becomes the camera
      position (no smoothing is applied); with none, nothing changes. */
  method ApplyDetections(params: ViewParams, detections: seq<BoundingBox>, videoWidth: real, videoHeight: real)
    requires videoWidth != 0.0 && videoHeight != 0.0
    requires |detections| > 0 ==> detections[0].width != 0.0
    modifies params
    ensures |detections| > 0 ==>
      var p := TrackerPosition(detections[0], videoWidth, videoHeight);
      params.cameraX == p.x && params.cameraY == p.y && params.cameraZ == p.z
    ensures |detections| == 0 ==>
      params.cameraX == old(params.cameraX) && params.cameraY == old(params.cameraY) && params.cameraZ == old(params.cameraZ)
    ensures params.toeIn == old(params.toeIn) && params.offAxis == old(params.offAxis)
    ensures params.ipd == old(params.ipd) && params.convergence == old(params.convergence)
      && params.convergenceMesh == old(params.convergenceMesh)
    ensures params.converge == old(params.converge) && params.stereo == old(params.stereo)
      && params.screenWidth == old(params.screenWidth)
  {
    if |detections| > 0 {
      var detectorPosition := TrackerPosition(detections[0], videoWidth, videoHeight);
      params.UpdateCameraPosition(detectorPosition);
    }
  }

  // ---------------------------------------------------------------------
  // Off-axis projection

  /** The nonzero entries of the frustum matrix. */
  datatype Frustum = Frustum(x: real, y: real, a: real, b: real, c: real, d: real)

  /** `makeFrustum(M, left, right, bottom, top, znear, zfar)`. */
  function MakeFrustum(left: real, right: real, bottom: real, top: real, znear: real, zfar: real): Frustum
    requires right != left && top != bottom && zfar != znear
  {
    Frustum(2.0 * znear / (right - left),
            2.0 * znear / (top - bottom),
            (right + left) / (right - left),
            (top + bottom) / (top - bottom),
            -(zfar + znear) / (zfar - znear),
            -2.0 * zfar * znear / (zfar - znear))
  }

  /** Symmetric bounds need no skew terms. */
  lemma FrustumSymmetric(left: real, right: real, bottom: real, top: real, znear: real, zfar: real)
    requires right != left && top != bottom && zfar != znear
    ensures right == -left ==> MakeFrustum(left, right, bottom, top, znear, zfar).a == 0.0
    ensures top == -bottom ==> MakeFrustum(left, right, bottom, top, znear, zfar).b == 0.0
  {
  }

  /** Ordered bounds and a positive near plane give positive scale terms. */
  lemma FrustumScalesPositive(left: real, right: real, bottom: real, top: real, znear: real, zfar: real)
    requires left < right && bottom < top && zfar != znear && znear > 0.0
    ensures MakeFrustum(left, right, bottom, top, znear, zfar).x > 0.0
    ensures MakeFrustum(left, right, bottom, top, znear, zfar).y > 0.0
  {
    PositiveQuotient(2.0 * znear, right - left);
    PositiveQuotient(2.0 * znear, top - bottom);
  }

  lemma PositiveQuotient(x: real, y: real)
    requires x > 0.0 && y > 0.0
    ensures x / y > 0.0
  {
  }

  /** The depth terms send the near plane to -1 and the far plane to +1
      after the perspective divide by `-z`. */
  lemma FrustumMapsDepth(left: real, right: real, bottom: real, top: real, znear: real, zfar: real)
    requires right != left && top != bottom && 0.0 < znear < zfar
    ensures var f := MakeFrustum(left, right, bottom, top, znear, zfar);
      (f.c * -znear + f.d) / znear == -1.0 && (f.c * -zfar + f.d) / zfar == 1.0
  {
    var f := MakeFrustum(left, right, bottom, top, znear, zfar);
    var w := zfar - znear;
    assert f.c * w == -(zfar + znear);
    assert f.d * w == -2.0 * zfar * znear;
    assert (f.c * -znear + f.d) * w == -znear * w;
    assert (f.c * -zfar + f.d) * w == zfar * w;
    Cancel(f.c * -znear + f.d, -znear, w);
    Cancel(f.c * -zfar + f.d, zfar, w);
  }

  lemma Cancel(p: real, q: real, w: real)
    requires w != 0.0 && p * w == q * w
    ensures p == q
  {
    assert (p - q) * w == 0.0;
  }

  /** The left and right edges of the near plane go to -1 and +1 on x, and
      the bottom and top edges to -1 and +1 on y. */
  lemma FrustumMapsEdges(left: real, right: real, bottom: real, top: real, znear: real, zfar: real)
    requires right != left && top != bottom && zfar != znear && znear != 0.0
    ensures var f := MakeFrustum(left, right, bottom, top, znear, zfar);
      (f.x * left + f.a * -znear) / znear == -1.0 && (f.x * right + f.a * -znear) / znear == 1.0
    ensures var f := MakeFrustum(left, right, bottom, top, znear, zfar);
      (f.y * bottom + f.b * -znear) / znear == -1.0 && (f.y * top + f.b * -znear) / znear == 1.0
  {
    EdgeMaps(left, right, znear);
    EdgeMaps(bottom, top, znear);
  }

  lemma EdgeMaps(lo: real, hi: real, n: real)
    requires hi != lo && n != 0.0
    ensures var s, k := 2.0 * n / (hi - lo), (hi + lo) / (hi - lo);
      (s * lo + k * -n) / n == -1.0 && (s * hi + k * -n) / n == 1.0
  {
    var w := hi - lo;
    var s, k := 2.0 * n / w, (hi + lo) / w;
    assert s * w == 2.0 * n;
    assert k * w == hi + lo;
    assert (s * lo + k * -n) * w == -n * w;
    assert (s * hi + k * -n) * w == n * w;
    Cancel(s * lo + k * -n, -n, w);
    Cancel(s * hi + k * -n, n, w);
  }
}
