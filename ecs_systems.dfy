/** The systems of the entity/component demo. Every system visits, in
    order, the entities that hold all the kinds of its query; five of them
    change components, three (Spin, Render, Pulse) change only the render
    handles that `Mesh` components refer to. */
module Systems {
  import opened Wrappers
  import opened Vectors
  import opened Components

  /** The part of a render handle the systems write. */
  datatype Transform = Transform(position: Vec3, rotation: Vec3, scale: Vec3)

  /** The render handles, by the reference a `Mesh` component holds. */
  type Meshes = map<MeshRef, Transform>

  /** Transcendental operations the systems use, supplied from outside:
      real-exponent power `(base, exponent)`, sine and the constant pi. */
  datatype Maths = Maths(pow: (real, real) -> real, sin: real -> real, pi: real)

  datatype System =
    | GravitySystem | SpinSystem | MovementSystem | RenderSystem
    | FallThroughSystem | BounceSystem | AirResistanceSystem | PulseSystem

  /** The component kinds each system's query asks for. */
  function Query(s: System): set<Kind> {
    match s
    case GravitySystem => {GravityKind, SpeedKind}
    case SpinSystem => {SpinKind, MeshKind}
    case MovementSystem => {PositionKind, SpeedKind}
    case RenderSystem => {PositionKind, MeshKind}
    case FallThroughSystem => {PositionKind, PositionRangeKind, FallThroughKind}
    case BounceSystem => {BounceKind, PositionKind, SpeedKind, PositionRangeKind}
    case AirResistanceSystem => {AirResistanceKind, SpeedKind}
    case PulseSystem => {PulseKind, MeshKind}
  }

  /** The systems that write render handles rather than components. */
  predicate WritesMeshes(s: System) {
    s == SpinSystem || s == RenderSystem || s == PulseSystem
  }

  /** The gravitational acceleration the Gravity system applies. */
  const Gravity: real := 9.8

  /** No component kind is added or removed and the mesh reference is kept. */
  predicate SameShape(e: Entity, r: Entity) {
    (forall k :: Has(r, k) == Has(e, k)) && r.mesh == e.mesh
  }

  // ---------------------------------------------------------------------
  // Systems that change components

  /** GravitySystem: lowers `speed.y` by `9.8 * delta`. */
  function GravityStep(e: Entity, delta: real): (r: Entity)
    ensures SameShape(e, r) && r.(speed := e.speed) == e
    ensures Matches(e, Query(GravitySystem)) ==>
      r.speed == Some(Vec3(e.speed.value.x, e.speed.value.y - Gravity * delta, e.speed.value.z))
    ensures !Matches(e, Query(GravitySystem)) || delta == 0.0 ==> r == e
  {
    if Matches(e, Query(GravitySystem)) then
      assert SpeedKind in Query(GravitySystem);
      var s := e.speed.value;
      e.(speed := Some(s.(y := s.y - Gravity * delta)))
    else e
  }

  /** MovementSystem: `position += speed * delta` on every axis. */
  function MovementStep(e: Entity, delta: real): (r: Entity)
    ensures SameShape(e, r) && r.(position := e.position) == e
    ensures Matches(e, Query(MovementSystem)) ==>
      r.position == Some(Add(e.position.value, Scale(e.speed.value, delta)))
    ensures !Matches(e, Query(MovementSystem)) || delta == 0.0 ==> r == e
  {
    if Matches(e, Query(MovementSystem)) then
      assert PositionKind in Query(MovementSystem) && SpeedKind in Query(MovementSystem);
      e.(position := Some(Add(e.position.value, Scale(e.speed.value, delta))))
    else e
  }

  /** `putIntoLimits`: a value below the range jumps to the upper bound, one
      above it to the lower bound; the overshoot is not carried over. */
  function PutIntoLimits(value: real, min: real, max: real): (r: real)
    ensures value < min ==> r == max
    ensures min <= value && max < value ==> r == min
    ensures min <= value <= max ==> r == value
    ensures min <= max ==> min <= r <= max
  {
    if value < min then max
    else if value > max then min
    else value
  }

  /** Resetting is idempotent, whatever the bounds. */
  lemma PutIntoLimitsIdempotent(value: real, min: real, max: real)
    ensures PutIntoLimits(PutIntoLimits(value, min, max), min, max) == PutIntoLimits(value, min, max)
  {
  }

  predicate InRange(p: Vec3, range: PositionRange) {
    range.minX <= p.x <= range.maxX && range.minY <= p.y <= range.maxY && range.minZ <= p.z <= range.maxZ
  }

  predicate Ordered(range: PositionRange) {
    range.minX <= range.maxX && range.minY <= range.maxY && range.minZ <= range.maxZ
  }

  /** FallThroughSystem: puts each position axis into its limits. */
  function FallThroughStep(e: Entity): (r: Entity)
    ensures SameShape(e, r) && r.(position := e.position) == e
    ensures Matches(e, Query(FallThroughSystem)) ==>
      var p, range := e.position.value, e.positionRange.value;
      r.position == Some(Vec3(PutIntoLimits(p.x, range.minX, range.maxX),
                              PutIntoLimits(p.y, range.minY, range.maxY),
                              PutIntoLimits(p.z, range.minZ, range.maxZ)))
    ensures Matches(e, Query(FallThroughSystem)) && Ordered(e.positionRange.value) ==>
      InRange(r.position.value, e.positionRange.value)
    ensures Matches(e, Query(FallThroughSystem)) && InRange(e.position.value, e.positionRange.value) ==> r == e
    ensures !Matches(e, Query(FallThroughSystem)) ==> r == e
  {
    if Matches(e, Query(FallThroughSystem)) then
      assert PositionKind in Query(FallThroughSystem) && PositionRangeKind in Query(FallThroughSystem);
      var p, range := e.position.value, e.positionRange.value;
      e.(position := Some(Vec3(PutIntoLimits(p.x, range.minX, range.maxX),
                               PutIntoLimits(p.y, range.minY, range.maxY),
                               PutIntoLimits(p.z, range.minZ, range.maxZ))))
    else e
  }

  /** Applying FallThrough twice is the same as applying it once. */
  lemma FallThroughIdempotent(e: Entity)
    ensures FallThroughStep(FallThroughStep(e)) == FallThroughStep(e)
  {
    var r := FallThroughStep(e);
    if Matches(e, Query(FallThroughSystem)) {
      assert Matches(r, Query(FallThroughSystem));
      var p, range := e.position.value, e.positionRange.value;
      PutIntoLimitsIdempotent(p.x, range.minX, range.maxX);
      PutIntoLimitsIdempotent(p.y, range.minY, range.maxY);
      PutIntoLimitsIdempotent(p.z, range.minZ, range.maxZ);
    }
  }

  /** A speed axis of a bouncing entity flips exactly when that position axis
      is strictly outside its range. */
  function Reflect(s: real, p: real, min: real, max: real): (r: real)
    ensures (p < min || p > max) ==> r == -s
    ensures min <= p <= max ==> r == s
  {
    if p < min || p > max then s * -1.0 else s
  }

  /** BounceSystem: flips the speed axes whose position is out of range;
      the position itself is left as it is. */
  function BounceStep(e: Entity): (r: Entity)
    ensures SameShape(e, r) && r.(speed := e.speed) == e
    ensures Matches(e, Query(BounceSystem)) ==>
      var p, s, range := e.position.value, e.speed.value, e.positionRange.value;
      r.speed == Some(Vec3(Reflect(s.x, p.x, range.minX, range.maxX),
                           Reflect(s.y, p.y, range.minY, range.maxY),
                           Reflect(s.z, p.z, range.minZ, range.maxZ)))
    ensures !Matches(e, Query(BounceSystem)) ==> r == e
  {
    if Matches(e, Query(BounceSystem)) then
      assert PositionKind in Query(BounceSystem) && SpeedKind in Query(BounceSystem)
        && PositionRangeKind in Query(BounceSystem);
      var p, s, range := e.position.value, e.speed.value, e.positionRange.value;
      e.(speed := Some(Vec3(Reflect(s.x, p.x, range.minX, range.maxX),
                            Reflect(s.y, p.y, range.minY, range.maxY),
                            Reflect(s.z, p.z, range.minZ, range.maxZ))))
    else e
  }

  /** After a Bounce pass every speed axis has its old magnitude, and an
      entity inside its range keeps its speed. */
  lemma BounceKeepsMagnitude(e: Entity)
    requires Matches(e, Query(BounceSystem))
    ensures var s, r := e.speed.value, BounceStep(e).speed.value;
      (r.x == s.x || r.x == -s.x) && (r.y == s.y || r.y == -s.y) && (r.z == s.z || r.z == -s.z)
    ensures InRange(e.position.value, e.positionRange.value) ==> BounceStep(e) == e
  {
    assert PositionKind in Query(BounceSystem) && SpeedKind in Query(BounceSystem)
      && PositionRangeKind in Query(BounceSystem);
  }

  /** The factor AirResistance multiplies every speed axis by: `(1 - value) ** delta`. */
  function Decay(a: AirResistance, delta: real, maths: Maths): real {
    maths.pow(1.0 - a.value, delta)
  }

  /** AirResistanceSystem: scales the whole speed by one decay factor. */
  function AirResistanceStep(e: Entity, delta: real, maths: Maths): (r: Entity)
    ensures SameShape(e, r) && r.(speed := e.speed) == e
    ensures Matches(e, Query(AirResistanceSystem)) ==>
      r.speed == Some(Scale(e.speed.value, Decay(e.airResistance.value, delta, maths)))
    ensures !Matches(e, Query(AirResistanceSystem)) ==> r == e
  {
    if Matches(e, Query(AirResistanceSystem)) then
      assert SpeedKind in Query(AirResistanceSystem) && AirResistanceKind in Query(AirResistanceSystem);
      e.(speed := Some(Scale(e.speed.value, Decay(e.airResistance.value, delta, maths))))
    else e
  }

  /** Where the power law splits over exponents, two AirResistance steps of
      `d1` and `d2` equal one of `d1 + d2`. */
  lemma AirResistanceComposes(e: Entity, d1: real, d2: real, maths: Maths)
    requires Matches(e, Query(AirResistanceSystem))
    requires var a := e.airResistance.value;
      Decay(a, d1, maths) * Decay(a, d2, maths) == Decay(a, d1 + d2, maths)
    ensures AirResistanceStep(AirResistanceStep(e, d1, maths), d2, maths) == AirResistanceStep(e, d1 + d2, maths)
  {
    assert SpeedKind in Query(AirResistanceSystem) && AirResistanceKind in Query(AirResistanceSystem);
    var s, a := e.speed.value, e.airResistance.value;
    var f1, f2 := Decay(a, d1, maths), Decay(a, d2, maths);
    var e1 := AirResistanceStep(e, d1, maths);
    assert e1 == e.(speed := Some(Scale(s, f1)));
    assert Matches(e1, Query(AirResistanceSystem));
    var e2 := AirResistanceStep(e1, d2, maths);
    assert e2 == e.(speed := Some(Scale(Scale(s, f1), f2)));
    assert Scale(Scale(s, f1), f2) == Scale(s, f1 * f2) by {
      assert s.x * f1 * f2 == s.x * (f1 * f2);
      assert s.y * f1 * f2 == s.y * (f1 * f2);
      assert s.z * f1 * f2 == s.z * (f1 * f2);
    }
    assert f1 * f2 == Decay(a, d1 + d2, maths);
    assert AirResistanceStep(e, d1 + d2, maths) == e.(speed := Some(Scale(s, f1 * f2)));
  }

  /** With `pow(b, 0) == 1`, an AirResistance step of zero changes nothing. */
  lemma AirResistanceAtZero(e: Entity, maths: Maths)
    requires Matches(e, Query(AirResistanceSystem)) ==>
      maths.pow(1.0 - e.airResistance.value.value, 0.0) == 1.0
    ensures AirResistanceStep(e, 0.0, maths) == e
  {
    if Matches(e, Query(AirResistanceSystem)) {
      assert SpeedKind in Query(AirResistanceSystem) && AirResistanceKind in Query(AirResistanceSystem);
      assert Scale(e.speed.value, 1.0) == e.speed.value;
    }
  }

  // ---------------------------------------------------------------------
  // Systems that change render handles

  predicate MeshKnown(e: Entity, meshes: Meshes) {
    e.mesh.Some? ==> e.mesh.value in meshes
  }

  predicate AllKnown(es: seq<Entity>, meshes: Meshes) {
    forall i :: 0 <= i < |es| ==> MeshKnown(es[i], meshes)
  }

  /** No two entities refer to the same render handle. */
  predicate DistinctMeshes(es: seq<Entity>) {
    forall i, j :: 0 <= i < j < |es| && es[i].mesh.Some? && es[j].mesh.Some? ==> es[i].mesh.value != es[j].mesh.value
  }

  /** SpinSystem: adds `spin * delta` to the handle's rotation; the Spin
      component itself is not changed. */
  function SpinStep(e: Entity, meshes: Meshes, delta: real): (r: Meshes)
    requires MeshKnown(e, meshes)
    ensures r.Keys == meshes.Keys
    ensures Matches(e, Query(SpinSystem)) ==>
      var h := e.mesh.value;
      r == meshes[h := meshes[h].(rotation := Add(meshes[h].rotation, Scale(e.spin.value, delta)))]
    ensures !Matches(e, Query(SpinSystem)) || delta == 0.0 ==> r == meshes
  {
    if Matches(e, Query(SpinSystem)) then
      assert SpinKind in Query(SpinSystem) && MeshKind in Query(SpinSystem);
      var h := e.mesh.value;
      meshes[h := meshes[h].(rotation := Add(meshes[h].rotation, Scale(e.spin.value, delta)))]
    else meshes
  }

  /** RenderSystem: copies the Position component into the handle's position. */
  function RenderStep(e: Entity, meshes: Meshes): (r: Meshes)
    requires MeshKnown(e, meshes)
    ensures r.Keys == meshes.Keys
    ensures Matches(e, Query(RenderSystem)) ==>
      var h := e.mesh.value;
      r == meshes[h := meshes[h].(position := e.position.value)] && r[h].position == e.position.value
    ensures !Matches(e, Query(RenderSystem)) ==> r == meshes
  {
    if Matches(e, Query(RenderSystem)) then
      assert PositionKind in Query(RenderSystem) && MeshKind in Query(RenderSystem);
      var h := e.mesh.value;
      meshes[h := meshes[h].(position := e.position.value)]
    else meshes
  }

  /** The sine's argument at wall-clock time `time` (milliseconds). */
  function PulsePhase(p: Pulse, time: real, maths: Maths): real {
    time * (p.speed / 1000.0) * maths.pi * 2.0
  }

  /** The scale PulseSystem writes for a given value of the sine. */
  function ScaleAtSine(p: Pulse, sine: real): real {
    (sine / 2.0 + 1.0) * (p.max - p.min) + p.min
  }

  /** The scale PulseSystem writes at wall-clock time `time`. */
  function PulseScale(p: Pulse, time: real, maths: Maths): real {
    ScaleAtSine(p, maths.sin(PulsePhase(p, time, maths)))
  }

  lemma ScaleBetween(f: real, w: real)
    requires 0.5 <= f <= 1.5 && w >= 0.0
    ensures 0.5 * w <= f * w <= 1.5 * w
  {
    assert (f - 0.5) * w >= 0.0;
    assert (1.5 - f) * w >= 0.0;
  }

  /** With the sine in [-1, 1] and `min <= max`, the pulse scale ranges over
      `[(min + max) / 2, (3 * max - min) / 2]`, not `[min, max]`: at a sine of
      1 it is `max + (max - min) / 2`. */
  lemma PulseScaleRange(p: Pulse, time: real, maths: Maths)
    requires p.min <= p.max
    requires -1.0 <= maths.sin(PulsePhase(p, time, maths)) <= 1.0
    ensures (p.min + p.max) / 2.0 <= PulseScale(p, time, maths) <= (3.0 * p.max - p.min) / 2.0
    ensures maths.sin(PulsePhase(p, time, maths)) == 1.0 ==>
      PulseScale(p, time, maths) == p.max + (p.max - p.min) / 2.0
  {
    var sine := maths.sin(PulsePhase(p, time, maths));
    var f, w := sine / 2.0 + 1.0, p.max - p.min;
    assert ScaleAtSine(p, sine) == f * w + p.min;
    ScaleBetween(f, w);
  }

  /** PulseSystem: writes the pulse scale to all three scale axes. */
  function PulseStep(e: Entity, meshes: Meshes, time: real, maths: Maths): (r: Meshes)
    requires MeshKnown(e, meshes)
    ensures r.Keys == meshes.Keys
    ensures Matches(e, Query(PulseSystem)) ==>
      var h, s := e.mesh.value, PulseScale(e.pulse.value, time, maths);
      r == meshes[h := meshes[h].(scale := Vec3(s, s, s))]
    ensures !Matches(e, Query(PulseSystem)) ==> r == meshes
  {
    if Matches(e, Query(PulseSystem)) then
      assert PulseKind in Query(PulseSystem) && MeshKind in Query(PulseSystem);
      var h, s := e.mesh.value, PulseScale(e.pulse.value, time, maths);
      meshes[h := meshes[h].(scale := Vec3(s, s, s))]
    else meshes
  }

  // ---------------------------------------------------------------------
  // One system over one entity, and over all entities

  /** What system `s` does to the components of one entity. */
  function EntityEffect(s: System, e: Entity, delta: real, maths: Maths): (r: Entity)
    ensures SameShape(e, r)
    ensures !Matches(e, Query(s)) || WritesMeshes(s) ==> r == e
  {
    match s
    case GravitySystem => GravityStep(e, delta)
    case MovementSystem => MovementStep(e, delta)
    case FallThroughSystem => FallThroughStep(e)
    case BounceSystem => BounceStep(e)
    case AirResistanceSystem => AirResistanceStep(e, delta, maths)
    case _ => e
  }

  /** The entity systems write only Speed and Position, and only Movement
      and FallThrough write Position. */
  lemma EntityEffectFrame(s: System, e: Entity, delta: real, maths: Maths)
    ensures var r := EntityEffect(s, e, delta, maths);
      r == e.(position := r.position, speed := r.speed)
    ensures s != MovementSystem && s != FallThroughSystem ==> EntityEffect(s, e, delta, maths).position == e.position
  {
  }

  /** What system `s` does, for one entity, to the render handles. */
  function MeshEffect(s: System, e: Entity, meshes: Meshes, delta: real, time: real, maths: Maths): (r: Meshes)
    requires MeshKnown(e, meshes)
    ensures r.Keys == meshes.Keys
    ensures !Matches(e, Query(s)) || !WritesMeshes(s) ==> r == meshes
  {
    match s
    case SpinSystem => SpinStep(e, meshes, delta)
    case RenderSystem => RenderStep(e, meshes)
    case PulseSystem => PulseStep(e, meshes, time, maths)
    case _ => meshes
  }

  /** Only Render moves a handle, and a system writes only the handle of
      the entity it visits. */
  lemma MeshEffectFrame(s: System, e: Entity, meshes: Meshes, delta: real, time: real, maths: Maths, h: MeshRef)
    requires MeshKnown(e, meshes) && h in meshes
    ensures s != RenderSystem ==> MeshEffect(s, e, meshes, delta, time, maths)[h].position == meshes[h].position
    ensures e.mesh != Some(h) ==> MeshEffect(s, e, meshes, delta, time, maths)[h] == meshes[h]
  {
  }

  /** One system's `execute`: its effect on every entity in order; the
      render handles are threaded through, so aliased handles see every
      write. */
  function Pass(s: System, es: seq<Entity>, meshes: Meshes, delta: real, time: real, maths: Maths)
    : (r: (seq<Entity>, Meshes))
    requires AllKnown(es, meshes)
    ensures |r.0| == |es| && r.1.Keys == meshes.Keys
    decreases |es|
  {
    if es == [] then ([], meshes)
    else
      var init, e := es[..|es| - 1], es[|es| - 1];
      assert AllKnown(init, meshes) by {
        forall i | 0 <= i < |init| ensures MeshKnown(init[i], meshes) { assert init[i] == es[i]; }
      }
      var prev := Pass(s, init, meshes, delta, time, maths);
      (prev.0 + [EntityEffect(s, e, delta, maths)], MeshEffect(s, e, prev.1, delta, time, maths))
  }

  lemma AllKnownInit(es: seq<Entity>, meshes: Meshes)
    requires es != [] && AllKnown(es, meshes)
    ensures AllKnown(es[..|es| - 1], meshes)
  {
    var init := es[..|es| - 1];
    forall i | 0 <= i < |init| ensures MeshKnown(init[i], meshes) { assert init[i] == es[i]; }
  }

  lemma AllKnownPrefix(es: seq<Entity>, meshes: Meshes, n: nat)
    requires n <= |es| && AllKnown(es, meshes)
    ensures AllKnown(es[..n], meshes)
  {
    var pre := es[..n];
    forall i | 0 <= i < |pre| ensures MeshKnown(pre[i], meshes) { assert pre[i] == es[i]; }
  }

  /** A pass applies the system's component effect to every entity, each
      in its own place. */
  lemma {:induction false} PassEntities(s: System, es: seq<Entity>, meshes: Meshes, delta: real, time: real, maths: Maths)
    requires AllKnown(es, meshes)
    ensures forall i :: 0 <= i < |es| ==> Pass(s, es, meshes, delta, time, maths).0[i] == EntityEffect(s, es[i], delta, maths)
    decreases |es|
  {
    if es != [] {
      var init := es[..|es| - 1];
      AllKnownInit(es, meshes);
      PassEntities(s, init, meshes, delta, time, maths);
      var r, prev := Pass(s, es, meshes, delta, time, maths), Pass(s, init, meshes, delta, time, maths);
      assert r.0 == prev.0 + [EntityEffect(s, es[|es| - 1], delta, maths)];
      forall i | 0 <= i < |es| ensures r.0[i] == EntityEffect(s, es[i], delta, maths) {
        if i < |init| { assert init[i] == es[i]; }
      }
    }
  }

  /** After a pass every entity still refers to a known render handle. */
  lemma PassKnown(s: System, es: seq<Entity>, meshes: Meshes, delta: real, time: real, maths: Maths)
    requires AllKnown(es, meshes)
    ensures AllKnown(Pass(s, es, meshes, delta, time, maths).0, Pass(s, es, meshes, delta, time, maths).1)
  {
    PassEntities(s, es, meshes, delta, time, maths);
    var r := Pass(s, es, meshes, delta, time, maths);
    forall i | 0 <= i < |r.0| ensures MeshKnown(r.0[i], r.1) {
      assert r.0[i] == EntityEffect(s, es[i], delta, maths);
      assert MeshKnown(es[i], meshes);
    }
  }

  /** Extending the entity list by one entity extends the pass by one step. */
  lemma PassExtend(s: System, es: seq<Entity>, meshes: Meshes, delta: real, time: real, maths: Maths, i: nat)
    requires i < |es| && AllKnown(es, meshes)
    ensures AllKnown(es[..i], meshes) && AllKnown(es[..i + 1], meshes)
    ensures var prev := Pass(s, es[..i], meshes, delta, time, maths);
      MeshKnown(es[i], prev.1) &&
      Pass(s, es[..i + 1], meshes, delta, time, maths)
        == (prev.0 + [EntityEffect(s, es[i], delta, maths)], MeshEffect(s, es[i], prev.1, delta, time, maths))
  {
    AllKnownPrefix(es, meshes, i);
    AllKnownPrefix(es, meshes, i + 1);
    assert es[..i + 1][..i] == es[..i];
    assert es[..i + 1][i] == es[i];
  }

  /** One loop step of `ExecuteSystem`: updating entry `i` of the
      half-processed list in place gives the pass over one more entity. */
  lemma LoopStep(s: System, es: seq<Entity>, meshes: Meshes, delta: real, time: real, maths: Maths, i: nat,
                 cur: seq<Entity>, curMeshes: Meshes)
    requires i < |es| && AllKnown(es, meshes) && AllKnown(es[..i], meshes)
    requires cur == Pass(s, es[..i], meshes, delta, time, maths).0 + es[i..]
    requires curMeshes == Pass(s, es[..i], meshes, delta, time, maths).1
    ensures AllKnown(es[..i + 1], meshes)
    ensures i < |cur| && cur[i] == es[i] && MeshKnown(es[i], curMeshes)
    ensures Matches(es[i], Query(s)) ==>
      cur[i := EntityEffect(s, es[i], delta, maths)] == Pass(s, es[..i + 1], meshes, delta, time, maths).0 + es[i + 1..]
    ensures Matches(es[i], Query(s)) ==>
      MeshEffect(s, es[i], curMeshes, delta, time, maths) == Pass(s, es[..i + 1], meshes, delta, time, maths).1
    ensures !Matches(es[i], Query(s)) ==>
      cur == Pass(s, es[..i + 1], meshes, delta, time, maths).0 + es[i + 1..]
      && curMeshes == Pass(s, es[..i + 1], meshes, delta, time, maths).1
  {
    PassExtend(s, es, meshes, delta, time, maths, i);
    var prev := Pass(s, es[..i], meshes, delta, time, maths);
    var x := EntityEffect(s, es[i], delta, maths);
    assert |prev.0| == i;
    assert es[i..] == [es[i]] + es[i + 1..];
    assert cur == prev.0 + [es[i]] + es[i + 1..];
    assert cur[i := x] == prev.0 + [x] + es[i + 1..];
  }

  /** The loop of `ExecuteSystem` after its last step holds the whole pass. */
  lemma LoopDone(s: System, es: seq<Entity>, meshes: Meshes, delta: real, time: real, maths: Maths,
                 cur: seq<Entity>, curMeshes: Meshes)
    requires AllKnown(es, meshes) && AllKnown(es[..|es|], meshes)
    requires cur == Pass(s, es[..|es|], meshes, delta, time, maths).0 + es[|es|..]
    requires curMeshes == Pass(s, es[..|es|], meshes, delta, time, maths).1
    ensures cur == Pass(s, es, meshes, delta, time, maths).0
    ensures curMeshes == Pass(s, es, meshes, delta, time, maths).1
    ensures AllKnown(cur, curMeshes)
  {
    assert es[..|es|] == es && es[|es|..] == [];
    PassKnown(s, es, meshes, delta, time, maths);
    var r := Pass(s, es, meshes, delta, time, maths);
    assert r.0 + [] == r.0;
  }

  /** A pass of a system that writes no render handle leaves them all as
      they were, and only Render moves a handle. */
  lemma {:induction false} PassKeepsMeshes(s: System, es: seq<Entity>, meshes: Meshes, delta: real, time: real, maths: Maths)
    requires AllKnown(es, meshes)
    ensures !WritesMeshes(s) ==> Pass(s, es, meshes, delta, time, maths).1 == meshes
    ensures s != RenderSystem ==>
      forall h :: h in meshes ==> Pass(s, es, meshes, delta, time, maths).1[h].position == meshes[h].position
    decreases |es|
  {
    if es != [] {
      AllKnownInit(es, meshes);
      PassKeepsMeshes(s, es[..|es| - 1], meshes, delta, time, maths);
    }
  }

  /** A pass touches only the render handles of entities that match its
      query. */
  lemma {:induction false} PassTouchesOnlyMatched(s: System, es: seq<Entity>, meshes: Meshes, delta: real, time: real, maths: Maths, h: MeshRef)
    requires AllKnown(es, meshes) && h in meshes
    requires forall i :: 0 <= i < |es| && Matches(es[i], Query(s)) ==> es[i].mesh != Some(h)
    ensures Pass(s, es, meshes, delta, time, maths).1[h] == meshes[h]
    decreases |es|
  {
    if es != [] {
      var init := es[..|es| - 1];
      AllKnownInit(es, meshes);
      assert forall i :: 0 <= i < |init| ==> init[i] == es[i];
      PassTouchesOnlyMatched(s, init, meshes, delta, time, maths, h);
    }
  }

  lemma DistinctMeshesInit(es: seq<Entity>)
    requires es != [] && DistinctMeshes(es)
    ensures DistinctMeshes(es[..|es| - 1])
  {
    var init := es[..|es| - 1];
    forall j, k | 0 <= j < k < |init| && init[j].mesh.Some? && init[k].mesh.Some?
      ensures init[j].mesh.value != init[k].mesh.value
    {
      assert init[j] == es[j] && init[k] == es[k];
    }
  }

  /** Render pass: with distinct handles, the handle of every entity with a
      Position and a Mesh ends at that entity's position. */
  lemma {:induction false} RenderPassShowsPositions(es: seq<Entity>, meshes: Meshes, delta: real, time: real, maths: Maths, i: nat)
    requires AllKnown(es, meshes) && DistinctMeshes(es)
    requires i < |es| && Matches(es[i], Query(RenderSystem))
    ensures es[i].mesh.Some? && es[i].position.Some?
    ensures Pass(RenderSystem, es, meshes, delta, time, maths).1[es[i].mesh.value].position == es[i].position.value
    decreases |es|
  {
    assert PositionKind in Query(RenderSystem) && MeshKind in Query(RenderSystem);
    var init, e := es[..|es| - 1], es[|es| - 1];
    AllKnownInit(es, meshes);
    var h := es[i].mesh.value;
    if i < |es| - 1 {
      DistinctMeshesInit(es);
      assert init[i] == es[i];
      RenderPassShowsPositions(init, meshes, delta, time, maths, i);
      assert e.mesh != Some(h);
    }
  }

  /** Pulse pass: with distinct handles, the handle of every entity with a
      Pulse and a Mesh ends with the pulse scale on all three axes. */
  lemma {:induction false} PulsePassShowsScale(es: seq<Entity>, meshes: Meshes, delta: real, time: real, maths: Maths, i: nat)
    requires AllKnown(es, meshes) && DistinctMeshes(es)
    requires i < |es| && Matches(es[i], Query(PulseSystem))
    ensures es[i].mesh.Some? && es[i].pulse.Some?
    ensures var sc := PulseScale(es[i].pulse.value, time, maths);
      Pass(PulseSystem, es, meshes, delta, time, maths).1[es[i].mesh.value].scale == Vec3(sc, sc, sc)
    decreases |es|
  {
    assert PulseKind in Query(PulseSystem) && MeshKind in Query(PulseSystem);
    var init, e := es[..|es| - 1], es[|es| - 1];
    AllKnownInit(es, meshes);
    var h := es[i].mesh.value;
    if i < |es| - 1 {
      DistinctMeshesInit(es);
      assert init[i] == es[i];
      PulsePassShowsScale(init, meshes, delta, time, maths, i);
      assert e.mesh != Some(h);
    }
  }

  /** Systems visit only the entities that match their query: with an empty
      query result a pass changes nothing at all. */
  lemma NoMatchNoChange(s: System, es: seq<Entity>, meshes: Meshes, delta: real, time: real, maths: Maths)
    requires AllKnown(es, meshes)
    requires forall i :: 0 <= i < |es| ==> !Matches(es[i], Query(s))
    ensures Pass(s, es, meshes, delta, time, maths) == (es, meshes)
  {
    var r := Pass(s, es, meshes, delta, time, maths);
    PassEntities(s, es, meshes, delta, time, maths);
    forall i | 0 <= i < |es| ensures r.0[i] == es[i] {
      assert r.0[i] == EntityEffect(s, es[i], delta, maths);
      assert !Matches(es[i], Query(s));
    }
    assert r.0 == es;
    forall h | h in meshes ensures r.1[h] == meshes[h] {
      PassTouchesOnlyMatched(s, es, meshes, delta, time, maths, h);
    }
    assert r.1 == meshes;
  }

  /** The state after the first `n` registered systems have run their
      passes, in registration order, each on the state the previous one
      left. */
  function Run(systems: seq<System>, n: nat, es: seq<Entity>, meshes: Meshes, delta: real, time: real, maths: Maths)
    : (r: (seq<Entity>, Meshes))
    requires n <= |systems| && AllKnown(es, meshes)
    ensures |r.0| == |es| && r.1.Keys == meshes.Keys && AllKnown(r.0, r.1)
    decreases n
  {
    if n == 0 then (es, meshes)
    else
      var prev := Run(systems, n - 1, es, meshes, delta, time, maths);
      PassKnown(systems[n - 1], prev.0, prev.1, delta, time, maths);
      Pass(systems[n - 1], prev.0, prev.1, delta, time, maths)
  }

  /** `world.execute(delta, time)`: every registered system's pass. */
  function Tick(systems: seq<System>, es: seq<Entity>, meshes: Meshes, delta: real, time: real, maths: Maths)
    : (r: (seq<Entity>, Meshes))
    requires AllKnown(es, meshes)
  {
    Run(systems, |systems|, es, meshes, delta, time, maths)
  }

  /** A tick adds and removes no component, keeps every mesh reference and
      writes only the Position and Speed components. */
  lemma {:induction false} RunFrame(systems: seq<System>, n: nat, es: seq<Entity>, meshes: Meshes, delta: real, time: real, maths: Maths, i: nat)
    requires n <= |systems| && AllKnown(es, meshes) && i < |es|
    ensures var r := Run(systems, n, es, meshes, delta, time, maths).0[i];
      SameShape(es[i], r) && r == es[i].(position := r.position, speed := r.speed)
    decreases n
  {
    if n > 0 {
      RunFrame(systems, n - 1, es, meshes, delta, time, maths, i);
      var prev := Run(systems, n - 1, es, meshes, delta, time, maths);
      PassEntities(systems[n - 1], prev.0, prev.1, delta, time, maths);
      EntityEffectFrame(systems[n - 1], prev.0[i], delta, maths);
      SameShapeTrans(es[i], prev.0[i], Run(systems, n, es, meshes, delta, time, maths).0[i]);
    }
  }

  lemma SameShapeTrans(a: Entity, b: Entity, c: Entity)
    requires SameShape(a, b) && SameShape(b, c)
    ensures SameShape(a, c)
  {
  }

  /** Keeping the kinds keeps every query's verdict. */
  lemma ShapeKeepsMatches(e: Entity, r: Entity, s: System)
    requires SameShape(e, r)
    ensures Matches(r, Query(s)) == Matches(e, Query(s))
  {
  }

  /** Passes keep every mesh reference, so they keep references distinct. */
  lemma RunKeepsDistinct(systems: seq<System>, n: nat, es: seq<Entity>, meshes: Meshes, delta: real, time: real, maths: Maths)
    requires n <= |systems| && AllKnown(es, meshes) && DistinctMeshes(es)
    ensures DistinctMeshes(Run(systems, n, es, meshes, delta, time, maths).0)
  {
    var r := Run(systems, n, es, meshes, delta, time, maths).0;
    forall i | 0 <= i < |es| ensures r[i].mesh == es[i].mesh {
      RunFrame(systems, n, es, meshes, delta, time, maths, i);
    }
  }

  /** Systems other than Movement and FallThrough, run after the first `k`,
      leave every Position component as the first `k` left it. */
  lemma {:induction false} PositionKept(systems: seq<System>, k: nat, n: nat, es: seq<Entity>, meshes: Meshes, delta: real, time: real, maths: Maths, i: nat)
    requires k <= n <= |systems| && AllKnown(es, meshes) && i < |es|
    requires forall j :: k <= j < n ==> systems[j] != MovementSystem && systems[j] != FallThroughSystem
    ensures Run(systems, n, es, meshes, delta, time, maths).0[i].position
         == Run(systems, k, es, meshes, delta, time, maths).0[i].position
    decreases n
  {
    if k < n {
      PositionKept(systems, k, n - 1, es, meshes, delta, time, maths, i);
      var prev := Run(systems, n - 1, es, meshes, delta, time, maths);
      PassEntities(systems[n - 1], prev.0, prev.1, delta, time, maths);
      EntityEffectFrame(systems[n - 1], prev.0[i], delta, maths);
    }
  }

  /** Systems other than Render, run after the first `k`, leave every
      render handle's position as the first `k` left it. */
  lemma {:induction false} HandlePositionKept(systems: seq<System>, k: nat, n: nat, es: seq<Entity>, meshes: Meshes, delta: real, time: real, maths: Maths, h: MeshRef)
    requires k <= n <= |systems| && AllKnown(es, meshes) && h in meshes
    requires forall j :: k <= j < n ==> systems[j] != RenderSystem
    ensures Run(systems, n, es, meshes, delta, time, maths).1[h].position
         == Run(systems, k, es, meshes, delta, time, maths).1[h].position
    decreases n
  {
    if k < n {
      HandlePositionKept(systems, k, n - 1, es, meshes, delta, time, maths, h);
      var prev := Run(systems, n - 1, es, meshes, delta, time, maths);
      PassKeepsHandlePosition(systems[n - 1], prev.0, prev.1, delta, time, maths, h);
    }
  }

  lemma PassKeepsHandlePosition(s: System, es: seq<Entity>, meshes: Meshes, delta: real, time: real, maths: Maths, h: MeshRef)
    requires AllKnown(es, meshes) && h in meshes && s != RenderSystem
    ensures h in Pass(s, es, meshes, delta, time, maths).1
    ensures Pass(s, es, meshes, delta, time, maths).1[h].position == meshes[h].position
  {
    PassKeepsMeshes(s, es, meshes, delta, time, maths);
  }

  // ---------------------------------------------------------------------
  // The world as ecsy keeps it: entities and render handles, mutated in place

  class World {
    var entities: seq<Entity>
    var meshes: Meshes
    var systems: seq<System>

    ghost predicate Valid()
      reads this
    {
      AllKnown(entities, meshes)
    }

    /** `new World()`, beside the scene's render handles `ms`. */
    constructor (ms: Meshes)
      ensures Valid() && entities == [] && meshes == ms && systems == []
    {
      entities, meshes, systems := [], ms, [];
    }

    /** `world.createEntity()` followed by its `addComponent` calls: the new
        entity comes last in every query result. */
    method CreateEntity(cs: seq<Component>)
      requires Valid() && MeshKnown(Build(cs), meshes)
      modifies this
      ensures Valid() && entities == old(entities) + [Build(cs)]
      ensures meshes == old(meshes) && systems == old(systems)
    {
      entities := entities + [Build(cs)];
    }

    /** `world.registerSystem(S)`: appends to the execution order. */
    method RegisterSystem(s: System)
      modifies this
      ensures systems == old(systems) + [s]
      ensures entities == old(entities) && meshes == old(meshes)
    {
      systems := systems + [s];
    }

    /** `world.execute(delta, time)`: runs every registered system once, in
        the order of registration. */
    method Execute(delta: real, time: real, maths: Maths)
      requires Valid()
      modifies this
      ensures Valid() && systems == old(systems)
      ensures entities == Tick(systems, old(entities), old(meshes), delta, time, maths).0
      ensures meshes == Tick(systems, old(entities), old(meshes), delta, time, maths).1
    {
      ghost var es0, ms0 := entities, meshes;
      var j := 0;
      while j < |systems|
        invariant 0 <= j <= |systems| && systems == old(systems)
        invariant Valid()
        invariant entities == Run(systems, j, es0, ms0, delta, time, maths).0
        invariant meshes == Run(systems, j, es0, ms0, delta, time, maths).1
      {
        ExecuteSystem(systems[j], delta, time, maths);
        j := j + 1;
      }
    }

    /** `system.execute(delta, time)`: the forEach over the query results. */
    method ExecuteSystem(s: System, delta: real, time: real, maths: Maths)
      requires Valid()
      modifies this
      ensures Valid()
      ensures systems == old(systems)
      ensures entities == Pass(s, old(entities), old(meshes), delta, time, maths).0
      ensures meshes == Pass(s, old(entities), old(meshes), delta, time, maths).1
    {
      ghost var es0, ms0 := entities, meshes;
      var es, ms := entities, meshes;
      var i := 0;
      while i < |es|
        invariant 0 <= i <= |es| == |es0| && unchanged(this)
        invariant AllKnown(es0, ms0) && AllKnown(es0[..i], ms0)
        invariant es == Pass(s, es0[..i], ms0, delta, time, maths).0 + es0[i..]
        invariant ms == Pass(s, es0[..i], ms0, delta, time, maths).1
      {
        LoopStep(s, es0, ms0, delta, time, maths, i, es, ms);
        var e := es[i];
        if Matches(e, Query(s)) {
          es := es[i := EntityEffect(s, e, delta, maths)];
          ms := MeshEffect(s, e, ms, delta, time, maths);
        }
        i := i + 1;
      }
      LoopDone(s, es0, ms0, delta, time, maths, es, ms);
      entities, meshes := es, ms;
    }
  }
}
