/** The component kinds of the entity/component demo and the entity record
    that holds at most one component of each kind. Value components carry
    the schema's fields; tag components carry nothing and only their
    presence counts. */
module Components {
  import opened Wrappers
  import opened Vectors

  /** The `Mesh` component's `value`: an opaque reference to a render
      handle, here the handle's key in the world's table of meshes. */
  type MeshRef = nat

  datatype PositionRange = PositionRange(minX: real, maxX: real, minY: real, maxY: real, minZ: real, maxZ: real)

  datatype AirResistance = AirResistance(value: real)

  datatype Pulse = Pulse(speed: real, min: real, max: real)

  /** Schema defaults: Position, Speed and Spin are x, y, z all 0. */
  const DefaultPosition := Vec3(0.0, 0.0, 0.0)
  const DefaultSpeed := Vec3(0.0, 0.0, 0.0)
  const DefaultSpin := Vec3(0.0, 0.0, 0.0)
  const DefaultPositionRange := PositionRange(-10.0, 10.0, -10.0, 10.0, -10.0, 10.0)
  const DefaultAirResistance := AirResistance(0.1)
  const DefaultPulse := Pulse(1.0, 1.0, 2.0)

  /** The registered component kinds. */
  datatype Kind =
    | PositionKind | SpeedKind | SpinKind | PositionRangeKind
    | GravityKind | FallThroughKind | BounceKind
    | AirResistanceKind | PulseKind | MeshKind

  /** One component value, as handed to `addComponent`. */
  datatype Component =
    | PositionOf(position: Vec3)
    | SpeedOf(speed: Vec3)
    | SpinOf(spin: Vec3)
    | PositionRangeOf(range: PositionRange)
    | GravityTag
    | FallThroughTag
    | BounceTag
    | AirResistanceOf(airResistance: AirResistance)
    | PulseOf(pulse: Pulse)
    | MeshOf(mesh: MeshRef)

  function KindOf(c: Component): Kind {
    match c
    case PositionOf(_) => PositionKind
    case SpeedOf(_) => SpeedKind
    case SpinOf(_) => SpinKind
    case PositionRangeOf(_) => PositionRangeKind
    case GravityTag => GravityKind
    case FallThroughTag => FallThroughKind
    case BounceTag => BounceKind
    case AirResistanceOf(_) => AirResistanceKind
    case PulseOf(_) => PulseKind
    case MeshOf(_) => MeshKind
  }

  /** An entity: zero or one component of every kind. */
  datatype Entity = Entity(
    position: Option<Vec3>,
    speed: Option<Vec3>,
    spin: Option<Vec3>,
    positionRange: Option<PositionRange>,
    gravity: bool,
    fallThrough: bool,
    bounce: bool,
    airResistance: Option<AirResistance>,
    pulse: Option<Pulse>,
    mesh: Option<MeshRef>)

  /** A freshly created entity holds no component. */
  const EmptyEntity := Entity(None, None, None, None, false, false, false, None, None, None)

  /** The component of kind `k` the entity holds, if any. */
  function Get(e: Entity, k: Kind): (r: Option<Component>)
    ensures r.Some? ==> KindOf(r.value) == k
  {
    match k
    case PositionKind => if e.position.Some? then Some(PositionOf(e.position.value)) else None
    case SpeedKind => if e.speed.Some? then Some(SpeedOf(e.speed.value)) else None
    case SpinKind => if e.spin.Some? then Some(SpinOf(e.spin.value)) else None
    case PositionRangeKind => if e.positionRange.Some? then Some(PositionRangeOf(e.positionRange.value)) else None
    case GravityKind => if e.gravity then Some(GravityTag) else None
    case FallThroughKind => if e.fallThrough then Some(FallThroughTag) else None
    case BounceKind => if e.bounce then Some(BounceTag) else None
    case AirResistanceKind => if e.airResistance.Some? then Some(AirResistanceOf(e.airResistance.value)) else None
    case PulseKind => if e.pulse.Some? then Some(PulseOf(e.pulse.value)) else None
    case MeshKind => if e.mesh.Some? then Some(MeshOf(e.mesh.value)) else None
  }

  predicate Has(e: Entity, k: Kind) {
    Get(e, k).Some?
  }

  /** A query's filter: the entity holds EVERY listed kind. */
  predicate Matches(e: Entity, query: set<Kind>) {
    forall k :: k in query ==> Has(e, k)
  }

  /** `entity.addComponent(kind, value)`: sets the component of that kind,
      silently replacing one already there. */
  function Attach(e: Entity, c: Component): (r: Entity)
    ensures Get(r, KindOf(c)) == Some(c)
    ensures forall k :: k != KindOf(c) ==> Get(r, k) == Get(e, k)
  {
    match c
    case PositionOf(p) => e.(position := Some(p))
    case SpeedOf(s) => e.(speed := Some(s))
    case SpinOf(s) => e.(spin := Some(s))
    case PositionRangeOf(range) => e.(positionRange := Some(range))
    case GravityTag => e.(gravity := true)
    case FallThroughTag => e.(fallThrough := true)
    case BounceTag => e.(bounce := true)
    case AirResistanceOf(a) => e.(airResistance := Some(a))
    case PulseOf(p) => e.(pulse := Some(p))
    case MeshOf(m) => e.(mesh := Some(m))
  }

  /** A created entity after a series of `addComponent` calls, in order. */
  function Build(cs: seq<Component>): Entity
    decreases |cs|
  {
    if cs == [] then EmptyEntity else Attach(Build(cs[..|cs| - 1]), cs[|cs| - 1])
  }

  /** An entity built from a list of components holds exactly the kinds in
      the list, and for each kind the value attached LAST. */
  lemma {:induction false} BuildHolds(cs: seq<Component>, k: Kind)
    ensures Has(Build(cs), k) <==> exists i :: 0 <= i < |cs| && KindOf(cs[i]) == k
    ensures forall i ::
              (0 <= i < |cs| && KindOf(cs[i]) == k && forall j :: i < j < |cs| ==> KindOf(cs[j]) != k)
              ==> Get(Build(cs), k) == Some(cs[i])
    decreases |cs|
  {
    if cs != [] {
      var init, last := cs[..|cs| - 1], cs[|cs| - 1];
      BuildHolds(init, k);
      if KindOf(last) != k {
        assert Get(Build(cs), k) == Get(Build(init), k);
        forall i | 0 <= i < |cs| && KindOf(cs[i]) == k && (forall j :: i < j < |cs| ==> KindOf(cs[j]) != k)
          ensures Get(Build(cs), k) == Some(cs[i])
        {
          assert i < |init| && init[i] == cs[i];
          assert forall j :: i < j < |init| ==> init[j] == cs[j];
        }
        if Has(Build(cs), k) {
          var i :| 0 <= i < |init| && KindOf(init[i]) == k;
          assert cs[i] == init[i];
        }
        if exists i :: 0 <= i < |cs| && KindOf(cs[i]) == k {
          var i :| 0 <= i < |cs| && KindOf(cs[i]) == k;
          assert i < |init| && init[i] == cs[i];
        }
      }
    }
  }

  /** The schema defaults: zero vectors, and every range with its lower
      bound below its upper bound. */
  lemma DefaultsOrdered()
    ensures DefaultPositionRange.minX < DefaultPositionRange.maxX
    ensures DefaultPositionRange.minY < DefaultPositionRange.maxY
    ensures DefaultPositionRange.minZ < DefaultPositionRange.maxZ
    ensures DefaultPulse.min < DefaultPulse.max
    ensures DefaultAirResistance.value == 0.1
    ensures DefaultPosition == DefaultSpeed == DefaultSpin == Zero
  {
  }
}
