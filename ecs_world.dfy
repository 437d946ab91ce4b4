/** The entity/component demo scene: two entities, the eight systems in
    their registration order, one `execute(0, 0)` at start-up and then one
    `execute` per animation frame with the elapsed time in seconds. */
module EcsDemo {
  import opened Wrappers
  import opened Vectors
  import opened Components
  import opened Systems

  /** The first entity: a bouncing box, without gravity. */
  const FirstComponents: seq<Component> := [
    PositionOf(Vec3(-1.0, 0.0, -10.0)),
    SpeedOf(Vec3(5.0, 2.0, 3.0)),
    SpinOf(Vec3(0.5, 1.0, 1.5)),
    MeshOf(0),
    PositionRangeOf(PositionRange(-8.0, 8.0, -5.0, 5.0, -15.0, -5.0)),
    BounceTag
  ]

  /** The second entity: a falling, pulsing tetrahedron that wraps around
      its range and is slowed by the air. */
  const SecondComponents: seq<Component> := [
    PositionOf(Vec3(1.0, 0.0, -10.0)),
    SpeedOf(Vec3(-0.1, 15.0, 0.3)),
    GravityTag,
    SpinOf(Vec3(0.5, 1.0, 1.5)),
    MeshOf(1),
    PositionRangeOf(PositionRange(-10.0, 10.0, -10.0, 10.0, -10.0, 10.0)),
    FallThroughTag,
    AirResistanceOf(AirResistance(0.5)),
    PulseOf(Pulse(1.5, 0.5, 1.5))
  ]

  /** The two entities as their component lists leave them. */
  const FirstEntity := Entity(
    Some(Vec3(-1.0, 0.0, -10.0)), Some(Vec3(5.0, 2.0, 3.0)), Some(Vec3(0.5, 1.0, 1.5)),
    Some(PositionRange(-8.0, 8.0, -5.0, 5.0, -15.0, -5.0)),
    false, false, true, None, None, Some(0))

  const SecondEntity := Entity(
    Some(Vec3(1.0, 0.0, -10.0)), Some(Vec3(-0.1, 15.0, 0.3)), Some(Vec3(0.5, 1.0, 1.5)),
    Some(PositionRange(-10.0, 10.0, -10.0, 10.0, -10.0, 10.0)),
    true, true, false, Some(AirResistance(0.5)), Some(Pulse(1.5, 0.5, 1.5)), Some(1))

  /** A new render handle: at the origin, unrotated, at unit scale. */
  const NewMesh := Transform(Zero, Zero, Vec3(1.0, 1.0, 1.0))

  const InitialMeshes: Meshes := map[0 := NewMesh, 1 := NewMesh]

  /** The registration order of the systems. */
  const Schedule: seq<System> := [
    GravitySystem, MovementSystem, RenderSystem, SpinSystem,
    FallThroughSystem, BounceSystem, AirResistanceSystem, PulseSystem
  ]

  /** The `addComponent` calls build exactly the listed entities. */
  lemma FirstEntityBuilt()
    ensures Build(FirstComponents) == FirstEntity
  {
    var f := FirstComponents;
    var p, e := [], EmptyEntity;
    BuildSnoc(p, f[0]);
    p, e := p + [f[0]], e.(position := FirstEntity.position);
    BuildSnoc(p, f[1]);
    p, e := p + [f[1]], e.(speed := FirstEntity.speed);
    BuildSnoc(p, f[2]);
    p, e := p + [f[2]], e.(spin := FirstEntity.spin);
    BuildSnoc(p, f[3]);
    p, e := p + [f[3]], e.(mesh := FirstEntity.mesh);
    assert Build(p) == e;
    BuildSnoc(p, f[4]);
    p, e := p + [f[4]], e.(positionRange := FirstEntity.positionRange);
    BuildSnoc(p, f[5]);
    p := p + [f[5]];
    assert p == f;
  }

  lemma SecondEntityBuilt()
    ensures Build(SecondComponents) == SecondEntity
  {
    var g := SecondComponents;
    var p, e := [], EmptyEntity;
    BuildSnoc(p, g[0]);
    p, e := p + [g[0]], e.(position := SecondEntity.position);
    BuildSnoc(p, g[1]);
    p, e := p + [g[1]], e.(speed := SecondEntity.speed);
    BuildSnoc(p, g[2]);
    p, e := p + [g[2]], e.(gravity := true);
    BuildSnoc(p, g[3]);
    p, e := p + [g[3]], e.(spin := SecondEntity.spin);
    BuildSnoc(p, g[4]);
    p, e := p + [g[4]], e.(mesh := SecondEntity.mesh);
    assert Build(p) == e;
    assert p == g[..5];
    SecondEntityTail();
  }

  lemma SecondEntityTail()
    requires Build(SecondComponents[..5]) == SecondEntity.(positionRange := None, fallThrough := false, airResistance := None, pulse := None)
    ensures Build(SecondComponents) == SecondEntity
  {
    var g := SecondComponents;
    var p, e := g[..5], SecondEntity.(positionRange := None, fallThrough := false, airResistance := None, pulse := None);
    BuildSnoc(p, g[5]);
    p, e := p + [g[5]], e.(positionRange := SecondEntity.positionRange);
    BuildSnoc(p, g[6]);
    p, e := p + [g[6]], e.(fallThrough := true);
    BuildSnoc(p, g[7]);
    p, e := p + [g[7]], e.(airResistance := SecondEntity.airResistance);
    assert Build(p) == e;
    BuildSnoc(p, g[8]);
    p := p + [g[8]];
    assert p == g;
  }

  lemma BuildSnoc(cs: seq<Component>, c: Component)
    ensures Build(cs + [c]) == Attach(Build(cs), c)
  {
    assert (cs + [c])[..|cs|] == cs;
  }

  /** Which systems visit which entity: the box is moved, rendered, spun
      and bounced; the tetrahedron is visited by every system but Bounce. */
  lemma InitialQueries(s: System)
    ensures Matches(FirstEntity, Query(s)) <==>
      s in {MovementSystem, RenderSystem, SpinSystem, BounceSystem}
    ensures Matches(SecondEntity, Query(s)) <==> s != BounceSystem
  {
    assert !Has(FirstEntity, GravityKind) && !Has(FirstEntity, FallThroughKind);
    assert !Has(FirstEntity, AirResistanceKind) && !Has(FirstEntity, PulseKind);
    assert !Has(SecondEntity, BounceKind);
  }

  /** The entities refer to the two handles, one each. */
  lemma InitialStateValid()
    ensures AllKnown([FirstEntity, SecondEntity], InitialMeshes)
    ensures DistinctMeshes([FirstEntity, SecondEntity])
  {
  }

  /** Both entities start inside their ranges, which are ordered; the
      tetrahedron starts exactly on its lower z bound. */
  lemma InitialPositionsInRange()
    ensures InRange(FirstEntity.position.value, FirstEntity.positionRange.value)
    ensures InRange(SecondEntity.position.value, SecondEntity.positionRange.value)
    ensures Ordered(FirstEntity.positionRange.value) && Ordered(SecondEntity.positionRange.value)
    ensures SecondEntity.position.value.z == SecondEntity.positionRange.value.minZ
  {
  }

  /** The positions in the schedule that the tick lemmas rely on. */
  predicate ScheduleShape(systems: seq<System>) {
    |systems| == 8 && systems[0] == GravitySystem && systems[1] == MovementSystem
    && systems[2] == RenderSystem && systems[4] == FallThroughSystem && systems[7] == PulseSystem
    && forall j :: 3 <= j < 8 ==>
         (systems[j] != RenderSystem && systems[j] != MovementSystem && (j != 4 ==> systems[j] != FallThroughSystem))
  }

  lemma ScheduleHasShape()
    ensures ScheduleShape(Schedule)
  {
  }

  /** On every tick the render handle of an entity with Position and Mesh
      shows the position after Gravity and Movement, that is BEFORE
      FallThrough has put it back into its range. */
  lemma RenderShowsMovedPosition(es: seq<Entity>, meshes: Meshes, delta: real, time: real, maths: Maths, i: nat)
    requires AllKnown(es, meshes) && DistinctMeshes(es)
    requires i < |es| && Matches(es[i], Query(RenderSystem))
    ensures es[i].mesh.Some? && MovementStep(GravityStep(es[i], delta), delta).position.Some?
    ensures Tick(Schedule, es, meshes, delta, time, maths).1[es[i].mesh.value].position
         == MovementStep(GravityStep(es[i], delta), delta).position.value
  {
    ScheduleHasShape();
    ShownPosition(Schedule, es, meshes, delta, time, maths, i);
  }

  lemma ShownPosition(systems: seq<System>, es: seq<Entity>, meshes: Meshes, delta: real, time: real, maths: Maths, i: nat)
    requires ScheduleShape(systems)
    requires AllKnown(es, meshes) && DistinctMeshes(es)
    requires i < |es| && Matches(es[i], Query(RenderSystem))
    ensures es[i].mesh.Some? && MovementStep(GravityStep(es[i], delta), delta).position.Some?
    ensures Run(systems, 8, es, meshes, delta, time, maths).1[es[i].mesh.value].position
         == MovementStep(GravityStep(es[i], delta), delta).position.value
  {
    assert PositionKind in Query(RenderSystem) && MeshKind in Query(RenderSystem);
    var s2 := Run(systems, 2, es, meshes, delta, time, maths);
    MovedBeforeRender(systems, es, meshes, delta, time, maths, i);
    RunFrame(systems, 2, es, meshes, delta, time, maths, i);
    RunKeepsDistinct(systems, 2, es, meshes, delta, time, maths);
    ShapeKeepsMatches(es[i], s2.0[i], RenderSystem);
    RenderPassShowsPositions(s2.0, s2.1, delta, time, maths, i);
    HandlePositionKept(systems, 3, 8, es, meshes, delta, time, maths, es[i].mesh.value);
  }

  lemma MovedBeforeRender(systems: seq<System>, es: seq<Entity>, meshes: Meshes, delta: real, time: real, maths: Maths, i: nat)
    requires ScheduleShape(systems) && AllKnown(es, meshes) && i < |es|
    ensures Run(systems, 2, es, meshes, delta, time, maths).0[i] == MovementStep(GravityStep(es[i], delta), delta)
  {
    PassEntities(GravitySystem, es, meshes, delta, time, maths);
    var s1 := Run(systems, 1, es, meshes, delta, time, maths);
    PassEntities(MovementSystem, s1.0, s1.1, delta, time, maths);
  }

  /** After every tick an entity with FallThrough and an ordered range is
      inside that range: Bounce, AirResistance and Pulse, which run after
      FallThrough, do not move it. */
  lemma TickEndsInRange(es: seq<Entity>, meshes: Meshes, delta: real, time: real, maths: Maths, i: nat)
    requires AllKnown(es, meshes) && i < |es|
    requires Matches(es[i], Query(FallThroughSystem)) && Ordered(es[i].positionRange.value)
    ensures Tick(Schedule, es, meshes, delta, time, maths).0[i].position.Some?
    ensures InRange(Tick(Schedule, es, meshes, delta, time, maths).0[i].position.value, es[i].positionRange.value)
  {
    ScheduleHasShape();
    EndsInRange(Schedule, es, meshes, delta, time, maths, i);
  }

  lemma EndsInRange(systems: seq<System>, es: seq<Entity>, meshes: Meshes, delta: real, time: real, maths: Maths, i: nat)
    requires ScheduleShape(systems) && AllKnown(es, meshes) && i < |es|
    requires Matches(es[i], Query(FallThroughSystem)) && Ordered(es[i].positionRange.value)
    ensures Run(systems, 8, es, meshes, delta, time, maths).0[i].position.Some?
    ensures InRange(Run(systems, 8, es, meshes, delta, time, maths).0[i].position.value, es[i].positionRange.value)
  {
    InRangeAfterFallThrough(systems, es, meshes, delta, time, maths, i);
    PositionKept(systems, 5, 8, es, meshes, delta, time, maths, i);
  }

  lemma InRangeAfterFallThrough(systems: seq<System>, es: seq<Entity>, meshes: Meshes, delta: real, time: real, maths: Maths, i: nat)
    requires ScheduleShape(systems) && AllKnown(es, meshes) && i < |es|
    requires Matches(es[i], Query(FallThroughSystem)) && Ordered(es[i].positionRange.value)
    ensures Run(systems, 5, es, meshes, delta, time, maths).0[i].position.Some?
    ensures InRange(Run(systems, 5, es, meshes, delta, time, maths).0[i].position.value, es[i].positionRange.value)
  {
    var s4 := Run(systems, 4, es, meshes, delta, time, maths);
    RunFrame(systems, 4, es, meshes, delta, time, maths, i);
    ShapeKeepsMatches(es[i], s4.0[i], FallThroughSystem);
    PassEntities(FallThroughSystem, s4.0, s4.1, delta, time, maths);
  }

  /** After every tick the handle of an entity with Pulse and Mesh has the
      pulse scale for the tick's time on all three axes. */
  lemma TickShowsPulse(es: seq<Entity>, meshes: Meshes, delta: real, time: real, maths: Maths, i: nat)
    requires AllKnown(es, meshes) && DistinctMeshes(es)
    requires i < |es| && Matches(es[i], Query(PulseSystem))
    ensures es[i].mesh.Some? && es[i].pulse.Some?
    ensures var sc := PulseScale(es[i].pulse.value, time, maths);
      Tick(Schedule, es, meshes, delta, time, maths).1[es[i].mesh.value].scale == Vec3(sc, sc, sc)
  {
    ScheduleHasShape();
    ShownPulse(Schedule, es, meshes, delta, time, maths, i);
  }

  lemma ShownPulse(systems: seq<System>, es: seq<Entity>, meshes: Meshes, delta: real, time: real, maths: Maths, i: nat)
    requires ScheduleShape(systems) && AllKnown(es, meshes) && DistinctMeshes(es)
    requires i < |es| && Matches(es[i], Query(PulseSystem))
    ensures es[i].mesh.Some? && es[i].pulse.Some?
    ensures var sc := PulseScale(es[i].pulse.value, time, maths);
      Run(systems, 8, es, meshes, delta, time, maths).1[es[i].mesh.value].scale == Vec3(sc, sc, sc)
  {
    assert PulseKind in Query(PulseSystem) && MeshKind in Query(PulseSystem);
    var s7 := Run(systems, 7, es, meshes, delta, time, maths);
    RunFrame(systems, 7, es, meshes, delta, time, maths, i);
    RunKeepsDistinct(systems, 7, es, meshes, delta, time, maths);
    ShapeKeepsMatches(es[i], s7.0[i], PulseSystem);
    PulsePassShowsScale(s7.0, s7.1, delta, time, maths, i);
  }

  /** The start-up `execute(0, 0)`: with no time elapsed the handles show
      the entities' initial positions, and with `sin(0) == 0` the
      tetrahedron's scale is `(0 / 2 + 1) * (1.5 - 0.5) + 0.5 == 1.5`. */
  lemma SetupShows(maths: Maths)
    requires maths.sin(0.0) == 0.0
    ensures var r := Tick(Schedule, [FirstEntity, SecondEntity], InitialMeshes, 0.0, 0.0, maths);
      0 in r.1 && 1 in r.1 &&
      r.1[0].position == Vec3(-1.0, 0.0, -10.0) && r.1[1].position == Vec3(1.0, 0.0, -10.0) &&
      r.1[1].scale == Vec3(1.5, 1.5, 1.5)
  {
    var es := [FirstEntity, SecondEntity];
    InitialStateValid();
    InitialQueries(RenderSystem);
    InitialQueries(PulseSystem);
    RenderShowsMovedPosition(es, InitialMeshes, 0.0, 0.0, maths, 0);
    RenderShowsMovedPosition(es, InitialMeshes, 0.0, 0.0, maths, 1);
    TickShowsPulse(es, InitialMeshes, 0.0, 0.0, maths, 1);
    assert PulsePhase(Pulse(1.5, 0.5, 1.5), 0.0, maths) == 0.0;
  }

  /** The world with the two entities and their handles, before any system
      is registered. */
  method NewScene() returns (w: World)
    ensures fresh(w) && w.Valid() && w.systems == []
    ensures w.entities == [FirstEntity, SecondEntity] && w.meshes == InitialMeshes
  {
    FirstEntityBuilt();
    SecondEntityBuilt();
    w := new World(InitialMeshes);
    w.CreateEntity(FirstComponents);
    w.CreateEntity(SecondComponents);
  }

  /** The eight `registerSystem` calls, in order. */
  method RegisterSchedule(w: World)
    requires w.systems == []
    modifies w
    ensures w.systems == Schedule && w.entities == old(w.entities) && w.meshes == old(w.meshes)
  {
    w.RegisterSystem(GravitySystem);
    w.RegisterSystem(MovementSystem);
    w.RegisterSystem(RenderSystem);
    w.RegisterSystem(SpinSystem);
    w.RegisterSystem(FallThroughSystem);
    w.RegisterSystem(BounceSystem);
    w.RegisterSystem(AirResistanceSystem);
    w.RegisterSystem(PulseSystem);
  }

  /** The page: the world, the time of the previous frame and the
      transcendental functions the systems use. */
  class App {
    const world: World
    var lastTime: int
    const maths: Maths

    ghost predicate Valid()
      reads this, world
    {
      world.Valid() && world.systems == Schedule
    }

    /** The start-up code: the world, its two entities and handles, the
        eight systems, one `execute(0, 0)`, and `lastTime` read from the
        clock (`now`, in milliseconds). */
    constructor Setup(now: int, maths: Maths)
      ensures Valid() && fresh(world) && this.maths == maths && lastTime == now
      ensures world.entities == Tick(Schedule, [FirstEntity, SecondEntity], InitialMeshes, 0.0, 0.0, maths).0
      ensures world.meshes == Tick(Schedule, [FirstEntity, SecondEntity], InitialMeshes, 0.0, 0.0, maths).1
    {
      var w := NewScene();
      RegisterSchedule(w);
      w.Execute(0.0, 0.0, maths);
      world, this.maths, lastTime := w, maths, now;
    }

    /** One animation frame at clock time `currentTime` (milliseconds): the
        elapsed seconds since the previous frame; `lastTime` always moves
        on, and the world executes only when some time has elapsed. */
    method Frame(currentTime: int)
      requires Valid()
      modifies this, world
      ensures Valid() && lastTime == currentTime
      ensures old(lastTime) < currentTime ==>
        var delta := (currentTime - old(lastTime)) as real / 1000.0;
        world.entities == Tick(Schedule, old(world.entities), old(world.meshes), delta, currentTime as real, maths).0 &&
        world.meshes == Tick(Schedule, old(world.entities), old(world.meshes), delta, currentTime as real, maths).1
      ensures currentTime <= old(lastTime) ==>
        world.entities == old(world.entities) && world.meshes == old(world.meshes)
    {
      var deltaTime := (currentTime - lastTime) as real / 1000.0;
      lastTime := currentTime;
      if deltaTime > 0.0 {
        world.Execute(deltaTime, currentTime as real, maths);
      }
    }
  }
}
