/** The object/behaviour variant of the demo: every object owns a mesh
    and, optionally, a behaviour that moves the mesh once per frame. Spin
    turns the mesh about two axes in opposite senses; Bounce integrates a
    fall under gravity and reverses the velocity below the floor. */
module Behaviours {
  import opened Wrappers
  import opened Vectors

  /** Gravitational acceleration used by the bounce. */
  const G: real := 9.81

  /** The floor height below which a bounce reverses the velocity. */
  const Floor: real := -2.0

  /** The part of a three.js mesh the behaviours read and write. */
  class Mesh {
    var position: Vec3
    var rotation: Vec3

    /** `new THREE.Mesh(...)` and `mesh.position.set(p)`. */
    constructor (p: Vec3)
      ensures position == p && rotation == Zero
    {
      position, rotation := p, Zero;
    }
  }

  // ---------------------------------------------------------------------
  // What one update does, as functions of the old values

  /** A spin update: `rotation.x += speed * dt`, `rotation.y -= speed * dt`. */
  function Spun(rotation: Vec3, speed: real, dt: real): (r: Vec3)
    ensures r.x + r.y == rotation.x + rotation.y && r.z == rotation.z
    ensures r.x - rotation.x == rotation.y - r.y
    ensures speed == 0.0 || dt == 0.0 ==> r == rotation
  {
    Vec3(rotation.x + speed * dt, rotation.y - speed * dt, rotation.z)
  }

  /** Two spin updates of `dt1` and `dt2` are one of `dt1 + dt2`. */
  lemma SpunComposes(rotation: Vec3, speed: real, dt1: real, dt2: real)
    ensures Spun(Spun(rotation, speed, dt1), speed, dt2) == Spun(rotation, speed, dt1 + dt2)
  {
    assert speed * dt1 + speed * dt2 == speed * (dt1 + dt2);
  }

  /** The bounce's persistent state: its velocity and the mesh's height. */
  datatype Fall = Fall(velocity: real, height: real)

  /** The velocity after gravity has acted for `dt`, before any reversal. */
  function Accelerated(velocity: real, dt: real): real {
    velocity - G * dt
  }

  /** A bounce update, semi-implicit Euler: first the velocity, then the
      height at the NEW velocity; if that height is below the floor the
      velocity is reversed, but the height is kept as computed. */
  function Bounced(f: Fall, dt: real): (r: Fall)
    ensures r.height == f.height + Accelerated(f.velocity, dt) * dt
    ensures r.height < Floor ==> r.velocity == -Accelerated(f.velocity, dt)
    ensures Floor <= r.height ==> r.velocity == Accelerated(f.velocity, dt)
  {
    var v := Accelerated(f.velocity, dt);
    var s := f.height + v * dt;
    Fall(if s < Floor then -v else v, s)
  }

  /** A bounce keeps the speed gravity left and only chooses its sign. */
  lemma BounceKeepsSpeed(f: Fall, dt: real)
    ensures var v, r := Accelerated(f.velocity, dt), Bounced(f, dt).velocity;
      r == v || r == -v
    ensures var v, r := Accelerated(f.velocity, dt), Bounced(f, dt).velocity;
      r * r == v * v
  {
  }

  /** Below the floor and still falling, the reversed velocity points up. */
  lemma BounceTurnsUp(f: Fall, dt: real)
    requires Bounced(f, dt).height < Floor && Accelerated(f.velocity, dt) < 0.0
    ensures Bounced(f, dt).velocity > 0.0
  {
  }

  /** With `dt == 0` the height stays, and the velocity flips exactly when
      the mesh is already below the floor. */
  lemma BounceAtZeroStep(f: Fall)
    ensures Bounced(f, 0.0).height == f.height
    ensures Bounced(f, 0.0).velocity == if f.height < Floor then -f.velocity else f.velocity
  {
  }

  /** An illustration of the unclamped height that `Bounced` states in
      general: from 1.9 below the origin, falling at 10, a step of 0.1 ends
      about 1 below the floor, with the velocity reversed. */
  lemma BounceGoesBelowFloor()
    ensures Bounced(Fall(-10.0, -1.9), 0.1) == Fall(10.981, -2.9981)
    ensures Bounced(Fall(-10.0, -1.9), 0.1).height < Floor
  {
  }

  /** The constructor's start velocity squared: `-8 * -9.81 * amplitude / 3`. */
  function LaunchEnergy(amplitude: real): real {
    -8.0 * -G * amplitude / 3.0
  }

  /** With a true square root, a non-negative amplitude gives a
      non-negative start velocity whose square is `8 * 9.81 * amplitude / 3`;
      that is the speed a body needs to rise `amplitude * 4 / 3` against G. */
  lemma LaunchSpeed(amplitude: real, sqrt: real -> real)
    requires forall x :: x >= 0.0 ==> sqrt(x) >= 0.0 && sqrt(x) * sqrt(x) == x
    requires amplitude >= 0.0
    ensures var v := sqrt(LaunchEnergy(amplitude));
      v >= 0.0 && v * v == 8.0 * G * amplitude / 3.0
    ensures var v := sqrt(LaunchEnergy(amplitude));
      v * v == 2.0 * G * (amplitude * 4.0 / 3.0)
  {
    assert LaunchEnergy(amplitude) == 8.0 * G * amplitude / 3.0 >= 0.0;
  }

  // ---------------------------------------------------------------------
  // The behaviour objects

  class SpinBehavior {
    const speed: real

    constructor (speed: real)
      ensures this.speed == speed
    {
      this.speed := speed;
    }

    /** `update(mesh, deltaTime)`: turns the mesh; its position stays. */
    method Update(mesh: Mesh, dt: real)
      modifies mesh
      ensures mesh.rotation == Spun(old(mesh.rotation), speed, dt)
      ensures mesh.position == old(mesh.position)
    {
      mesh.rotation := mesh.rotation.(x := mesh.rotation.x + speed * dt);
      mesh.rotation := mesh.rotation.(y := mesh.rotation.y - speed * dt);
    }
  }

  class BounceBehavior {
    const speed: real
    const amplitude: real
    var velocity: real

    /** The start velocity is `sqrt(-8 * -9.81 * amplitude / 3)`; the square
        root is supplied by the caller. */
    constructor (speed: real, amplitude: real, sqrt: real -> real)
      ensures this.speed == speed && this.amplitude == amplitude
      ensures velocity == sqrt(LaunchEnergy(amplitude))
    {
      this.speed, this.amplitude := speed, amplitude;
      velocity := sqrt(LaunchEnergy(amplitude));
    }

    /** `update(mesh, deltaTime)`: one bounce step on the velocity field and
        the mesh's height; x, z and the rotation stay. */
    method Update(mesh: Mesh, dt: real)
      modifies this, mesh
      ensures Fall(velocity, mesh.position.y) == Bounced(Fall(old(velocity), old(mesh.position.y)), dt)
      ensures mesh.position == old(mesh.position).(y := mesh.position.y)
      ensures mesh.rotation == old(mesh.rotation)
    {
      velocity := velocity - G * dt;
      var s := mesh.position.y + velocity * dt;
      if s < Floor {
        velocity := -velocity;
      }
      mesh.position := mesh.position.(y := s);
    }
  }

  /** The behaviour an object may own. */
  datatype Behavior = SpinOf(spin: SpinBehavior) | BounceOf(bounce: BounceBehavior)

  /** The objects a behaviour updates besides the mesh. */
  function Owned(b: Option<Behavior>): set<object> {
    if b.Some? && b.value.BounceOf? then {b.value.bounce} else {}
  }

  /** `BaseObject`, and through its constructor `Cube` and `Ball`, which
      differ only in geometry: an id, an optional behaviour and a mesh placed
      at `position`. */
  class BaseObject {
    const id: int
    const behavior: Option<Behavior>
    const mesh: Mesh

    constructor (id: int, behavior: Option<Behavior>, position: Vec3)
      ensures this.id == id && this.behavior == behavior
      ensures fresh(mesh) && mesh.position == position && mesh.rotation == Zero
    {
      this.id, this.behavior := id, behavior;
      mesh := new Mesh(position);
    }

    /** `update(deltaTime)`: hands the own mesh to the behaviour, if any. */
    method Update(dt: real)
      modifies mesh, Owned(behavior)
      ensures behavior.None? ==> mesh.position == old(mesh.position) && mesh.rotation == old(mesh.rotation)
      ensures behavior.Some? && behavior.value.SpinOf? ==>
        mesh.rotation == Spun(old(mesh.rotation), behavior.value.spin.speed, dt) && mesh.position == old(mesh.position)
      ensures behavior.Some? && behavior.value.BounceOf? ==>
        var b := behavior.value.bounce;
        Fall(b.velocity, mesh.position.y) == Bounced(Fall(old(b.velocity), old(mesh.position.y)), dt)
        && mesh.position == old(mesh.position).(y := mesh.position.y) && mesh.rotation == old(mesh.rotation)
    {
      if behavior.Some? {
        match behavior.value
        case SpinOf(s) => s.Update(mesh, dt);
        case BounceOf(b) => b.Update(mesh, dt);
      }
    }
  }

  /** The page: a spinning cube at the origin, a ball bouncing at x = 2, and
      the time of the previous frame. */
  class Demo {
    const cube: BaseObject
    const ball: BaseObject
    const bounce: BounceBehavior
    var lastTime: int

    ghost predicate Valid()
      reads this, cube, ball
    {
      cube.mesh != ball.mesh
      && cube.behavior.Some? && cube.behavior.value.SpinOf? && cube.behavior.value.spin.speed == 2.0
      && ball.behavior == Some(BounceOf(bounce))
    }

    /** The start-up code, with the clock reading `now` in milliseconds. */
    constructor Setup(now: int, sqrt: real -> real)
      ensures Valid() && lastTime == now
      ensures cube.id == 2 && cube.mesh.position == Zero && cube.mesh.rotation == Zero
      ensures ball.id == 1 && ball.mesh.position == Vec3(2.0, 0.0, 0.0)
      ensures bounce.speed == 5.0 && bounce.amplitude == 2.0 && bounce.velocity == sqrt(LaunchEnergy(2.0))
    {
      var spin := new SpinBehavior(2.0);
      var b := new BounceBehavior(5.0, 2.0, sqrt);
      cube := new BaseObject(2, Some(SpinOf(spin)), Zero);
      ball := new BaseObject(1, Some(BounceOf(b)), Vec3(2.0, 0.0, 0.0));
      bounce := b;
      lastTime := now;
    }

    /** One frame at clock time `currentTime` (milliseconds): both objects
        are updated with the elapsed seconds, whatever their sign. */
    method Frame(currentTime: int)
      requires Valid()
      modifies this, cube.mesh, ball.mesh, bounce
      ensures Valid() && lastTime == currentTime
      ensures var dt := (currentTime - old(lastTime)) as real / 1000.0;
        cube.mesh.rotation == Spun(old(cube.mesh.rotation), 2.0, dt)
        && cube.mesh.position == old(cube.mesh.position)
        && Fall(bounce.velocity, ball.mesh.position.y) == Bounced(Fall(old(bounce.velocity), old(ball.mesh.position.y)), dt)
        && ball.mesh.position == old(ball.mesh.position).(y := ball.mesh.position.y)
      ensures ball.mesh.rotation == old(ball.mesh.rotation)
    {
      var deltaTime := (currentTime - lastTime) as real / 1000.0;
      lastTime := currentTime;
      cube.Update(deltaTime);
      ball.Update(deltaTime);
    }
  }
}
