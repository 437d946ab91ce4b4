/** Spatial audio from a head model: the interaural time difference is
    split into a delay on the farther ear, the level difference is a
    distance law on both ears with the head absorbing part of the sound on
    the shadowed side, and WASD keys move the head, whose ears and nose
    follow. Vector lengths are supplied by the caller. */
module SpatialAudio {
  import opened Wrappers
  import opened Vectors

  /** The speed of sound in metres per second. */
  const SpeedOfSound: real := 343.0

  // ---------------------------------------------------------------------
  // Interaural time difference

  /** The delays handed to the left and the right delay node. */
  datatype Delays = Delays(left: real, right: real)

  /** `applyTimeDelay(leftDistance, rightDistance)`: the distance difference
      scaled by half the ear distance, over the speed of sound, goes to the
      left ear if positive and, negated, to the right ear if negative. */
  function TimeDelays(leftDistance: real, rightDistance: real, earDistance: real): Delays {
    var earDistanceFactor := earDistance / 2.0;
    var deltaInMeters := leftDistance * earDistanceFactor - rightDistance * earDistanceFactor;
    var timeDelay := deltaInMeters / SpeedOfSound;
    Delays(if timeDelay > 0.0 then timeDelay else 0.0, if timeDelay < 0.0 then -timeDelay else 0.0)
  }

  /** Both delays are non-negative, at most one is nonzero, and their
      difference is the scaled distance difference over the speed of sound. */
  lemma DelaySplit(leftDistance: real, rightDistance: real, earDistance: real)
    ensures var d := TimeDelays(leftDistance, rightDistance, earDistance);
      d.left >= 0.0 && d.right >= 0.0 && (d.left == 0.0 || d.right == 0.0)
    ensures var d := TimeDelays(leftDistance, rightDistance, earDistance);
      d.left - d.right == (leftDistance - rightDistance) * (earDistance / 2.0) / SpeedOfSound
  {
    var f := earDistance / 2.0;
    assert leftDistance * f - rightDistance * f == (leftDistance - rightDistance) * f;
  }

  /** Equal distances, or ears at distance 0, give no delay at all. */
  lemma NoDelay(leftDistance: real, rightDistance: real, earDistance: real)
    requires leftDistance == rightDistance || earDistance == 0.0
    ensures TimeDelays(leftDistance, rightDistance, earDistance) == Delays(0.0, 0.0)
  {
  }

  /** With ears apart, the farther ear is the one delayed. */
  lemma FartherEarDelayed(leftDistance: real, rightDistance: real, earDistance: real)
    requires earDistance > 0.0
    ensures leftDistance > rightDistance ==>
      TimeDelays(leftDistance, rightDistance, earDistance).left > 0.0
      && TimeDelays(leftDistance, rightDistance, earDistance).right == 0.0
    ensures leftDistance < rightDistance ==>
      TimeDelays(leftDistance, rightDistance, earDistance).right > 0.0
      && TimeDelays(leftDistance, rightDistance, earDistance).left == 0.0
  {
    var f := earDistance / 2.0;
    assert leftDistance * f - rightDistance * f == (leftDistance - rightDistance) * f;
    if leftDistance > rightDistance {
      assert (leftDistance - rightDistance) * f > 0.0;
    } else if leftDistance < rightDistance {
      assert (rightDistance - leftDistance) * f > 0.0;
    }
  }

  // ---------------------------------------------------------------------
  // Interaural level difference

  /** The gains handed to the left and the right volume node. */
  datatype Gains = Gains(left: real, right: real)

  /** The reference gain at distance `d`: `2.5^2 / d^2`. */
  function BaseGain(d: real): real
    requires d != 0.0
  {
    2.5 * 2.5 / (d * d)
  }

  /** The lengths `applyVolume` divides by are nonzero. */
  predicate Audible(l: Vec3, r: Vec3, length: Vec3 -> real) {
    length(Add(r, l)) != 0.0 && length(l) != 0.0 && length(r) != 0.0
  }

  /** Which side the source is on: `(r + l) . (r - l) / |r + l| / 2`,
      negative when the right ear is nearer. */
  function HeadFactor(l: Vec3, r: Vec3, length: Vec3 -> real): real
    requires length(Add(r, l)) != 0.0
  {
    Dot(Add(r, l), Sub(r, l)) / length(Add(r, l)) / 2.0
  }

  /** The gain rule of `applyVolume(l, r)`, `l` and `r` running from the
      source to the left and the right ear: the base gain on each ear, and
      the head's absorption applied to the shadowed ear only. */
  function VolumeGains(l: Vec3, r: Vec3, absorption: real, length: Vec3 -> real): Gains
    requires Audible(l, r, length)
  {
    var headFactor := HeadFactor(l, r, length);
    var volumeLeft := BaseGain(length(l));
    var volumeRight := BaseGain(length(r));
    if headFactor < 0.0 then Gains(volumeLeft * (1.0 + headFactor * absorption), volumeRight)
    else Gains(volumeLeft, volumeRight * (1.0 - headFactor * absorption))
  }

  /** With a negative head factor only the left gain is reduced, by the
      factor `1 + hf * absorption`; otherwise only the right one, by
      `1 - hf * absorption`. No absorption leaves both at the base gain. */
  lemma GainRule(l: Vec3, r: Vec3, absorption: real, length: Vec3 -> real)
    requires Audible(l, r, length)
    ensures var g, hf := VolumeGains(l, r, absorption, length), HeadFactor(l, r, length);
      (hf < 0.0 ==> g == Gains(BaseGain(length(l)) * (1.0 + hf * absorption), BaseGain(length(r))))
      && (hf >= 0.0 ==> g == Gains(BaseGain(length(l)), BaseGain(length(r)) * (1.0 - hf * absorption)))
    ensures var g := VolumeGains(l, r, absorption, length);
      g.left == BaseGain(length(l)) || g.right == BaseGain(length(r))
    ensures absorption == 0.0 ==> VolumeGains(l, r, absorption, length) == Gains(BaseGain(length(l)), BaseGain(length(r)))
  {
  }

  /** `(r + l) . (r - l) = r . r - l . l`. */
  lemma DotOfSumAndDifference(l: Vec3, r: Vec3)
    ensures Dot(Add(r, l), Sub(r, l)) == Dot(r, r) - Dot(l, l)
  {
    SquareDifference(r.x, l.x);
    SquareDifference(r.y, l.y);
    SquareDifference(r.z, l.z);
  }

  lemma SquareDifference(a: real, b: real)
    ensures (a + b) * (a - b) == a * a - b * b
  {
  }

  /** For a positive length of `r + l`, the head factor is negative exactly
      when the right ear is nearer to the source than the left one (in
      squared distance), so the left ear is the shadowed one. */
  lemma HeadFactorSide(l: Vec3, r: Vec3, length: Vec3 -> real)
    requires length(Add(r, l)) > 0.0
    ensures HeadFactor(l, r, length) < 0.0 <==> Dot(r, r) < Dot(l, l)
  {
    DotOfSumAndDifference(l, r);
    SignOfQuotient(Dot(Add(r, l), Sub(r, l)), length(Add(r, l)));
  }

  lemma SignOfQuotient(x: real, m: real)
    requires m > 0.0
    ensures x / m / 2.0 < 0.0 <==> x < 0.0
  {
    if x < 0.0 {
      assert (-x) / m > 0.0;
      assert x / m == -((-x) / m);
    } else {
      assert x / m >= 0.0;
    }
  }

  // ---------------------------------------------------------------------
  // The head model

  /** The numbers a sound update hands to the audio nodes. */
  datatype Sound = Sound(gains: Gains, delays: Delays)

  /** `updateSoundBasedOn3DModel`: the vectors from the source to both ears
      give the gains and, through their lengths, the delays. */
  function SoundFor(leftEar: Vec3, rightEar: Vec3, source: Vec3, absorption: real, earDistance: real,
                    length: Vec3 -> real): Sound
    requires Audible(Sub(leftEar, source), Sub(rightEar, source), length)
  {
    var l, r := Sub(leftEar, source), Sub(rightEar, source);
    Sound(VolumeGains(l, r, absorption, length), TimeDelays(length(l), length(r), earDistance))
  }

  datatype ControlMode = Gui | Wasd

  const KeyW: int := 87
  const KeyS: int := 83
  const KeyA: int := 65
  const KeyD: int := 68
  const KeySpace: int := 32

  const XSpeed: real := 0.25
  const YSpeed: real := 0.25

  /** The head position after a key press in WASD mode. */
  function HeadAfterKey(head: Vec3, keyCode: int): Vec3 {
    if keyCode == KeyW then head.(y := head.y + YSpeed)
    else if keyCode == KeyS then head.(y := head.y - YSpeed)
    else if keyCode == KeyA then head.(x := head.x - XSpeed)
    else if keyCode == KeyD then head.(x := head.x + XSpeed)
    else if keyCode == KeySpace then Zero
    else head
  }

  /** W and S move the head up and down by 0.25, A and D left and right by
      0.25, each key undoing its opposite; space returns the head to the
      origin, and any other key leaves it where it is. */
  lemma KeyMoves(head: Vec3, keyCode: int)
    ensures keyCode == KeyW ==> Sub(HeadAfterKey(head, keyCode), head) == Vec3(0.0, YSpeed, 0.0)
    ensures keyCode == KeyS ==> Sub(HeadAfterKey(head, keyCode), head) == Vec3(0.0, -YSpeed, 0.0)
    ensures keyCode == KeyA ==> Sub(HeadAfterKey(head, keyCode), head) == Vec3(-XSpeed, 0.0, 0.0)
    ensures keyCode == KeyD ==> Sub(HeadAfterKey(head, keyCode), head) == Vec3(XSpeed, 0.0, 0.0)
    ensures keyCode == KeySpace ==> HeadAfterKey(head, keyCode) == Zero
    ensures keyCode !in {KeyW, KeyS, KeyA, KeyD, KeySpace} ==> HeadAfterKey(head, keyCode) == head
    ensures HeadAfterKey(HeadAfterKey(head, KeyW), KeyS) == head
    ensures HeadAfterKey(HeadAfterKey(head, KeyA), KeyD) == head
  {
  }

  /** The scene of the head model: the head, its ears and its nose, the
      sound source, and the parameters the sound depends on. Only the mesh
      positions are kept. */
  class HeadScene {
    var controlMode: ControlMode
    var head: Vec3
    var leftEar: Vec3
    var rightEar: Vec3
    var nose: Vec3
    var source: Vec3
    var absorption: real
    var earDistance: real

    /** The ears sit one unit to either side of the head at its height, the
        nose one unit above it; depths are not touched. */
    predicate EarsPlaced()
      reads this
    {
      leftEar.x == head.x - 1.0 && leftEar.y == head.y
      && rightEar.x == head.x + 1.0 && rightEar.y == head.y
      && nose.x == head.x && nose.y == head.y + 1.0
    }

    /** The start-up state: meshes at the origin, the source raised by 10,
        the ears placed once, GUI control and the initial parameters. */
    constructor ()
      ensures controlMode == Gui && head == Zero && source == Vec3(0.0, 10.0, 0.0)
      ensures leftEar == Vec3(-1.0, 0.0, 0.0) && rightEar == Vec3(1.0, 0.0, 0.0) && nose == Vec3(0.0, 1.0, 0.0)
      ensures absorption == 0.5 && earDistance == 0.2
      ensures EarsPlaced()
    {
      controlMode, head, source := Gui, Zero, Vec3(0.0, 10.0, 0.0);
      leftEar, rightEar, nose := Zero, Zero, Zero;
      absorption, earDistance := 0.5, 0.2;
      new;
      UpdateEars();
    }

    /** `update_ears()`: places ears and nose around the head; only their x
        and y change. */
    method UpdateEars()
      modifies this
      ensures EarsPlaced()
      ensures leftEar.z == old(leftEar.z) && rightEar.z == old(rightEar.z) && nose.z == old(nose.z)
      ensures head == old(head) && source == old(source) && controlMode == old(controlMode)
      ensures absorption == old(absorption) && earDistance == old(earDistance)
    {
      nose := nose.(x := head.x);
      nose := nose.(y := head.y + 1.0);
      leftEar := leftEar.(y := head.y);
      leftEar := leftEar.(x := head.x - 1.0);
      rightEar := rightEar.(y := head.y);
      rightEar := rightEar.(x := head.x + 1.0);
    }

    /** `onDocumentKeyDown(event)`: outside WASD mode nothing happens and no
        sound update is made; in WASD mode the head moves, the ears follow
        and the sound is recomputed from the new ear positions. */
    method KeyDown(keyCode: int, length: Vec3 -> real) returns (sound: Option<Sound>)
      requires controlMode == Wasd ==>
        var h := HeadAfterKey(head, keyCode);
        Audible(Sub(Vec3(h.x - 1.0, h.y, leftEar.z), source), Sub(Vec3(h.x + 1.0, h.y, rightEar.z), source), length)
      modifies this
      ensures controlMode == old(controlMode) && source == old(source)
      ensures absorption == old(absorption) && earDistance == old(earDistance)
      ensures controlMode != Wasd ==>
        sound == None && head == old(head) && leftEar == old(leftEar) && rightEar == old(rightEar) && nose == old(nose)
      ensures controlMode == Wasd ==>
        head == HeadAfterKey(old(head), keyCode) && EarsPlaced()
        && leftEar.z == old(leftEar.z) && rightEar.z == old(rightEar.z) && nose.z == old(nose.z)
        && Audible(Sub(leftEar, source), Sub(rightEar, source), length)
        && sound == Some(SoundFor(leftEar, rightEar, source, absorption, earDistance, length))
    {
      if controlMode != Wasd {
        return None;
      }
      if keyCode == KeyW {
        head := head.(y := head.y + YSpeed);
      } else if keyCode == KeyS {
        head := head.(y := head.y - YSpeed);
      } else if keyCode == KeyA {
        head := head.(x := head.x - XSpeed);
      } else if keyCode == KeyD {
        head := head.(x := head.x + XSpeed);
      } else if keyCode == KeySpace {
        head := Zero;
      }
      UpdateEars();
      assert leftEar == Vec3(head.x - 1.0, head.y, leftEar.z) && rightEar == Vec3(head.x + 1.0, head.y, rightEar.z);
      sound := Some(SoundFor(leftEar, rightEar, source, absorption, earDistance, length));
    }
  }

  /** After the ears are placed they are two units apart, level, and
      centred on the head. */
  lemma EarsAroundHead(head: Vec3, leftEar: Vec3, rightEar: Vec3)
    requires leftEar.x == head.x - 1.0 && leftEar.y == head.y
    requires rightEar.x == head.x + 1.0 && rightEar.y == head.y
    ensures rightEar.x - leftEar.x == 2.0 && leftEar.y == rightEar.y
    ensures (leftEar.x + rightEar.x) / 2.0 == head.x
  {
  }
}
