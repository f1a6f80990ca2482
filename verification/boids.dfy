/** The flock of `Boids.jsx`: how agents are created when the flock is
    (re)built, and how every agent is moved once per rendered frame.

    Each agent wanders (a heading angle that drifts by a small random amount
    every frame), is pulled back toward the centre on every axis where it comes
    within one unit of the boundary box, and moves with a steering force and a
    velocity whose lengths are clamped in proportion to the frame time. */
module Boids {
  import opened MathUtils
  import opened Vectors

  datatype Option<T> = None | Some(value: T)

  /** One flock member. `model` is `None` when the theme lists no model at
      all, where JavaScript would read `undefined` from the empty list. */
  datatype Agent = Agent(
    model: Option<string>,
    position: Vec3,
    velocity: Vec3,
    wander: real,
    scale: real)

  /** The control-panel values the component reads (`NB_BOIDS`, `MIN_SCALE`,
      `MAX_SCALE`, `MIN_SPEED`, `MAX_SPEED`, `MAX_STEERING`, `threeD`,
      `WANDER_RADIUS`, `WANDER_STRENGTH`). */
  datatype Settings = Settings(
    count: nat,
    minScale: real,
    maxScale: real,
    minSpeed: real,
    maxSpeed: real,
    maxSteering: real,
    threeD: bool,
    wanderRadius: real,
    wanderStrength: real)

  /** The `Math.random()` values consumed to create one agent. */
  datatype SpawnDraws = SpawnDraws(model: Unit, x: Unit, y: Unit, z: Unit, wander: Unit, scale: Unit)

  /** Half-width of the per-frame wander jitter. */
  const JitterAmplitude := 0.05

  /** Length of the containment force whenever it is not zero. */
  const ContainmentStrength := 50.0

  datatype Axis = X | Y | Z

  function Coord(v: Vec3, a: Axis): real {
    match a
    case X => v.x
    case Y => v.y
    case Z => v.z
  }

  lemma CoordScale(v: Vec3, k: real, a: Axis)
    ensures Coord(Scale(v, k), a) == Coord(v, a) * k
  {
  }

  /** What a freshly created agent looks like: at rest, inside the box on
      every axis whose extent is not negative, flat in planar mode, with a
      heading in [0, 2pi), a scale between the two configured scale bounds
      (whichever of them is larger, as the sliders are independent), and a model taken
      from the theme's list whenever that list is not empty. */
  ghost predicate Fresh(s: Settings, box: Vec3, models: seq<string>, b: Agent) {
    && b.velocity == Zero
    && (forall a: Axis :: 0.0 <= Coord(box, a) ==>
          -Coord(box, a) / 2.0 <= Coord(b.position, a) <= Coord(box, a) / 2.0)
    && (!s.threeD ==> b.position.z == 0.0)
    && 0.0 <= b.wander < Pi * 2.0
    && Min(s.minScale, s.maxScale) <= b.scale <= Max(s.minScale, s.maxScale)
    && (b.model.Some? <==> |models| > 0)
    && (b.model.Some? ==> b.model.value in models)
  }

  /** JavaScript array indexing: an index outside the list reads `undefined`. */
  function Pick(models: seq<string>, i: int): (m: Option<string>)
    ensures m.Some? <==> 0 <= i < |models|
    ensures m.Some? ==> m.value in models
  {
    if 0 <= i < |models| then Some(models[i]) else None
  }

  /** One element of the array built in the `useMemo` initialiser. */
  function Spawn(s: Settings, box: Vec3, models: seq<string>, d: SpawnDraws): (b: Agent)
    ensures Fresh(s, box, models, b)
  {
    var b := Agent(
      model := Pick(models, RandInt(0, |models| - 1, d.model)),
      position := Vec3(
        RandFloat(-box.x / 2.0, box.x / 2.0, d.x),
        RandFloat(-box.y / 2.0, box.y / 2.0, d.y),
        if s.threeD then RandFloat(-box.z / 2.0, box.z / 2.0, d.z) else 0.0),
      velocity := Vec3(0.0, 0.0, 0.0),
      wander := RandFloat(0.0, Pi * 2.0, d.wander),
      scale := RandFloat(s.minScale, s.maxScale, d.scale));
    assert forall a: Axis :: 0.0 <= Coord(box, a) ==>
        -Coord(box, a) / 2.0 <= Coord(b.position, a) <= Coord(box, a) / 2.0 by {
      forall a: Axis | 0.0 <= Coord(box, a)
        ensures -Coord(box, a) / 2.0 <= Coord(b.position, a) <= Coord(box, a) / 2.0
      {
      }
    }
    b
  }

  /** The flock rebuilt from scratch: exactly `count` fresh agents, nothing
      carried over from any previous flock. */
  function Init(s: Settings, box: Vec3, models: seq<string>, draws: seq<SpawnDraws>): (flock: seq<Agent>)
    requires |draws| == s.count
    ensures |flock| == s.count
    ensures forall i :: 0 <= i < |flock| ==> Fresh(s, box, models, flock[i])
  {
    seq(s.count, i requires 0 <= i < s.count => Spawn(s, box, models, draws[i]))
  }

  /** The containment test: within one unit of the wall on this axis, or past it. */
  predicate NearWall(coord: real, extent: real) {
    Abs(coord) + 1.0 > extent / 2.0
  }

  /** The axes on which the containment test fires. */
  function WallAxes(p: Vec3, box: Vec3): set<Axis> {
    set a | a in {X, Y, Z} && NearWall(Coord(p, a), Coord(box, a))
  }

  /** The `limits` vector before it is normalised: on each axis that fires,
      the coordinate that leads back to the centre; zero elsewhere. */
  function Pull(p: Vec3, box: Vec3): (r: Vec3)
    ensures forall a: Axis :: Coord(r, a) == if a in WallAxes(p, box) then -Coord(p, a) else 0.0
    ensures WallAxes(p, box) == {} ==> r == Zero
  {
    assert NearWall(p.x, box.x) ==> X in WallAxes(p, box);
    assert NearWall(p.y, box.y) ==> Y in WallAxes(p, box);
    assert NearWall(p.z, box.z) ==> Z in WallAxes(p, box);
    Vec3(
      if NearWall(p.x, box.x) then -p.x else 0.0,
      if NearWall(p.y, box.y) then -p.y else 0.0,
      if NearWall(p.z, box.z) then -p.z else 0.0)
  }

  lemma WallAxesCount(p: Vec3, box: Vec3)
    ensures |WallAxes(p, box)| ==
      (if NearWall(p.x, box.x) then 1 else 0) +
      (if NearWall(p.y, box.y) then 1 else 0) +
      (if NearWall(p.z, box.z) then 1 else 0)
  {
    var sx: set<Axis> := if NearWall(p.x, box.x) then {X} else {};
    var sy: set<Axis> := if NearWall(p.y, box.y) then {Y} else {};
    var sz: set<Axis> := if NearWall(p.z, box.z) then {Z} else {};
    assert WallAxes(p, box) == sx + sy + sz;
    assert sx * sy == {};
    assert (sx + sy) * sz == {};
  }

  /** The heading after the wall checks: pi more for every axis that fires. */
  function Bounce(angle: real, p: Vec3, box: Vec3): (r: real)
    ensures r == angle + (|WallAxes(p, box)| as real) * Pi
  {
    WallAxesCount(p, box);
    var afterX := if NearWall(p.x, box.x) then angle + Pi else angle;
    var afterY := if NearWall(p.y, box.y) then afterX + Pi else afterX;
    if NearWall(p.z, box.z) then afterY + Pi else afterY
  }

  /** The heading after this frame's jitter, drawn from [-0.05, 0.05) and not
      scaled by the frame time. */
  function Jitter(angle: real, u: Unit): (r: real)
    ensures angle - JitterAmplitude <= r < angle + JitterAmplitude
  {
    angle + RandFloat(-JitterAmplitude, JitterAmplitude, u)
  }

  /** The wander force: the point at `angle` on a circle of radius
      `WANDER_RADIUS` in the XY plane, normalised and scaled by
      `WANDER_STRENGTH`. */
  function WanderForce(ops: RealOps, radius: real, strength: real, angle: real): (r: Vec3)
    ensures r.z == 0.0
    ensures radius == 0.0 ==> r == Zero
  {
    Scale(Normalize(ops, Scale(Heading(ops, angle), radius)), strength)
  }

  /** The containment force: `limits`, normalised and scaled by 50. */
  function Containment(ops: RealOps, p: Vec3, box: Vec3): (r: Vec3)
    ensures WallAxes(p, box) == {} ==> r == Zero
    ensures p.z == 0.0 ==> r.z == 0.0
  {
    Scale(Normalize(ops, Pull(p, box)), ContainmentStrength)
  }

  /** The steering force before its clamp: containment plus wander. */
  function RawSteering(ops: RealOps, s: Settings, box: Vec3, angle: real, p: Vec3): (r: Vec3)
    ensures WallAxes(p, box) == {} ==> r == WanderForce(ops, s.wanderRadius, s.wanderStrength, angle)
    ensures p.z == 0.0 ==> r.z == 0.0
  {
    Add(Containment(ops, p, box), WanderForce(ops, s.wanderRadius, s.wanderStrength, angle))
  }

  /** The steering force actually added to the velocity, clamped to
      `MAX_STEERING * delta`. */
  function Steering(ops: RealOps, s: Settings, box: Vec3, delta: real, angle: real, p: Vec3): (r: Vec3)
    ensures p.z == 0.0 ==> r.z == 0.0
    ensures s.maxSteering * delta <= 0.0 ==> r == Zero
  {
    ClampLength(ops, RawSteering(ops, s, box, angle, p), s.maxSteering * delta)
  }

  /** One agent's update for one frame, in the order of the `useFrame` loop:
      jitter the heading, build the wander force from it, test the walls
      (bouncing the heading), clamp the steering, add it to the velocity,
      clamp the velocity, and move. */
  function StepAgent(ops: RealOps, s: Settings, box: Vec3, delta: real, u: Unit, b: Agent): (r: Agent)
    ensures r.model == b.model && r.scale == b.scale
    ensures r.position == Add(b.position, r.velocity)
    ensures var drift := r.wander - b.wander - (|WallAxes(b.position, box)| as real) * Pi;
            -JitterAmplitude <= drift < JitterAmplitude
    ensures b.position.z == 0.0 && b.velocity.z == 0.0 ==> r.position.z == 0.0 && r.velocity.z == 0.0
    ensures delta == 0.0 ==> r.velocity == Zero && r.position == b.position
  {
    var angle := Jitter(b.wander, u);
    var steering := Steering(ops, s, box, delta, angle, b.position);
    var velocity := ClampLength(ops, Add(b.velocity, steering), s.maxSpeed * delta);
    b.(position := Add(b.position, velocity),
       velocity := velocity,
       wander := Bounce(angle, b.position, box))
  }

  /** One frame for the whole flock. Every agent keeps its model and scale,
      moves by exactly its new velocity, and stays flat if it was flat; a
      frame of zero length stops every agent where it stands. */
  function Step(ops: RealOps, s: Settings, box: Vec3, delta: real, flock: seq<Agent>, draws: seq<Unit>): (next: seq<Agent>)
    requires |draws| == |flock|
    ensures |next| == |flock|
    ensures forall i :: 0 <= i < |flock| ==>
              next[i].model == flock[i].model && next[i].scale == flock[i].scale
    ensures forall i :: 0 <= i < |flock| ==> next[i].position == Add(flock[i].position, next[i].velocity)
    ensures forall i :: 0 <= i < |flock| && Planar(flock[i]) ==> Planar(next[i])
    ensures delta == 0.0 ==>
              forall i :: 0 <= i < |flock| ==> next[i].velocity == Zero && next[i].position == flock[i].position
  {
    seq(|flock|, i requires 0 <= i < |flock| => StepAgent(ops, s, box, delta, draws[i], flock[i]))
  }

  /** Agents do not interact: agent `i` after a frame depends on its own
      state and its own draw only, whatever the rest of the flock is. */
  lemma StepLocal(ops: RealOps, s: Settings, box: Vec3, delta: real,
                  flock1: seq<Agent>, draws1: seq<Unit>, flock2: seq<Agent>, draws2: seq<Unit>, i: nat)
    requires |draws1| == |flock1| && |draws2| == |flock2|
    requires i < |flock1| && i < |flock2|
    requires flock1[i] == flock2[i] && draws1[i] == draws2[i]
    ensures Step(ops, s, box, delta, flock1, draws1)[i] == Step(ops, s, box, delta, flock2, draws2)[i]
  {
  }

  /** An agent that is flat: on the z = 0 plane and not moving off it. */
  predicate Planar(b: Agent) {
    b.position.z == 0.0 && b.velocity.z == 0.0
  }

  /** One frame of the render loop: the settings read that frame, its time
      step, and one jitter draw per agent. */
  datatype Tick = Tick(settings: Settings, delta: real, draws: seq<Unit>)

  /** The flock after a run of frames with an unchanged boundary box (a new
      box rebuilds the flock through `Init` instead). */
  function Run(ops: RealOps, box: Vec3, flock: seq<Agent>, ticks: seq<Tick>): (r: seq<Agent>)
    requires forall k :: 0 <= k < |ticks| ==> |ticks[k].draws| == |flock|
    ensures |r| == |flock|
    ensures forall i :: 0 <= i < |r| ==> r[i].model == flock[i].model && r[i].scale == flock[i].scale
    decreases |ticks|
  {
    if |ticks| == 0 then flock
    else
      var t := ticks[0];
      Run(ops, box, Step(ops, t.settings, box, t.delta, flock, t.draws), ticks[1..])
  }

  /** With a non-zero wander radius the wander force has length exactly
      `|WANDER_STRENGTH|`; with a positive radius it is the heading itself
      scaled by `WANDER_STRENGTH`. */
  lemma WanderForceOnCircle(ops: RealOps, radius: real, strength: real, angle: real)
    requires Lawful(ops)
    requires radius != 0.0
    ensures NormSq(WanderForce(ops, radius, strength, angle)) == strength * strength
    ensures 0.0 <= strength ==> Length(ops, WanderForce(ops, radius, strength, angle)) == strength
    ensures 0.0 < radius ==> WanderForce(ops, radius, strength, angle) == Scale(Heading(ops, angle), strength)
  {
    var h := Heading(ops, angle);
    var v := Scale(h, radius);
    var n := Normalize(ops, v);
    assert HeadingAt(ops, angle);
    NormSqScale(h, radius);
    SquareSign(radius);
    assert NormSq(v) == radius * radius;
    NormSqSign(v);
    NormalizeUnit(ops, v);
    NormSqScale(n, strength);
    if 0.0 <= strength {
      SqrtOfSquare(ops, strength);
    }
    if 0.0 < radius {
      NormalizeScaled(ops, h, radius);
    }
  }

  /** When some axis fires, the containment force is the pull vector
      stretched by a positive factor. */
  lemma ContainmentStretchesPull(ops: RealOps, p: Vec3, box: Vec3)
    requires Lawful(ops)
    requires Pull(p, box) != Zero
    ensures 0.0 < Length(ops, Pull(p, box))
    ensures var k := ContainmentStrength / Length(ops, Pull(p, box));
            0.0 < k && Containment(ops, p, box) == Scale(Pull(p, box), k)
    ensures NormSq(Containment(ops, p, box)) == ContainmentStrength * ContainmentStrength
  {
    var q := Pull(p, box);
    NormalizeUnit(ops, q);
    var len := Length(ops, q);
    ScaleScale(q, 1.0 / len, ContainmentStrength);
    assert (1.0 / len) * ContainmentStrength == ContainmentStrength / len;
    NormSqScale(Normalize(ops, q), ContainmentStrength);
  }

  /** Containment is zero on an axis that does not fire. */
  lemma ContainmentOffAxis(ops: RealOps, p: Vec3, box: Vec3, a: Axis)
    requires Lawful(ops)
    requires a !in WallAxes(p, box)
    ensures Coord(Containment(ops, p, box), a) == 0.0
  {
    var q := Pull(p, box);
    assert Coord(q, a) == 0.0;
    if q != Zero {
      ContainmentStretchesPull(ops, p, box);
      CoordScale(q, ContainmentStrength / Length(ops, q), a);
    }
  }

  /** Containment points back toward the centre on an axis that fires away
      from the centre plane. */
  lemma ContainmentInward(ops: RealOps, p: Vec3, box: Vec3, a: Axis)
    requires Lawful(ops)
    requires a in WallAxes(p, box) && Coord(p, a) != 0.0
    ensures Coord(Containment(ops, p, box), a) * Coord(p, a) < 0.0
  {
    var q := Pull(p, box);
    assert Coord(q, a) == -Coord(p, a);
    StretchedOpposes(ops, q, Coord(p, a), a);
  }

  /** Normalising and stretching by 50 keeps the sign of every coordinate. */
  lemma StretchedOpposes(ops: RealOps, q: Vec3, x: real, a: Axis)
    requires Lawful(ops)
    requires x != 0.0 && Coord(q, a) == -x
    ensures Coord(Scale(Normalize(ops, q), ContainmentStrength), a) * x < 0.0
  {
    NormalizeUnit(ops, q);
    var len := Length(ops, q);
    var inv := 1.0 / len;
    assert 0.0 < inv;
    var k := inv * ContainmentStrength;
    ProductPositive(inv, ContainmentStrength);
    ScaleScale(q, inv, ContainmentStrength);
    CoordScale(q, k, a);
    var y := Coord(Scale(q, k), a);
    assert y == (-x) * k;
    InwardProduct(y, x, k);
  }

  /** On every axis that does not fire the containment force is zero, and on
      every axis that fires it points back toward the centre. */
  lemma ContainmentRestoring(ops: RealOps, p: Vec3, box: Vec3)
    requires Lawful(ops)
    ensures forall a: Axis :: a !in WallAxes(p, box) ==> Coord(Containment(ops, p, box), a) == 0.0
    ensures forall a: Axis :: a in WallAxes(p, box) && Coord(p, a) != 0.0 ==>
              Coord(Containment(ops, p, box), a) * Coord(p, a) < 0.0
  {
    forall a: Axis
      ensures a !in WallAxes(p, box) ==> Coord(Containment(ops, p, box), a) == 0.0
      ensures a in WallAxes(p, box) && Coord(p, a) != 0.0 ==>
                Coord(Containment(ops, p, box), a) * Coord(p, a) < 0.0
    {
      if a in WallAxes(p, box) {
        if Coord(p, a) != 0.0 {
          ContainmentInward(ops, p, box, a);
        }
      } else {
        ContainmentOffAxis(ops, p, box, a);
      }
    }
  }

  /** A positive multiple of -x has the opposite sign to x. */
  lemma InwardProduct(y: real, x: real, k: real)
    requires x != 0.0 && 0.0 < k
    requires y == (-x) * k
    ensures y * x < 0.0
  {
    if 0.0 < x {
      ProductNegative(-x, k);
      ProductNegative(y, x);
    } else {
      ProductPositive(-x, k);
      ProductNegative(y, x);
    }
  }

  /** The steering clamp: the force added to the velocity has length at
      most `MAX_STEERING * delta`, and a raw force already within that limit
      is added as it is. */
  lemma SteeringClamped(ops: RealOps, s: Settings, box: Vec3, delta: real, angle: real, p: Vec3)
    requires Lawful(ops)
    ensures 0.0 <= s.maxSteering * delta ==>
              Length(ops, Steering(ops, s, box, delta, angle, p)) <= s.maxSteering * delta
    ensures Length(ops, RawSteering(ops, s, box, angle, p)) <= s.maxSteering * delta ==>
              Steering(ops, s, box, delta, angle, p) == RawSteering(ops, s, box, angle, p)
  {
    var raw := RawSteering(ops, s, box, angle, p);
    SteeringUnfold(ops, s, box, delta, angle, p);
    ClampLengthBound(ops, raw, s.maxSteering * delta);
    if Length(ops, raw) <= s.maxSteering * delta {
      ClampKeepsShort(ops, raw, s.maxSteering * delta);
    }
  }

  lemma SteeringUnfold(ops: RealOps, s: Settings, box: Vec3, delta: real, angle: real, p: Vec3)
    ensures Steering(ops, s, box, delta, angle, p) ==
              ClampLength(ops, RawSteering(ops, s, box, angle, p), s.maxSteering * delta)
  {
  }

  /** The velocity the frame computes: the old velocity plus the clamped
      steering, clamped to `MAX_SPEED * delta`. */
  lemma StepVelocity(ops: RealOps, s: Settings, box: Vec3, delta: real, u: Unit, b: Agent)
    ensures StepAgent(ops, s, box, delta, u, b).velocity ==
              ClampLength(ops, Add(b.velocity, Steering(ops, s, box, delta, Jitter(b.wander, u), b.position)),
                          s.maxSpeed * delta)
  {
  }

  /** The speed clamp: the new velocity has length at most
      `MAX_SPEED * delta`, and an unclamped sum of old velocity and steering
      is kept as it is. */
  lemma StepAgentClamps(ops: RealOps, s: Settings, box: Vec3, delta: real, u: Unit, b: Agent)
    requires Lawful(ops)
    ensures var limit := s.maxSpeed * delta;
            NormSq(StepAgent(ops, s, box, delta, u, b).velocity) <= limit * limit
    ensures 0.0 <= s.maxSpeed * delta ==>
              Length(ops, StepAgent(ops, s, box, delta, u, b).velocity) <= s.maxSpeed * delta
    ensures var sum := Add(b.velocity, Steering(ops, s, box, delta, Jitter(b.wander, u), b.position));
            Length(ops, sum) <= s.maxSpeed * delta ==> StepAgent(ops, s, box, delta, u, b).velocity == sum
  {
    var sum := Add(b.velocity, Steering(ops, s, box, delta, Jitter(b.wander, u), b.position));
    StepVelocity(ops, s, box, delta, u, b);
    ClampLengthBound(ops, sum, s.maxSpeed * delta);
    if Length(ops, sum) <= s.maxSpeed * delta {
      ClampKeepsShort(ops, sum, s.maxSpeed * delta);
    }
  }

  /** A positive limit never flips the sign of a negative coordinate: the
      clamp either keeps the vector or shrinks it by a positive factor. */
  lemma ClampKeepsSign(ops: RealOps, v: Vec3, max: real, a: Axis)
    requires Lawful(ops)
    requires 0.0 < max
    requires Coord(v, a) < 0.0
    ensures Coord(ClampLength(ops, v, max), a) < 0.0
  {
    var len := Length(ops, v);
    if len <= max {
      ClampKeepsShort(ops, v, max);
    } else {
      ClampScalesLong(ops, v, max);
      var f := max / len;
      assert 0.0 < f;
      CoordScale(v, f, a);
      ProductNegative(Coord(v, a), f);
    }
  }

  /** A number in [-1, 1] times one strictly inside (-m, m) stays strictly
      inside (-m, m). */
  lemma ProductWithin(c: real, w: real, m: real)
    requires -1.0 <= c <= 1.0
    requires -m < w < m
    ensures -m < c * w < m
  {
    if 0.0 <= w {
      ProductNonNegative(1.0 - c, w);
      ProductNonNegative(1.0 + c, w);
      assert c * w <= w;
      assert -w <= c * w;
    } else {
      ProductNonNegative(1.0 - c, -w);
      ProductNonNegative(1.0 + c, -w);
      assert -(c * w) <= -w;
      assert c * w <= -w;
    }
  }

  /** Near the positive x wall only, the raw steering points along -x
      whatever the heading, as long as the wander force (at most
      `|WANDER_STRENGTH|` long) is weaker than the containment force of 50. */
  lemma RawSteeringAtXWall(ops: RealOps, s: Settings, box: Vec3, angle: real, p: Vec3)
    requires Lawful(ops)
    requires WallAxes(p, box) == {X}
    requires 0.0 < p.x
    requires 0.0 < s.wanderRadius
    requires -ContainmentStrength < s.wanderStrength < ContainmentStrength
    ensures RawSteering(ops, s, box, angle, p).x < 0.0
  {
    ContainmentAlongX(ops, p, box);
    WanderAlongX(ops, s.wanderRadius, s.wanderStrength, angle);
  }

  /** With a positive radius the x part of the wander force is
      `cos(angle) * WANDER_STRENGTH`, so it is no larger than 50 in size when
      `WANDER_STRENGTH` is not. */
  lemma WanderAlongX(ops: RealOps, radius: real, strength: real, angle: real)
    requires Lawful(ops)
    requires 0.0 < radius
    requires -ContainmentStrength < strength < ContainmentStrength
    ensures -ContainmentStrength < WanderForce(ops, radius, strength, angle).x < ContainmentStrength
  {
    WanderForceOnCircle(ops, radius, strength, angle);
    TrigBounded(ops, angle);
    ProductWithin(Heading(ops, angle).x, strength, ContainmentStrength);
  }

  /** Near the positive x wall only, the clamped steering still points
      along -x. */
  lemma SteeringAtXWall(ops: RealOps, s: Settings, box: Vec3, delta: real, angle: real, p: Vec3)
    requires Lawful(ops)
    requires WallAxes(p, box) == {X}
    requires 0.0 < p.x
    requires 0.0 < s.wanderRadius
    requires -ContainmentStrength < s.wanderStrength < ContainmentStrength
    requires 0.0 < s.maxSteering * delta
    ensures Steering(ops, s, box, delta, angle, p).x < 0.0
  {
    RawSteeringAtXWall(ops, s, box, angle, p);
    SteeringUnfold(ops, s, box, delta, angle, p);
    ClampKeepsSign(ops, RawSteering(ops, s, box, angle, p), s.maxSteering * delta, X);
  }

  /** An agent that comes near the wall on the positive side of the x axis
      only, and is not already moving outward, is turned back: its new
      velocity points toward the centre and its x coordinate falls. */
  lemma WallTurnsBack(ops: RealOps, s: Settings, box: Vec3, delta: real, u: Unit, b: Agent)
    requires Lawful(ops)
    requires WallAxes(b.position, box) == {X}
    requires 0.0 < b.position.x
    requires b.velocity.x <= 0.0
    requires 0.0 < s.wanderRadius
    requires -ContainmentStrength < s.wanderStrength < ContainmentStrength
    requires 0.0 < s.maxSteering * delta && 0.0 < s.maxSpeed * delta
    ensures StepAgent(ops, s, box, delta, u, b).velocity.x < 0.0
    ensures StepAgent(ops, s, box, delta, u, b).position.x < b.position.x
  {
    var angle := Jitter(b.wander, u);
    SteeringAtXWall(ops, s, box, delta, angle, b.position);
    var sum := Add(b.velocity, Steering(ops, s, box, delta, angle, b.position));
    StepVelocity(ops, s, box, delta, u, b);
    ClampKeepsSign(ops, sum, s.maxSpeed * delta, X);
  }

  /** Near the positive x wall only, containment is the full force of 50
      along -x. */
  lemma ContainmentAlongX(ops: RealOps, p: Vec3, box: Vec3)
    requires Lawful(ops)
    requires WallAxes(p, box) == {X}
    requires 0.0 < p.x
    ensures Containment(ops, p, box) == Vec3(-ContainmentStrength, 0.0, 0.0)
  {
    var q := Pull(p, box);
    assert Coord(q, X) == -p.x && Coord(q, Y) == 0.0 && Coord(q, Z) == 0.0;
    var dir := Vec3(-1.0, 0.0, 0.0);
    assert q == Scale(dir, p.x);
    assert NormSq(dir) == 1.0;
    NormalizeScaled(ops, dir, p.x);
  }

  /** The clamp invariant for a whole frame: every agent's new velocity is
      within `MAX_SPEED * delta`. */
  lemma StepClampsSpeed(ops: RealOps, s: Settings, box: Vec3, delta: real, flock: seq<Agent>, draws: seq<Unit>)
    requires Lawful(ops)
    requires |draws| == |flock|
    requires 0.0 <= s.maxSpeed * delta
    ensures forall i :: 0 <= i < |flock| ==>
              Length(ops, Step(ops, s, box, delta, flock, draws)[i].velocity) <= s.maxSpeed * delta
  {
    forall i | 0 <= i < |flock|
      ensures Length(ops, Step(ops, s, box, delta, flock, draws)[i].velocity) <= s.maxSpeed * delta
    {
      StepAgentClamps(ops, s, box, delta, draws[i], flock[i]);
    }
  }

  /** Flat agents stay flat through any run of frames. */
  lemma {:induction false} RunStaysPlanar(ops: RealOps, box: Vec3, flock: seq<Agent>, ticks: seq<Tick>)
    requires forall k :: 0 <= k < |ticks| ==> |ticks[k].draws| == |flock|
    requires forall i :: 0 <= i < |flock| ==> Planar(flock[i])
    ensures forall i :: 0 <= i < |flock| ==> Planar(Run(ops, box, flock, ticks)[i])
    decreases |ticks|
  {
    if |ticks| > 0 {
      var t := ticks[0];
      var next := Step(ops, t.settings, box, t.delta, flock, t.draws);
      assert forall i :: 0 <= i < |next| ==> Planar(next[i]);
      assert forall k :: 0 <= k < |ticks[1..]| ==> |ticks[1..][k].draws| == |next|;
      RunStaysPlanar(ops, box, next, ticks[1..]);
    }
  }

  /** In planar mode the rebuilt flock is flat and stays flat through any
      run of frames. */
  lemma PlanarModeStaysPlanar(ops: RealOps, s: Settings, box: Vec3, models: seq<string>,
                              draws: seq<SpawnDraws>, ticks: seq<Tick>)
    requires !s.threeD
    requires |draws| == s.count
    requires forall k :: 0 <= k < |ticks| ==> |ticks[k].draws| == s.count
    ensures forall i :: 0 <= i < s.count ==> Planar(Run(ops, box, Init(s, box, models, draws), ticks)[i])
  {
    var flock := Init(s, box, models, draws);
    assert forall i :: 0 <= i < |flock| ==> Planar(flock[i]);
    RunStaysPlanar(ops, box, flock, ticks);
  }

  /** With the scale sliders' positive ranges, every agent of a rebuilt
      flock has a positive scale, and keeps it through any run of frames,
      even when the minimum scale is set above the maximum. */
  lemma ScalesStayPositive(ops: RealOps, s: Settings, box: Vec3, models: seq<string>,
                           draws: seq<SpawnDraws>, ticks: seq<Tick>)
    requires 0.0 < s.minScale && 0.0 < s.maxScale
    requires |draws| == s.count
    requires forall k :: 0 <= k < |ticks| ==> |ticks[k].draws| == s.count
    ensures forall i :: 0 <= i < s.count ==> 0.0 < Run(ops, box, Init(s, box, models, draws), ticks)[i].scale
  {
    var flock := Init(s, box, models, draws);
    assert forall i :: 0 <= i < |flock| ==> Fresh(s, box, models, flock[i]);
  }
}
