# Boids flock — a Dafny model

This project models the flock simulation of the boids scene: the
`Boids` component, which creates a flock of agents and moves every agent once
per rendered frame, and the `Experience` component, which stretches the
boundary box set on the control panel to the size of the window.

- `math_utils.dfy` (`MathUtils`) holds the scalar helpers the component
  borrows: `Math.abs`, `Math.max`, `Math.min`, `Math.PI`, and three.js's
  `randFloat` and `randInt`. Each call of `Math.random()` is a `Unit` value
  in [0, 1) handed in by the caller.
- `vectors.dfy` (`Vectors`) holds real 3-vectors and the two `Vector3`
  operations the steering rule depends on. `normalize()` divides by
  `length || 1`. `clampLength(0, max)` divides by `length || 1` and multiplies
  by `Math.max(0, Math.min(max, length))`. Square root, cosine and sine are
  fields of a `RealOps` value. `Lawful` states the only facts the proofs use
  about them: a square root squares back to its argument, and
  `cos² + sin² = 1`.
- `boids.dfy` (`Boids`) holds agents, control-panel settings, creating the
  flock, and the per-frame step, in this order:
  1. jitter the heading;
  2. build the wander force;
  3. test the walls, adding the containment force and bouncing the heading;
  4. clamp the steering;
  5. add it to the velocity and clamp the velocity;
  6. move.

  It also covers one frame for the whole flock, and a run of frames.
- `experience.dfy` (`Experience`) holds `scaleX`, `scaleY` and the
  responsive boundary box.

Two behaviours of the step are easy to miss:

- A frame time of zero gives both clamps a limit of 0. The step then sets
  the velocity to zero and leaves the position where it is.
- The wall test compares `|p| + 1` with half of the box's full extent on
  that axis. The box handed to the flock is the full size of the box.

## Model

| member | source | states |
|---|---|---|
| MathUtils.RandFloat | src/components/Boids.jsx:98-107 | A `randFloat` draw lies in [low, high] for ordered bounds, strictly below `high` for a proper interval, equals `low` for a point interval, and lies in (high, low] for swapped bounds |
| MathUtils.RandInt | src/components/Boids.jsx:94-97 | A `randInt(low, high)` draw is an integer in [low, high] whenever that range is non-empty; for `randInt(0, -1)` (an empty model list) it is 0 |
| Boids.Pick | src/components/Boids.jsx:94-97 | Indexing the theme's model list yields a model exactly when the index is in range, and that model belongs to the list; otherwise it yields JavaScript's `undefined` |
| Boids.Spawn | src/components/Boids.jsx:93-108 | A new agent satisfies `Fresh`: zero velocity; inside the box on every axis; z = 0 in planar mode; heading in [0, 2π); scale between MIN_SCALE and MAX_SCALE, in whichever order they are set; a model from the theme exactly when the theme has models |
| Boids.Init | src/components/Boids.jsx:92-116 | Rebuilding the flock yields exactly NB_BOIDS agents, each one `Fresh` |
| Boids.Jitter | src/components/Boids.jsx:123 | The per-frame heading drift is in [-0.05, 0.05) whatever the frame time |
| Boids.WanderForce | src/components/Boids.jsx:125-132 | The wander force lies in the XY plane, and vanishes when WANDER_RADIUS is 0 (normalising the zero vector) |
| Boids.WanderForceOnCircle | src/components/Boids.jsx:125-132 | For a non-zero WANDER_RADIUS the wander force has squared length WANDER_STRENGTH² (length WANDER_STRENGTH when that is non-negative); for a positive radius it is (cos θ, sin θ, 0) · WANDER_STRENGTH |
| Boids.Pull | src/components/Boids.jsx:135-150 | On each axis whose test fires, the `limits` vector is minus the agent's coordinate; elsewhere it is 0; it is the zero vector when no test fires |
| Boids.Bounce | src/components/Boids.jsx:139-150 | The heading grows by exactly π for every axis whose wall test fires |
| Boids.Containment | src/components/Boids.jsx:135-152 | The containment force is zero when no wall test fires, and keeps z = 0 for an agent on the z = 0 plane |
| Boids.ContainmentStretchesPull | src/components/Boids.jsx:151-152 | When `limits` is not zero, the containment force is `limits` stretched by a positive factor, with squared length 50² |
| Boids.ContainmentRestoring | src/components/Boids.jsx:139-152 | The containment force is zero on every axis whose test does not fire. On every axis that fires, it has the sign opposite to the agent's coordinate, i.e. it points back toward the centre |
| Boids.RawSteering | src/components/Boids.jsx:155-156 | An agent inside every wall threshold is steered by the wander force alone; the steering stays in the plane for a planar agent |
| Boids.Steering | src/components/Boids.jsx:158 | The clamped steering is zero when MAX_STEERING·delta is not positive, and keeps z = 0 for a planar agent |
| Boids.SteeringClamped | src/components/Boids.jsx:158 | The steering added has length at most MAX_STEERING·delta, and a raw steering already within that limit is added unchanged |
| Boids.StepAgent | src/components/Boids.jsx:118-165 | One frame keeps model and scale. The new position is the old position plus the new velocity. The heading moves by a jitter in [-0.05, 0.05) plus π per firing wall. A planar agent stays planar. With delta = 0 the velocity becomes zero and the agent does not move |
| Boids.StepAgentClamps | src/components/Boids.jsx:158-160 | The new velocity has length at most MAX_SPEED·delta (squared form for any limit), and a sum of old velocity and steering already within that limit is kept unchanged |
| Boids.ClampKeepsSign | src/components/Boids.jsx:158-160 | A positive clamp limit never flips the sign of a negative coordinate |
| Boids.WallTurnsBack | src/components/Boids.jsx:139-163 | Suppose an agent is near the positive x wall only and is not moving outward, and the wander force is weaker than the containment force. Then after one frame it moves toward the centre: new x velocity < 0 and new x < old x |
| Boids.Step | src/components/Boids.jsx:118-165 | After one frame the flock has the same size; every agent keeps its model and scale, moves by exactly its new velocity, and stays flat if it was flat; a zero-length frame stops every agent where it stands |
| Boids.StepLocal | src/components/Boids.jsx:118-121 | Agents do not interact: an agent's state after a frame depends only on its own state and its own random draw, whatever the rest of the flock is |
| Boids.StepClampsSpeed | src/components/Boids.jsx:118-160 | After a frame, every agent's velocity is within MAX_SPEED·delta |
| Boids.Run | src/components/Boids.jsx:118-165 | Any run of frames keeps the flock's size and every agent's model and scale |
| Boids.RunStaysPlanar | src/components/Boids.jsx:125-163 | Agents with z = 0 and zero z velocity keep both through any run of frames, whatever the settings of each frame |
| Boids.ScalesStayPositive | src/components/Boids.jsx:33-44 | With both scale sliders positive, as their ranges make them, every agent of a rebuilt flock has a positive scale through any run of frames, even when MIN_SCALE is above MAX_SCALE |
| Boids.PlanarModeStaysPlanar | src/components/Boids.jsx:92-165 | In planar mode, a rebuilt flock lies on the z = 0 plane and stays there through any run of frames |
| Vectors.Normalize | src/components/Boids.jsx:130 | `normalize()` leaves the zero vector at zero rather than dividing by zero, and keeps z = 0 |
| Vectors.NormalizeUnit | src/components/Boids.jsx:151 | A non-zero vector normalises to a unit vector along itself |
| Vectors.ClampLength | src/components/Boids.jsx:160 | `clampLength(0, max)` with a limit at or below zero collapses any vector to zero |
| Vectors.ClampKeepsShort | src/components/Boids.jsx:158-160 | A vector no longer than the limit is returned unchanged |
| Vectors.ClampScalesLong | src/components/Boids.jsx:158-160 | A vector longer than a non-negative limit is rescaled along itself to length exactly the limit |
| Vectors.ClampLengthBound | src/components/Boids.jsx:158-160 | The clamp never lengthens a vector, and for a non-negative limit never leaves it longer than the limit |
| Experience.ScaleX | src/components/Experience.jsx:34 | `scaleX` is at least 0.5 and at least width/1920, and is one of the two |
| Experience.ScaleY | src/components/Experience.jsx:35 | `scaleY` is at least 0.5 and at least height/1080, and is one of the two |
| Experience.ResponsiveBoundaries | src/components/Experience.jsx:37-41 | The depth is kept. The width is stretched by width/1920 for windows at least 960 wide and halved for narrower ones. The height likewise, by height/1080 above 540 and halved below |
| Experience.ReferenceSizeIsIdentity | src/components/Experience.jsx:34-41 | At a 1920×1080 window the panel's box is used unchanged |
| Experience.ResponsiveBounds | src/components/Experience.jsx:34-41 | For a panel box without negative sides, the responsive box has none either, and each stretched side is at least half the panel's value |
| Experience.ResponsiveMonotone | src/components/Experience.jsx:30-41 | A wider (taller) window never gives a narrower (shorter) box |
| Experience.ResponsiveFollowsPanel | src/components/Experience.jsx:17-41 | A larger panel value never gives a smaller box side, whatever the window |

## Left out

- Rendering: the `Boid` component, its animation, the debug box, lights, controls and environment. None of it affects the flock's state.
- The leva control panel and the jotai theme atom. Settings are a `Settings` value and the theme's models a `seq<string>`. Slider ranges are not preconditions: the model accepts any reals.
- The window resize listener and its 50 ms debounce. The window size is a parameter; only what is computed from it is modelled.
- `Math.random()`. Each draw is a `Unit` parameter, and the order in which the source consumes draws is not modelled.
- Floating point. Numbers are reals, and `Math.sqrt`, `Math.cos` and `Math.sin` are the abstract fields of `RealOps`, constrained only by `Lawful`. Rounding, NaN and infinities are not modelled.
- MIN_SPEED: the source reads it from the panel and never applies it. It is a field of `Settings` that no step function reads; no lemma about it is stated.
- In-place mutation. The source mutates the agent objects and reuses three scratch vectors. The model returns new agents. The scratch vectors are fully reset or overwritten before each agent, so nothing carries over between agents, and `Step` states that independence.
- When the flock is rebuilt. `useMemo` rebuilds the flock when NB_BOIDS, the box, the theme, MIN_SCALE, MAX_SCALE or the 3D switch change. The box is a new object on every render of `Experience`, and the dependency is compared by identity. So every re-render of `Experience` rebuilds the flock too, including toggling the debug checkbox and every debounced resize, even one that leaves the window size unchanged. A rebuild is a call to `Init`. `Run` covers the frames between two rebuilds and lets the other settings change from frame to frame.
- The heading is never reduced modulo 2π, as in the source.
- Boids.WallTurnsBack: proves the one-frame turn-back only for the positive x wall, alone, with a wander force weaker than the containment force. The other five walls are symmetric and not stated. Return to the box over several frames is not proved.
- Boids.SteeringClamped: states the steering bound as a length for a non-negative limit only. For a non-positive limit, `Boids.Steering` states that the steering is zero.
