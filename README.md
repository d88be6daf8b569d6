# AHKBendableView core, modelled in Dafny

AHKBendableView is a UIKit view that bends its edges while it moves. The
view owns a hidden twin view. When Core Animation attaches a `position`
animation to the view's layer, the view starts a spring animation of the twin
towards the same target. The twin's animation has the same duration and delay
but uses the view's own `damping` and `initialSpringVelocity`. While any such
animation is in flight, a display link ticks. On each tick the view takes the
twin's presentation origin minus its own as the offset, and redraws a closed
outline. The outline has four quadratic edges whose control points are the
edge midpoints pushed by that offset.

The repository holds this engine twice: `BendableView` (current) and
`BouncyView` (older). The model has one module per view and three shared
modules:

- `Geometry`: points, sizes, offsets, and outlines as values (a start point,
  a sequence of `QuadTo`/`LineTo` segments, a `closed` flag). `BendPath` builds
  the outline exactly as both views do. It is characterised by corner order,
  closure and control-point lemmas against an independent edge-by-edge
  description (`Corners`, `Midpoint`, `Perpendicular`). It is also compared
  point by point with the plain rectangle through the quadratic Bezier formula.
- `Host`: the UIKit and Core Animation collaborators as values: the animation
  descriptor (whether it is basic, its key path, its duration and begin time),
  the requested spring animation, and presentation-layer geometry. It also has
  a small `DisplayLink` class that is created running and can be invalidated.
- `Lifecycle`: the animation count and display-link presence as a pure state
  machine (`Step`, and `Run` over a sequence of `Start`/`Complete` events).
  Its lemmas cover balanced event sequences.
- `Bendable` and `Bouncy`: each view is a class with the source's mutable
  fields: `displayLink`, `animationCount`, the twin's origin, the offset and
  the shape layer's path. Each layer is a class that attaches every animation
  and reports position animations to its delegate. The views' start and
  completion handlers are proved to take exactly one `Lifecycle.Step` each.
  They are also proved to keep the invariant that the link exists and runs
  exactly while the count is positive.

Coordinates are `real`. The code only halves, adds and subtracts, so exact
reals stand in for `CGFloat`. Presentation layers, frames and bounds belong to
the host, so they are method arguments. A missing presentation layer is
`None`.

The model follows the code as written, which differs from what a reader
might expect:

- The count is not clamped at zero. A completion without a matching start
  takes the count to -1. `Lifecycle.UnmatchedCompletionDesynchronizes` shows
  that a later start then leaves a link running with the count at 0. The
  link/count invariant is therefore proved for balanced sequences only, which
  is what the host guarantees: each spring animation completes once.
- There is no directional "two edges bow" mode. `BouncyView` measures the
  per-axis travel of the twin but never uses it.
- Only `BendableView`'s tick skips missing presentation layers; the older
  view's tick takes both for granted (see "## Left out").

## Model

| member | source | states |
|---|---|---|
| `Geometry.BendPath` | Classes/BendableView.swift:141-151 | the outline both views draw (also Classes/BouncyView.swift:62-72): closed, starting at (0,0), four segments, the last ending back at the start; `BendPathVisitsCorners`, `BendPathControls` and `BendEdgePoint` characterise it against the corner, midpoint and straight-edge description |
| `Geometry.BendPathVisitsCorners` | Classes/BendableView.swift:141-151 | the outline starts at (0,0); its four quadratic segments end at (w,0), (w,h), (0,h), (0,0) in that order; each segment starts where the previous ended; the path is closed; this holds for every size, zero included |
| `Geometry.BendPathControls` | Classes/BendableView.swift:143-150 | every control point is its edge's midpoint moved by the offset component perpendicular to that edge (vertical for top and bottom, horizontal for right and left) |
| `Geometry.BowDisplacement` | Classes/BendableView.swift:143-144 | a quadratic edge whose control point is the chord midpoint moved by d passes, at parameter t, the straight chord's point moved by 2t(1-t)·d |
| `Geometry.BendEdgePoint` | Classes/BendableView.swift:141-151 | every point of every bent edge is the matching point of the plain rectangle's straight edge, displaced by 2t(1-t) times the perpendicular offset |
| `Geometry.ZeroOffsetIsRectangle` | Classes/BendableView.swift:57-61 | with the default zero offset, every control point is its edge's midpoint and the outline traces the plain rectangle point for point |
| `Geometry.Divergence` | Classes/BendableView.swift:163-164 | the sampled offset (also Classes/BouncyView.swift:155-156) is the vector that carries the view's origin onto the twin's, and it is zero exactly when the two origins coincide |
| `Lifecycle.Step` | Classes/BendableView.swift:101-123 | a start adds 1 and leaves a link present; a completion subtracts 1 and leaves the link present exactly when it was present and the count is not 0 (also Classes/BouncyView.swift:117-121, 136-140) |
| `Lifecycle.StepSynchronized` | Classes/BendableView.swift:100-124 | a start, or a completion with a matching start, keeps "link present ⇔ count > 0" and moves the count by exactly ±1 |
| `Lifecycle.RunCounts` | Classes/BendableView.swift:100-124 | after any balanced interleaving of starts and completions, the count is starts minus completions, and the link is active exactly when that is positive |
| `Lifecycle.AllCompletedStopsLink` | Classes/BendableView.swift:118-123 | N starts and N completions in any balanced order leave the count at 0 and no display link |
| `Lifecycle.PendingKeepsLink` | Classes/BendableView.swift:118-123 | N starts and fewer completions leave the display link active and the count at the number still pending |
| `Lifecycle.OverlappingAnimations` | Classes/BendableView.swift:100-124 | two overlapping animations take the count to 2; the link survives the first completion and is dropped at the second |
| `Lifecycle.UnmatchedCompletionDesynchronizes` | Classes/BendableView.swift:118-123 | the count is not clamped: an unmatched completion gives -1, and a following start leaves a link with the count at 0 |
| `Bendable.BendableView.constructor` | Classes/BendableView.swift:41-61 | damping 0.7, velocity 0.8, no link, count 0, zero offset, and the flat outline drawn by the common initialiser |
| `Bendable.BendableView.UpdatePath` | Classes/BendableView.swift:130-154 | the shape path becomes the bend outline over the presentation layer's bounds when one exists, else over the view's own bounds |
| `Bendable.BendableView.SetBendableOffset` | Classes/BendableView.swift:57-61 | assigning the offset regenerates the path from the new offset |
| `Bendable.BendableView.LayoutSubviews` | Classes/BendableView.swift:91-96 | a layout pass redraws the path and moves the twin's origin to the view's frame origin |
| `Bendable.BendableView.PositionAnimationWillStart` | Classes/BendableView.swift:100-117 | a start keeps an existing link, creates a running one only when none exists, adds exactly 1 to the count, keeps the invariant, and requests a twin spring animation with the animation's duration and delay, the view's damping and velocity, and the new origin as target |
| `Bendable.BendableView.AnimationCompleted` | Classes/BendableView.swift:118-124 | a completion subtracts exactly 1; the link is invalidated and cleared exactly when the count reaches 0 and is otherwise untouched; with a matching start the invariant is kept |
| `Bendable.BendableView.Tick` | Classes/BendableView.swift:160-167 | with both presentation layers, the offset becomes twin origin minus view origin and the path is redrawn from the view's presentation bounds, so equal origins give the zero offset and the flat outline; otherwise offset and path are unchanged |
| `Host.IsPositionAnimation` | Classes/BendableView.swift:18-19 | the filter both layers apply (also Classes/BouncyView.swift:18-19): a `CABasicAnimation` whose key path is `position`; `BendableLayer.Add` and `BouncyLayer.AddAnimation` state its use |
| `Bendable.BendableLayer.Add` | Classes/BendableView.swift:14-25 | every animation is attached; the delegate is notified exactly for a basic animation with key path `position` when the delegate is a bendable view, and then takes one start step, keeps its offset, path, damping, velocity and any existing display link, gets a fresh running link when it had none, and the twin's spring request (duration, delay, the view's damping and velocity, the layer's origin as target) is returned exactly then |
| `Bouncy.AxisDeltas` | Classes/BouncyView.swift:125-126 | the per-axis travel is the absolute difference: non-negative, zero exactly when the coordinates agree, and one of the two signed differences |
| `Bouncy.BouncyView.constructor` | Classes/BouncyView.swift:34-49 | damping 0.7, velocity 0.8, no link, count 0, zero bending factor, and the flat outline |
| `Bouncy.BouncyView.Path` | Classes/BouncyView.swift:51-76 | the getter's outline is closed and starts at (0,0); its edges end at the corners of the presentation frame's size (else the view's frame size) with controls at the midpoints pushed by the bending factor's perpendicular component |
| `Bouncy.BouncyView.UpdatePath` | Classes/BouncyView.swift:147-149 | the shape path becomes the getter's outline |
| `Bouncy.BouncyView.SetBendingFactor` | Classes/BouncyView.swift:45-49 | every assignment to the bending factor regenerates the shape path |
| `Bouncy.BouncyView.LayoutSubviews` | Classes/BouncyView.swift:106-112 | a layout pass redraws the path and moves the twin's origin to the view's frame origin |
| `Bouncy.BouncyView.PositionAnimationWillStart` | Classes/BouncyView.swift:116-134 | as in the current view, plus the unused per-axis deltas, which are non-negative and measured from the twin's origin before it moves to the new target |
| `Bouncy.BouncyView.AnimationCompleted` | Classes/BouncyView.swift:135-142 | a completion subtracts exactly 1, invalidating and clearing the link exactly when the count reaches 0 |
| `Bouncy.BouncyView.Tick` | Classes/BouncyView.swift:151-157 | the bending factor unconditionally becomes twin presentation origin minus view presentation origin, and the path is redrawn over the view's presentation frame; equal origins give the zero factor and the flat outline |
| `Bouncy.BouncyLayer.AddAnimation` | Classes/BouncyView.swift:15-23 | every animation is attached; the delegate, if any, is notified exactly for a basic `position` animation, and then takes one start step, keeps its bending factor, path, damping, velocity and any existing display link, gets a fresh running link when it had none, and the twin's spring request is returned exactly then |

## Left out

- Spring physics, presentation-layer interpolation and the timing of `UIView` animations belong to the host. The twin's animation is returned as a request (duration, delay, damping, velocity, options, target). Presentation geometry arrives as arguments.
- `CADisplayLink` scheduling and the run loop are left out. A display link is an object that is running or invalidated, and ticks are method calls.
- CALayer's replacement of an earlier animation attached under the same key is left out. `attached` records every call in order.
- `fillColor`, `updateColor`, shape-layer rendering, sublayer insertion, the coder initialisers and the twin's `addSubview` are UI only.
- `CGFloat` floating point is left out. Exact reals are used, since only halving, addition and subtraction occur.
- CoreGraphics' standardisation of rectangles with negative sizes is left out. Frame `minX`/`minY` are the origin, and width and height are the stored size, as they are for the non-negative sizes UIKit views have.
- `animationCount` is an unbounded integer. A 64-bit overflow cannot be reached by real animation counts.
- Bendable.BendableView.AnimationCompleted and Bouncy.BouncyView.AnimationCompleted: the crash of the force-unwrapped link (Classes/BendableView.swift:121, Classes/BouncyView.swift:138) is turned into the precondition "count 1 implies a link exists"; a freshly built view never violates it, since its invariant (link present exactly while the count is positive) holds after every start and every matched completion.
- Bouncy.BouncyView.Tick: the force-casts of both presentation layers (Classes/BouncyView.swift:152-153), which crash when a layer is missing, are turned into non-optional inputs, so the crash itself is not modelled.
- There is no clamping of the count at zero, because the code has none. The lifecycle invariant is proved for balanced start/complete sequences.
- There is no directional two-edge bending mode, because the code has none. The deltas that would select it are modelled and unused, as in the source.
- The example view controllers under Example/ are demo glue (random constraints and a layout animation). They are not part of this model.
