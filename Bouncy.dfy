/** The older sibling view: `BouncyLayer` reports position animations to its
    delegate, and `BouncyView` bends its outline by `bendingFactor`, the
    divergence between its hidden twin and itself. It differs from the newer
    view in reading the presentation layer's frame (not its bounds) for the
    size, in a tick that takes both presentation layers for granted, and in
    measuring, at each start, how far the twin will travel on each axis. */
module Bouncy {
  import opened Geometry
  import opened Host
  import opened Lifecycle

  function Abs(r: real): real {
    if r < 0.0 then -r else r
  }

  /** The distance on each axis between the twin's origin before the
      animation and the new target. */
  function AxisDeltas(from: Point, to: Point): (d: Offset)
    ensures d.horizontal >= 0.0 && d.vertical >= 0.0
    ensures d.horizontal == 0.0 <==> from.x == to.x
    ensures d.vertical == 0.0 <==> from.y == to.y
    ensures d.horizontal == from.x - to.x || d.horizontal == to.x - from.x
    ensures d.vertical == from.y - to.y || d.vertical == to.y - from.y
  {
    Offset(Abs(from.x - to.x), Abs(from.y - to.y))
  }

  class BouncyView {
    var damping: real
    var initialSpringVelocity: real
    var displayLink: DisplayLink?
    var animationCount: int
    /** the twin's frame origin as last assigned (not its presentation origin) */
    var dummyOrigin: Point
    var bendingFactor: Offset
    /** the shape layer's current path */
    var shapePath: Outline

    ghost function State(): Session
      reads this
    {
      Session(animationCount, displayLink != null)
    }

    /** The lifecycle invariant: a running link exactly while animations are in flight. */
    ghost predicate Valid()
      reads this, displayLink
    {
      Synchronized(State()) && (displayLink != null ==> displayLink.running)
    }

    constructor (frame: Rect)
      ensures Valid() && State() == Idle
      ensures displayLink == null && animationCount == 0
      ensures damping == 0.7 && initialSpringVelocity == 0.8
      ensures dummyOrigin == Point(0.0, 0.0) && bendingFactor == ZeroOffset
      ensures shapePath == BendPath(frame.size, ZeroOffset)
    {
      damping := 0.7;
      initialSpringVelocity := 0.8;
      displayLink := null;
      animationCount := 0;
      dummyOrigin := Point(0.0, 0.0);
      bendingFactor := ZeroOffset;
      shapePath := BendPath(frame.size, ZeroOffset);
    }

    /** The `path` getter: a fresh outline over the presentation layer's
        frame when there is one, otherwise over the view's own frame, bent by
        the current `bendingFactor`. */
    function Path(presentation: Option<LayerGeometry>, frame: Rect): (p: Outline)
      reads this
      ensures var s := if presentation.Some? then presentation.value.frame.size else frame.size;
        p.start == Corners(s)[0] && p.closed && |p.segments| == 4 &&
        (forall i | 0 <= i < 4 :: p.segments[i].QuadTo? && p.segments[i].end == EdgeTo(s, i) &&
          p.segments[i].control == Shift(Midpoint(EdgeFrom(s, i), EdgeTo(s, i)), Perpendicular(i, bendingFactor)))
    {
      var f := if presentation.Some? then presentation.value.frame else frame;
      var p := BendPath(f.size, bendingFactor);
      BendPathVisitsCorners(f.size, bendingFactor);
      forall i | 0 <= i < 4
        ensures p.segments[i].control == Shift(Midpoint(EdgeFrom(f.size, i), EdgeTo(f.size, i)), Perpendicular(i, bendingFactor))
      {
        BendPathControls(f.size, bendingFactor, i);
      }
      p
    }

    method UpdatePath(presentation: Option<LayerGeometry>, frame: Rect)
      modifies this`shapePath
      ensures shapePath == Path(presentation, frame)
    {
      shapePath := Path(presentation, frame);
    }

    /** Every assignment to `bendingFactor` regenerates the shape layer's path. */
    method SetBendingFactor(bf: Offset, presentation: Option<LayerGeometry>, frame: Rect)
      modifies this`bendingFactor, this`shapePath
      ensures bendingFactor == bf
      ensures shapePath == Path(presentation, frame)
    {
      bendingFactor := bf;
      UpdatePath(presentation, frame);
    }

    /** A layout pass redraws the outline and moves the twin to the view's
        frame origin. */
    method LayoutSubviews(presentation: Option<LayerGeometry>, frame: Rect)
      modifies this`shapePath, this`dummyOrigin
      ensures dummyOrigin == frame.origin
      ensures shapePath == Path(presentation, frame)
    {
      UpdatePath(presentation, frame);
      dummyOrigin := frame.origin;
    }

    /** Starts the twin's spring animation towards `newPosition` after making
        sure a display link exists and counting the animation. The per-axis
        travel of the twin is measured from its origin before it moves; the
        view computes it and never uses it. */
    method PositionAnimationWillStart(anim: Animation, newPosition: Point)
      returns (twin: SpringAnimation, horizontalDelta: real, verticalDelta: real)
      modifies this`displayLink, this`animationCount, this`dummyOrigin
      ensures State() == Step(old(State()), Start)
      ensures animationCount == old(animationCount) + 1
      ensures old(displayLink) == null ==> fresh(displayLink) && displayLink.running
      ensures old(displayLink) != null ==> displayLink == old(displayLink)
      ensures Offset(horizontalDelta, verticalDelta) == AxisDeltas(old(dummyOrigin), newPosition)
      ensures horizontalDelta >= 0.0 && verticalDelta >= 0.0
      ensures dummyOrigin == newPosition
      ensures twin == SpringAnimation(anim.duration, anim.beginTime, damping, initialSpringVelocity, TwinOptions, newPosition)
      ensures old(Valid()) ==> Valid()
    {
      if displayLink == null {
        displayLink := new DisplayLink();
      }
      animationCount := animationCount + 1;
      var deltas := AxisDeltas(dummyOrigin, newPosition);
      verticalDelta := deltas.vertical;
      horizontalDelta := deltas.horizontal;
      twin := SpringAnimation(anim.duration, anim.beginTime, damping, initialSpringVelocity, TwinOptions, newPosition);
      dummyOrigin := newPosition;
    }

    /** The twin animation's completion handler: count down, and when no
        animation is left, invalidate the display link and drop it. */
    method AnimationCompleted()
      requires animationCount == 1 ==> displayLink != null
      modifies this`displayLink, this`animationCount, displayLink
      ensures State() == Step(old(State()), Complete)
      ensures animationCount == old(animationCount) - 1
      ensures animationCount == 0 ==> displayLink == null && !old(displayLink).running
      ensures animationCount != 0 ==> displayLink == old(displayLink) &&
                                      (displayLink != null ==> displayLink.running == old(displayLink.running))
      ensures old(Valid()) && old(animationCount) > 0 ==> Valid()
    {
      animationCount := animationCount - 1;
      if animationCount == 0 {
        displayLink.Invalidate();
        displayLink := null;
      }
    }

    /** One display-link tick: the factor becomes the twin's presentation
        origin minus the view's, unconditionally, and the outline is redrawn
        over the view's presentation frame. */
    method Tick(twin: LayerGeometry, primary: LayerGeometry)
      modifies this`bendingFactor, this`shapePath
      ensures bendingFactor == Divergence(twin.frame.origin, primary.frame.origin)
      ensures shapePath == BendPath(primary.frame.size, bendingFactor)
      ensures twin.frame.origin == primary.frame.origin ==>
        bendingFactor == ZeroOffset && shapePath == BendPath(primary.frame.size, ZeroOffset)
    {
      SetBendingFactor(Divergence(twin.frame.origin, primary.frame.origin), Some(primary), primary.frame);
    }
  }

  /** The view's backing layer: attaches every animation and reports a
      basic animation of `position` to its delegate, if it has one. */
  class BouncyLayer {
    /** the layer's model frame origin, already the animation's target when
        the animation is added */
    var origin: Point
    var attached: seq<(Option<string>, Animation)>
    var delegate: BouncyView?

    constructor (origin: Point, delegate: BouncyView?)
      ensures this.origin == origin && this.delegate == delegate && attached == []
    {
      this.origin := origin;
      this.delegate := delegate;
      attached := [];
    }

    method AddAnimation(anim: Animation, key: Option<string>) returns (notified: bool, request: Option<SpringAnimation>)
      modifies this`attached, delegate
      ensures attached == old(attached) + [(key, anim)]
      ensures notified <==> IsPositionAnimation(anim) && delegate != null
      ensures notified ==>
        delegate.State() == Step(old(delegate.State()), Start) &&
        delegate.dummyOrigin == origin &&
        (old(delegate.Valid()) ==> delegate.Valid())
      ensures notified ==>
        delegate.bendingFactor == old(delegate.bendingFactor) && delegate.shapePath == old(delegate.shapePath) &&
        delegate.damping == old(delegate.damping) &&
        delegate.initialSpringVelocity == old(delegate.initialSpringVelocity) &&
        (old(delegate.displayLink) != null ==> delegate.displayLink == old(delegate.displayLink)) &&
        (old(delegate.displayLink) == null ==> fresh(delegate.displayLink) && delegate.displayLink.running)
      ensures request == if notified
        then Some(SpringAnimation(anim.duration, anim.beginTime, delegate.damping, delegate.initialSpringVelocity, TwinOptions, origin))
        else None
      ensures !notified && delegate != null ==> unchanged(delegate)
    {
      attached := attached + [(key, anim)];
      notified, request := false, None;
      if IsPositionAnimation(anim) {
        if delegate != null {
          var twin, _, _ := delegate.PositionAnimationWillStart(anim, origin);
          notified, request := true, Some(twin);
        }
      }
    }
  }
}
