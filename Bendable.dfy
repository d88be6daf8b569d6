/** The current view: `BendableLayer`, which reports position animations to
    its delegate, and `BendableView`, which runs a hidden twin through its own
    spring animation, samples the divergence on every display-link tick and
    redraws its bend outline from it. Presentation layers, bounds and frames
    are the host's and arrive as arguments. */
module Bendable {
  import opened Geometry
  import opened Host
  import opened Lifecycle

  class BendableView {
    /** the twin's own spring parameters */
    var damping: real
    var initialSpringVelocity: real
    var displayLink: DisplayLink?
    var animationCount: int
    /** the twin's frame origin as last assigned (not its presentation origin) */
    var dummyOrigin: Point
    var bendableOffset: Offset
    /** the shape layer's current path */
    var shapePath: Outline

    ghost function State(): Session
      reads this
    {
      Session(animationCount, displayLink != null)
    }

    /** The lifecycle invariant: a running link exactly while animations are in flight. */
    ghost predicate Valid()
      reads this, displayLink
    {
      Synchronized(State()) && (displayLink != null ==> displayLink.running)
    }

    /** The initial state; the common initialiser draws the flat outline. */
    constructor (bounds: Rect)
      ensures Valid() && State() == Idle
      ensures displayLink == null && animationCount == 0
      ensures damping == 0.7 && initialSpringVelocity == 0.8
      ensures dummyOrigin == Point(0.0, 0.0) && bendableOffset == ZeroOffset
      ensures shapePath == BendPath(bounds.size, ZeroOffset)
    {
      damping := 0.7;
      initialSpringVelocity := 0.8;
      displayLink := null;
      animationCount := 0;
      dummyOrigin := Point(0.0, 0.0);
      bendableOffset := ZeroOffset;
      shapePath := BendPath(bounds.size, ZeroOffset);
    }

    /** Redraws the outline from the presentation layer's bounds when there
        is a presentation layer, otherwise from the view's own bounds. */
    method UpdatePath(presentation: Option<LayerGeometry>, bounds: Rect)
      modifies this`shapePath
      ensures shapePath == BendPath((if presentation.Some? then presentation.value.bounds else bounds).size, bendableOffset)
    {
      var b: Rect;
      if presentation.Some? {
        b := presentation.value.bounds;
      } else {
        b := bounds;
      }
      shapePath := BendPath(b.size, bendableOffset);
    }

    /** Assigning the offset redraws the outline (the property observer). */
    method SetBendableOffset(o: Offset, presentation: Option<LayerGeometry>, bounds: Rect)
      modifies this`bendableOffset, this`shapePath
      ensures bendableOffset == o
      ensures shapePath == BendPath((if presentation.Some? then presentation.value.bounds else bounds).size, o)
    {
      bendableOffset := o;
      UpdatePath(presentation, bounds);
    }

    /** A layout pass redraws the outline and moves the twin to the view's
        frame origin. */
    method LayoutSubviews(frame: Rect, presentation: Option<LayerGeometry>, bounds: Rect)
      modifies this`shapePath, this`dummyOrigin
      ensures dummyOrigin == frame.origin
      ensures shapePath == BendPath((if presentation.Some? then presentation.value.bounds else bounds).size, bendableOffset)
    {
      UpdatePath(presentation, bounds);
      dummyOrigin := frame.origin;
    }

    /** A position animation is about to run towards `newPosition` (the
        layer's new frame origin): make sure a display link exists, count the
        animation, and start the twin's spring animation with the same
        duration and delay but this view's damping and velocity. The
        animation block sets the twin's model origin at once. */
    method PositionAnimationWillStart(anim: Animation, newPosition: Point) returns (twin: SpringAnimation)
      modifies this`displayLink, this`animationCount, this`dummyOrigin
      ensures State() == Step(old(State()), Start)
      ensures animationCount == old(animationCount) + 1
      ensures old(displayLink) == null ==> fresh(displayLink) && displayLink.running
      ensures old(displayLink) != null ==> displayLink == old(displayLink)
      ensures dummyOrigin == newPosition
      ensures twin == SpringAnimation(anim.duration, anim.beginTime, damping, initialSpringVelocity, TwinOptions, newPosition)
      ensures old(Valid()) ==> Valid()
    {
      if displayLink == null {
        displayLink := new DisplayLink();
      }
      animationCount := animationCount + 1;
      twin := SpringAnimation(anim.duration, anim.beginTime, damping, initialSpringVelocity, TwinOptions, newPosition);
      dummyOrigin := newPosition;
    }

    /** The twin animation's completion handler: count down, and when no
        animation is left, invalidate the display link and drop it. The
        handler force-unwraps the link when the count reaches 0, which is all
        it demands of its caller. */
    method AnimationCompleted()
      requires animationCount == 1 ==> displayLink != null
      modifies this`displayLink, this`animationCount, displayLink
      ensures State() == Step(old(State()), Complete)
      ensures animationCount == old(animationCount) - 1
      ensures animationCount == 0 ==> displayLink == null && !old(displayLink).running
      ensures animationCount != 0 ==> displayLink == old(displayLink) &&
                                      (displayLink != null ==> displayLink.running == old(displayLink.running))
      ensures old(Valid()) && old(animationCount) > 0 ==> Valid()
    {
      animationCount := animationCount - 1;
      if animationCount == 0 {
        displayLink.Invalidate();
        displayLink := null;
      }
    }

    /** One display-link tick: when both the twin's and the view's
        presentation layers exist, the offset becomes the twin's origin minus
        the view's origin and the outline is redrawn from the view's
        presentation bounds; otherwise nothing changes. */
    method Tick(twin: Option<LayerGeometry>, primary: Option<LayerGeometry>)
      modifies this`bendableOffset, this`shapePath
      ensures twin.Some? && primary.Some? ==>
        bendableOffset == Divergence(twin.value.frame.origin, primary.value.frame.origin) &&
        shapePath == BendPath(primary.value.bounds.size, bendableOffset)
      ensures twin.Some? && primary.Some? && twin.value.frame.origin == primary.value.frame.origin ==>
        bendableOffset == ZeroOffset && shapePath == BendPath(primary.value.bounds.size, ZeroOffset)
      ensures twin.None? || primary.None? ==>
        bendableOffset == old(bendableOffset) && shapePath == old(shapePath)
    {
      if twin.Some? {
        if primary.Some? {
          SetBendableOffset(Divergence(twin.value.frame.origin, primary.value.frame.origin), primary, primary.value.bounds);
        }
      }
    }
  }

  /** The view's backing layer. Every animation is attached; a basic
      animation of `position` is also reported to the delegate when the
      delegate is a bendable view. */
  class BendableLayer {
    /** the layer's model frame origin, already the animation's target when
        the animation is added */
    var origin: Point
    var attached: seq<(Option<string>, Animation)>
    var delegate: BendableView?

    constructor (origin: Point, delegate: BendableView?)
      ensures this.origin == origin && this.delegate == delegate && attached == []
    {
      this.origin := origin;
      this.delegate := delegate;
      attached := [];
    }

    method Add(anim: Animation, key: Option<string>) returns (notified: bool, request: Option<SpringAnimation>)
      modifies this`attached, delegate
      ensures attached == old(attached) + [(key, anim)]
      ensures notified <==> IsPositionAnimation(anim) && delegate != null
      ensures notified ==>
        delegate.State() == Step(old(delegate.State()), Start) &&
        delegate.dummyOrigin == origin &&
        (old(delegate.Valid()) ==> delegate.Valid())
      ensures notified ==>
        delegate.bendableOffset == old(delegate.bendableOffset) && delegate.shapePath == old(delegate.shapePath) &&
        delegate.damping == old(delegate.damping) &&
        delegate.initialSpringVelocity == old(delegate.initialSpringVelocity) &&
        (old(delegate.displayLink) != null ==> delegate.displayLink == old(delegate.displayLink)) &&
        (old(delegate.displayLink) == null ==> fresh(delegate.displayLink) && delegate.displayLink.running)
      ensures request == if notified
        then Some(SpringAnimation(anim.duration, anim.beginTime, delegate.damping, delegate.initialSpringVelocity, TwinOptions, origin))
        else None
      ensures !notified && delegate != null ==> unchanged(delegate)
    {
      attached := attached + [(key, anim)];
      notified, request := false, None;
      if IsPositionAnimation(anim) {
        if delegate != null {
          var twin := delegate.PositionAnimationWillStart(anim, origin);
          notified, request := true, Some(twin);
        }
      }
    }
  }
}
