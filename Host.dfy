/** What the views take from UIKit and Core Animation, reduced to values:
    the animation a layer is given, the spring animation a view asks for, the
    geometry of a presentation layer, and the display link whose ticks drive
    the sampling. */
module Host {
  import opened Geometry

  datatype Option<T> = None | Some(value: T)

  /** A CAAnimation as the layer filter sees it: whether it is a
      CABasicAnimation, its key path (optional, as in Core Animation), and
      the timing a position animation hands on to the twin. */
  datatype Animation = Animation(isBasic: bool, keyPath: Option<string>, duration: real, beginTime: real)

  /** The key path of CALayer's `position` property. */
  const PositionKeyPath := "position"

  /** Only a basic animation of `position` is reported to the view. */
  predicate IsPositionAnimation(anim: Animation) {
    anim.isBasic && anim.keyPath == Some(PositionKeyPath)
  }

  datatype AnimationOption = BeginFromCurrentState | AllowUserInteraction | OverrideInheritedOptions

  /** The options both views pass to the twin's spring animation. */
  const TwinOptions: set<AnimationOption> := {BeginFromCurrentState, AllowUserInteraction, OverrideInheritedOptions}

  /** A spring animation of the twin's origin, as requested from UIView. */
  datatype SpringAnimation = SpringAnimation(
    duration: real, delay: real, damping: real, initialSpringVelocity: real,
    options: set<AnimationOption>, targetOrigin: Point)

  /** The parts of a presentation layer the views read. */
  datatype LayerGeometry = LayerGeometry(frame: Rect, bounds: Rect)

  /** A CADisplayLink: created and added to the main run loop, later
      invalidated. Its ticks are the host's; the views receive them as calls. */
  class DisplayLink {
    var running: bool

    constructor ()
      ensures running
    {
      running := true;
    }

    method Invalidate()
      modifies this
      ensures !running
    {
      running := false;
    }
  }
}
