/**
 * The numeric vocabulary of the components' from/to animation states.  A
 * state sets some visual properties; each property has a rest value, the
 * value at which it leaves the element looking as it does without animation.
 * CSS strings such as "inset(0 100% 0 0)" or "brightness(3)" are represented
 * by the number inside them.
 */
module Tweens {

  datatype Prop =
    | Opacity
    | Y                    // translate y, px
    | Scale
    | RotateX              // degrees
    | Brightness           // filter: brightness(N)
    | BlurPx               // filter: blur(Npx)
    | InsetRightPercent    // clip-path: inset(0 N% 0 0)
    | InsetBottomPercent   // clip-path: inset(0 0 N% 0)

  type Style = map<Prop, real>

  function RestValue(prop: Prop): real {
    match prop
    case Opacity => 1.0
    case Scale => 1.0
    case Brightness => 1.0
    case _ => 0.0
  }

  /** Every property the style sets is at its rest value: the element is fully revealed. */
  predicate AtRest(s: Style) {
    forall prop :: prop in s ==> s[prop] == RestValue(prop)
  }

  /** A from/to pair animates the same properties at both ends. */
  predicate SameProps(from: Style, to: Style) {
    from.Keys == to.Keys
  }
}
