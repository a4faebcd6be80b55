# DPadView touch core in Dafny

`DPadView` is an Android widget: a round directional pad with four wedges
(UP, DOWN, LEFT, RIGHT) and an optional centre button. This project models the
part of the widget that decides what a touch means:

- the optimised point-in-circle test (`isInCircle`);
- the mapping from a touch angle to a wedge;
- the `onTouchEvent` state machine over the five "touched" flags, the five
  paint colours and the listener calls it makes;
- `getDirection`, and the gesture callbacks `onSingleTapUp` and `onLongPress`;
- the decoding of the centre-text style bitmask;
- the square `onMeasure` and the state `onDraw` computes: the centre, the
  centre-circle radius and the centre icon's bounds.

Modules:

- `Geometry` (`geometry.dfy`): directions, the circle test, wedges.
- `Layout` (`layout.dfy`): measure and draw arithmetic.
- `TextStyle` (`text_style.dfy`): the style bitmask.
- `PressState` (`press_state.dfy`): the flags, `getDirection` and the pure
  description of one touch event as a `Step`. A `Step` holds the new flags, the
  events emitted and the return value.
- `DPad` (`dpad_view.dfy`): the widget itself as a class. Its callback methods
  update the fields in the widget's own order, and each is proved against the
  `PressState` and `Layout` functions.

What the widget does to the outside world is appended to the field `log`:

- calls of the click, press and long-click listeners;
- `performClick`;
- handing the event to the gesture detector;
- haptic feedback;
- `invalidate`.

Floats are modelled as mathematical reals. The centre-circle radius is divided
by a configuration value and can become +infinity or NaN, so it is an
`Extended` value. The circle test decides comparisons with those values as
IEEE 754 does. Kotlin's `Float.toInt()` and `Int / 2` both truncate toward
zero; they are written out as `TruncToInt` and `HalfOf`.

Where this model follows the code rather than the widget's documented intent:

- An angle of exactly 315 degrees (normalised) lies in none of the four
  intervals the code compares against, so no flag is set and the listeners
  receive a `null` direction; it is not counted as UP. On real-valued angles
  this case exists; the widget's float `atan2` never yields exactly -45
  degrees (see "## Left out").
- Nothing rejects a centre-circle ratio of zero or less. Ratio 0 gives an
  infinite radius on a measured pad, and that radius takes every touch inside
  the outer circle (`DPad.ZeroRatioCenterTakesAll`). A ratio strictly between
  0 and 2 gives a centre circle larger than the pad
  (`Layout.CenterCircleFitsIff`); a negative ratio gives a non-positive radius.
- `halfPadding` is fixed at construction from the initial padding of 20, so a
  configured padding never changes the hit radii (`DPad.HalfPadding`).

## Model

All source paths are under `dpadview/src/main/java/com/codertainment/dpadview/`
except the sample activity.

| member | source | states |
|---|---|---|
| Geometry.IsInCircleIsDisc | dpadview/src/main/java/com/codertainment/dpadview/DPadView.kt:401-410 | for a non-negative radius the box/diamond/square test accepts exactly the points of the closed Euclidean disc; for a negative radius it accepts none |
| Geometry.IsInCircleMonotone | dpadview/src/main/java/com/codertainment/dpadview/DPadView.kt:401-410 | a point inside a circle stays inside any circle of larger radius about the same centre |
| Geometry.DiamondInsideDisc | dpadview/src/main/java/com/codertainment/dpadview/DPadView.kt:408 | the `dx + dy <= radius` fast accept never accepts a point outside the disc |
| Geometry.OutsideBoxRejected | dpadview/src/main/java/com/codertainment/dpadview/DPadView.kt:402-406 | a point beyond the radius on either axis is rejected |
| Geometry.TruncToInt | dpadview/src/main/java/com/codertainment/dpadview/DPadView.kt:321 | `toInt` drops the fraction toward zero: the magnitude shrinks by less than one and the sign is kept |
| Geometry.NormalizeDegrees | dpadview/src/main/java/com/codertainment/dpadview/DPadView.kt:342-344 | a negative angle is moved up by one turn, so an angle in [-360, 360) lands in [0, 360) |
| Geometry.Sector | dpadview/src/main/java/com/codertainment/dpadview/DPadView.kt:341-354 | on the `atan2` range the wedges are RIGHT (-45,45], DOWN (45,135], LEFT (135,180] and [-180,-135], UP (-135,-45); -45 gives no direction; never CENTER |
| Geometry.SectorPartition | dpadview/src/main/java/com/codertainment/dpadview/DPadView.kt:346-354 | on normalised angles each wedge is exactly its half-open interval, and only 315 gives no direction |
| Geometry.SectorTurnInvariant | dpadview/src/main/java/com/codertainment/dpadview/DPadView.kt:342-354 | a negative angle and that angle plus one turn fall in the same wedge |
| Geometry.Minus | dpadview/src/main/java/com/codertainment/dpadview/DPadView.kt:323 | `radius - halfPadding` stays finite exactly when the radius is finite, and then it is the real difference |
| Layout.SquareSide | dpadview/src/main/java/com/codertainment/dpadview/DPadView.kt:259 | the side is the smaller measured dimension: at most both, equal to one |
| Layout.CircleCenter | dpadview/src/main/java/com/codertainment/dpadview/DPadView.kt:260 | the centre is non-negative and twice it is the size |
| Layout.CenterCircleRadius | dpadview/src/main/java/com/codertainment/dpadview/DPadView.kt:267 | a non-zero ratio gives a finite radius with radius * ratio = size; ratio 0 gives +infinity on a non-empty pad and NaN on an empty one |
| Layout.CenterCircleFitsIff | dpadview/src/main/java/com/codertainment/dpadview/DPadView.kt:267 | for a positive size and ratio the radius is positive, and it is at most half the size exactly when the ratio is at least 2 |
| Layout.HalfOf | dpadview/src/main/java/com/codertainment/dpadview/DPadView.kt:287-290 | integer halving truncates toward zero on both signs |
| Layout.IconRect | dpadview/src/main/java/com/codertainment/dpadview/DPadView.kt:284-299 | the icon bounds are centred on the truncated centre; WRAP gives widths of twice the halved intrinsic size, FIXED a square of twice the halved truncated icon size |
| Layout.WrapRectSize | dpadview/src/main/java/com/codertainment/dpadview/DPadView.kt:285-291 | in WRAP mode the bounds are the intrinsic size rounded down to an even number of pixels on each axis |
| Layout.WrapWithoutIntrinsicSize | dpadview/src/main/java/com/codertainment/dpadview/DPadView.kt:285-291 | a drawable reporting -1 by -1 gets an empty rectangle at the centre |
| TextStyle.ComposeTextStyle | app/src/main/java/com/codertainment/dpadview/sample/MainActivity.kt:62-73 | a mask OR-ed from BOLD, ITALIC and UNDERLINE uses only the three low bits |
| TextStyle.DecodeCompose | dpadview/src/main/java/com/codertainment/dpadview/DPadView.kt:229-243 | decoding a composed mask gives back underline and the typeface for exactly the bold and italic requested |
| TextStyle.DecodeReadsLowBits | dpadview/src/main/java/com/codertainment/dpadview/DPadView.kt:229-243 | any mask decodes as its three low bits: bit 4 is underline, bits 1 and 2 choose the typeface, the rest is ignored |
| PressState.AtMostOneCounts | dpadview/src/main/java/com/codertainment/dpadview/DPadView.kt:164-168 | the exclusivity predicate holds exactly when at most one of the five flags is set |
| PressState.GetDirectionSound | dpadview/src/main/java/com/codertainment/dpadview/DPadView.kt:435-442 | `getDirection` is null exactly when no flag is set, and otherwise names a set flag |
| PressState.DirectionRoundTrip | dpadview/src/main/java/com/codertainment/dpadview/DPadView.kt:435-442 | on exclusive flags `getDirection` and the one-flag state of a direction are inverse, and the direction it returns is exactly the set flag |
| PressState.ReleaseHeldClearsAll | dpadview/src/main/java/com/codertainment/dpadview/DPadView.kt:369-378 | on exclusive flags, clearing the flag `getDirection` names leaves no flag set |
| PressState.ColorsShowPress | dpadview/src/main/java/com/codertainment/dpadview/DPadView.kt:381-385 | each paint has its pressed colour exactly when its flag is set, and its normal colour otherwise |
| PressState.Zone | dpadview/src/main/java/com/codertainment/dpadview/DPadView.kt:337-355 | the zone of an in-circle touch is CENTER exactly when the centre test accepted it |
| PressState.Listeners | dpadview/src/main/java/com/codertainment/dpadview/DPadView.kt:145-155 | the listener calls of a log: no longer than it, and an event is among them exactly when it is a click, press or long-click call of the log |
| PressState.ListenersAppend | dpadview/src/main/java/com/codertainment/dpadview/DPadView.kt:145-155 | the listener calls of two logs in a row are those of the first followed by those of the second |
| PressState.RespondKeepsAtMostOne | dpadview/src/main/java/com/codertainment/dpadview/DPadView.kt:326-379 | a touch event keeps at most one flag set |
| PressState.InsideEvent | dpadview/src/main/java/com/codertainment/dpadview/DPadView.kt:326-367 | inside the outer circle: handled; click listener on DOWN unless the zone is CENTER, then one press call with the zone and action; no flag kept unless DOWN or MOVE, else exactly the zone's flag |
| PressState.OutsideEvent | dpadview/src/main/java/com/codertainment/dpadview/DPadView.kt:368-379 | outside the outer circle: not handled; the held direction gets one press call with ACTION_UP; no flag stays set; no haptics |
| PressState.NoCenterClickFromTouch | dpadview/src/main/java/com/codertainment/dpadview/DPadView.kt:359 | a touch event never calls the click listener with CENTER |
| PressState.HapticIff | dpadview/src/main/java/com/codertainment/dpadview/DPadView.kt:387-393 | haptic feedback happens exactly when enabled, the action is DOWN and a zone was selected inside the circle; the event ends with `invalidate` |
| PressState.UpWedgeGesture | dpadview/src/main/java/com/codertainment/dpadview/DPadView.kt:326-367 | DOWN, MOVE, UP in the UP wedge from rest calls click(UP) and press(UP) with each action, and ends at rest |
| PressState.LongPress | dpadview/src/main/java/com/codertainment/dpadview/DPadView.kt:430-433 | a long press calls the long-click listener, clears only the centre flag and keeps exclusivity |
| PressState.LongPressOnCenterRests | dpadview/src/main/java/com/codertainment/dpadview/DPadView.kt:430-433 | a long press while the centre is held leaves no flag set |
| DPad.DPadView.constructor | dpadview/src/main/java/com/codertainment/dpadview/DPadView.kt:121-124 | a new widget has size 0, radius 0, nothing touched, and resting paints and text style from its configuration |
| DPad.DPadView.Init | dpadview/src/main/java/com/codertainment/dpadview/DPadView.kt:213-254 | `init` sets the text paint from the style mask and every paint to its normal colour |
| DPad.DPadView.Modify | dpadview/src/main/java/com/codertainment/dpadview/DPadView.kt:312-315 | `modify` applies the new configuration, resets the paints and requests a repaint, keeping the invariant |
| DPad.DPadView.OnMeasure | dpadview/src/main/java/com/codertainment/dpadview/DPadView.kt:256-262 | the widget becomes a square of the smaller side, with the centre at half of it |
| DPad.DPadView.OnDraw | dpadview/src/main/java/com/codertainment/dpadview/DPadView.kt:264-302 | with a canvas the radius is recomputed from the current ratio and the icon bounds from the drawable; without one nothing changes |
| DPad.DPadView.OnTouchEvent | dpadview/src/main/java/com/codertainment/dpadview/DPadView.kt:318-396 | a null event is ignored; otherwise flags, emitted events and the result are those of `Respond` on the event's hit tests, the paints show the new flags, and exclusivity is kept |
| DPad.DPadView.HandleTouch | dpadview/src/main/java/com/codertainment/dpadview/DPadView.kt:321-395 | the same, for a present event |
| DPad.DPadView.React | dpadview/src/main/java/com/codertainment/dpadview/DPadView.kt:326-379 | the branch on the outer test moves the flags and log as `Reaction` says |
| DPad.DPadView.PressInside | dpadview/src/main/java/com/codertainment/dpadview/DPadView.kt:326-367 | the in-circle branch moves the flags and log as `PressZone` says |
| DPad.DPadView.SelectZone | dpadview/src/main/java/com/codertainment/dpadview/DPadView.kt:337-355 | from cleared flags, exactly the zone's flag is set; the gesture detector is fed only for the centre |
| DPad.DPadView.ReleaseOutside | dpadview/src/main/java/com/codertainment/dpadview/DPadView.kt:368-379 | the outside branch moves the flags and log as `ReleaseHeld` says |
| DPad.DPadView.UpdatePaints | dpadview/src/main/java/com/codertainment/dpadview/DPadView.kt:381-385 | the paints follow the flags |
| DPad.DPadView.RequestFeedback | dpadview/src/main/java/com/codertainment/dpadview/DPadView.kt:387-393 | the log gains the haptic request (DOWN with a zone, haptics on) and the repaint |
| DPad.DPadView.OnSingleTapUp | dpadview/src/main/java/com/codertainment/dpadview/DPadView.kt:419-422 | a single tap calls the click listener with CENTER and is consumed |
| DPad.DPadView.OnLongPress | dpadview/src/main/java/com/codertainment/dpadview/DPadView.kt:430-433 | the widget's flags and log follow `LongPress`, keeping the invariant |
| DPad.CenterNeedsBothSwitches | dpadview/src/main/java/com/codertainment/dpadview/DPadView.kt:322-324 | unless the centre circle is both enabled and pressable, no touch sets the centre flag or reports CENTER to the press listener |
| DPad.NoCenterBeforeFirstDraw | dpadview/src/main/java/com/codertainment/dpadview/DPadView.kt:124 | before the first draw the centre radius is 0, so the centre test (radius -10) accepts nothing |
| DPad.NothingInsideBeforeMeasure | dpadview/src/main/java/com/codertainment/dpadview/DPadView.kt:121-123 | before the first measure every touch is outside the outer circle |
| DPad.ZeroRatioCenterTakesAll | dpadview/src/main/java/com/codertainment/dpadview/DPadView.kt:267 | with ratio 0 on a measured pad the centre test accepts every point |

## Left out

- Floating-point rounding, overflow and signed zero: coordinates, radii and angles are reals. Only the infinite and NaN centre radius is modelled.
- The exactly-315-degree gap is reachable only on real-valued angles: the `Float` `atan2` result converted to degrees is never exactly -45, so the widget never normalises a touch to exactly 315. The model still treats that value as the code's comparisons do.
- `Math.toDegrees(atan2(...))`: the touch angle is a field of the modelled event, with no trigonometry. In the widget the angle is taken about the integer `width / 2`, while the circle tests are about `circleCenter.toInt()`, which is `size / 2`; the two differ only when the laid-out width is not the measured side, and the model does not relate them.
- The gesture detector: feeding an event to it is a log record. Its own timing, which can call `onSingleTapUp` and `onLongPress`, is modelled as separate methods the host calls in any order. In the widget `onSingleTapUp` runs inside `detector.onTouchEvent` while the centre UP event is being handled, so click(CENTER) comes before press(CENTER, ACTION_UP). The model can log it only after that event's `invalidate`, so this interleaving is not captured.
- Canvas drawing (arcs, circle, text layout and text position), since it has no effect on the modelled state.
- Direct assignment of a public property by the host without `modify`: the model changes the configuration only through `Modify`, which always runs `init`. A direct assignment in the widget affects the next touch or draw without the paint reset.
- The text paint's colour and size (`centerTextColor`, `centerTextSize` assigned in `init`): only the underline flag and typeface decoded from the style mask are modelled.
- Attribute and theme loading, default colours from the theme, the luminance-based default text colour and the centre text itself: the configuration is a parameter.
- Loading the drawable from a resource id and tinting it: the drawable is a parameter known by its intrinsic size.
- `setPadding` and the measured padding: they change no modelled state, since `halfPadding` never changes.
- `performClick`, `performHapticFeedback`, `invalidate` and the listeners are recorded in the log and not executed.
- `onShowPress`, `onDown`, `onFling` and `onScroll` return constants and change nothing.
- The sample activity, except for the way it OR-ed the style mask together.
- PressState.Listeners: its contract fixes which events are kept (membership both ways) and the length bound, not their order; order is stated by `PressState.ListenersAppend` across concatenation.
