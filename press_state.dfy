/**
 * The press state machine of the D-pad, as pure functions: the five "touched"
 * flags, the direction they denote, the paint colours they select, and the
 * effect of one touch event (new flags, emitted events, return value). The
 * widget class in module DPad runs these steps imperatively and is proved to
 * agree with `Respond`.
 */
module PressState {
  import opened Wrappers
  import opened Geometry

  /** `MotionEvent` action codes the widget compares against; any other code may also arrive. */
  const ActionDown: int := 0
  const ActionUp: int := 1
  const ActionMove: int := 2

  /**
   * A touch event as the widget sees it. `degrees` is the environment's
   * `toDegrees(atan2(y - width / 2, x - width / 2))` for this event.
   */
  datatype MotionEvent = MotionEvent(x: real, y: real, action: int, degrees: real)

  /**
   * What the widget does to the outside world, in order: listener calls,
   * `performClick`, handing the event to the gesture detector, haptic feedback
   * requests and repaint requests.
   */
  datatype Event =
    | PerformClick
    | GestureDetectorFed(action: int)
    | DirectionClick(clicked: Option<Direction>)
    | DirectionPress(pressed: Option<Direction>, action: int)
    | CenterLongClick
    | HapticFeedback
    | Invalidate

  /** `MotionEvent.isTouched`: the pointer is down on the pad. */
  predicate IsTouched(action: int)
  {
    action == ActionDown || action == ActionMove
  }

  /** The five `*Touched` fields. */
  datatype Flags = Flags(center: bool, up: bool, down: bool, left: bool, right: bool)

  const NoFlags := Flags(false, false, false, false, false)

  function Bit(b: bool): nat { if b then 1 else 0 }

  function CountTouched(f: Flags): nat
  {
    Bit(f.center) + Bit(f.up) + Bit(f.down) + Bit(f.left) + Bit(f.right)
  }

  /** Mutual exclusion of the zones: no two flags are set together. */
  predicate AtMostOne(f: Flags)
  {
    (f.center ==> !f.up && !f.down && !f.left && !f.right) &&
    (f.up ==> !f.down && !f.left && !f.right) &&
    (f.down ==> !f.left && !f.right) &&
    (f.left ==> !f.right)
  }

  /** Mutual exclusion is the same as "at most one flag set" counted out. */
  lemma AtMostOneCounts(f: Flags)
    ensures AtMostOne(f) <==> CountTouched(f) <= 1
  {
  }

  predicate AnyTouched(f: Flags)
  {
    f.center || f.up || f.down || f.left || f.right
  }

  /** The flag that belongs to a direction. */
  function FlagOf(f: Flags, d: Direction): bool
  {
    match d
    case Center => f.center
    case Up => f.up
    case Down => f.down
    case Left => f.left
    case Right => f.right
  }

  /** `getDirection`: the first touched flag in the order CENTER, UP, DOWN, LEFT, RIGHT. */
  function GetDirection(f: Flags): Option<Direction>
  {
    if f.center then Some(Center)
    else if f.up then Some(Up)
    else if f.down then Some(Down)
    else if f.left then Some(Left)
    else if f.right then Some(Right)
    else None
  }

  /** The flags with exactly the given direction set (none for `null`). */
  function Only(d: Option<Direction>): (f: Flags)
    ensures AtMostOne(f)
  {
    match d
    case None => NoFlags
    case Some(Center) => NoFlags.(center := true)
    case Some(Up) => NoFlags.(up := true)
    case Some(Down) => NoFlags.(down := true)
    case Some(Left) => NoFlags.(left := true)
    case Some(Right) => NoFlags.(right := true)
  }

  /** Clearing the flag of one direction, leaving the other four as they are. */
  function Release(f: Flags, d: Direction): (g: Flags)
    ensures !FlagOf(g, d)
  {
    match d
    case Center => f.(center := false)
    case Up => f.(up := false)
    case Down => f.(down := false)
    case Left => f.(left := false)
    case Right => f.(right := false)
  }

  /** `getDirection` returns `null` exactly when no flag is set, and otherwise a set flag. */
  lemma GetDirectionSound(f: Flags)
    ensures GetDirection(f) == None <==> !AnyTouched(f)
    ensures GetDirection(f).Some? ==> FlagOf(f, GetDirection(f).value)
  {
  }

  /**
   * Under mutual exclusion flags and direction are interchangeable: the
   * direction is the one set flag, and setting only that flag gives the flags back.
   */
  lemma DirectionRoundTrip(f: Flags, d: Option<Direction>)
    requires AtMostOne(f)
    ensures GetDirection(Only(d)) == d
    ensures Only(GetDirection(f)) == f
    ensures forall e: Direction :: GetDirection(f) == Some(e) <==> FlagOf(f, e)
  {
  }

  /** Releasing the held direction of a mutually exclusive state clears everything. */
  lemma ReleaseHeldClearsAll(f: Flags)
    requires AtMostOne(f) && GetDirection(f).Some?
    ensures Release(f, GetDirection(f).value) == NoFlags
  {
  }

  /** The colour configuration the paints are chosen from. */
  datatype Palette = Palette(normalColor: int, pressedColor: int,
                             centerCircleNormalColor: int, centerCirclePressedColor: int)

  /** The five paint colours: centre, up, down, left, right. */
  datatype Colors = Colors(center: int, up: int, down: int, left: int, right: int)

  function Shade(touched: bool, normal: int, pressed: int): int
  {
    if !touched then normal else pressed
  }

  /** The colours every touch event leaves in the paints. */
  function PaintColors(p: Palette, f: Flags): Colors
  {
    Colors(Shade(f.center, p.centerCircleNormalColor, p.centerCirclePressedColor),
           Shade(f.up, p.normalColor, p.pressedColor),
           Shade(f.down, p.normalColor, p.pressedColor),
           Shade(f.left, p.normalColor, p.pressedColor),
           Shade(f.right, p.normalColor, p.pressedColor))
  }

  /** The colours `init` resets the paints to, whatever the flags. */
  function RestingColors(p: Palette): Colors
  {
    Colors(p.centerCircleNormalColor, p.normalColor, p.normalColor, p.normalColor, p.normalColor)
  }

  /**
   * With distinct normal and pressed colours, each paint shows its pressed
   * colour exactly when its zone is touched; with no zone touched the paints
   * are at rest.
   */
  lemma ColorsShowPress(p: Palette, f: Flags)
    requires p.normalColor != p.pressedColor
    requires p.centerCircleNormalColor != p.centerCirclePressedColor
    ensures var c := PaintColors(p, f);
      (c.center == p.centerCirclePressedColor <==> f.center) &&
      (c.up == p.pressedColor <==> f.up) &&
      (c.down == p.pressedColor <==> f.down) &&
      (c.left == p.pressedColor <==> f.left) &&
      (c.right == p.pressedColor <==> f.right)
    ensures PaintColors(p, f) == RestingColors(p) <==> !AnyTouched(f)
  {
  }

  /** The zone an in-circle event selects: the centre button, else the wedge of its angle. */
  function Zone(inCenter: bool, degrees: real): (z: Option<Direction>)
    ensures z == Some(Center) <==> inCenter
  {
    if inCenter then Some(Center) else Sector(degrees)
  }

  /** The end of every event: an optional haptic request, then a repaint request. */
  function Feedback(hapticsEnabled: bool, action: int, f: Flags): seq<Event>
  {
    (if hapticsEnabled && action == ActionDown && AnyTouched(f) then [HapticFeedback] else []) + [Invalidate]
  }

  /** The outcome of one touch event. */
  datatype Step = Step(flags: Flags, events: seq<Event>, handled: bool)

  /**
   * The in-circle phase of `onTouchEvent`: the zone's flag is set for a DOWN or
   * MOVE (none otherwise), and the events up to the press listener call.
   */
  function PressZone(e: MotionEvent, inCenter: bool): Step
  {
    var zone := Zone(inCenter, e.degrees);
    Step(if IsTouched(e.action) then Only(zone) else NoFlags,
         (if e.action == ActionDown then [PerformClick] else []) +
         (if inCenter then [GestureDetectorFed(e.action)] else []) +
         (if e.action == ActionDown && zone != Some(Center) then [DirectionClick(zone)] else []) +
         [DirectionPress(zone, e.action)],
         true)
  }

  /** The outside phase of `onTouchEvent`: the held direction, if any, is released with ACTION_UP. */
  function ReleaseHeld(f: Flags): Step
  {
    match GetDirection(f)
    case None => Step(f, [], false)
    case Some(d) => Step(Release(f, d), [DirectionPress(Some(d), ActionUp)], false)
  }

  /**
   * The first phase of `onTouchEvent` on given hit-test results: the new flags,
   * the events up to the listener calls, and the value returned (whether the
   * point was in the outer circle).
   */
  function Reaction(f: Flags, e: MotionEvent, inCircle: bool, inCenter: bool): Step
  {
    if inCircle then PressZone(e, inCenter) else ReleaseHeld(f)
  }

  /** `onTouchEvent` on given hit-test results: the reaction, then haptics and the repaint. */
  function Respond(f: Flags, hapticsEnabled: bool, e: MotionEvent, inCircle: bool, inCenter: bool): Step
  {
    var r := Reaction(f, e, inCircle, inCenter);
    Step(r.flags, r.events + Feedback(hapticsEnabled, e.action, r.flags), r.handled)
  }

  /** Whether an event is a call of the press, click or long-click listener. */
  predicate IsListenerCall(ev: Event)
  {
    ev.DirectionClick? || ev.DirectionPress? || ev.CenterLongClick?
  }

  /**
   * The listener calls among the events, in their order: every listener call
   * of the log is kept and nothing else is.
   */
  function Listeners(events: seq<Event>): (r: seq<Event>)
    ensures |r| <= |events|
    ensures forall ev :: ev in r ==> ev in events && IsListenerCall(ev)
    ensures forall ev :: ev in events && IsListenerCall(ev) ==> ev in r
  {
    if events == [] then []
    else
      var rest := Listeners(events[1..]);
      match events[0]
      case DirectionClick(_) => [events[0]] + rest
      case DirectionPress(_, _) => [events[0]] + rest
      case CenterLongClick => [events[0]] + rest
      case _ => rest
  }

  lemma {:induction false} ListenersAppend(a: seq<Event>, b: seq<Event>)
    ensures Listeners(a + b) == Listeners(a) + Listeners(b)
  {
    if a != [] {
      assert (a + b)[1..] == a[1..] + b;
      ListenersAppend(a[1..], b);
    } else {
      assert a + b == b;
    }
  }

  lemma ListenersOfFeedback(hapticsEnabled: bool, action: int, f: Flags)
    ensures Listeners(Feedback(hapticsEnabled, action, f)) == []
  {
    var h := if hapticsEnabled && action == ActionDown && AnyTouched(f) then [HapticFeedback] else [];
    ListenersAppend(h, [Invalidate]);
  }

  /**
   * State invariant: after any event, at most one flag is set, provided that
   * held before (only the outside-circle path keeps old flags).
   */
  lemma RespondKeepsAtMostOne(f: Flags, h: bool, e: MotionEvent, inCircle: bool, inCenter: bool)
    requires AtMostOne(f) || inCircle
    ensures AtMostOne(Respond(f, h, e, inCircle, inCenter).flags)
  {
  }

  /**
   * An event inside the outer circle calls the press listener exactly once,
   * with this event's zone and action, preceded by the click listener (with
   * the same zone, `null` included) when the action is DOWN and the zone is not
   * the centre. Unless the action is DOWN or MOVE no flag stays set; otherwise
   * exactly the zone's flag is set. The event is reported as handled.
   */
  lemma InsideEvent(f: Flags, h: bool, e: MotionEvent, inCenter: bool)
    ensures var s := Respond(f, h, e, true, inCenter);
      var zone := Zone(inCenter, e.degrees);
      s.handled &&
      Listeners(s.events) ==
        (if e.action == ActionDown && zone != Some(Center) then [DirectionClick(zone)] else []) +
        [DirectionPress(zone, e.action)] &&
      (!IsTouched(e.action) ==> s.flags == NoFlags) &&
      (IsTouched(e.action) ==> GetDirection(s.flags) == zone && AtMostOne(s.flags))
  {
    var zone := Zone(inCenter, e.degrees);
    var s := Respond(f, h, e, true, inCenter);
    var pre := (if e.action == ActionDown then [PerformClick] else []) +
               (if inCenter then [GestureDetectorFed(e.action)] else []);
    var clicks := if e.action == ActionDown && zone != Some(Center) then [DirectionClick(zone)] else [];
    assert s.events == pre + clicks + [DirectionPress(zone, e.action)] + Feedback(h, e.action, s.flags);
    ListenersAppend(pre + clicks + [DirectionPress(zone, e.action)], Feedback(h, e.action, s.flags));
    ListenersAppend(pre + clicks, [DirectionPress(zone, e.action)]);
    ListenersAppend(pre, clicks);
    ListenersAppend(if e.action == ActionDown then [PerformClick] else [],
                    if inCenter then [GestureDetectorFed(e.action)] else []);
    ListenersOfFeedback(h, e.action, s.flags);
    if IsTouched(e.action) {
      DirectionRoundTrip(s.flags, zone);
    }
  }

  /**
   * An event outside the outer circle releases the held direction: the press
   * listener is called once with that direction and ACTION_UP (whatever the
   * event's own action), and no flag stays set; with nothing held no listener
   * is called. The event is reported as not handled.
   */
  lemma OutsideEvent(f: Flags, h: bool, e: MotionEvent, inCenter: bool)
    requires AtMostOne(f)
    ensures var s := Respond(f, h, e, false, inCenter);
      !s.handled && s.flags == NoFlags &&
      Listeners(s.events) ==
        (if GetDirection(f).Some? then [DirectionPress(GetDirection(f), ActionUp)] else []) &&
      HapticFeedback !in s.events
  {
    var s := Respond(f, h, e, false, inCenter);
    match GetDirection(f)
    case None =>
      ListenersOfFeedback(h, e.action, f);
    case Some(d) =>
      ReleaseHeldClearsAll(f);
      ListenersAppend([DirectionPress(Some(d), ActionUp)], Feedback(h, e.action, s.flags));
      ListenersOfFeedback(h, e.action, s.flags);
  }

  /** A touch event never emits the CENTER click; only the tap gesture does. */
  lemma NoCenterClickFromTouch(f: Flags, h: bool, e: MotionEvent, inCircle: bool, inCenter: bool)
    ensures DirectionClick(Some(Center)) !in Respond(f, h, e, inCircle, inCenter).events
  {
  }

  /**
   * Haptic feedback is requested (once, just before the repaint) exactly when
   * haptics are enabled, the action is DOWN and some flag is set afterwards;
   * from a mutually exclusive state that means a DOWN inside the circle that
   * selected a zone.
   */
  lemma HapticIff(f: Flags, h: bool, e: MotionEvent, inCircle: bool, inCenter: bool)
    requires AtMostOne(f)
    ensures var s := Respond(f, h, e, inCircle, inCenter);
      (HapticFeedback in s.events <==> h && e.action == ActionDown && AnyTouched(s.flags)) &&
      (HapticFeedback in s.events <==>
         h && e.action == ActionDown && inCircle && Zone(inCenter, e.degrees).Some?) &&
      s.events[|s.events| - 1] == Invalidate
  {
    if !inCircle && GetDirection(f).Some? {
      ReleaseHeldClearsAll(f);
    }
  }

  /**
   * The gesture `DOWN, MOVE, UP` inside the UP wedge, from rest, calls exactly
   * click(UP), press(UP, DOWN), press(UP, MOVE), press(UP, UP) and ends at rest.
   */
  lemma UpWedgeGesture(h: bool, down: MotionEvent, move: MotionEvent, up: MotionEvent)
    requires down.action == ActionDown && move.action == ActionMove && up.action == ActionUp
    requires Sector(down.degrees) == Sector(move.degrees) == Sector(up.degrees) == Some(Up)
    ensures var s1 := Respond(NoFlags, h, down, true, false);
      var s2 := Respond(s1.flags, h, move, true, false);
      var s3 := Respond(s2.flags, h, up, true, false);
      Listeners(s1.events + s2.events + s3.events) ==
        [DirectionClick(Some(Up)), DirectionPress(Some(Up), ActionDown),
         DirectionPress(Some(Up), ActionMove), DirectionPress(Some(Up), ActionUp)] &&
      s3.flags == NoFlags
  {
    var s1 := Respond(NoFlags, h, down, true, false);
    var s2 := Respond(s1.flags, h, move, true, false);
    var s3 := Respond(s2.flags, h, up, true, false);
    InsideEvent(NoFlags, h, down, false);
    InsideEvent(s1.flags, h, move, false);
    InsideEvent(s2.flags, h, up, false);
    ListenersAppend(s1.events + s2.events, s3.events);
    ListenersAppend(s1.events, s2.events);
  }

  /** `onLongPress`: the long-click listener is called and only the centre flag is cleared. */
  function LongPress(f: Flags): (s: Step)
    ensures Listeners(s.events) == [CenterLongClick]
    ensures !s.flags.center
    ensures forall d: Direction :: d != Center ==> FlagOf(s.flags, d) == FlagOf(f, d)
    ensures AtMostOne(f) ==> AtMostOne(s.flags)
  {
    Step(Release(f, Center), [CenterLongClick], false)
  }

  /** Clearing the centre flag of a state that holds the centre leaves the pad at rest. */
  lemma LongPressOnCenterRests(f: Flags)
    requires AtMostOne(f) && f.center
    ensures LongPress(f).flags == NoFlags
  {
  }
}
