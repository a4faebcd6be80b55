/**
 * The `DPadView` widget: configuration, layout state, the five touched flags,
 * the five paint colours and a log of everything the widget does to the
 * outside world. Touch, gesture, measure and draw callbacks are methods that
 * update these fields in the order the widget does; each is proved to agree
 * with the pure functions of modules Geometry, Layout, TextStyle and PressState.
 */
module DPad {
  import opened Wrappers
  import opened Geometry
  import opened Layout
  import opened TextStyle
  import opened PressState

  /** The `padding` property's initial value. */
  const DefaultPadding: real := 20.0

  /**
   * `halfPadding` is computed once, while `padding` still holds its initial
   * value, and is never recomputed when a configured padding is applied.
   */
  const HalfPadding: real := DefaultPadding / 2.0

  /** The host-configurable properties the core reads. */
  datatype Config = Config(
    palette: Palette,
    centerCircleEnabled: bool,
    centerCirclePressEnabled: bool,
    centerCircleRatio: real,
    padding: real,  // only feeds `setPadding`, which is not part of this model
    centerTextStyle: bv32,
    centerIconSizeMode: IconSizeMode,
    centerIconSize: real,
    hapticFeedbackEnabled: bool)

  /** A loaded centre-icon drawable, known here by its intrinsic size. */
  datatype IconDrawable = IconDrawable(intrinsicWidth: int, intrinsicHeight: int)

  /** The outer-circle test of a touch: truncated centre, radius `circleCenter - halfPadding`. */
  function OuterHit(e: MotionEvent, circleCenter: real): bool
  {
    IsInCircle(e.x, e.y, TruncToInt(circleCenter), circleCenter - HalfPadding)
  }

  /** The centre-button test of a touch, made only when the centre circle is enabled and pressable. */
  function CenterHit(c: Config, e: MotionEvent, circleCenter: real, centerCircleRadius: Extended): bool
  {
    if c.centerCircleEnabled && c.centerCirclePressEnabled then
      InCircleExt(e.x, e.y, TruncToInt(circleCenter), Minus(centerCircleRadius, HalfPadding))
    else false
  }

  class DPadView {
    var config: Config
    var centerIconDrawable: Option<IconDrawable>

    var size: nat
    var circleCenter: real
    var centerCircleRadius: Extended
    var centerIconRect: Rect

    var centerCircleTouched: bool
    var upTouched: bool
    var downTouched: bool
    var leftTouched: bool
    var rightTouched: bool

    var centerCircleColor: int
    var upColor: int
    var downColor: int
    var leftColor: int
    var rightColor: int
    var textStyle: TextPaintStyle

    /** Listener calls, platform requests and repaints, oldest first. */
    var log: seq<Event>

    function Touched(): Flags
      reads this
    {
      Flags(centerCircleTouched, upTouched, downTouched, leftTouched, rightTouched)
    }

    function Colours(): Colors
      reads this
    {
      Colors(centerCircleColor, upColor, downColor, leftColor, rightColor)
    }

    /** The zones are mutually exclusive and the centre follows the measured size. */
    ghost predicate Valid()
      reads this
    {
      AtMostOne(Touched()) && circleCenter == CircleCenter(size)
    }

    /**
     * A new widget: nothing measured yet (size 0, so the centre radius is 0),
     * nothing touched, paints and text paint set up by `init`.
     */
    constructor (c: Config, icon: Option<IconDrawable>)
      ensures Valid()
      ensures config == c && centerIconDrawable == icon
      ensures size == 0 && centerCircleRadius == Finite(0.0) && centerIconRect == Rect(0, 0, 0, 0)
      ensures Touched() == NoFlags && log == []
      ensures Colours() == RestingColors(c.palette) && textStyle == DecodeTextStyle(c.centerTextStyle)
    {
      config := c;
      centerIconDrawable := icon;
      size := 0;
      circleCenter := 0.0;
      centerCircleRadius := Finite(0.0 / 3.5);
      centerIconRect := Rect(0, 0, 0, 0);
      centerCircleTouched, upTouched, downTouched, leftTouched, rightTouched := false, false, false, false, false;
      log := [];
      new;
      Init();
    }

    /** `init`: set up the text paint from the style mask and reset every paint to its normal colour. */
    method Init()
      modifies this`textStyle, this`centerCircleColor, this`upColor, this`downColor, this`leftColor, this`rightColor
      ensures textStyle == DecodeTextStyle(config.centerTextStyle)
      ensures Colours() == RestingColors(config.palette)
    {
      textStyle := DecodeTextStyle(config.centerTextStyle);
      upColor := config.palette.normalColor;
      downColor := config.palette.normalColor;
      rightColor := config.palette.normalColor;
      leftColor := config.palette.normalColor;
      centerCircleColor := config.palette.centerCircleNormalColor;
    }

    /**
     * `modify` followed by `reInit`: the host replaces the configuration (and
     * the drawable it names), the paints are reset and a repaint requested. The
     * touched flags are left as they are, so until the next touch event a held
     * zone is drawn in its normal colour.
     */
    method Modify(c: Config, icon: Option<IconDrawable>)
      requires Valid()
      modifies this`config, this`centerIconDrawable, this`log, this`textStyle,
        this`centerCircleColor, this`upColor, this`downColor, this`leftColor, this`rightColor
      ensures Valid()
      ensures config == c && centerIconDrawable == icon
      ensures textStyle == DecodeTextStyle(c.centerTextStyle)
      ensures Colours() == RestingColors(c.palette)
      ensures log == old(log) + [Invalidate]
    {
      config := c;
      centerIconDrawable := icon;
      Init();
      log := log + [Invalidate];
    }

    /** `onMeasure`: force a square of the smaller measured side; returns the dimension set. */
    method OnMeasure(measuredWidth: nat, measuredHeight: nat) returns (side: nat)
      requires Valid()
      modifies this`size, this`circleCenter
      ensures Valid()
      ensures side == size == SquareSide(measuredWidth, measuredHeight)
      ensures circleCenter == CircleCenter(side)
    {
      size := if measuredWidth <= measuredHeight then measuredWidth else measuredHeight;
      circleCenter := size as real / 2.0;
      side := size;
    }

    /**
     * The state `onDraw` computes: the centre, the centre-circle radius from
     * the current ratio, and the centre icon's bounds when a drawable is loaded.
     * Nothing happens without a canvas.
     */
    method OnDraw(hasCanvas: bool)
      requires Valid()
      modifies this`circleCenter, this`centerCircleRadius, this`centerIconRect
      ensures Valid()
      ensures !hasCanvas ==> centerCircleRadius == old(centerCircleRadius) && centerIconRect == old(centerIconRect)
      ensures hasCanvas ==> centerCircleRadius == CenterCircleRadius(size, config.centerCircleRatio)
      ensures hasCanvas && centerIconDrawable.Some? ==>
        centerIconRect == IconRect(circleCenter, config.centerIconSizeMode,
          centerIconDrawable.value.intrinsicWidth, centerIconDrawable.value.intrinsicHeight, config.centerIconSize)
      ensures centerIconDrawable.None? ==> centerIconRect == old(centerIconRect)
    {
      if !hasCanvas {
        return;
      }
      circleCenter := size as real / 2.0;
      centerCircleRadius := CenterCircleRadius(size, config.centerCircleRatio);
      match centerIconDrawable {
        case Some(it) =>
          var c := TruncToInt(circleCenter);
          if config.centerIconSizeMode == Wrap {
            centerIconRect := Rect(c - HalfOf(it.intrinsicWidth), c - HalfOf(it.intrinsicHeight),
                                   c + HalfOf(it.intrinsicWidth), c + HalfOf(it.intrinsicHeight));
          } else {
            var iconSize := TruncToInt(config.centerIconSize);
            centerIconRect := Rect(c - HalfOf(iconSize), c - HalfOf(iconSize),
                                   c + HalfOf(iconSize), c + HalfOf(iconSize));
          }
        case None =>
      }
    }

    /**
     * `onTouchEvent`. A missing event is ignored. Otherwise the flags, the log
     * and the return value are those of `Respond` on this event's hit tests,
     * and the paints show the new flags.
     */
    method OnTouchEvent(event: Option<MotionEvent>) returns (handled: bool)
      requires Valid()
      modifies this`centerCircleTouched, this`upTouched, this`downTouched, this`leftTouched, this`rightTouched,
        this`centerCircleColor, this`upColor, this`downColor, this`leftColor, this`rightColor, this`log
      ensures Valid()
      ensures event.None? ==> !handled && Touched() == old(Touched()) && Colours() == old(Colours()) && log == old(log)
      ensures event.Some? ==>
        var e := event.value;
        var s := Respond(old(Touched()), config.hapticFeedbackEnabled, e,
                         OuterHit(e, circleCenter), CenterHit(config, e, circleCenter, centerCircleRadius));
        Touched() == s.flags && log == old(log) + s.events && handled == s.handled &&
        Colours() == PaintColors(config.palette, s.flags)
    {
      if event.None? {
        return false;
      }
      handled := HandleTouch(event.value);
    }

    /** `onTouchEvent` on a present event. */
    method HandleTouch(e: MotionEvent) returns (handled: bool)
      requires Valid()
      modifies this`centerCircleTouched, this`upTouched, this`downTouched, this`leftTouched, this`rightTouched,
        this`centerCircleColor, this`upColor, this`downColor, this`leftColor, this`rightColor, this`log
      ensures Valid()
      ensures var s := Respond(old(Touched()), config.hapticFeedbackEnabled, e,
                               OuterHit(e, circleCenter), CenterHit(config, e, circleCenter, centerCircleRadius));
        Touched() == s.flags && log == old(log) + s.events && handled == s.handled &&
        Colours() == PaintColors(config.palette, s.flags)
    {
      var inCircle := OuterHit(e, circleCenter);
      var inCenterCircle := CenterHit(config, e, circleCenter, centerCircleRadius);

      ghost var before := Touched();
      RespondKeepsAtMostOne(before, config.hapticFeedbackEnabled, e, inCircle, inCenterCircle);
      React(e, inCircle, inCenterCircle);
      UpdatePaints();
      RequestFeedback(e.action);
      handled := inCircle;
      ghost var r := Reaction(before, e, inCircle, inCenterCircle);
      AppendThree(old(log), r.events, Feedback(config.hapticFeedbackEnabled, e.action, r.flags));
    }

    /** The branch on the outer-circle test: press the event's zone, or release the held one. */
    method React(e: MotionEvent, inCircle: bool, inCenterCircle: bool)
      modifies this`centerCircleTouched, this`upTouched, this`downTouched, this`leftTouched, this`rightTouched,
        this`log
      ensures var r := Reaction(old(Touched()), e, inCircle, inCenterCircle);
        Touched() == r.flags && log == old(log) + r.events
    {
      if inCircle {
        PressInside(e, inCenterCircle);
      } else {
        ReleaseOutside();
      }
    }

    /** The in-circle branch of `onTouchEvent`: select this event's zone and call the listeners. */
    method PressInside(e: MotionEvent, inCenterCircle: bool)
      modifies this`centerCircleTouched, this`upTouched, this`downTouched, this`leftTouched, this`rightTouched,
        this`log
      ensures var r := PressZone(e, inCenterCircle);
        Touched() == r.flags && log == old(log) + r.events
    {
      centerCircleTouched := false;
      rightTouched := false;
      leftTouched := false;
      upTouched := false;
      downTouched := false;

      ghost var start := log;
      if e.action == ActionDown {
        log := log + [PerformClick];
      }
      var isTouched := IsTouched(e.action);
      ghost var clicked := log;
      assert clicked == start + if e.action == ActionDown then [PerformClick] else [];

      SelectZone(e, inCenterCircle);

      ghost var zone := Zone(inCenterCircle, e.degrees);
      ghost var selected := Touched();
      ghost var fed := log;

      var d := GetDirection(Touched());
      DirectionRoundTrip(Touched(), zone);
      if e.action == ActionDown && d != Some(Center) {
        log := log + [DirectionClick(d)];
      }
      log := log + [DirectionPress(d, e.action)];
      assert log == fed + (if e.action == ActionDown && zone != Some(Center) then [DirectionClick(zone)] else []) +
        [DirectionPress(zone, e.action)];

      centerCircleTouched := centerCircleTouched && isTouched;
      upTouched := upTouched && isTouched;
      downTouched := downTouched && isTouched;
      leftTouched := leftTouched && isTouched;
      rightTouched := rightTouched && isTouched;
      assert Touched() == if isTouched then selected else NoFlags;
      AppendFour(start, if e.action == ActionDown then [PerformClick] else [],
                 if inCenterCircle then [GestureDetectorFed(e.action)] else [],
                 if e.action == ActionDown && zone != Some(Center) then [DirectionClick(zone)] else [],
                 [DirectionPress(zone, e.action)]);
    }

    /**
     * From the cleared flags, set the flag of this event's zone: the centre
     * (after handing the event to the gesture detector) or the angle's wedge.
     */
    method SelectZone(e: MotionEvent, inCenterCircle: bool)
      requires Touched() == NoFlags
      modifies this`centerCircleTouched, this`upTouched, this`downTouched, this`leftTouched, this`rightTouched,
        this`log
      ensures Touched() == Only(Zone(inCenterCircle, e.degrees))
      ensures log == old(log) + if inCenterCircle then [GestureDetectorFed(e.action)] else []
    {
      if inCenterCircle {
        log := log + [GestureDetectorFed(e.action)];
        centerCircleTouched := true;
      } else {
        match Sector(e.degrees) {
          case Some(Right) => rightTouched := true;
          case Some(Down) => downTouched := true;
          case Some(Left) => leftTouched := true;
          case Some(Up) => upTouched := true;
          case None =>
        }
      }
    }

    /** The outside branch of `onTouchEvent`: release the held direction, if any. */
    method ReleaseOutside()
      modifies this`centerCircleTouched, this`upTouched, this`downTouched, this`leftTouched, this`rightTouched,
        this`log
      ensures var r := ReleaseHeld(old(Touched()));
        Touched() == r.flags && log == old(log) + r.events
    {
      var d := GetDirection(Touched());
      if d.Some? {
        log := log + [DirectionPress(d, ActionUp)];
        match d.value {
          case Center => centerCircleTouched := false;
          case Left => leftTouched := false;
          case Right => rightTouched := false;
          case Up => upTouched := false;
          case Down => downTouched := false;
        }
      }
    }

    /** The paints after a touch event follow the flags. */
    method UpdatePaints()
      modifies this`centerCircleColor, this`upColor, this`downColor, this`leftColor, this`rightColor
      ensures Colours() == PaintColors(config.palette, Touched())
    {
      var p := config.palette;
      centerCircleColor := Shade(centerCircleTouched, p.centerCircleNormalColor, p.centerCirclePressedColor);
      rightColor := Shade(rightTouched, p.normalColor, p.pressedColor);
      downColor := Shade(downTouched, p.normalColor, p.pressedColor);
      leftColor := Shade(leftTouched, p.normalColor, p.pressedColor);
      upColor := Shade(upTouched, p.normalColor, p.pressedColor);
    }

    /** The end of a touch event: haptic feedback on a DOWN that left a zone pressed, then the repaint request. */
    method RequestFeedback(action: int)
      modifies this`log
      ensures log == old(log) + Feedback(config.hapticFeedbackEnabled, action, Touched())
    {
      if config.hapticFeedbackEnabled && action == ActionDown {
        if centerCircleTouched || rightTouched || leftTouched || upTouched || downTouched {
          log := log + [HapticFeedback];
        }
      }
      log := log + [Invalidate];
    }

    /** `onSingleTapUp`, delivered by the gesture detector: the CENTER click. */
    method OnSingleTapUp() returns (consumed: bool)
      modifies this`log
      ensures consumed && log == old(log) + [DirectionClick(Some(Center))]
    {
      log := log + [DirectionClick(Some(Center))];
      consumed := true;
    }

    /** `onLongPress`, delivered by the gesture detector: the long-click listener, then the centre is released. */
    method OnLongPress()
      requires Valid()
      modifies this`centerCircleTouched, this`log
      ensures Valid()
      ensures Touched() == LongPress(old(Touched())).flags
      ensures log == old(log) + LongPress(old(Touched())).events
    {
      log := log + [CenterLongClick];
      centerCircleTouched := false;
    }
  }

  lemma AppendThree(s: seq<Event>, a: seq<Event>, b: seq<Event>)
    ensures s + (a + b) == s + a + b
  {
  }

  lemma AppendFour(s: seq<Event>, a: seq<Event>, b: seq<Event>, c: seq<Event>, d: seq<Event>)
    ensures s + (a + b + c + d) == s + a + b + c + d
  {
  }

  /**
   * The centre zone is reachable only when the centre circle is both enabled
   * and pressable: otherwise no touch event sets the centre flag or reports
   * CENTER to the press listener.
   */
  lemma CenterNeedsBothSwitches(f: Flags, c: Config, e: MotionEvent, circleCenter: real, radius: Extended)
    requires AtMostOne(f) && !f.center
    requires !c.centerCircleEnabled || !c.centerCirclePressEnabled
    ensures var s := Respond(f, c.hapticFeedbackEnabled, e, OuterHit(e, circleCenter),
                             CenterHit(c, e, circleCenter, radius));
      !s.flags.center && DirectionPress(Some(Center), e.action) !in s.events
  {
  }

  /**
   * Before the first draw the centre radius is 0, so the centre circle compared
   * has radius -10 and takes no touch.
   */
  lemma NoCenterBeforeFirstDraw(c: Config, e: MotionEvent, circleCenter: real)
    ensures !CenterHit(c, e, circleCenter, Finite(0.0))
  {
    IsInCircleIsDisc(e.x, e.y, TruncToInt(circleCenter), 0.0 - HalfPadding);
  }

  /** Before the first measure (size 0) the outer radius is -10 and every touch is outside. */
  lemma NothingInsideBeforeMeasure(e: MotionEvent)
    ensures !OuterHit(e, CircleCenter(0))
  {
    IsInCircleIsDisc(e.x, e.y, 0, CircleCenter(0) - HalfPadding);
  }

  /**
   * With ratio 0 on a measured pad the centre radius is +infinity, so every
   * touch inside the outer circle is taken by the centre button.
   */
  lemma ZeroRatioCenterTakesAll(c: Config, e: MotionEvent, size: nat)
    requires size > 0 && c.centerCircleRatio == 0.0
    requires c.centerCircleEnabled && c.centerCirclePressEnabled
    ensures CenterHit(c, e, CircleCenter(size), CenterCircleRadius(size, c.centerCircleRatio))
  {
  }
}
