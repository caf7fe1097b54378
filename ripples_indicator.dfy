/** The ripples activity indicator: a view that owns four ring views, starts
    and stops three keyframe animations on each, recolours their borders and
    lays them out. UIKit views and Core Animation layers are replaced by
    plain ring records; the bounds the host would read are parameters. */
module RipplesIndicator {
  import opened RippleKeyframes

  /** An opaque colour; gray is the only one the indicator names itself. */
  datatype Color = Gray | Other(id: nat)

  datatype Option<T> = None | Some(value: T)

  datatype Rect = Rect(x: real, y: real, width: real, height: real)

  /** One ring view with the layer properties the indicator sets: its frame,
      corner radius, border width and colour, and the animations added to its
      layer, keyed as the layer keys them. */
  datatype Ring = Ring(
    frame: Rect,
    cornerRadius: real,
    borderWidth: real,
    borderColor: Color,
    animations: map<string, KeyframeAnimation>)

  /** The number of rings; the source's loops are written `0...3`. */
  const RingCount: nat := 4

  function Min(a: real, b: real): (m: real)
    ensures m <= a && m <= b && (m == a || m == b)
  {
    if a <= b then a else b
  }

  /** A ring as the common initializer creates it for bounds of that size: a
      square of side min(width, height) at the origin, half-side corners, a
      border one fifth of the side wide, gray, and no animations. */
  function InitialRing(width: real, height: real): (r: Ring)
    ensures r.frame == Rect(0.0, 0.0, Min(width, height), Min(width, height))
    ensures r.cornerRadius * 2.0 == r.frame.width
    ensures r.borderWidth == r.frame.width * 0.2
    ensures r.borderColor == Gray && r.animations == map[]
  {
    var side := Min(width, height);
    Ring(Rect(0.0, 0.0, side, side), side / 2.0, side * 0.2, Gray, map[])
  }

  function DigitChar(d: nat): char
    requires d < 10
  {
    "0123456789"[d]
  }

  /** The decimal rendering of a natural number, as string interpolation gives. */
  function Decimal(n: nat): (s: string)
    ensures |s| >= 1
  {
    if n < 10 then [DigitChar(n)] else Decimal(n / 10) + [DigitChar(n % 10)]
  }

  /** A ripple animation as `startAnimating` configures it
      (GLSRipplesActivityIndicator.swift, lines 119-137):
      the given values and key times, paced, 3.0 long, repeating forever and
      autoreversing. */
  function RippleAnimation(keyPath: string, values: seq<real>, keyTimes: seq<real>): KeyframeAnimation
  {
    KeyframeAnimation(keyPath, values, keyTimes, Paced, RippleDuration, true, true)
  }

  function KeyX(ring: nat): string { "animationX" + Decimal(ring) }
  function KeyY(ring: nat): string { "animationY" + Decimal(ring) }
  function KeyAlpha(ring: nat): string { "animationAlpha" + Decimal(ring) }

  /** The three animations the start routine adds to ring `ring`. */
  function RingAnimations(ring: nat): map<string, KeyframeAnimation>
  {
    var values := ScaleValues(ring, RingCount);
    var times := EvenKeyTimes(RingCount);
    map[KeyX(ring) := RippleAnimation("transform.scale.x", values, times),
        KeyY(ring) := RippleAnimation("transform.scale.y", values, times),
        KeyAlpha(ring) := RippleAnimation("opacity", Complement(values), times)]
  }

  /** Ring `ring` carries exactly three animations under three distinct keys;
      all are paced, 3.0 long, repeat forever and autoreverse; X and Y scale
      share one sequence of five values in [0.2, 1.0]; the opacity values
      are their complements; all three use the key times 0, 0.25, ..., 1. */
  lemma RingAnimationsShape(ring: nat)
    ensures KeyX(ring) != KeyY(ring) && KeyX(ring) != KeyAlpha(ring) && KeyY(ring) != KeyAlpha(ring)
    ensures RingAnimations(ring).Keys == {KeyX(ring), KeyY(ring), KeyAlpha(ring)}
    ensures |RingAnimations(ring).Keys| == 3
    ensures forall key :: key in RingAnimations(ring) ==>
      var a := RingAnimations(ring)[key];
      a.calculationMode == Paced && a.duration == 3.0 && a.repeatsForever && a.autoreverses &&
      a.keyTimes == [0.0, 0.25, 0.5, 0.75, 1.0] && |a.values| == 5
    ensures RingAnimations(ring)[KeyX(ring)].keyPath == "transform.scale.x"
    ensures RingAnimations(ring)[KeyY(ring)].keyPath == "transform.scale.y"
    ensures RingAnimations(ring)[KeyAlpha(ring)].keyPath == "opacity"
    ensures RingAnimations(ring)[KeyX(ring)].values == RingAnimations(ring)[KeyY(ring)].values
    ensures forall k :: 0 <= k < 5 ==>
      var scale := RingAnimations(ring)[KeyX(ring)].values[k];
      var alpha := RingAnimations(ring)[KeyAlpha(ring)].values[k];
      scale == ScaleAt(ring, k) && 0.2 <= scale <= 1.0 && alpha == 1.0 - scale && 0.0 <= alpha <= 0.8
  {
    assert KeyX(ring)[9] == 'X' && KeyY(ring)[9] == 'Y' && KeyAlpha(ring)[9] == 'A';
    FourRingKeyTimes();
    assert {KeyX(ring), KeyY(ring), KeyAlpha(ring)} - {KeyX(ring)} == {KeyY(ring), KeyAlpha(ring)};
  }

  /** The visible parts of a ring, everything but its animations. */
  function Look(r: Ring): Ring
  {
    r.(animations := map[])
  }

  class RipplesActivityIndicator {
    var animating: bool
    /** The stored colour, `_color` in the source; nil is representable. */
    var storedColor: Option<Color>
    /** If true, the indicator becomes hidden when stopped. */
    var hidesWhenStopped: bool
    /** The layer's hidden flag. */
    var hidden: bool
    var circles: seq<Ring>

    /** What the indicator's own operations keep true: four rings that look
        alike, bordered in the stored colour whenever one is stored, which
        carry their ring animations exactly while the indicator animates.
        The hidden flag is public, so it is left unconstrained. */
    ghost predicate Valid()
      reads this
    {
      |circles| == RingCount &&
      (forall i :: 0 <= i < |circles| ==> Look(circles[i]) == Look(circles[0])) &&
      (storedColor.Some? ==> forall i :: 0 <= i < |circles| ==> circles[i].borderColor == storedColor.value) &&
      (forall i :: 0 <= i < |circles| ==>
         circles[i].animations == if animating then RingAnimations(i) else map[])
    }

    /** `init(frame:)` (and `init(coder:)` over the decoded bounds): stored
        defaults, then the common initializer. */
    constructor (width: real, height: real)
      ensures Valid()
      ensures !animating && !hidden && !hidesWhenStopped && storedColor == Some(Gray)
      ensures circles == seq(RingCount, _ => InitialRing(width, height))
    {
      animating := false;
      storedColor := Some(Gray);
      hidesWhenStopped := false;
      hidden := false;
      circles := [];
      new;
      CommonInit(width, height);
    }

    /** The common initializer: appends four rings built for the given
        bounds; nothing else changes. */
    method CommonInit(width: real, height: real)
      modifies this
      ensures circles == old(circles) + seq(RingCount, _ => InitialRing(width, height))
      ensures animating == old(animating) && storedColor == old(storedColor)
      ensures hidesWhenStopped == old(hidesWhenStopped) && hidden == old(hidden)
    {
      var circleWidth := Min(width, height);
      var circleHeight := circleWidth;
      var cornerRadius := circleWidth / 2.0;
      var borderWidth := circleWidth * 0.2;
      var n := 0;
      while n <= 3
        invariant 0 <= n <= 4
        invariant circles == old(circles) + seq(n, _ => InitialRing(width, height))
        invariant animating == old(animating) && storedColor == old(storedColor)
        invariant hidesWhenStopped == old(hidesWhenStopped) && hidden == old(hidden)
      {
        var currView := Ring(Rect(0.0, 0.0, circleWidth, circleHeight), cornerRadius, borderWidth, Gray, map[]);
        circles := circles + [currView];
        n := n + 1;
      }
    }

    /** The `color` getter: it force-unwraps the stored colour, so it may
        only be called while a colour is stored. */
    method GetColor() returns (c: Option<Color>)
      requires storedColor.Some?
      ensures c.Some? && c == storedColor
    {
      c := Some(storedColor.value);
    }

    /** The `color` setter: always stores the new value; a colour (not nil)
        becomes the border colour of all four rings. */
    method SetColor(newValue: Option<Color>)
      requires Valid()
      modifies this
      ensures Valid()
      ensures storedColor == newValue
      ensures animating == old(animating) && hidden == old(hidden) && hidesWhenStopped == old(hidesWhenStopped)
      ensures |circles| == |old(circles)|
      ensures forall i :: 0 <= i < |circles| ==>
        circles[i] == if newValue.Some? then old(circles[i]).(borderColor := newValue.value) else old(circles[i])
    {
      storedColor := newValue;
      if storedColor.Some? {
        var unwrappedColor := storedColor.value;
        var index := 0;
        while index <= 3
          invariant 0 <= index <= 4 && |circles| == RingCount
          invariant storedColor == newValue
          invariant animating == old(animating) && hidden == old(hidden) && hidesWhenStopped == old(hidesWhenStopped)
          invariant forall i :: 0 <= i < index ==> circles[i] == old(circles[i]).(borderColor := unwrappedColor)
          invariant forall i :: index <= i < RingCount ==> circles[i] == old(circles[i])
        {
          circles := circles[index := circles[index].(borderColor := unwrappedColor)];
          index := index + 1;
        }
      }
    }

    method IsAnimating() returns (r: bool)
      ensures r == animating
    {
      r := animating;
    }

    /** Starts the ripples: a no-op while animating; otherwise unhides the
        indicator, marks it animating and adds to each ring its three
        ripple animations. Colours, geometry and the other flags stay. */
    method StartAnimating()
      requires Valid()
      modifies this
      ensures Valid()
      ensures old(animating) ==> unchanged(this)
      ensures animating && storedColor == old(storedColor) && hidesWhenStopped == old(hidesWhenStopped)
      ensures !old(animating) ==> !hidden
      ensures |circles| == |old(circles)|
      ensures !old(animating) ==> forall i :: 0 <= i < |circles| ==>
        circles[i] == old(circles[i]).(animations := old(circles[i].animations) + RingAnimations(i))
      ensures forall i :: 0 <= i < |circles| ==> Look(circles[i]) == Look(old(circles[i]))
    {
      var running := IsAnimating();
      if running {
        return;
      }
      hidden := false;
      animating := true;

      var animationMin := 0.2;
      var animationDiffs := (1.0 - animationMin) / (|circles| as real);
      var animationKeyframeDiffs := 1.0 / (|circles| as real);
      var index := 0;
      while index <= 3
        invariant 0 <= index <= 4 && |circles| == RingCount
        invariant animating && !hidden
        invariant storedColor == old(storedColor) && hidesWhenStopped == old(hidesWhenStopped)
        invariant animationMin == 0.2 * ((index + 1) as real)
        invariant forall i :: 0 <= i < index ==>
          circles[i] == old(circles[i]).(animations := old(circles[i].animations) + RingAnimations(i))
        invariant forall i :: index <= i < RingCount ==> circles[i] == old(circles[i])
      {
        var currentCircle := circles[index];
        var animationX := NewKeyframeAnimation("transform.scale.x");
        var animationY := NewKeyframeAnimation("transform.scale.y");
        var animationAlpha := NewKeyframeAnimation("opacity");
        var values := ScaleKeyframes(animationMin, animationDiffs, |circles|, index);
        animationMin := animationMin + animationDiffs;
        animationX := animationX.(values := values);
        animationY := animationY.(values := values);
        animationAlpha := animationAlpha.(values := Complement(values));
        var keyFrames := KeyTimes(animationKeyframeDiffs, |circles|);

        animationX := animationX.(keyTimes := keyFrames, calculationMode := Paced, repeatsForever := true,
                                  duration := 3.0, autoreverses := true);
        currentCircle := currentCircle.(animations := currentCircle.animations[KeyX(index) := animationX]);

        animationY := animationY.(keyTimes := keyFrames, calculationMode := Paced, repeatsForever := true,
                                  duration := 3.0, autoreverses := true);
        currentCircle := currentCircle.(animations := currentCircle.animations[KeyY(index) := animationY]);

        animationAlpha := animationAlpha.(keyTimes := keyFrames, calculationMode := Paced, repeatsForever := true,
                                          duration := 3.0, autoreverses := true);
        currentCircle := currentCircle.(animations := currentCircle.animations[KeyAlpha(index) := animationAlpha]);

        circles := circles[index := currentCircle];
        index := index + 1;
      }
    }

    /** Stops the ripples: a no-op unless animating; otherwise clears the
        animating flag, hides the indicator exactly when `hidesWhenStopped`
        is set and removes every animation from every ring. */
    method StopAnimating()
      requires Valid()
      modifies this
      ensures Valid()
      ensures !old(animating) ==> unchanged(this)
      ensures !animating && storedColor == old(storedColor) && hidesWhenStopped == old(hidesWhenStopped)
      ensures old(animating) ==> hidden == hidesWhenStopped
      ensures |circles| == |old(circles)|
      ensures old(animating) ==> forall i :: 0 <= i < |circles| ==>
        circles[i] == old(circles[i]).(animations := map[])
    {
      var running := IsAnimating();
      if !running {
        return;
      }
      animating := false;
      hidden := hidesWhenStopped;
      var index := 0;
      while index <= 3
        invariant 0 <= index <= 4 && |circles| == RingCount
        invariant !animating && hidden == hidesWhenStopped
        invariant storedColor == old(storedColor) && hidesWhenStopped == old(hidesWhenStopped)
        invariant forall i :: 0 <= i < index ==> circles[i] == old(circles[i]).(animations := map[])
        invariant forall i :: index <= i < RingCount ==> circles[i] == old(circles[i])
      {
        circles := circles[index := circles[index].(animations := map[])];
        index := index + 1;
      }
    }

    /** Lays the rings out for bounds of the given size: each becomes a
        square of side min(width, height) at the origin with half-side
        corners. Border width and colour, animations and flags stay. */
    method LayoutSubviews(width: real, height: real)
      requires Valid()
      modifies this
      ensures Valid()
      ensures animating == old(animating) && hidden == old(hidden)
      ensures storedColor == old(storedColor) && hidesWhenStopped == old(hidesWhenStopped)
      ensures |circles| == |old(circles)|
      ensures forall i :: 0 <= i < |circles| ==>
        circles[i] == old(circles[i]).(frame := Rect(0.0, 0.0, Min(width, height), Min(width, height)),
                                       cornerRadius := Min(width, height) / 2.0)
    {
      var circleWidth := Min(width, height);
      var circleHeight := circleWidth;
      var cornerRadius := circleWidth / 2.0;
      var index := 0;
      while index <= 3
        invariant 0 <= index <= 4 && |circles| == RingCount
        invariant animating == old(animating) && hidden == old(hidden)
        invariant storedColor == old(storedColor) && hidesWhenStopped == old(hidesWhenStopped)
        invariant forall i :: 0 <= i < index ==>
          circles[i] == old(circles[i]).(frame := Rect(0.0, 0.0, circleWidth, circleHeight), cornerRadius := cornerRadius)
        invariant forall i :: index <= i < RingCount ==> circles[i] == old(circles[i])
      {
        circles := circles[index := circles[index].(frame := Rect(0.0, 0.0, circleWidth, circleHeight),
                                                    cornerRadius := cornerRadius)];
        index := index + 1;
      }
    }
  }

  /** The usage the indicator is designed for, from construction to stop,
      checked against the contracts above alone. */
  method ExampleScenario()
  {
    var indicator := new RipplesActivityIndicator(100.0, 100.0);
    assert indicator.circles[2] == InitialRing(100.0, 100.0);
    assert indicator.circles[2].cornerRadius == 50.0 && indicator.circles[2].borderWidth == 20.0;

    indicator.SetColor(Some(Other(7)));
    assert indicator.circles[3].borderColor == Other(7);

    indicator.hidesWhenStopped := true;
    indicator.StartAnimating();
    var a := indicator.IsAnimating();
    assert a && !indicator.hidden;
    assert indicator.circles[1].animations == RingAnimations(1);
    indicator.StartAnimating();
    assert indicator.circles[1].animations == RingAnimations(1);

    indicator.LayoutSubviews(200.0, 50.0);
    assert indicator.circles[0].frame.width == 50.0 && indicator.circles[0].cornerRadius == 25.0;
    assert indicator.circles[0].borderWidth == 20.0;
    a := indicator.IsAnimating();
    assert a;

    indicator.StopAnimating();
    a := indicator.IsAnimating();
    assert !a && indicator.hidden;
    assert indicator.circles[1].animations == map[];
    assert indicator.circles[1].borderColor == Other(7);

    indicator.SetColor(None);
    assert indicator.circles[1].borderColor == Other(7);
  }

  /** Other code may hide the view through its public flag while it animates;
      recolouring, relayout and stopping still work from that state. */
  method HiddenWhileAnimatingScenario()
  {
    var indicator := new RipplesActivityIndicator(100.0, 100.0);
    indicator.StartAnimating();
    indicator.hidden := true;
    indicator.SetColor(Some(Gray));
    indicator.LayoutSubviews(30.0, 40.0);
    indicator.hidesWhenStopped := false;
    indicator.StopAnimating();
    assert !indicator.hidden && indicator.circles[2].animations == map[];
    assert indicator.circles[2].borderColor == Gray && indicator.circles[2].cornerRadius == 15.0;
  }
}
