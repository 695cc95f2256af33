/** The gesture interpreter: a three-state machine over drag samples that
    reports rub steps while the press is held and classifies the release as
    a flick or a plain release.

    The three callbacks of the original (onRub, onFlick, onRelease) are the
    results of the methods here: UpdateDrag returns the rub distance it
    reports, EndDrag returns which of the other two callbacks fires and with
    what arguments. The clock (performance.now) is a parameter, and Math.sqrt
    is the function `sqrt` the interpreter is built with. */
module Input {
  import opened Types

  datatype InputState = Idle | Rubbing | Flicking

  /** One drag sample: position and the clock reading it was taken at (ms). */
  datatype Sample = Sample(x: real, y: real, time: real)

  datatype DragInfo = DragInfo(
    startX: real, startY: real,
    currentX: real, currentY: real,
    startTime: real,
    history: seq<Sample>)

  /** Width of the sliding window kept for the flick estimate, in ms. */
  const WindowMs: real := 300.0

  const DefaultFlickThreshold: real := 300.0

  /** `sqrt` behaves as Math.sqrt on the non-negative reals. */
  ghost predicate IsSquareRoot(sqrt: real -> real) {
    forall v: real :: 0.0 <= v ==> 0.0 <= sqrt(v) && sqrt(v) * sqrt(v) == v
  }

  // ---------------------------------------------------------------------
  // The sliding window

  /** A sample is less than WindowMs old. */
  function Recent(s: Sample, now: real): (r: bool)
    ensures s.time == now ==> r
    ensures r ==> s.time > now - WindowMs
  {
    now - s.time < WindowMs
  }

  /** history.filter(h => now - h.time < 300) */
  function Window(h: seq<Sample>, now: real): (r: seq<Sample>)
    ensures |r| <= |h|
    ensures forall k :: 0 <= k < |r| ==> Recent(r[k], now)
  {
    if h == [] then []
    else (if Recent(h[0], now) then [h[0]] else []) + Window(h[1..], now)
  }

  /** The window holds exactly the recent samples of the history. */
  lemma {:induction false} WindowMembership(h: seq<Sample>, now: real, s: Sample)
    ensures s in Window(h, now) <==> s in h && Recent(s, now)
  {
    if h != [] {
      WindowMembership(h[1..], now, s);
      assert h == [h[0]] + h[1..];
    }
  }

  /** Filtering keeps the original order: it distributes over concatenation. */
  lemma {:induction false} WindowConcat(a: seq<Sample>, b: seq<Sample>, now: real)
    ensures Window(a + b, now) == Window(a, now) + Window(b, now)
  {
    if a == [] {
      assert a + b == b;
    } else {
      var ab, head := a + b, if Recent(a[0], now) then [a[0]] else [];
      assert ab[0] == a[0] && ab[1..] == a[1..] + b;
      WindowConcat(a[1..], b, now);
      calc {
        Window(ab, now);
        head + Window(a[1..] + b, now);
        head + (Window(a[1..], now) + Window(b, now));
        (head + Window(a[1..], now)) + Window(b, now);
      }
    }
  }

  /** A history whose samples are all recent is kept whole. */
  lemma {:induction false} WindowKeepsRecent(h: seq<Sample>, now: real)
    requires forall i :: 0 <= i < |h| ==> Recent(h[i], now)
    ensures Window(h, now) == h
  {
    if h != [] {
      WindowKeepsRecent(h[1..], now);
    }
  }

  /** Filtering at one instant and again at a later one is the same as
      filtering once at the later instant. */
  lemma {:induction false} WindowSlides(h: seq<Sample>, t1: real, t2: real)
    requires t1 <= t2
    ensures Window(Window(h, t1), t2) == Window(h, t2)
  {
    if h != [] {
      var head := if Recent(h[0], t1) then [h[0]] else [];
      WindowConcat(head, Window(h[1..], t1), t2);
      WindowSlides(h[1..], t1, t2);
      if Recent(h[0], t1) {
        assert Window(head, t2) == (if Recent(h[0], t2) then [h[0]] else []) + Window([], t2);
      }
    }
  }

  // ---------------------------------------------------------------------
  // IEEE-754 arithmetic on the few values the flick estimate can produce

  /** A JavaScript number as the velocity estimate can produce it. */
  datatype JsNumber = Finite(value: real) | Infinite(positive: bool) | NaN

  /** a / b, where a zero divisor is +0 (it is a difference of two equal clock readings). */
  function Divide(a: real, b: real): (r: JsNumber)
    ensures r.Finite? <==> b != 0.0
    ensures r.Finite? ==> r.value * b == a
    ensures r.NaN? <==> a == 0.0 && b == 0.0
    ensures r.Infinite? ==> (r.positive <==> a > 0.0)
  {
    if b != 0.0 then Finite(a / b)
    else if a > 0.0 then Infinite(true)
    else if a < 0.0 then Infinite(false)
    else NaN
  }

  /** n * n */
  function Square(n: JsNumber): (r: JsNumber)
    ensures r.Finite? ==> r.value >= 0.0
    ensures r.Infinite? ==> r.positive
  {
    match n
    case Finite(v) => Finite(v * v)
    case Infinite(_) => Infinite(true)
    case NaN => NaN
  }

  /** a + b */
  function Add(a: JsNumber, b: JsNumber): (r: JsNumber)
    ensures r.NaN? <== a.NaN? || b.NaN?
    ensures a.Finite? && b.Finite? ==> r == Finite(a.value + b.value)
    ensures r.Infinite? ==> a.Infinite? || b.Infinite?
  {
    match (a, b)
    case (Finite(u), Finite(v)) => Finite(u + v)
    case (Finite(_), Infinite(p)) => Infinite(p)
    case (Infinite(p), Finite(_)) => Infinite(p)
    case (Infinite(p), Infinite(q)) => if p == q then Infinite(p) else NaN
    case (_, _) => NaN
  }

  /** Math.sqrt(n) */
  function Root(n: JsNumber, sqrt: real -> real): (r: JsNumber)
    ensures n.Finite? && n.value >= 0.0 ==> r.Finite?
    ensures n.Infinite? && n.positive ==> r == Infinite(true)
    ensures n.Infinite? && !n.positive ==> r.NaN?
    ensures n.Finite? && n.value < 0.0 ==> r.NaN?
    ensures n.NaN? ==> r.NaN?
  {
    match n
    case Finite(v) => if v < 0.0 then NaN else Finite(sqrt(v))
    case Infinite(p) => if p then Infinite(true) else NaN
    case NaN => NaN
  }

  /** n > t; every comparison with NaN is false. */
  function Greater(n: JsNumber, t: real): (g: bool)
    ensures n.NaN? ==> !g
    ensures n.Infinite? ==> (g <==> n.positive)
  {
    match n
    case Finite(v) => v > t
    case Infinite(p) => p
    case NaN => false
  }

  // ---------------------------------------------------------------------
  // Classifying the release

  /** Which callback a release fires: none, onFlick with velocity and
      speed, or onRelease. */
  datatype Callback = Silent | Flicked(vx: JsNumber, vy: JsNumber, speed: JsNumber) | Released

  /** The flick test on the retained history: the velocity from the oldest
      to the newest sample, per axis in px/s, and its speed against the
      threshold. */
  function Classify(h: seq<Sample>, threshold: real, sqrt: real -> real): (r: Callback)
    ensures r != Silent
    ensures |h| <= 1 ==> r == Released
  {
    if |h| > 1 then
      var first, last := h[0], h[|h| - 1];
      var seconds := (last.time - first.time) / 1000.0;
      var vx := Divide(last.x - first.x, seconds);
      var vy := Divide(last.y - first.y, seconds);
      var speed := Root(Add(Square(vx), Square(vy)), sqrt);
      if Greater(speed, threshold) then Flicked(vx, vy, speed) else Released
    else
      Released
  }

  // Facts about squares. Each is kept to a single step so that the
  // solver's nonlinear arithmetic sees only the product it needs.

  lemma MulPos(a: real, b: real)
    requires a > 0.0 && b > 0.0
    ensures a * b > 0.0
  {}

  lemma MulNonNeg(a: real, b: real)
    requires a >= 0.0 && b >= 0.0
    ensures a * b >= 0.0
  {}

  lemma SquarePositive(a: real)
    requires a != 0.0
    ensures a * a > 0.0
  {
    if a < 0.0 {
      MulPos(-a, -a);
      assert (-a) * (-a) == a * a;
    } else {
      MulPos(a, a);
    }
  }

  /** A squared distance is never negative, and is zero exactly when there
      is no displacement on either axis. */
  lemma SquaredDistance(dx: real, dy: real)
    ensures dx * dx + dy * dy >= 0.0
    ensures dx * dx + dy * dy > 0.0 <==> dx != 0.0 || dy != 0.0
  {
    if dx != 0.0 { SquarePositive(dx); }
    if dy != 0.0 { SquarePositive(dy); }
  }

  /** For a non-negative root s of v and a non-negative threshold t,
      s > t exactly when v > t * t. */
  lemma RootAbove(s: real, v: real, t: real)
    requires 0.0 <= s && s * s == v && 0.0 <= t
    ensures s > t ==> v > t * t
    ensures v > t * t ==> s > t
  {
    if s > t {
      MulPos(s - t, s + t);
      assert (s - t) * (s + t) == s * s - t * t;
    } else {
      MulNonNeg(t - s, s + t);
      assert (t - s) * (s + t) == t * t - s * s;
    }
  }

  /** A non-negative root is positive exactly when its square is. */
  lemma RootPositive(d: real, v: real)
    requires 0.0 <= d && d * d == v
    ensures d > 0.0 <==> v > 0.0
  {
    RootAbove(d, v, 0.0);
  }

  /** The speed test on two finite velocity components: the speed is the
      length of the velocity, and it beats the threshold exactly when the
      squared length beats the squared threshold. */
  lemma FiniteSpeed(vx: JsNumber, vy: JsNumber, threshold: real, sqrt: real -> real)
    requires IsSquareRoot(sqrt) && 0.0 <= threshold && vx.Finite? && vy.Finite?
    ensures var v := vx.value * vx.value + vy.value * vy.value;
            var speed := Root(Add(Square(vx), Square(vy)), sqrt);
            && speed.Finite? && speed.value >= 0.0 && speed.value * speed.value == v
            && (Greater(speed, threshold) <==> v > threshold * threshold)
  {
    var v := vx.value * vx.value + vy.value * vy.value;
    SquaredDistance(vx.value, vy.value);
    assert Add(Square(vx), Square(vy)) == Finite(v);
    var s := sqrt(v);
    assert 0.0 <= s && s * s == v;
    RootAbove(s, v, threshold);
  }

  /** A release whose oldest and newest samples are at different instants:
      the velocity is finite on both axes, times the elapsed seconds it gives
      the displacement, and the release is a flick exactly when the squared
      speed beats the squared threshold; a flick reports that velocity and
      its length. */
  lemma ClassifyTimed(h: seq<Sample>, threshold: real, sqrt: real -> real)
    requires IsSquareRoot(sqrt) && 0.0 <= threshold
    requires |h| > 1 && h[|h| - 1].time != h[0].time
    ensures var q := (h[|h| - 1].time - h[0].time) / 1000.0;
            var dx, dy := h[|h| - 1].x - h[0].x, h[|h| - 1].y - h[0].y;
            var vx, vy := Divide(dx, q), Divide(dy, q);
            var r := Classify(h, threshold, sqrt);
            && vx.Finite? && vx.value * q == dx
            && vy.Finite? && vy.value * q == dy
            && (r.Flicked? <==> vx.value * vx.value + vy.value * vy.value > threshold * threshold)
            && (r.Flicked? ==> r.vx == vx && r.vy == vy
                               && r.speed.Finite? && r.speed.value > threshold
                               && r.speed.value * r.speed.value == vx.value * vx.value + vy.value * vy.value)
  {
    var q := (h[|h| - 1].time - h[0].time) / 1000.0;
    var dx, dy := h[|h| - 1].x - h[0].x, h[|h| - 1].y - h[0].y;
    FiniteSpeed(Divide(dx, q), Divide(dy, q), threshold, sqrt);
  }

  /** When the oldest and newest samples share a timestamp the division is by
      zero: a component with displacement becomes an infinity and one without
      becomes NaN, so the release is a flick exactly when both components
      moved (then the speed is +Infinity). */
  lemma ClassifySameInstant(h: seq<Sample>, threshold: real, sqrt: real -> real)
    requires |h| > 1 && h[|h| - 1].time == h[0].time
    ensures var dx, dy := h[|h| - 1].x - h[0].x, h[|h| - 1].y - h[0].y;
            var r := Classify(h, threshold, sqrt);
            && (r.Flicked? <==> dx != 0.0 && dy != 0.0)
            && (r.Flicked? ==> r.vx == Infinite(dx > 0.0) && r.vy == Infinite(dy > 0.0)
                               && r.speed == Infinite(true))
  {
  }

  // ---------------------------------------------------------------------
  // The interpreter

  class InputSystem {
    var state: InputState
    var dragInfo: Option<DragInfo>
    var flickThreshold: real
    var accumulatedRubDistance: real
    const sqrt: real -> real

    /** FLICKING never outlives the call that enters it, and drag info is
        present exactly while rubbing. */
    ghost predicate Valid() reads this {
      && IsSquareRoot(sqrt)
      && state != Flicking
      && (state == Rubbing <==> dragInfo.Some?)
    }

    constructor (sqrt: real -> real)
      requires IsSquareRoot(sqrt)
      ensures Valid() && this.sqrt == sqrt
      ensures state == Idle && dragInfo == None
      ensures flickThreshold == DefaultFlickThreshold && accumulatedRubDistance == 0.0
    {
      this.sqrt := sqrt;
      state := Idle;
      dragInfo := None;
      flickThreshold := DefaultFlickThreshold;
      accumulatedRubDistance := 0.0;
    }

    /** Press. The clock is read twice: once for the start time and
        once for the first sample. */
    method StartDrag(x: real, y: real, startTime: real, sampleTime: real)
      requires IsSquareRoot(sqrt)
      modifies this`state, this`dragInfo, this`accumulatedRubDistance
      ensures Valid()
      ensures state == Rubbing && accumulatedRubDistance == 0.0
      ensures dragInfo == Some(DragInfo(x, y, x, y, startTime, [Sample(x, y, sampleTime)]))
    {
      state := Rubbing;
      accumulatedRubDistance := 0.0;
      dragInfo := Some(DragInfo(x, y, x, y, startTime, [Sample(x, y, sampleTime)]));
    }

    /** Drag move. `stamp` is the clock reading stored with the new sample
        and `now` the later one the window is cut at. Returns the distance
        passed to onRub, if that callback fires. */
    method UpdateDrag(x: real, y: real, stamp: real, now: real) returns (rub: Option<real>)
      requires Valid()
      modifies this`dragInfo, this`accumulatedRubDistance
      ensures Valid() && state == old(state)
      ensures !(old(state) == Rubbing && old(dragInfo).Some?) ==>
                rub == None && dragInfo == old(dragInfo)
                && accumulatedRubDistance == old(accumulatedRubDistance)
      ensures old(state) == Rubbing && old(dragInfo).Some? ==>
                var d := old(dragInfo).value;
                var step := (x - d.currentX) * (x - d.currentX) + (y - d.currentY) * (y - d.currentY);
                && dragInfo == Some(d.(currentX := x, currentY := y,
                                       history := Window(d.history + [Sample(x, y, stamp)], now)))
                && (rub.Some? <==> step > 0.0)
                && (rub.Some? ==> rub.value > 0.0 && rub.value * rub.value == step)
                && accumulatedRubDistance
                   == old(accumulatedRubDistance) + (if rub.Some? then rub.value else 0.0)
    {
      rub := None;
      if state != Rubbing || dragInfo.None? {
        return;
      }
      var d := dragInfo.value;
      var lastX, lastY := d.currentX, d.currentY;
      var pushed := d.history + [Sample(x, y, stamp)];
      dragInfo := Some(d.(currentX := x, currentY := y, history := Window(pushed, now)));
      var dx, dy := x - lastX, y - lastY;
      var step := dx * dx + dy * dy;
      var dist := sqrt(step);
      RootPositive(dist, step);
      if dist > 0.0 {
        accumulatedRubDistance := accumulatedRubDistance + dist;
        rub := Some(dist);
      }
    }

    /** Release. The position arguments are not used. */
    method EndDrag(x: real, y: real) returns (cb: Callback)
      requires Valid()
      modifies this`state, this`dragInfo, this`accumulatedRubDistance
      ensures Valid()
      ensures state == Idle && dragInfo == None && accumulatedRubDistance == 0.0
      ensures cb == if old(state) == Rubbing && old(dragInfo).Some?
                    then Classify(old(dragInfo).value.history, flickThreshold, sqrt)
                    else Silent
    {
      if state != Rubbing || dragInfo.None? {
        Reset();
        return Silent;
      }
      var h := dragInfo.value.history;
      if |h| > 1 {
        var first, last := h[0], h[|h| - 1];
        var seconds := (last.time - first.time) / 1000.0;
        var vx := Divide(last.x - first.x, seconds);
        var vy := Divide(last.y - first.y, seconds);
        var speed := Root(Add(Square(vx), Square(vy)), sqrt);
        if Greater(speed, flickThreshold) {
          state := Flicking;
          cb := Flicked(vx, vy, speed);
          Reset();
          return;
        }
      }
      cb := Released;
      Reset();
    }

    method Reset()
      modifies this`state, this`dragInfo, this`accumulatedRubDistance
      ensures state == Idle && dragInfo == None && accumulatedRubDistance == 0.0
    {
      state := Idle;
      dragInfo := None;
      accumulatedRubDistance := 0.0;
    }
  }
}
