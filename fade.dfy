/** The fade lifecycle of one annotation (star3map.cpp, DynamicRenderable):
    RampUp -> Hold -> RampDown -> Terminate, driven by the current time. */
module Fade {
  import opened Numbers

  /** Seconds an annotation takes to fade in. */
  const RampUpTime: real := 0.5
  /** Seconds an annotation takes to fade out. */
  const RampDownTime: real := 1.0

  /** Lifecycle states. `Invalid` is never produced by the model; the C++
      `DynamicRenderable::age()` in star3map.cpp reports "Something has gone wrong" for it and changes nothing. */
  datatype DState = Invalid | RampUp | Hold | RampDown | Terminate

  /** Position of a state along RampUp -> Hold -> RampDown -> Terminate. */
  function Rank(s: DState): nat
  {
    match s
    case Invalid => 0
    case RampUp => 1
    case Hold => 2
    case RampDown => 3
    case Terminate => 4
  }

  /** The fields of a DynamicRenderable, as a value. */
  datatype Fader = Fader(
    direction: Vec3,
    lookDir: Vec3,
    limit: real,
    color: Vec4,
    currAlpha: real,
    duration: real,
    state: DState,
    timeStamp: real,
    lastSeen: real)

  /** What a freshly constructed annotation holds at time `now`; `lastSeen`
      starts at the creation time (see FaderAsWritten for the
      `DynamicRenderable` constructor of star3map.cpp, which leaves it unset). */
  function NewFader(direction: Vec3, lookDir: Vec3, limit: real, color: Vec4, duration: real, now: real): (f: Fader)
    ensures f.state == RampUp && f.currAlpha == 0.0
    ensures f.timeStamp == now && f.lastSeen == now
    ensures f.direction == direction && f.lookDir == lookDir && f.limit == limit
    ensures f.color == color && f.duration == duration
  {
    Fader(direction, lookDir, limit, color, 0.0, duration, RampUp, now, now)
  }

  /** The `DynamicRenderable` constructor of star3map.cpp: `lastSeen` is never assigned, so it holds an
      indeterminate value, passed here as `indeterminate`. */
  function FaderAsWritten(direction: Vec3, lookDir: Vec3, limit: real, color: Vec4, duration: real,
                          now: real, indeterminate: real): (f: Fader)
    ensures f.state == RampUp && f.currAlpha == 0.0 && f.timeStamp == now
    ensures f.lastSeen == indeterminate
  {
    Fader(direction, lookDir, limit, color, 0.0, duration, RampUp, now, indeterminate)
  }

  /** One call of `age()` at time `now`. */
  function Aged(f: Fader, now: real): Fader
  {
    var delta := now - f.timeStamp;
    match f.state
    case RampUp =>
      if delta > RampUpTime then
        f.(timeStamp := f.timeStamp + RampUpTime, state := Hold,
           currAlpha := (RampUpTime / RampUpTime) * f.color.w)
      else
        f.(currAlpha := (delta / RampUpTime) * f.color.w)
    case Hold =>
      if delta > f.duration then
        f.(timeStamp := f.timeStamp + f.duration, state := RampDown)
      else
        f
    case RampDown =>
      // star3map.cpp's `age()` advances the time stamp by RampUpTime here, not RampDownTime
      if delta > RampDownTime then
        f.(timeStamp := f.timeStamp + RampUpTime, state := Terminate,
           currAlpha := (1.0 - RampDownTime / RampDownTime) * f.color.w)
      else
        f.(currAlpha := (1.0 - delta / RampDownTime) * f.color.w)
    case Terminate => f
    case Invalid => f
  }

  /** One call of `seen()` at time `now`. */
  function MarkedSeen(f: Fader, now: real): Fader
  {
    f.(lastSeen := now)
  }

  /** `seen()` changes `lastSeen` and nothing else. */
  lemma SeenOnlyTouchesLastSeen(f: Fader, now: real)
    ensures MarkedSeen(f, now).lastSeen == now
    ensures MarkedSeen(f, now).(lastSeen := f.lastSeen) == f
  {
  }

  /** Aging never touches what the annotation shows or when it was last seen. */
  lemma AgeKeepsIdentity(f: Fader, now: real)
    ensures var g := Aged(f, now);
      g.direction == f.direction && g.lookDir == f.lookDir && g.limit == f.limit &&
      g.color == f.color && g.duration == f.duration && g.lastSeen == f.lastSeen
  {
  }

  /** One `age()` moves at most one step forward along the lifecycle, and
      `Invalid` stays put. */
  lemma AgeStepsForward(f: Fader, now: real)
    ensures Rank(f.state) <= Rank(Aged(f, now).state) <= Rank(f.state) + 1
    ensures f.state == Invalid ==> Aged(f, now).state == Invalid
    ensures f.state == RampUp ==> Aged(f, now).state in {RampUp, Hold}
    ensures f.state == Hold ==> Aged(f, now).state in {Hold, RampDown}
    ensures f.state == RampDown ==> Aged(f, now).state in {RampDown, Terminate}
  {
  }

  /** Terminate is absorbing: aging a terminated annotation changes no field. */
  lemma TerminateAbsorbs(f: Fader, now: real)
    requires f.state == Terminate
    ensures Aged(f, now) == f
  {
  }

  /** RampUp step: alpha follows the elapsed fraction of the ramp; once the ramp
      is over the state becomes Hold, the time stamp moves by exactly
      RampUpTime and alpha is the full base alpha. */
  lemma RampUpStep(f: Fader, now: real)
    requires f.state == RampUp
    ensures var g := Aged(f, now);
      if now - f.timeStamp <= RampUpTime then
        g.state == RampUp && g.timeStamp == f.timeStamp &&
        g.currAlpha == (now - f.timeStamp) / RampUpTime * f.color.w
      else
        g.state == Hold && g.timeStamp == f.timeStamp + RampUpTime && g.currAlpha == f.color.w
  {
  }

  /** Hold step: alpha is unchanged; once `duration` has elapsed the state
      becomes RampDown and the time stamp moves by `duration`. */
  lemma HoldStep(f: Fader, now: real)
    requires f.state == Hold
    ensures var g := Aged(f, now);
      g.currAlpha == f.currAlpha &&
      if now - f.timeStamp > f.duration then
        g.state == RampDown && g.timeStamp == f.timeStamp + f.duration
      else
        g == f
  {
  }

  /** RampDown step: alpha falls with the elapsed fraction of the ramp; once the
      ramp is over the state becomes Terminate with alpha 0, and the time stamp
      moves by RampUpTime (not RampDownTime). */
  lemma RampDownStep(f: Fader, now: real)
    requires f.state == RampDown
    ensures var g := Aged(f, now);
      if now - f.timeStamp <= RampDownTime then
        g.state == RampDown && g.timeStamp == f.timeStamp &&
        g.currAlpha == (1.0 - (now - f.timeStamp) / RampDownTime) * f.color.w
      else
        g.state == Terminate && g.timeStamp == f.timeStamp + RampUpTime && g.currAlpha == 0.0
  {
  }

  /** Alpha lies between 0 and the base alpha. */
  ghost predicate AlphaInRange(f: Fader)
  {
    0.0 <= f.currAlpha <= f.color.w
  }

  /** With the time stamp not in the future and a non-negative base alpha,
      aging keeps alpha within [0, color.w] and leaves the time stamp not in
      the future. */
  lemma AgeKeepsAlphaInRange(f: Fader, now: real)
    requires f.timeStamp <= now && 0.0 <= f.color.w
    requires f.state == Hold ==> AlphaInRange(f)
    ensures f.state != Invalid && f.state != Terminate ==> AlphaInRange(Aged(f, now))
    ensures AlphaInRange(f) ==> AlphaInRange(Aged(f, now))
    ensures Aged(f, now).timeStamp <= now
  {
    match f.state
    case RampUp =>
      RampUpAlphaBounds(f, now);
    case RampDown =>
      RampDownAlphaBounds(f, now);
    case Hold =>
    case Terminate =>
    case Invalid =>
  }

  /** During RampUp, one `age()` at a time not before the time stamp leaves
      alpha within [0, color.w]. */
  lemma RampUpAlphaBounds(f: Fader, now: real)
    requires f.state == RampUp && f.timeStamp <= now && 0.0 <= f.color.w
    ensures 0.0 <= Aged(f, now).currAlpha <= f.color.w
  {
    var delta := now - f.timeStamp;
    if delta <= RampUpTime {
      var k := delta / RampUpTime;
      assert 0.0 <= k <= 1.0;
      MulUnitBounded(k, f.color.w);
      assert Aged(f, now).currAlpha == k * f.color.w;
    } else {
      assert Aged(f, now).currAlpha == 1.0 * f.color.w;
    }
  }

  /** During RampDown, likewise. */
  lemma RampDownAlphaBounds(f: Fader, now: real)
    requires f.state == RampDown && f.timeStamp <= now && 0.0 <= f.color.w
    ensures 0.0 <= Aged(f, now).currAlpha <= f.color.w
  {
    var delta := now - f.timeStamp;
    if delta <= RampDownTime {
      var k := 1.0 - delta / RampDownTime;
      assert 0.0 <= k <= 1.0;
      MulUnitBounded(k, f.color.w);
      assert Aged(f, now).currAlpha == k * f.color.w;
    } else {
      assert Aged(f, now).currAlpha == 0.0 * f.color.w;
    }
  }

  lemma MulUnitBounded(k: real, w: real)
    requires 0.0 <= k <= 1.0 && 0.0 <= w
    ensures 0.0 <= k * w <= w
  {
  }

  lemma MulMonotone(k1: real, k2: real, w: real)
    requires k1 <= k2 && 0.0 <= w
    ensures k1 * w <= k2 * w
  {
  }

  /** During RampUp, alpha does not decrease as the time of the `age()` call
      advances. */
  lemma RampUpAlphaRises(f: Fader, t1: real, t2: real)
    requires f.state == RampUp && f.timeStamp <= t1 <= t2 && 0.0 <= f.color.w
    ensures Aged(f, t1).currAlpha <= Aged(f, t2).currAlpha
  {
    var d1, d2 := t1 - f.timeStamp, t2 - f.timeStamp;
    if d2 <= RampUpTime {
      var k1, k2 := d1 / RampUpTime, d2 / RampUpTime;
      assert k1 <= k2;
      calc {
        Aged(f, t1).currAlpha;
        k1 * f.color.w;
      <= { MulMonotone(k1, k2, f.color.w); }
        k2 * f.color.w;
        Aged(f, t2).currAlpha;
      }
    } else {
      RampUpAlphaBounds(f, t1);
      assert Aged(f, t2).currAlpha == 1.0 * f.color.w;
    }
  }

  /** During RampDown, alpha does not increase as the time of the `age()` call
      advances. */
  lemma RampDownAlphaFalls(f: Fader, t1: real, t2: real)
    requires f.state == RampDown && f.timeStamp <= t1 <= t2 && 0.0 <= f.color.w
    ensures Aged(f, t2).currAlpha <= Aged(f, t1).currAlpha
  {
    var d1, d2 := t1 - f.timeStamp, t2 - f.timeStamp;
    if d2 <= RampDownTime {
      var k1, k2 := 1.0 - d1 / RampDownTime, 1.0 - d2 / RampDownTime;
      assert k2 <= k1;
      calc {
        Aged(f, t2).currAlpha;
        k2 * f.color.w;
      <= { MulMonotone(k2, k1, f.color.w); }
        k1 * f.color.w;
        Aged(f, t1).currAlpha;
      }
    } else {
      RampDownAlphaBounds(f, t1);
      assert Aged(f, t2).currAlpha == 0.0 * f.color.w;
    }
  }

  /** The time stamp of an annotation created at `created` that has aged
      normally: it marks the start of the current phase. */
  ghost predicate OnTimeline(f: Fader, created: real)
  {
    && 0.0 <= f.duration
    && (f.state == RampUp ==> f.timeStamp == created)
    && (f.state == Hold ==> f.timeStamp == created + RampUpTime)
    && (f.state == RampDown ==> f.timeStamp == created + RampUpTime + f.duration)
    && f.state != Invalid
  }

  lemma NewFaderOnTimeline(direction: Vec3, lookDir: Vec3, limit: real, color: Vec4, duration: real, now: real)
    requires 0.0 <= duration
    ensures OnTimeline(NewFader(direction, lookDir, limit, color, duration, now), now)
  {
  }

  /** Aging keeps an annotation on its timeline, and it reaches Terminate only
      after ramp-up, hold and ramp-down have all elapsed since its creation. */
  lemma AgeAlongTimeline(f: Fader, created: real, now: real)
    requires OnTimeline(f, created)
    ensures OnTimeline(Aged(f, now), created)
    ensures f.state != Terminate && Aged(f, now).state == Terminate ==>
      now > created + RampUpTime + f.duration + RampDownTime
  {
  }

  /** A DynamicRenderable whose `age()` and `seen()` update its fields in
      place; View() gives its fields as a Fader value. */
  class DynamicRenderable {
    var direction: Vec3
    var lookDir: Vec3
    var limit: real
    var color: Vec4
    var currAlpha: real
    var duration: real
    var state: DState
    var timeStamp: real
    var lastSeen: real

    function View(): Fader
      reads this
    {
      Fader(direction, lookDir, limit, color, currAlpha, duration, state, timeStamp, lastSeen)
    }

    /** Creation at time `now`, entering RampUp with alpha 0 (with the
        correction that `lastSeen` starts at `now`). */
    constructor (lDir: Vec3, lLookDir: Vec3, lLimit: real, lColor: Vec4, lDuration: real, now: real)
      ensures View() == NewFader(lDir, lLookDir, lLimit, lColor, lDuration, now)
    {
      direction, lookDir, limit, color, duration := lDir, lLookDir, lLimit, lColor, lDuration;
      state := RampUp;
      timeStamp := now;
      currAlpha := 0.0;
      lastSeen := now;
    }

    /** `age()`: advance the lifecycle to time `now`. */
    method Age(now: real)
      modifies this
      ensures View() == Aged(old(View()), now)
    {
      var delta := now - timeStamp;
      match state {
        case RampUp =>
          if delta > RampUpTime {
            timeStamp := timeStamp + RampUpTime;
            state := Hold;
            delta := RampUpTime;
          }
          currAlpha := (delta / RampUpTime) * color.w;
        case Hold =>
          if delta > duration {
            timeStamp := timeStamp + duration;
            state := RampDown;
          }
        case RampDown =>
          if delta > RampDownTime {
            timeStamp := timeStamp + RampUpTime;
            state := Terminate;
            delta := RampDownTime;
          }
          currAlpha := (1.0 - delta / RampDownTime) * color.w;
        case Terminate =>
        case Invalid =>
      }
    }

    /** `seen()`: record that the annotation was a candidate at time `now`. */
    method Seen(now: real)
      modifies this`lastSeen
      ensures View() == MarkedSeen(old(View()), now)
    {
      lastSeen := now;
    }
  }
}
