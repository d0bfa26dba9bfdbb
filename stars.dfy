/** The blinking background stars: each star's opacity moves by `blinkSpeed`
    per frame in the direction `blinking`, stops at 0 and 1 and turns back there.

    Opacity is a `real`; where the game starts a star with random values, the
    model takes the start opacity and direction as inputs. */
module Stars {

  /** Every field of a star. `blinking` is the direction of the fade: +1 brightens, -1 dims. */
  datatype StarState = StarState(
    x: real,
    y: real,
    size: real,
    blinkSpeed: real,
    opacity: real,
    blinking: int)

  predicate IsDirection(d: int) {
    d == 1 || d == -1
  }

  predicate InRange(o: real) {
    0.0 <= o <= 1.0
  }

  /** At a bound the star points back into the range. */
  predicate TurnedInward(s: StarState) {
    (s.opacity == 1.0 ==> s.blinking == -1) && (s.opacity == 0.0 ==> s.blinking == 1)
  }

  /** The opacity the star heads for before it is clamped. */
  function Target(s: StarState): real {
    s.opacity + s.blinking as real * s.blinkSpeed
  }

  /** The states a star reaches. */
  predicate InBounds(s: StarState) {
    InRange(s.opacity) && IsDirection(s.blinking)
  }

  /** One frame of blinking. */
  function Blinked(s: StarState): (r: StarState)
    ensures InRange(r.opacity) && TurnedInward(r)
    ensures IsDirection(s.blinking) ==> IsDirection(r.blinking)
    ensures r.(opacity := s.opacity, blinking := s.blinking) == s
    ensures Target(s) >= 1.0 ==> r.opacity == 1.0 && r.blinking == -1
    ensures Target(s) <= 0.0 ==> r.opacity == 0.0 && r.blinking == 1
    ensures 0.0 < Target(s) < 1.0 ==> r.opacity == Target(s) && r.blinking == s.blinking
  {
    var opacity := Target(s);
    if opacity >= 1.0 then
      s.(opacity := 1.0, blinking := -1)
    else if opacity <= 0.0 then
      s.(opacity := 0.0, blinking := 1)
    else
      s.(opacity := opacity)
  }

  /** The star after `n` frames. */
  function AfterBlinks(s: StarState, n: nat): (r: StarState)
    ensures InBounds(s) ==> InBounds(r)
    ensures n > 0 ==> InRange(r.opacity) && TurnedInward(r)
    ensures r.(opacity := s.opacity, blinking := s.blinking) == s
    decreases n
  {
    if n == 0 then s else Blinked(AfterBlinks(s, n - 1))
  }

  /** Running `a` frames and then `b` more is running `a + b` frames. */
  lemma {:induction false} BlinksCompose(s: StarState, a: nat, b: nat)
    ensures AfterBlinks(AfterBlinks(s, a), b) == AfterBlinks(s, a + b)
  {
    if b > 0 {
      BlinksCompose(s, a, b - 1);
    }
  }

  /** A moving star that points into its range changes opacity on every frame. */
  lemma Twinkles(s: StarState)
    requires InBounds(s) && TurnedInward(s) && s.blinkSpeed > 0.0
    ensures Blinked(s).opacity != s.opacity
  {
  }

  /** How far `k` frames at `speed` move the opacity, one frame at a time. */
  function Drift(speed: real, k: nat): (d: real)
    ensures speed >= 0.0 ==> d >= 0.0
    decreases k
  {
    if k == 0 then 0.0 else Drift(speed, k - 1) + speed
  }

  /** `k` frames at `speed` move the opacity by `k * speed`. */
  lemma {:induction false} DriftIsProduct(speed: real, k: nat)
    ensures Drift(speed, k) == k as real * speed
  {
    if k > 0 {
      DriftIsProduct(speed, k - 1);
      assert k as real * speed == (k - 1) as real * speed + speed;
    }
  }

  /** Brightening from `s.opacity`, the star gains exactly `blinkSpeed` per
      frame for as long as it stays below 1. */
  lemma {:induction false} Brightens(s: StarState, k: nat)
    requires InRange(s.opacity) && s.blinking == 1 && s.blinkSpeed >= 0.0
    requires s.opacity + Drift(s.blinkSpeed, k) < 1.0
    ensures AfterBlinks(s, k) == s.(opacity := s.opacity + Drift(s.blinkSpeed, k))
    ensures AfterBlinks(s, k).opacity == s.opacity + k as real * s.blinkSpeed
  {
    if k > 0 {
      Brightens(s, k - 1);
    }
    DriftIsProduct(s.blinkSpeed, k);
  }

  /** Dimming from `s.opacity`, the star loses exactly `blinkSpeed` per frame
      for as long as it stays above 0. */
  lemma {:induction false} Dims(s: StarState, k: nat)
    requires InRange(s.opacity) && s.blinking == -1 && s.blinkSpeed >= 0.0
    requires s.opacity - Drift(s.blinkSpeed, k) > 0.0
    ensures AfterBlinks(s, k) == s.(opacity := s.opacity - Drift(s.blinkSpeed, k))
    ensures AfterBlinks(s, k).opacity == s.opacity - k as real * s.blinkSpeed
  {
    if k > 0 {
      Dims(s, k - 1);
    }
    DriftIsProduct(s.blinkSpeed, k);
  }

  /** `Brightens` for a caller who knows the gain as a product: while
      `opacity + k * blinkSpeed` stays below 1, that is the opacity after `k` frames. */
  lemma BrightensLinearly(s: StarState, k: nat)
    requires InRange(s.opacity) && s.blinking == 1 && s.blinkSpeed >= 0.0
    requires s.opacity + k as real * s.blinkSpeed < 1.0
    ensures AfterBlinks(s, k) == s.(opacity := s.opacity + k as real * s.blinkSpeed)
  {
    DriftIsProduct(s.blinkSpeed, k);
    Brightens(s, k);
  }

  /** `Dims` for a caller who knows the loss as a product: while
      `opacity - k * blinkSpeed` stays above 0, that is the opacity after `k` frames. */
  lemma DimsLinearly(s: StarState, k: nat)
    requires InRange(s.opacity) && s.blinking == -1 && s.blinkSpeed >= 0.0
    requires s.opacity - k as real * s.blinkSpeed > 0.0
    ensures AfterBlinks(s, k) == s.(opacity := s.opacity - k as real * s.blinkSpeed)
  {
    DriftIsProduct(s.blinkSpeed, k);
    Dims(s, k);
  }

  /** With `speed * m == 1`, `m - 1` frames leave exactly one step to a bound. */
  lemma CycleDrift(speed: real, m: nat)
    requires m > 0 && speed * m as real == 1.0
    ensures speed > 0.0 && Drift(speed, m - 1) == 1.0 - speed
  {
    DriftIsProduct(speed, m - 1);
    assert (m - 1) as real * speed == speed * m as real - speed;
  }

  /** From opacity 0, a star whose last-but-one step ends one step short of 1
      is at full opacity, turned to dim, after `m` frames. */
  lemma {:induction false} RisesToTop(s: StarState, m: nat)
    requires s.opacity == 0.0 && s.blinking == 1
    requires m > 0 && s.blinkSpeed > 0.0 && Drift(s.blinkSpeed, m - 1) == 1.0 - s.blinkSpeed
    ensures AfterBlinks(s, m) == s.(opacity := 1.0, blinking := -1)
  {
    Brightens(s, m - 1);
  }

  /** The same from full opacity down to 0. */
  lemma {:induction false} FallsToBottom(s: StarState, m: nat)
    requires s.opacity == 1.0 && s.blinking == -1
    requires m > 0 && s.blinkSpeed > 0.0 && Drift(s.blinkSpeed, m - 1) == 1.0 - s.blinkSpeed
    ensures AfterBlinks(s, m) == s.(opacity := 0.0, blinking := 1)
  {
    Dims(s, m - 1);
  }

  /** A star at opacity 0 whose speed divides 1 into `m` steps brightens to 1
      in `m` frames, dims back to 0 in `m` more, and is where it started. */
  lemma BlinkCycle(s: StarState, m: nat)
    requires s.opacity == 0.0 && s.blinking == 1
    requires m > 0 && s.blinkSpeed * m as real == 1.0
    ensures AfterBlinks(s, m).opacity == 1.0 && AfterBlinks(s, m).blinking == -1
    ensures AfterBlinks(s, 2 * m) == s
  {
    CycleDrift(s.blinkSpeed, m);
    RisesToTop(s, m);
    var top := AfterBlinks(s, m);
    FallsToBottom(top, m);
    BlinksCompose(s, m, m);
  }

  /** A background star whose fields the game updates in place. */
  class Star {
    var x: real
    var y: real
    var size: real
    var blinkSpeed: real
    var opacity: real
    var blinking: int

    /** The star's fields as a value. */
    function State(): StarState
      reads this
    {
      StarState(x, y, size, blinkSpeed, opacity, blinking)
    }

    ghost predicate Valid()
      reads this
    {
      InBounds(State())
    }

    /** A star at (x, y) of radius `size`; `opacity` and `blinking` stand
        for the random start values, a number in [0, 1) and a random direction. */
    constructor (x: real, y: real, size: real, blinkSpeed: real, opacity: real, blinking: int)
      requires 0.0 <= opacity < 1.0 && IsDirection(blinking)
      ensures State() == StarState(x, y, size, blinkSpeed, opacity, blinking)
      ensures Valid()
    {
      this.x, this.y, this.size := x, y, size;
      this.blinkSpeed := blinkSpeed;
      this.opacity := opacity;
      this.blinking := blinking;
    }

    /** One frame of blinking (drawing the star is not modelled). */
    method Update()
      requires Valid()
      modifies this
      ensures Valid()
      ensures State() == Blinked(old(State()))
    {
      opacity := opacity + blinking as real * blinkSpeed;
      if opacity >= 1.0 {
        opacity := 1.0;
        blinking := -1;
      } else if opacity <= 0.0 {
        opacity := 0.0;
        blinking := 1;
      }
    }
  }
}
