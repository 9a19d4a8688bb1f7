/** The behaviours the presets bind to their elements, and what repeated
    frames do to an element: trailing elements never expire, spawned
    elements expire after exactly 42 frames, and an expired element never
    becomes valid again. */
module Behaviours {
  import opened Vectors
  import opened Elements
  import opened Effects

  /** The spawn preset's growth factor, 1.1 as an exact rational. */
  const SpawnGrowth: real := 1.1

  /** One frame of the element's bound behaviour, given the display's cursor
      at the time of the update. */
  function Step(s: ElementState, cursor: Point): ElementState
  {
    match s.behaviour
    case Trail => TrailStep(s, cursor)
    case FloatScale => ScaleStep(FloatStep(s), SpawnGrowth)
  }

  /** The bound closure called by `updateElements`: follow and spring run
      `trail(element, display.cursor)`; spawn runs `float(element)` then
      `scale(element, 1.1)`. */
  method Run(element: Element, cursor: Point)
    modifies element
    ensures element.State() == Step(old(element.State()), cursor)
  {
    match element.behaviour
    case Trail =>
      Effects.Trail(element, cursor);
    case FloatScale =>
      Effects.Float(element);
      Effects.Scale(element, SpawnGrowth);
  }

  /** The element after one frame per cursor position, in order. */
  function Frames(s: ElementState, cursors: seq<Point>): ElementState
    decreases |cursors|
  {
    if cursors == [] then s else Frames(Step(s, cursors[0]), cursors[1..])
  }

  function Pow(b: real, n: nat): real
  {
    if n == 0 then 1.0 else b * Pow(b, n - 1)
  }

  /** The fields that no shipped behaviour touches keep the values
      `createElement` gave them, and the scale never drops below 1. */
  predicate Preset(s: ElementState)
  {
    && s.scaleMax == InitialScaleMax
    && s.count == InitialCount
    && s.countMin == InitialCountMin
    && s.scale >= 1.0
  }

  /** A step changes only the fields its effects name: trail moves and
      accelerates, float-and-scale rises one unit and grows the scale by 1.1. */
  lemma StepFields(s: ElementState, cursor: Point)
    ensures var r := Step(s, cursor);
      && r.image == s.image && r.behaviour == s.behaviour
      && r.scaleMax == s.scaleMax && r.count == s.count && r.countMin == s.countMin
      && (s.behaviour == Trail ==>
            && r.velocity.x == 0.9 * (s.velocity.x + 0.1 * (cursor.x - s.x))
            && r.velocity.y == 0.9 * (s.velocity.y + 0.1 * (cursor.y - s.y))
            && r.x == s.x + r.velocity.x && r.y == s.y + r.velocity.y
            && r.scale == s.scale)
      && (s.behaviour == FloatScale ==>
            && r.x == s.x && r.y == s.y - 1.0
            && r.scale == s.scale * 1.1
            && r.velocity == s.velocity)
  {
    if s.behaviour == Trail {
      TrailLaw(s, cursor);
    }
  }

  lemma PresetPreserved(s: ElementState, cursor: Point)
    requires Preset(s)
    ensures Preset(Step(s, cursor))
  {
  }

  /** Once invalid, one more frame does not make it valid again. */
  lemma InvalidStaysInvalid(s: ElementState, cursor: Point)
    requires Preset(s) && !Valid(s)
    ensures !Valid(Step(s, cursor))
  {
  }

  /** Once invalid, no sequence of frames makes it valid again. */
  lemma {:induction false} InvalidForever(s: ElementState, cursors: seq<Point>)
    requires Preset(s) && !Valid(s)
    ensures Preset(Frames(s, cursors)) && !Valid(Frames(s, cursors))
    decreases |cursors|
  {
    if cursors != [] {
      PresetPreserved(s, cursors[0]);
      InvalidStaysInvalid(s, cursors[0]);
      InvalidForever(Step(s, cursors[0]), cursors[1..]);
    }
  }

  /** A trailing element keeps its scale, so it stays valid for ever,
      whatever the cursor does. */
  lemma {:induction false} TrailKeepsScale(s: ElementState, cursors: seq<Point>)
    requires s.behaviour == Trail
    ensures var r := Frames(s, cursors);
      && r.behaviour == Trail && r.scale == s.scale && r.scaleMax == s.scaleMax
      && r.count == s.count && r.countMin == s.countMin
      && (Valid(s) ==> Valid(r))
    decreases |cursors|
  {
    if cursors != [] {
      TrailKeepsScale(Step(s, cursors[0]), cursors[1..]);
    }
  }

  lemma TrailingNeverExpires(image: Size, x: real, y: real, cursors: seq<Point>)
    ensures Valid(Frames(Create(image, x, y, Trail), cursors))
  {
    TrailKeepsScale(Create(image, x, y, Trail), cursors);
  }

  /** After n frames a float-and-scale element has risen n units and its
      scale has grown by 1.1^n; the cursor plays no part. */
  lemma {:induction false} FloatScaleFrames(s: ElementState, cursors: seq<Point>)
    requires s.behaviour == FloatScale
    ensures Frames(s, cursors)
         == s.(y := s.y - |cursors| as real, scale := s.scale * Pow(SpawnGrowth, |cursors|))
    decreases |cursors|
  {
    if cursors != [] {
      var t := Step(s, cursors[0]);
      FloatScaleFrames(t, cursors[1..]);
      assert Pow(SpawnGrowth, |cursors|) == SpawnGrowth * Pow(SpawnGrowth, |cursors[1..]|);
    }
  }

  lemma {:induction false} PowAdd(b: real, m: nat, n: nat)
    ensures Pow(b, m + n) == Pow(b, m) * Pow(b, n)
  {
    if m > 0 {
      PowAdd(b, m - 1, n);
    }
  }

  /** Powers of 1.1 are at least 1 and grow strictly. */
  lemma {:induction false} PowGrowthIncreasing(m: nat, n: nat)
    requires m < n
    ensures 1.0 <= Pow(SpawnGrowth, m) < Pow(SpawnGrowth, n)
    decreases n
  {
    if m < n - 1 {
      PowGrowthIncreasing(m, n - 1);
    } else {
      PowGrowthAtLeastOne(m);
    }
  }

  lemma {:induction false} PowGrowthAtLeastOne(n: nat)
    ensures Pow(SpawnGrowth, n) >= 1.0
  {
    if n > 0 {
      PowGrowthAtLeastOne(n - 1);
    }
  }

  /** 1.1^41 < 50 <= 1.1^42. */
  lemma GrowthBounds()
    ensures Pow(SpawnGrowth, 41) < InitialScaleMax <= Pow(SpawnGrowth, 42)
  {
    assert Pow(SpawnGrowth, 2) == 1.21;
    PowAdd(SpawnGrowth, 2, 2);
    PowAdd(SpawnGrowth, 4, 4);
    PowAdd(SpawnGrowth, 8, 8);
    PowAdd(SpawnGrowth, 16, 16);
    PowAdd(SpawnGrowth, 32, 8);
    PowAdd(SpawnGrowth, 40, 1);
    PowAdd(SpawnGrowth, 41, 1);
  }

  /** A spawned element is valid after n frames exactly when n < 42: it is
      updated 42 times and then purged. */
  lemma SpawnedLifetime(image: Size, x: real, y: real, cursors: seq<Point>)
    ensures Valid(Frames(Create(image, x, y, FloatScale), cursors)) <==> |cursors| < 42
  {
    var n := |cursors|;
    FloatScaleFrames(Create(image, x, y, FloatScale), cursors);
    GrowthBounds();
    if n < 41 {
      PowGrowthIncreasing(n, 41);
    } else if n > 42 {
      PowGrowthIncreasing(42, n);
    }
  }

  /** A float-and-scale element at scale 500/11 reaches exactly 50 in one
      frame, and that frame makes it invalid. */
  lemma SpawnedExpiresAtCeiling(s: ElementState, cursor: Point)
    requires s.behaviour == FloatScale && Preset(s) && s.scale == 500.0 / 11.0
    ensures Valid(s)
    ensures Step(s, cursor).scale == 50.0 && !Valid(Step(s, cursor))
  {
  }
}
