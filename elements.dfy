/** The element record built by `createElement`: its fields and their
    defaults, its validity test and the rectangle its `draw` step computes. */
module Elements {
  import opened Vectors

  /** The pre-loaded image, seen only through its width and height. */
  datatype Size = Size(width: nat, height: nat)

  /** The per-frame behaviour a preset bound to the element: `trail` towards
      the live cursor (follow, spring), or `float` then `scale(·, 1.1)` (spawn). */
  datatype Behaviour = Trail | FloatScale

  /** Everything an element holds, as a value. */
  datatype ElementState = ElementState(
    image: Size,
    x: real, y: real,
    scale: real, scaleMax: real,
    count: int, countMin: int,
    velocity: Point,
    behaviour: Behaviour)

  /** The rectangle handed to the drawing surface: top-left corner and size. */
  datatype Rect = Rect(left: real, top: real, width: real, height: real)

  /** One call on the drawing surface. */
  datatype DrawCall =
    | Clear(width: nat, height: nat)
    | DrawImage(image: Size, rect: Rect)

  const InitialScale: real := 1.0
  const InitialScaleMax: real := 50.0
  const InitialCount: int := 100
  const InitialCountMin: int := 1

  /** A fresh element at (x, y) with the defaults of `createElement`. */
  function Create(image: Size, x: real, y: real, behaviour: Behaviour): (s: ElementState)
    ensures Valid(s)
    ensures s.image == image && s.behaviour == behaviour
    ensures Position(s) == Point(x, y) && s.velocity == Point(0.0, 0.0)
  {
    ElementState(image, x, y, InitialScale, InitialScaleMax,
                 InitialCount, InitialCountMin, Point(0.0, 0.0), behaviour)
  }

  /** `valid()`: the element has not outgrown its scale ceiling and has not
      used up its count. */
  predicate Valid(s: ElementState)
  {
    s.scale < s.scaleMax && s.count > s.countMin
  }

  function Position(s: ElementState): Point
  {
    Point(s.x, s.y)
  }

  /** The `draw` step's rectangle: the image scaled by `scale`, shifted so
      that it grows about its own centre. */
  function DrawRect(s: ElementState): (r: Rect)
    ensures r.width == s.image.width as real * s.scale
    ensures r.height == s.image.height as real * s.scale
    ensures r.left + r.width / 2.0 == s.x + s.image.width as real / 2.0
    ensures r.top + r.height / 2.0 == s.y + s.image.height as real / 2.0
  {
    var w := s.image.width as real;
    var h := s.image.height as real;
    Rect(s.x - (w * s.scale - w) / 2.0, s.y - (h * s.scale - h) / 2.0, w * s.scale, h * s.scale)
  }

  /** The drawing-surface call an element's `draw` makes. */
  function Draw(s: ElementState): (c: DrawCall)
    ensures c.DrawImage? && c.image == s.image
    ensures c.rect.width == s.image.width as real * s.scale
    ensures c.rect.height == s.image.height as real * s.scale
    ensures c.rect.left + c.rect.width / 2.0 == s.x + s.image.width as real / 2.0
    ensures c.rect.top + c.rect.height / 2.0 == s.y + s.image.height as real / 2.0
  {
    DrawImage(s.image, DrawRect(s))
  }

  /** A new element is valid exactly because its defaults are 1 < 50 and 100 > 1. */
  lemma CreateDefaults(image: Size, x: real, y: real, behaviour: Behaviour)
    ensures var s := Create(image, x, y, behaviour);
      && s.scale == 1.0 && s.scaleMax == 50.0
      && s.count == 100 && s.countMin == 1
      && Valid(s)
  {
  }

  /** At scale 1 the image is drawn at (x, y) with its own size. */
  lemma DrawRectUnitScale(s: ElementState)
    requires s.scale == 1.0
    ensures DrawRect(s) == Rect(s.x, s.y, s.image.width as real, s.image.height as real)
  {
  }

  /** At scale 2 the corner moves up and left by half the image size. */
  lemma DrawRectDoubleScale(s: ElementState)
    requires s.scale == 2.0
    ensures var w, h := s.image.width as real, s.image.height as real;
      DrawRect(s) == Rect(s.x - w / 2.0, s.y - h / 2.0, 2.0 * w, 2.0 * h)
  {
  }

  /** One element record; effects update its fields in place. */
  class Element {
    const image: Size
    const behaviour: Behaviour
    var x: real
    var y: real
    var scale: real
    var scaleMax: real
    var count: int
    var countMin: int
    var velocity: Point

    /** `createElement(src, x, y, update)`. */
    constructor (image: Size, x: real, y: real, behaviour: Behaviour)
      ensures State() == Create(image, x, y, behaviour)
    {
      this.image := image;
      this.behaviour := behaviour;
      this.x := x;
      this.y := y;
      this.scale := 1.0;
      this.scaleMax := 50.0;
      this.count := 100;
      this.countMin := 1;
      this.velocity := Point(0.0, 0.0);
    }

    /** The record's fields, as a value. */
    function State(): ElementState
      reads this
    {
      ElementState(image, x, y, scale, scaleMax, count, countMin, velocity, behaviour)
    }
  }
}
