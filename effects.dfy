/** The effect functions `trail`, `float` and `scale`: each advances one
    element by one frame, in place. The pure step functions say what each
    does to an element's state; the methods are proved against them. */
module Effects {
  import opened Vectors
  import opened Elements

  /** `trail`: spring towards the target. The difference to the target
      accelerates the velocity by 1/10, the velocity is damped by 9/10, and
      the position moves by the new velocity. */
  function TrailStep(s: ElementState, target: Point): ElementState
  {
    var difference := Subtract(target, Position(s));
    var v := Scaled(Add(s.velocity, Scaled(difference, 0.1)), 0.9);
    s.(x := s.x + v.x, y := s.y + v.y, velocity := v)
  }

  /** `float`: one unit up. */
  function FloatStep(s: ElementState): ElementState
  {
    s.(y := s.y - 1.0)
  }

  /** `scale`: the scale multiplied by the factor; x is reassigned to itself. */
  function ScaleStep(s: ElementState, factor: real): ElementState
  {
    s.(scale := s.scale * factor)
  }

  method Trail(element: Element, cursor: Point)
    modifies element
    ensures element.State() == TrailStep(old(element.State()), cursor)
  {
    ghost var before := element.State();
    var difference := Subtract(cursor, Point(element.x, element.y));
    var velocity := element.velocity;
    velocity := velocity.(x := velocity.x + difference.x * 0.1);
    velocity := velocity.(y := velocity.y + difference.y * 0.1);
    velocity := velocity.(x := velocity.x * 0.9);
    velocity := velocity.(y := velocity.y * 0.9);
    assert velocity == TrailStep(before, cursor).velocity;
    element.velocity := velocity;
    element.x := element.x + element.velocity.x;
    element.y := element.y + element.velocity.y;
  }

  method Float(element: Element)
    modifies element
    ensures element.State() == FloatStep(old(element.State()))
  {
    element.y := element.y - 1.0;
  }

  method Scale(element: Element, percentage: real)
    modifies element
    ensures element.State() == ScaleStep(old(element.State()), percentage)
  {
    element.scale := element.scale * percentage;
    element.x := element.x;
  }

  /** The trail step, field by field: v' = 9/10 (v + 1/10 (target - p)),
      p' = p + v', and nothing else changes. */
  lemma TrailLaw(s: ElementState, target: Point)
    ensures var r := TrailStep(s, target);
      && r.velocity.x == 0.9 * (s.velocity.x + 0.1 * (target.x - s.x))
      && r.velocity.y == 0.9 * (s.velocity.y + 0.1 * (target.y - s.y))
      && r.x == s.x + r.velocity.x && r.y == s.y + r.velocity.y
      && r.(x := s.x, y := s.y, velocity := s.velocity) == s
  {
  }

  /** From rest at the origin with the target at (100, 0), one step gives
      x = 9 and a velocity of 9 along x. */
  lemma TrailFirstFrame(s: ElementState)
    requires Position(s) == Point(0.0, 0.0) && s.velocity == Point(0.0, 0.0)
    ensures var r := TrailStep(s, Point(100.0, 0.0));
      r.x == 9.0 && r.y == 0.0 && r.velocity == Point(9.0, 0.0)
  {
  }

  /** An element at rest on its target stays there. */
  lemma TrailAtRest(s: ElementState)
    requires s.velocity == Point(0.0, 0.0)
    ensures TrailStep(s, Position(s)) == s
  {
    var difference := Subtract(Position(s), Position(s));
    assert difference == Point(0.0, 0.0);
    assert Scaled(difference, 0.1) == Point(0.0, 0.0);
    var v := Scaled(Add(s.velocity, Scaled(difference, 0.1)), 0.9);
    assert v == Point(0.0, 0.0);
    assert TrailStep(s, Position(s)).velocity == v;
  }

  /** Moving element and target by the same offset moves the result by that
      offset and leaves the velocity as it was: the spring depends only on
      the difference to the target. */
  lemma TrailShift(s: ElementState, target: Point, d: Point)
    ensures var moved := s.(x := s.x + d.x, y := s.y + d.y);
      var r, r' := TrailStep(s, target), TrailStep(moved, Add(target, d));
      r' == r.(x := r.x + d.x, y := r.y + d.y)
  {
  }

  /** `float` lowers y by exactly 1 and changes nothing else; moving one unit
      back down undoes it. */
  lemma FloatLaw(s: ElementState)
    ensures var r := FloatStep(s);
      && r.y == s.y - 1.0
      && r.(y := s.y) == s
  {
  }

  /** `scale` multiplies the scale and changes nothing else. */
  lemma ScaleLaw(s: ElementState, factor: real)
    ensures var r := ScaleStep(s, factor);
      && r.scale == s.scale * factor
      && Position(r) == Position(s)
      && r.(scale := s.scale) == s
  {
  }

  /** Two scalings compose into one by the product of their factors. */
  lemma ScaleCompose(s: ElementState, f: real, g: real)
    ensures ScaleStep(ScaleStep(s, f), g) == ScaleStep(s, f * g)
  {
  }
}
