/** The `cursr(configs)` controller: the follow, spring and spawn presets,
    the pointer-move event they listen to, and one tick of the render loop. */
module Cursr {
  import opened Vectors
  import opened Elements
  import opened Behaviours
  import opened Display

  /** An optional argument; `None` stands for an omitted `reference`, whose
      default is the display's live cursor. */
  datatype Option<T> = None | Some(value: T)

  /** One registered spawn listener: the image it spawns and its reference. */
  datatype Spawner = Spawner(image: Size, reference: Option<Point>)

  class Controller {
    const display: Display
    /** The spawn listeners, in registration order. They are registered after
        the display's cursor listener, so on a pointer move they run after
        the cursor has been overwritten. */
    var spawners: seq<Spawner>

    /** The class invariant: the display's pool has no repeated element. */
    ghost predicate Inv()
      reads this, display
    {
      display.Inv()
    }

    /** `cursr(configs)`: a display sized to the viewport, no listeners yet. */
    constructor (width: nat, height: nat)
      ensures Inv() && fresh(display)
      ensures display.width == width && display.height == height
      ensures display.cursor == Point(0.0, 0.0) && display.elements == []
      ensures spawners == []
    {
      display := new Display(width, height);
      spawners := [];
    }

    /** Where a preset places its element: the given reference, or else the
        cursor as it is now. */
    function Resolve(reference: Option<Point>): Point
      reads this, display
    {
      match reference
      case None => display.cursor
      case Some(p) => p
    }

    /** `follow(configs, reference)`: a new element at the reference that
        trails the live cursor, appended to the pool and returned. */
    method Follow(image: Size, reference: Option<Point>) returns (element: Element)
      requires Inv()
      modifies display
      ensures Inv() && fresh(element)
      ensures element.State() == Create(image, old(Resolve(reference)).x, old(Resolve(reference)).y, Trail)
      ensures reference.None? ==>
        element.x == old(display.cursor).x && element.y == old(display.cursor).y
      ensures display.elements == old(display.elements) + [element]
      ensures display.cursor == old(display.cursor)
    {
      var at := Resolve(reference);
      element := new Element(image, at.x, at.y, Trail);
      display.AddElement(element);
    }

    /** `spring(configs, reference)`: the same preset as follow. */
    method Spring(image: Size, reference: Option<Point>) returns (element: Element)
      requires Inv()
      modifies display
      ensures Inv() && fresh(element)
      ensures element.State() == Create(image, old(Resolve(reference)).x, old(Resolve(reference)).y, Trail)
      ensures reference.None? ==>
        element.x == old(display.cursor).x && element.y == old(display.cursor).y
      ensures display.elements == old(display.elements) + [element]
      ensures display.cursor == old(display.cursor)
    {
      element := Follow(image, reference);
    }

    /** `spawn(configs, reference)`: register a listener; nothing is created
        until the next pointer move. */
    method Spawn(image: Size, reference: Option<Point>)
      modifies this
      ensures spawners == old(spawners) + [Spawner(image, reference)]
    {
      spawners := spawners + [Spawner(image, reference)];
    }

    /** One pointer-move event at (x, y): the display's listener overwrites
        the cursor, then every spawn listener, in order, appends a new
        float-and-scale element at its reference. A default reference is the
        cursor object itself, so it reads the coordinates of this event. */
    method MouseMove(x: real, y: real) returns (spawned: seq<Element>)
      requires Inv()
      modifies display
      ensures Inv() && display.cursor == Point(x, y)
      ensures |spawned| == |spawners|
      ensures display.elements == old(display.elements) + spawned
      ensures forall k :: 0 <= k < |spawned| ==>
        && fresh(spawned[k])
        && spawned[k].State() == Create(spawners[k].image,
             Resolve(spawners[k].reference).x, Resolve(spawners[k].reference).y, FloatScale)
      ensures forall k :: 0 <= k < |spawned| && spawners[k].reference.None? ==>
        spawned[k].x == x && spawned[k].y == y
    {
      display.MoveCursor(x, y);
      spawned := [];
      var i := 0;
      while i < |spawners|
        invariant 0 <= i <= |spawners|
        invariant Inv() && display.cursor == Point(x, y)
        invariant |spawned| == i
        invariant display.elements == old(display.elements) + spawned
        invariant forall k :: 0 <= k < i ==>
          && fresh(spawned[k])
          && spawned[k].State() == Create(spawners[k].image,
               Resolve(spawners[k].reference).x, Resolve(spawners[k].reference).y, FloatScale)
      {
        var at := Resolve(spawners[i].reference);
        var element := new Element(spawners[i].image, at.x, at.y, FloatScale);
        display.AddElement(element);
        spawned := spawned + [element];
        i := i + 1;
      }
    }

    /** One turn of `loop`: update the pool, then draw it. */
    method Tick() returns (calls: seq<DrawCall>)
      requires Inv()
      modifies display, display.elements
      ensures Inv() && display.cursor == old(display.cursor)
      ensures display.elements == old(Survivors(display.elements))
      ensures forall e :: e in display.elements ==> e.State() == Step(old(e.State()), display.cursor)
      ensures forall e :: e in old(display.elements) && e !in display.elements ==> e.State() == old(e.State())
      ensures |calls| == |display.elements| + 1
      ensures calls[0] == Clear(display.width, display.height)
      ensures forall k :: 0 <= k < |display.elements| ==>
        calls[k + 1] == Draw(display.elements[k].State())
    {
      display.UpdateElements();
      calls := display.DrawElements();
    }
  }
}
