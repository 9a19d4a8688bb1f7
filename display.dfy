/** The display returned by `createDisplay`: the canvas size, the live
    cursor, and the pool of elements with its add, update and draw passes.
    The pool is the closure variable `elements`, which `updateElements`
    rebinds, not the `elements` property of the returned object. */
module Display {
  import opened Vectors
  import opened Elements
  import opened Behaviours

  /** No element object occurs twice in the pool. */
  predicate Distinct(pool: seq<Element>)
  {
    forall i, j :: 0 <= i < j < |pool| ==> pool[i] != pool[j]
  }

  /** `elements.filter(element => element.valid())`: the valid elements of
      the pool, in their order in the pool. */
  function Survivors(pool: seq<Element>): (r: seq<Element>)
    reads pool
    ensures |r| <= |pool|
    ensures forall e :: e in r ==> e in pool && Valid(e.State())
    decreases |pool|
  {
    if pool == [] then []
    else
      var last := pool[|pool| - 1];
      Survivors(pool[..|pool| - 1]) + (if Valid(last.State()) then [last] else [])
  }

  /** Filtering a concatenation filters each part and keeps them in order. */
  lemma {:induction false} SurvivorsAppend(a: seq<Element>, b: seq<Element>)
    ensures Survivors(a + b) == Survivors(a) + Survivors(b)
    decreases |b|
  {
    if b == [] {
      assert a + b == a;
    } else {
      var b' := b[..|b| - 1];
      assert (a + b)[..|a + b| - 1] == a + b';
      assert (a + b)[|a + b| - 1] == b[|b| - 1];
      SurvivorsAppend(a, b');
    }
  }

  /** An element is kept exactly when it is in the pool and valid. */
  lemma {:induction false} SurvivorsMembership(pool: seq<Element>, e: Element)
    ensures e in Survivors(pool) <==> e in pool && Valid(e.State())
    decreases |pool|
  {
    if pool != [] {
      var prefix := pool[..|pool| - 1];
      assert pool == prefix + [pool[|pool| - 1]];
      SurvivorsMembership(prefix, e);
    }
  }

  /** Filtering a pool without repeats gives a pool without repeats. */
  lemma {:induction false} SurvivorsDistinct(pool: seq<Element>)
    requires Distinct(pool)
    ensures Distinct(Survivors(pool))
    decreases |pool|
  {
    if pool != [] {
      var prefix := pool[..|pool| - 1];
      var last := pool[|pool| - 1];
      SurvivorsDistinct(prefix);
      assert last !in prefix by {
        forall k | 0 <= k < |prefix| ensures prefix[k] != last {
          assert prefix[k] == pool[k];
        }
      }
    }
  }

  /** A pool whose every element is valid loses nothing. */
  lemma {:induction false} SurvivorsAllValid(pool: seq<Element>)
    requires forall e :: e in pool ==> Valid(e.State())
    ensures Survivors(pool) == pool
    decreases |pool|
  {
    if pool != [] {
      var prefix := pool[..|pool| - 1];
      assert pool == prefix + [pool[|pool| - 1]];
      SurvivorsAllValid(prefix);
    }
  }

  /** A valid element appended to the pool survives the next filter, at the
      end, and every other element's fate is unchanged. */
  lemma AddedSurvives(pool: seq<Element>, e: Element)
    requires Valid(e.State())
    ensures Survivors(pool + [e]) == Survivors(pool) + [e]
  {
    SurvivorsAppend(pool, [e]);
    assert [e][..0] == [];
  }

  /** The filter pass of `updateElements`: it reads the pool and changes
      nothing. */
  method FilterValid(pool: seq<Element>) returns (kept: seq<Element>)
    ensures kept == Survivors(pool)
  {
    kept := [];
    var i := 0;
    while i < |pool|
      invariant 0 <= i <= |pool|
      invariant kept == Survivors(pool[..i])
    {
      assert pool[..i + 1][..i] == pool[..i];
      if Valid(pool[i].State()) {
        kept := kept + [pool[i]];
      }
      i := i + 1;
    }
    assert pool[..i] == pool;
  }

  /** The `forEach` pass of `updateElements`: every element's behaviour runs
      once, in pool order, and nothing outside the pool changes. */
  method RunEach(pool: seq<Element>, cursor: Point)
    requires Distinct(pool)
    modifies set e | e in pool
    ensures forall e :: e in pool ==> e.State() == Step(old(e.State()), cursor)
  {
    var i := 0;
    while i < |pool|
      invariant 0 <= i <= |pool|
      invariant forall k :: 0 <= k < i ==> pool[k].State() == Step(old(pool[k].State()), cursor)
      invariant forall k :: i <= k < |pool| ==> pool[k].State() == old(pool[k].State())
    {
      label before:
      Run(pool[i], cursor);
      forall k | 0 <= k < |pool| && k != i
        ensures pool[k].State() == old@before(pool[k].State())
      {
        assert pool[k] != pool[i];
      }
      i := i + 1;
    }
  }

  class Display {
    /** The canvas size, fixed to the viewport when the display is made. */
    const width: nat
    const height: nat
    /** The live cursor, overwritten by every pointer move. */
    var cursor: Point
    var elements: seq<Element>

    /** The class invariant: no element object occurs twice in the pool. */
    ghost predicate Inv()
      reads this
    {
      Distinct(elements)
    }

    /** `createDisplay()`: an empty pool and the cursor at the origin. */
    constructor (width: nat, height: nat)
      ensures Inv()
      ensures this.width == width && this.height == height
      ensures cursor == Point(0.0, 0.0) && elements == []
    {
      this.width := width;
      this.height := height;
      cursor := Point(0.0, 0.0);
      elements := [];
    }

    /** The display's own pointer-move listener: last write wins. */
    method MoveCursor(x: real, y: real)
      modifies this
      ensures cursor == Point(x, y) && elements == old(elements)
    {
      cursor := cursor.(x := x);
      cursor := cursor.(y := y);
    }

    /** `addElement`: append at the end; everything already there stays, in
        its order. */
    method AddElement(element: Element)
      requires Inv() && element !in elements
      modifies this
      ensures Inv()
      ensures elements == old(elements) + [element] && cursor == old(cursor)
    {
      elements := elements + [element];
    }

    /** `updateElements`: first replace the pool by its valid elements, in
        order; then run each survivor's behaviour once, in order, with the
        current cursor. Elements dropped by the filter are not touched. */
    method UpdateElements()
      requires Inv()
      modifies this, elements
      ensures Inv() && cursor == old(cursor)
      ensures elements == old(Survivors(elements))
      ensures forall e :: e in elements ==> e.State() == Step(old(e.State()), cursor)
      ensures forall e :: e in old(elements) && e !in elements ==> e.State() == old(e.State())
    {
      SurvivorsDistinct(elements);
      var kept := FilterValid(elements);
      RunEach(kept, cursor);
      elements := kept;
    }

    /** `drawElements`: clear the whole canvas, then draw every element of the
        pool in order, later ones over earlier ones. */
    method DrawElements() returns (calls: seq<DrawCall>)
      ensures |calls| == |elements| + 1
      ensures calls[0] == Clear(width, height)
      ensures forall i :: 0 <= i < |elements| ==> calls[i + 1] == Draw(elements[i].State())
    {
      calls := [Clear(width, height)];
      var i := 0;
      while i < |elements|
        invariant 0 <= i <= |elements|
        invariant |calls| == i + 1 && calls[0] == Clear(width, height)
        invariant forall k :: 0 <= k < i ==> calls[k + 1] == Draw(elements[k].State())
      {
        calls := calls + [Draw(elements[i].State())];
        i := i + 1;
      }
    }
  }
}
