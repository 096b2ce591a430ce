/**
 The universe of the drag demo: a fixed canvas, a vector of dots, and the
 drag state machine driven by the pointer events mouse down, mouse move and
 mouse up.
 */
module World {
  import opened Dots

  /** The dots a fresh universe starts with. */
  const InitialDots: seq<ADot> :=
    [ADot(2, 20, 20), ADot(3, 30, 30), ADot(4, 40, 40), ADot(5, 50, 50)]

  class Universe {
    /** The canvas size, fixed when the universe is built and never changed. */
    const width: nat := 64
    const height: nat := 64
    var dots: seq<ADot>
    var mouseDown: bool
    var grabbing: Option<int>

    /** The object invariant. Ids are distinct, and a drag target always
        names a dot of the vector: this is what makes the `unwrap` of the
        lookup in a mouse move safe. */
    ghost predicate Valid()
      reads this
    {
      Distinct(Ids(dots)) && (grabbing.Some? ==> grabbing.value in Ids(dots))
    }

    /** A 64 by 64 canvas with four dots, nothing pressed and nothing grabbed. */
    constructor ()
      ensures Valid()
      ensures width == 64 && height == 64
      ensures dots == InitialDots
      ensures !mouseDown && grabbing == None
    {
      dots := InitialDots;
      mouseDown := false;
      grabbing := None;
    }

    function Width(): (w: nat)
      ensures w == 64
    {
      width
    }

    function Height(): (h: nat)
      ensures h == 64
    {
      height
    }

    /** The number of dots; every handler keeps it. */
    function DotCount(): (n: nat)
      reads this
      ensures n == |dots| == |Ids(dots)|
    {
      |dots|
    }

    /** Mouse down: press, and grab the first dot in vector order that is
        near the pointer, or nothing if no dot is. */
    method SetMouseDown(px: Coord, py: Coord)
      requires Valid()
      modifies this
      ensures Valid()
      ensures mouseDown && dots == old(dots)
      ensures DotCount() == old(DotCount())
      ensures FindNear(dots, px, py).None? ==> grabbing == None
      ensures FindNear(dots, px, py).Some? ==> grabbing == Some(dots[FindNear(dots, px, py).value].id)
      ensures grabbing.Some? ==> mouseDown
    {
      mouseDown := true;
      var found := FindNear(dots, px, py);
      match found {
        case Some(i) =>
          grabbing := Some(dots[i].id);
        case None =>
          grabbing := None;
      }
    }

    /** Mouse move. Without a drag target nothing changes. With one but the
        button released, the target is dropped. Otherwise the grabbed dot
        takes the pointer position and nothing else changes. */
    method MoveMouse(ex: Coord, ey: Coord)
      requires Valid()
      modifies this
      ensures Valid()
      ensures old(grabbing).None? ==>
        dots == old(dots) && mouseDown == old(mouseDown) && grabbing == None
      ensures old(grabbing).Some? && !old(mouseDown) ==>
        dots == old(dots) && !mouseDown && grabbing == None
      ensures old(grabbing).Some? && old(mouseDown) ==>
        dots == MoveDot(old(dots), old(grabbing).value, ex, ey) &&
        mouseDown && grabbing == old(grabbing)
      ensures old(grabbing).Some? && old(mouseDown) ==>
        forall j :: 0 <= j < |dots| && dots[j].id == old(grabbing).value ==>
          dots[j].x == ex && dots[j].y == ey
      ensures Ids(dots) == Ids(old(dots))
      ensures DotCount() == old(DotCount())
      ensures grabbing.Some? ==> mouseDown
    {
      if grabbing.Some? {
        var id := grabbing.value;
        if !mouseDown {
          grabbing := None;
          return;
        }
        var found := FindById(dots, id);
        // the `unwrap`: the invariant guarantees the lookup succeeds
        assert found.Some?;
        var k := found.value;
        dots := dots[k := ADot(dots[k].id, ex, ey)];
        assert dots == MoveDot(old(dots), id, ex, ey);
        forall j | 0 <= j < |dots| && dots[j].id == id
          ensures dots[j].x == ex && dots[j].y == ey
        {
          assert old(dots)[j].id == Ids(old(dots))[j] == Ids(dots)[j] == id;
          FindByIdUnique(old(dots), j);
        }
      }
    }

    /** Mouse up: release the button and drop any drag target. */
    method SetMouseUp(px: Coord, py: Coord)
      requires Valid()
      modifies this
      ensures Valid()
      ensures !mouseDown && grabbing == None && dots == old(dots)
      ensures DotCount() == old(DotCount())
    {
      mouseDown := false;
      grabbing := None;
    }
  }
}
