/**
 What a host driving the universe can rely on, derived from the contracts of
 the pointer handlers alone.
 */
module Scenarios {
  import opened Dots
  import opened World

  /** Pressing at (41, 21) grabs dot 2 at (20, 20), the first dot in vector
      order that is near (on the y axis), although dot 4 at (40, 40) is only
      one unit away on the x axis. Dragging moves dot 2 alone; after the
      release a further move changes nothing. */
  method FirstInOrderWins() returns (grabbed: Option<int>, dragged: seq<ADot>, released: seq<ADot>)
    ensures grabbed == Some(2)
    ensures dragged == [ADot(2, 41, 21), ADot(3, 30, 30), ADot(4, 40, 40), ADot(5, 50, 50)]
    ensures released == dragged
  {
    var u := new Universe();
    u.SetMouseDown(41, 21);
    grabbed := u.grabbing;
    u.MoveMouse(41, 21);
    dragged := u.dots;
    u.SetMouseUp(41, 21);
    u.MoveMouse(60, 60);
    released := u.dots;
  }

  /** One axis is enough: pressing at (42, 63) grabs dot 4 at (40, 40),
      which is close on x and far on y. */
  method OneAxisIsEnough() returns (grabbed: Option<int>)
    ensures grabbed == Some(4)
  {
    var u := new Universe();
    assert !InitialDots[0].IsNear(42, 63) && !InitialDots[1].IsNear(42, 63);
    assert FindNear(InitialDots[2..], 42, 63) == Some(0);
    assert FindNear(InitialDots[1..], 42, 63) == Some(1) by {
      assert InitialDots[1..][1..] == InitialDots[2..];
    }
    u.SetMouseDown(42, 63);
    grabbed := u.grabbing;
  }

  /** Pressing where no dot is near, at (45, 45), grabs nothing, and the
      moves that follow leave every dot in place. */
  method MissGrabsNothing() returns (grabbed: Option<int>, after: seq<ADot>)
    ensures grabbed == None
    ensures after == InitialDots
  {
    var u := new Universe();
    u.SetMouseDown(45, 45);
    grabbed := u.grabbing;
    u.MoveMouse(10, 10);
    after := u.dots;
  }

  /** From any valid state, a release followed by a move leaves the dots
      where they were and nothing grabbed. */
  method ReleaseEndsDrag(u: Universe, px: Coord, py: Coord, mx: Coord, my: Coord)
    requires u.Valid()
    modifies u
    ensures u.Valid()
    ensures u.dots == old(u.dots) && !u.mouseDown && u.grabbing == None
  {
    u.SetMouseUp(px, py);
    u.MoveMouse(mx, my);
  }

  /** Two drag steps in a row leave the grabbed dot at the second position,
      exactly as a single step to that position would. */
  method LastMoveWins(u: Universe, x1: Coord, y1: Coord, x2: Coord, y2: Coord)
    requires u.Valid() && u.mouseDown && u.grabbing.Some?
    modifies u
    ensures u.Valid()
    ensures u.dots == MoveDot(old(u.dots), old(u.grabbing).value, x2, y2)
    ensures u.mouseDown && u.grabbing == old(u.grabbing)
  {
    u.MoveMouse(x1, y1);
    u.MoveMouse(x2, y2);
    MoveDotLastWins(old(u.dots), old(u.grabbing).value, x1, y1, x2, y2);
  }
}
