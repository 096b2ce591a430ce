/**
 The dot value of the drag demo and the two searches the universe runs over
 its vector of dots: the hit test that picks the dot under the pointer, and
 the lookup of the dragged dot by its id.
 */
module Dots {

  datatype Option<T> = None | Some(value: T)

  /** A pointer coordinate: a `u32` that stays below 2^31, so that the cast
      to `i32` done by the hit test and by a move keeps its value. */
  type Coord = c: int | 0 <= c < 0x8000_0000

  /** How close, on one axis, the pointer must be to hit a dot. */
  const Neighbour: int := 3

  /** The mathematical absolute value, standing for `i32::abs`; the overflow
      of `i32::abs` at `i32::MIN` is not modelled. */
  function Abs(n: int): (r: nat)
    ensures r == n || r == -n
  {
    if n < 0 then -n else n
  }

  /** A dot: an identity and a position on the canvas. */
  datatype ADot = ADot(id: int, x: int, y: int) {

    /** The x getter: the dot is rebuilt from its id, this value and its y. */
    function GetX(): (gx: int)
      ensures ADot(id, gx, y) == this
    {
      x
    }

    /** The y getter: the dot is rebuilt from its id, its x and this value. */
    function GetY(): (gy: int)
      ensures ADot(id, x, gy) == this
    {
      y
    }

    /** The hit test. The two axes are combined with OR: being within the
        threshold on one axis is enough, whatever the other coordinate is, so
        the hit region of a dot is a cross through the whole canvas rather
        than a small square around it. */
    function IsNear(px: Coord, py: Coord): (near: bool)
      ensures near <==> (x - Neighbour < px < x + Neighbour) || (y - Neighbour < py < y + Neighbour)
    {
      Abs(x - px) < Neighbour || Abs(y - py) < Neighbour
    }
  }

  /** The ids of a vector of dots, in vector order. */
  function Ids(dots: seq<ADot>): (ids: seq<int>)
    ensures |ids| == |dots|
    ensures forall i :: 0 <= i < |dots| ==> ids[i] == dots[i].id
  {
    if dots == [] then [] else [dots[0].id] + Ids(dots[1..])
  }

  /** No id occurs twice. */
  ghost predicate Distinct(ids: seq<int>) {
    forall i, j :: 0 <= i < j < |ids| ==> ids[i] != ids[j]
  }

  /** `dots.iter().find(|d| d.is_near(px, py))`, giving the index of the
      dot found: the FIRST dot in vector order that is near, not the closest. */
  function FindNear(dots: seq<ADot>, px: Coord, py: Coord): (r: Option<nat>)
    ensures r.Some? ==> r.value < |dots| && dots[r.value].IsNear(px, py)
    ensures r.Some? ==> forall j :: 0 <= j < r.value ==> !dots[j].IsNear(px, py)
    ensures r.None? ==> forall j :: 0 <= j < |dots| ==> !dots[j].IsNear(px, py)
  {
    if dots == [] then None
    else if dots[0].IsNear(px, py) then Some(0)
    else match FindNear(dots[1..], px, py)
      case None => None
      case Some(i) => Some(i + 1)
  }

  /** `dots.iter_mut().find(|d| d.id == id)`, giving the index of the dot
      found: the first dot with that id, and there is one exactly when the id
      is listed. */
  function FindById(dots: seq<ADot>, id: int): (r: Option<nat>)
    ensures r.Some? <==> id in Ids(dots)
    ensures r.Some? ==> r.value < |dots| && dots[r.value].id == id
    ensures r.Some? ==> forall j :: 0 <= j < r.value ==> dots[j].id != id
  {
    if dots == [] then None
    else if dots[0].id == id then Some(0)
    else match FindById(dots[1..], id)
      case None => None
      case Some(i) => Some(i + 1)
  }

  /** The lookup by id depends on the ids alone, not on the positions. */
  lemma {:induction false} FindByIdDependsOnIds(a: seq<ADot>, b: seq<ADot>, id: int)
    requires Ids(a) == Ids(b)
    ensures FindById(a, id) == FindById(b, id)
  {
    if a != [] {
      assert Ids(a[1..]) == Ids(a)[1..];
      assert Ids(b[1..]) == Ids(b)[1..];
      FindByIdDependsOnIds(a[1..], b[1..], id);
    }
  }

  /** Where the ids are distinct, the first dot with an id is THE dot with
      that id. */
  lemma FindByIdUnique(dots: seq<ADot>, k: nat)
    requires Distinct(Ids(dots))
    requires k < |dots|
    ensures FindById(dots, dots[k].id) == Some(k)
  {
    var id := dots[k].id;
    assert Ids(dots)[k] == id;
    var r := FindById(dots, id);
    assert r.Some? && r.value <= k;
    assert Ids(dots)[r.value] == id;
  }

  /** The effect of a drag step on the dot vector: the first dot with the
      dragged id takes the pointer position, and its id and every other dot
      stay as they were. The id must be listed: that is what the `unwrap` of
      the lookup demands. */
  function MoveDot(dots: seq<ADot>, id: int, px: Coord, py: Coord): (moved: seq<ADot>)
    requires id in Ids(dots)
    ensures Ids(moved) == Ids(dots)
    ensures FindById(moved, id) == FindById(dots, id)
    ensures var k := FindById(dots, id).value;
      moved[k].x == px && moved[k].y == py &&
      forall j :: 0 <= j < |dots| && j != k ==> moved[j] == dots[j]
  {
    var k := FindById(dots, id).value;
    var moved := dots[k := ADot(dots[k].id, px, py)];
    assert Ids(moved) == Ids(dots);
    FindByIdDependsOnIds(moved, dots, id);
    moved
  }

  /** Only the last of several drag steps matters: replaying moves of the
      same dot leaves it at the most recent pointer position. */
  lemma MoveDotLastWins(dots: seq<ADot>, id: int, x1: Coord, y1: Coord, x2: Coord, y2: Coord)
    requires id in Ids(dots)
    ensures MoveDot(MoveDot(dots, id, x1, y1), id, x2, y2) == MoveDot(dots, id, x2, y2)
  {
    var once := MoveDot(dots, id, x1, y1);
    var k := FindById(dots, id).value;
    var lhs := MoveDot(once, id, x2, y2);
    var rhs := MoveDot(dots, id, x2, y2);
    assert |lhs| == |rhs|;
    forall j | 0 <= j < |lhs| ensures lhs[j] == rhs[j] {
      if j == k {
        assert lhs[j].id == Ids(lhs)[j] == Ids(dots)[j] == rhs[j].id;
      }
    }
  }
}
