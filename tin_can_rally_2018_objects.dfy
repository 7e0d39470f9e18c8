/** The objects of the 2018 Tin Can Rally arena: rectangular walls whose
    location setter shifts what it is given, and plain or gold cans. */
module TinCanRally2018Objects {
  import opened Base
  import opened GameObjectBase

  const WALL_DIAMETER_METRES: real := 4.0

  /** The four corners of a rectangle centred on the origin, in fixture order. */
  function RectVertices(hw: real, hh: real): (r: seq<Vec>)
    ensures |r| == 4
  {
    [Vec(-hw, -hh), Vec(hw, -hh), Vec(hw, hh), Vec(-hw, hh)]
  }

  /** Every point moved by d, in order. */
  function Translate(vs: seq<Vec>, d: Vec): (r: seq<Vec>)
    ensures |r| == |vs|
    ensures forall i :: 0 <= i < |vs| ==> r[i] == Add(vs[i], d)
  {
    seq(|vs|, i requires 0 <= i < |vs| => Add(vs[i], d))
  }

  /** Translation is undone by the opposite translation. */
  lemma TranslateBack(vs: seq<Vec>, d: Vec)
    ensures Translate(Translate(vs, d), Vec(-d.x, -d.y)) == vs
  {
    var back := Translate(Translate(vs, d), Vec(-d.x, -d.y));
    assert forall i :: 0 <= i < |vs| ==> back[i] == vs[i];
  }

  /** What the location setter stores for a requested location p: the
      request read as the top-left corner of a w-by-h wall in a frame whose
      origin is the arena's top-left corner (-4, -4). */
  function ShiftedLocation(p: Vec, w: real, h: real): (r: Vec)
    ensures Sub(r, Vec(w / 2.0, h / 2.0)) == Sub(p, Vec(4.0, 4.0))
  {
    Vec(p.x - 4.0 + w / 2.0, p.y - 4.0 + h / 2.0)
  }

  /** Reading the location back gives what was written only for a wall the
      size of the whole 8 m arena. */
  lemma ShiftedLocationIdentity(p: Vec, w: real, h: real)
    ensures ShiftedLocation(p, w, h) == p <==> w == 8.0 && h == 8.0
  {
  }

  class TCRWall {
    var position: Vec
    var angle: real
    const w: real
    const h: real
    /** The fixture's vertices relative to the body. */
    const vertices: seq<Vec>

    constructor (dims: Vec, pos: Vec)
      ensures Width() == dims.x && Height() == dims.y
      ensures vertices == RectVertices(dims.x / 2.0, dims.y / 2.0)
      ensures Location() == Vec(dims.x / 2.0 - 4.0, dims.y / 2.0 - 4.0)
      ensures Heading() == INITIAL_HEADING
    {
      position, angle := Vec(0.0, 0.0), 0.0;
      vertices := RectVertices(dims.x / 2.0, dims.y / 2.0);
      w, h := dims.x, dims.y;
      new;
      SetLocation(pos);
      // the base constructor runs last and rewrites both through the setters
      SetLocation(INITIAL_LOCATION);
      SetHeading(INITIAL_HEADING);
    }

    function Location(): Vec
      reads this
    {
      position
    }

    function Heading(): real
      reads this
    {
      angle
    }

    function Width(): real { w }

    function Height(): real { h }

    method SetLocation(p: Vec)
      modifies this
      ensures Location() == ShiftedLocation(p, w, h) && Heading() == old(Heading())
    {
      position := ShiftedLocation(p, w, h);
    }

    method SetHeading(a: real)
      modifies this
      ensures Heading() == a && Location() == old(Location())
    {
      angle := a;
    }

    /** The fixture's vertices placed at the wall's current location. */
    function GetCorners(): (r: seq<Vec>)
      reads this
      ensures |r| == |vertices|
      ensures Translate(r, Vec(-Location().x, -Location().y)) == vertices
    {
      TranslateBack(vertices, Location());
      Translate(vertices, Location())
    }
  }

  /** A freshly built wall covers [-4, w - 4] by [-4, h - 4]: its first
      corner is the arena's top-left corner, whatever position was asked for. */
  lemma {:induction false} NewWallCorners(dims: Vec, location: Vec, vertices: seq<Vec>)
    requires location == Vec(dims.x / 2.0 - 4.0, dims.y / 2.0 - 4.0)
    requires vertices == RectVertices(dims.x / 2.0, dims.y / 2.0)
    ensures Translate(vertices, location)[0] == Vec(-4.0, -4.0)
    ensures Translate(vertices, location)[2] == Vec(dims.x - 4.0, dims.y - 4.0)
  {
  }

  /** 'sb/' + 'gold' for the gold can + 'can' + '_grabbed' while held + '.png'. */
  function CanSurfaceName(isGold: bool, grabbed: bool): (r: string)
    ensures !isGold && !grabbed ==> r == "sb/can.png"
    ensures !isGold && grabbed ==> r == "sb/can_grabbed.png"
    ensures isGold && !grabbed ==> r == "sb/goldcan.png"
    ensures isGold && grabbed ==> r == "sb/goldcan_grabbed.png"
  {
    "sb/" + (if isGold then "gold" else "") + "can" + (if grabbed then "_grabbed" else "") + ".png"
  }

  class Token {
    var position: Vec
    var angle: real
    const damping: real
    const isGold: bool
    var grabbed: bool

    constructor (damping: real, isGold: bool)
      ensures Location() == INITIAL_LOCATION && Heading() == INITIAL_HEADING
      ensures this.damping == damping && this.isGold == isGold && !grabbed
    {
      position, angle := Vec(0.0, 0.0), 0.0;
      this.damping := damping;
      this.isGold := isGold;
      new;
      SetLocation(INITIAL_LOCATION);
      SetHeading(INITIAL_HEADING);
      grabbed := false;
    }

    function Location(): Vec
      reads this
    {
      position
    }

    function Heading(): real
      reads this
    {
      angle
    }

    method SetLocation(p: Vec)
      modifies this
      ensures Location() == p && Heading() == old(Heading()) && grabbed == old(grabbed)
    {
      position := p;
    }

    method SetHeading(a: real)
      modifies this
      ensures Heading() == a && Location() == old(Location()) && grabbed == old(grabbed)
    {
      angle := a;
    }

    method Grab()
      modifies this
      ensures grabbed
      ensures position == old(position) && angle == old(angle)
    {
      grabbed := true;
    }

    method Release()
      modifies this
      ensures !grabbed
      ensures position == old(position) && angle == old(angle)
    {
      grabbed := false;
    }

    function SurfaceName(): string
      reads this
    {
      CanSurfaceName(isGold, grabbed)
    }
  }
}
