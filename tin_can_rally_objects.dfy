/** The objects of the 2017 Tin Can Rally arena: a square centre wall and
    cans, both backed by physics bodies. */
module TinCanRallyObjects {
  import opened Base
  import opened GameObjectBase
  import Markers

  const WALL_DIAMETER_METRES: real := 4.0

  /** The static square wall in the middle of the arena. */
  class TCRWall {
    var position: Vec
    var angle: real

    constructor ()
      ensures Location() == INITIAL_LOCATION && Heading() == INITIAL_HEADING
    {
      position, angle := Vec(0.0, 0.0), 0.0;
      new;
      SetLocation(INITIAL_LOCATION);
      SetHeading(INITIAL_HEADING);
    }

    function Location(): Vec
      reads this
    {
      position
    }

    function Heading(): real
      reads this
    {
      angle
    }

    method SetLocation(p: Vec)
      modifies this
      ensures Location() == p && Heading() == old(Heading())
    {
      position := p;
    }

    method SetHeading(h: real)
      modifies this
      ensures Heading() == h && Location() == old(Location())
    {
      angle := h;
    }
  }

  /** A can. Its number is given to the constructor and dropped: it is
      neither stored nor made a marker id, so these cans carry the base
      class's `None`. */
  class Token {
    var position: Vec
    var angle: real
    const damping: real
    var grabbed: bool

    constructor (number: int, damping: real)
      ensures Location() == INITIAL_LOCATION && Heading() == INITIAL_HEADING
      ensures this.damping == damping && !grabbed
    {
      position, angle := Vec(0.0, 0.0), 0.0;
      this.damping := damping;
      new;
      SetLocation(INITIAL_LOCATION);
      SetHeading(INITIAL_HEADING);
      grabbed := false;
    }

    function Location(): Vec
      reads this
    {
      position
    }

    function Heading(): real
      reads this
    {
      angle
    }

    method SetLocation(p: Vec)
      modifies this
      ensures Location() == p && Heading() == old(Heading()) && grabbed == old(grabbed)
    {
      position := p;
    }

    method SetHeading(h: real)
      modifies this
      ensures Heading() == h && Location() == old(Location()) && grabbed == old(grabbed)
    {
      angle := h;
    }

    method Grab()
      modifies this
      ensures grabbed
      ensures position == old(position) && angle == old(angle)
    {
      grabbed := true;
    }

    method Release()
      modifies this
      ensures !grabbed
      ensures position == old(position) && angle == old(angle)
    {
      grabbed := false;
    }

    /** The same picture names as the generic token. */
    function SurfaceName(): string
      reads this
    {
      Markers.TokenSurfaceName(grabbed)
    }
  }
}
