/** The generic arena objects: a grabbable Token whose pose is its physics
    body's, and a static WallMarker whose pose is plain state. */
module Markers {
  import opened Base
  import opened GameObjectBase

  const TOKEN_GRABBABLE: bool := true
  const WALL_MARKER_SURFACE: string := "sb/wall_marker.png"

  /** The picture of a token: "_grabbed" is added exactly when it is held. */
  function TokenSurfaceName(grabbed: bool): (r: string)
    ensures grabbed ==> r == "sb/token_grabbed.png"
    ensures !grabbed ==> r == "sb/token.png"
    ensures r[..8] == "sb/token" && r[|r| - 4..] == ".png"
  {
    "sb/token" + (if grabbed then "_grabbed" else "") + ".png"
  }

  class Token {
    /** The body's position and angle, which the location and heading
        properties read and write. */
    var position: Vec
    var angle: real
    const damping: real
    const markerId: Option<int>
    var grabbed: bool

    constructor (damping: real, markerId: Option<int>)
      ensures Location() == INITIAL_LOCATION && Heading() == INITIAL_HEADING
      ensures this.damping == damping && this.markerId == markerId && !grabbed
    {
      // the body is created at (0, 0) with angle 0
      position, angle := Vec(0.0, 0.0), 0.0;
      this.damping := damping;
      this.markerId := markerId;
      new;
      // the base constructor's writes go through this class's setters
      SetLocation(INITIAL_LOCATION);
      SetHeading(INITIAL_HEADING);
      grabbed := false;
    }

    function Location(): Vec
      reads this
    {
      position
    }

    function Heading(): real
      reads this
    {
      angle
    }

    method SetLocation(p: Vec)
      modifies this
      ensures Location() == p && Heading() == old(Heading()) && grabbed == old(grabbed)
    {
      position := p;
    }

    method SetHeading(h: real)
      modifies this
      ensures Heading() == h && Location() == old(Location()) && grabbed == old(grabbed)
    {
      angle := h;
    }

    method Grab()
      modifies this
      ensures grabbed
      ensures position == old(position) && angle == old(angle)
    {
      grabbed := true;
    }

    method Release()
      modifies this
      ensures !grabbed
      ensures position == old(position) && angle == old(angle)
    {
      grabbed := false;
    }

    function SurfaceName(): string
      reads this
    {
      TokenSurfaceName(grabbed)
    }
  }

  /** A marker on the arena wall; its location and heading are plain
      attributes, written by the base constructor and then by its own. */
  class WallMarker {
    const markerId: Option<int>
    var location: Vec
    var heading: real

    constructor (markerId: Option<int>, location: Vec, heading: real)
      ensures this.markerId == markerId && this.location == location && this.heading == heading
    {
      this.location := INITIAL_LOCATION;
      this.heading := INITIAL_HEADING;
      this.markerId := markerId;
      this.location := location;
      this.heading := heading;
    }
  }
}
