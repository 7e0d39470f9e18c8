/** The GameObject base class of the sbot package. Unlike the simulator's
    own base class it keeps the pose in two plain fields, which its
    constructor writes directly. The class declares a second location
    setter where a heading setter is evidently meant: the second
    declaration replaces the first, so assigning a location writes the
    heading field, and assigning a heading has no setter at all. Both the
    class as written and the class as intended are modelled. */
module SbotGameObject {
  import opened Base

  const DEFAULT_SURFACE_NAME: Option<string> := None
  const DEFAULT_MARKER_ID: Option<int> := None
  const DEFAULT_GRABBABLE: bool := false
  const DEFAULT_GRABBED: bool := false

  /** A Python value held in an untyped attribute: a point or an angle. */
  datatype Attr = Point(p: Vec) | Angle(a: real)

  /** The class as written. */
  class GameObject {
    /** The fields _location and _heading. */
    var location: Attr
    var heading: Attr

    constructor ()
      ensures Location() == Point(Vec(0.0, 0.0)) && Heading() == Angle(0.0)
    {
      location := Point(Vec(0.0, 0.0));
      heading := Angle(0.0);
    }

    function Location(): Attr
      reads this
    {
      location
    }

    function Heading(): Attr
      reads this
    {
      heading
    }

    /** The surviving location setter: it stores into the heading field. */
    method SetLocation(v: Vec)
      modifies this
      ensures Heading() == Point(v) && Location() == old(Location())
    {
      heading := Point(v);
    }

    /** heading is a read-only property: assigning it raises. */
    method SetHeading(h: real) returns (r: Outcome)
      ensures r == Fail(AttributeError)
    {
      r := Fail(AttributeError);
    }
  }

  /** A location written to a fresh object is not what reading location
      gives back: the read still yields (0, 0) and the heading has become
      the point. */
  method ShadowedLocationWrite() returns (read: Attr, heading: Attr, headingWrite: Outcome)
    ensures read == Point(Vec(0.0, 0.0)) && read != Point(Vec(1.0, 2.0))
    ensures heading == Point(Vec(1.0, 2.0))
    ensures headingWrite == Fail(AttributeError)
  {
    var o := new GameObject();
    o.SetLocation(Vec(1.0, 2.0));
    read := o.Location();
    heading := o.Heading();
    headingWrite := o.SetHeading(0.5);
  }

  /** The class as intended: the second setter belongs to heading. */
  class IntendedGameObject {
    var location: Vec
    var heading: real

    constructor ()
      ensures Location() == Vec(0.0, 0.0) && Heading() == 0.0
    {
      location := Vec(0.0, 0.0);
      heading := 0.0;
    }

    function Location(): Vec
      reads this
    {
      location
    }

    function Heading(): real
      reads this
    {
      heading
    }

    method SetLocation(v: Vec)
      modifies this
      ensures Location() == v && Heading() == old(Heading())
    {
      location := v;
    }

    method SetHeading(h: real)
      modifies this
      ensures Heading() == h && Location() == old(Location())
    {
      heading := h;
    }
  }

  /** With the intended setters every write reads back, and writing one
      property leaves the other alone. */
  method IntendedRoundTrip(v: Vec, h: real) returns (readLocation: Vec, readHeading: real)
    ensures readLocation == v && readHeading == h
  {
    var o := new IntendedGameObject();
    o.SetLocation(v);
    o.SetHeading(h);
    readLocation := o.Location();
    readHeading := o.Heading();
  }
}
