/** The pedestal of the sbot package's Pirate Islands arena. Its pose
    properties are its body's; the base class's constructor writes its own
    two fields directly, so those writes never reach the body. */
module SbotPirateIslandsObjects {
  import opened Base
  import SbotGameObject

  const PEDESTAL_DIAMETER_METERS: real := 0.3
  const PEDESTAL_SURFACE: string := "sb/pedestal.png"

  class Pedestal {
    /** The body's position and angle, read and written by the properties. */
    var position: Vec
    var angle: real
    /** The base class's _location and _heading, written only by its constructor. */
    var baseLocation: SbotGameObject.Attr
    var baseHeading: SbotGameObject.Attr

    constructor ()
      ensures Location() == Vec(0.0, 0.0) && Heading() == 0.0
      ensures baseLocation == SbotGameObject.Point(Vec(0.0, 0.0)) && baseHeading == SbotGameObject.Angle(0.0)
    {
      // the body is created at (0, 0) with angle 0
      position, angle := Vec(0.0, 0.0), 0.0;
      baseLocation := SbotGameObject.Point(Vec(0.0, 0.0));
      baseHeading := SbotGameObject.Angle(0.0);
    }

    function Location(): Vec
      reads this
    {
      position
    }

    function Heading(): real
      reads this
    {
      angle
    }

    method SetLocation(p: Vec)
      modifies this
      ensures Location() == p && Heading() == old(Heading())
      ensures baseLocation == old(baseLocation) && baseHeading == old(baseHeading)
    {
      position := p;
    }

    method SetHeading(h: real)
      modifies this
      ensures Heading() == h && Location() == old(Location())
      ensures baseLocation == old(baseLocation) && baseHeading == old(baseHeading)
    {
      angle := h;
    }
  }
}
