/** The static pedestal of the Pirate Islands arena. */
module PirateIslandsObjects {
  import opened Base
  import opened GameObjectBase

  const PEDESTAL_DIAMETER_METERS: real := 0.3
  const PEDESTAL_SURFACE: string := "sb/pedestal.png"

  class Pedestal {
    var position: Vec
    var angle: real

    constructor ()
      ensures Location() == INITIAL_LOCATION && Heading() == INITIAL_HEADING
    {
      position, angle := Vec(0.0, 0.0), 0.0;
      new;
      SetLocation(INITIAL_LOCATION);
      SetHeading(INITIAL_HEADING);
    }

    function Location(): Vec
      reads this
    {
      position
    }

    function Heading(): real
      reads this
    {
      angle
    }

    method SetLocation(p: Vec)
      modifies this
      ensures Location() == p && Heading() == old(Heading())
    {
      position := p;
    }

    method SetHeading(h: real)
      modifies this
      ensures Heading() == h && Location() == old(Location())
    {
      angle := h;
    }
  }
}
