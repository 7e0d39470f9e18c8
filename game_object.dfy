/** The class-level defaults of the simulator's GameObject base class, and
    the pose its constructor writes. The constructor assigns the location
    and then the heading through whatever properties the subclass defines,
    so each subclass's constructor below performs those two writes through
    its own setters, in that order. */
module GameObjectBase {
  import opened Base

  /** Nothing is drawn for an object unless its class says otherwise. */
  const DEFAULT_SURFACE_NAME: Option<string> := None
  /** Objects carry no marker unless their class or constructor sets one. */
  const DEFAULT_MARKER_ID: Option<int> := None
  const DEFAULT_GRABBABLE: bool := false

  /** The location written first by the base constructor, then the heading. */
  const INITIAL_LOCATION: Vec := Vec(0.0, 0.0)
  const INITIAL_HEADING: real := 0.0
}
