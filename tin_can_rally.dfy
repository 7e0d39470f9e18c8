/** The 2017 Tin Can Rally arena: one square wall in the middle and six
    cans around it. The arena is the base Arena with these objects
    appended, walls first. */
module TinCanRally {
  import opened Base
  import opened GameObjectBase
  import opened Sim
  import TinCanRallyObjects

  const START_LOCATIONS: seq<Vec> := [Vec(-3.6, -3.6), Vec(3.6, 3.6)]
  const START_HEADINGS: seq<real> := [PI / 2.0, -PI / 2.0]

  /** The cans, clockwise from the top left. */
  const TOKEN_LOCATIONS: seq<Vec> :=
    [Vec(-0.5, -3.0), Vec(3.0, -3.0), Vec(3.0, -0.5), Vec(0.5, 3.0), Vec(-3.0, 3.0), Vec(-3.0, 0.5)]
  const WALL_LOCATIONS: seq<Vec> := [Vec(0.0, 0.0)]
  const TOKEN_DAMPING: real := 5.0

  /** A can at loc with heading 0, not held. */
  ghost predicate IsToken(o: Obj, loc: Vec)
    reads o.Ref()
  {
    o.TcrToken? && o.tcrToken.damping == TOKEN_DAMPING
    && o.tcrToken.Location() == loc && o.tcrToken.Heading() == 0.0 && !o.tcrToken.grabbed
  }

  /** The centre wall at loc. */
  ghost predicate IsWall(o: Obj, loc: Vec)
    reads o.Ref()
  {
    o.TcrWall? && o.tcrWall.Location() == loc && o.tcrWall.Heading() == INITIAL_HEADING
  }

  /** items[n..] holds the centre wall at (0, 0), then the six cans at the
      listed locations, in order. */
  ghost predicate Layout(items: seq<Obj>, n: int)
    reads Footprint(items)
  {
    0 <= n && |items| == n + 1 + |TOKEN_LOCATIONS| && IsWall(items[n], WALL_LOCATIONS[0])
    && forall k :: 0 <= k < |TOKEN_LOCATIONS| ==> IsToken(items[n + 1 + k], TOKEN_LOCATIONS[k])
  }

  /** Token(self, number, damping=5), then its location and heading 0. */
  method MakeToken(number: int, loc: Vec) returns (token: TinCanRallyObjects.Token)
    ensures fresh(token) && IsToken(TcrToken(token), loc)
  {
    token := new TinCanRallyObjects.Token(number, TOKEN_DAMPING);
    token.SetLocation(loc);
    token.SetHeading(0.0);
  }

  /** TCRWall(self), then its location. */
  method MakeWall(loc: Vec) returns (wall: TinCanRallyObjects.TCRWall)
    ensures fresh(wall) && IsWall(TcrWall(wall), loc)
  {
    wall := new TinCanRallyObjects.TCRWall();
    wall.SetLocation(loc);
  }

  /** Appends one new can per listed location, in list order; the k-th is
      built with number k, which the constructor drops. */
  method InitTokens(arena: Arena)
    modifies arena.objects
    ensures |arena.objects.items| == |old(arena.objects.items)| + |TOKEN_LOCATIONS|
    ensures arena.objects.items[..|old(arena.objects.items)|] == old(arena.objects.items)
    ensures forall k :: 0 <= k < |TOKEN_LOCATIONS| ==>
      var o := arena.objects.items[|old(arena.objects.items)| + k];
      fresh(o.Ref()) && IsToken(o, TOKEN_LOCATIONS[k])
  {
    var n0 := |arena.objects.items|;
    for k := 0 to |TOKEN_LOCATIONS|
      invariant |arena.objects.items| == n0 + k
      invariant arena.objects.items[..n0] == old(arena.objects.items)
      invariant forall j :: 0 <= j < k ==>
        var o := arena.objects.items[n0 + j];
        fresh(o.Ref()) && IsToken(o, TOKEN_LOCATIONS[j])
    {
      var token := MakeToken(k, TOKEN_LOCATIONS[k]);
      arena.objects.Append(TcrToken(token));
    }
  }

  /** Appends one new wall per listed location. */
  method InitWalls(arena: Arena)
    modifies arena.objects
    ensures |arena.objects.items| == |old(arena.objects.items)| + |WALL_LOCATIONS|
    ensures arena.objects.items[..|old(arena.objects.items)|] == old(arena.objects.items)
    ensures forall k :: 0 <= k < |WALL_LOCATIONS| ==>
      var o := arena.objects.items[|old(arena.objects.items)| + k];
      fresh(o.Ref()) && IsWall(o, WALL_LOCATIONS[k])
  {
    var n0 := |arena.objects.items|;
    for k := 0 to |WALL_LOCATIONS|
      invariant |arena.objects.items| == n0 + k
      invariant arena.objects.items[..n0] == old(arena.objects.items)
      invariant forall j :: 0 <= j < k ==>
        var o := arena.objects.items[n0 + j];
        fresh(o.Ref()) && IsWall(o, WALL_LOCATIONS[j])
    {
      var wall := MakeWall(WALL_LOCATIONS[k]);
      arena.objects.Append(TcrWall(wall));
    }
  }

  /** TCRArena(objects): the base arena, then the wall, then the six cans,
      after whatever the caller's list already held. */
  method NewArena(objects: Option<ObjectList>) returns (arena: Arena)
    modifies if objects.Some? then {objects.value} else {}
    ensures fresh(arena) && fresh(arena.world) && arena.size == Vec(8.0, 8.0)
    ensures objects.Some? ==> arena.objects == objects.value
    ensures objects.None? ==> fresh(arena.objects)
    ensures var given := if objects.Some? then old(objects.value.items) else [];
      |arena.objects.items| == |given| + 1 + 6 && arena.objects.items[..|given|] == given
    ensures var n := if objects.Some? then |old(objects.value.items)| else 0;
      IsWall(arena.objects.items[n], Vec(0.0, 0.0)) && fresh(arena.objects.items[n].Ref())
    ensures var n := if objects.Some? then |old(objects.value.items)| else 0;
      forall k :: 0 <= k < 6 ==>
        IsToken(arena.objects.items[n + 1 + k], TOKEN_LOCATIONS[k])
    ensures Layout(arena.objects.items, if objects.Some? then |old(objects.value.items)| else 0)
  {
    arena := new Arena(objects);
    ghost var given := arena.objects.items;
    ghost var n := if objects.Some? then |old(objects.value.items)| else 0;
    assert |given| == n;
    InitWalls(arena);
    ghost var walled := arena.objects.items;
    ghost var wall := walled[|given|];
    assert IsWall(wall, WALL_LOCATIONS[0]) && fresh(wall.Ref());
    InitTokens(arena);
    ghost var items := arena.objects.items;
    assert items[..|walled|] == walled;
    assert items[|given|] == wall;
    assert items[..|given|] == walled[..|given|];
    assert forall k :: 0 <= k < |TOKEN_LOCATIONS| ==> IsToken(items[|walled| + k], TOKEN_LOCATIONS[k]);
  }
}
