/** The 2018 Tin Can Rally arena: three walls and four small obstacles,
    each with a copy turned a half turn about the arena's centre, then eight
    cans placed the same way and one gold can. */
module TinCanRally2018 {
  import opened Base
  import opened GameObjectBase
  import opened Sim
  import ArenaGeometry
  import opened TinCanRally2018Objects

  const START_LOCATIONS: seq<Vec> := [Vec(-4.0 + 2.5, -4.0 + 0.8), Vec(4.0 - 2.5, 4.0 - 0.8)]
  const START_HEADINGS: seq<real> := [-PI, 0.0]
  const TOKEN_DAMPING: real := 5.0

  /** The arena's centre in the walls' corner-based frame. */
  const CENTRE: Vec := Vec(4.0, 4.0)

  /** The first four cans; the other four are these turned by pi. */
  const BASE_TOKEN_LOCATIONS: seq<Vec> :=
    [Vec(0.5 - 4.0, 0.8 - 4.0), Vec(1.2 - 4.0, 3.7 - 4.0), Vec(2.0 - 4.0, 7.7 - 4.0), Vec(3.4 - 4.0, 6.0 - 4.0)]

  /** A wall's size and its requested top-left corner, in the frame whose
      origin is the arena's top-left corner. */
  datatype WallDetail = WallDetail(dims: Vec, pos: Vec)

  const WALL_DETAILS: seq<WallDetail> := [
    WallDetail(Vec(1.20, 2.40), Vec(1.50, 1.55)),
    WallDetail(Vec(1.20, 2.40), Vec(2.68, 1.55)),
    WallDetail(Vec(1.22, 1.22), Vec(5.28, 1.55))]

  const OBSTACLE_DETAILS: seq<WallDetail> := [
    WallDetail(Vec(0.2, 0.2), Vec(1.50, 3.95)),
    WallDetail(Vec(0.2, 0.2), Vec(1.50, 5.02)),
    WallDetail(Vec(0.2, 0.2), Vec(2.45, 4.57)),
    WallDetail(Vec(0.2, 0.2), Vec(2.72, 5.23))]

  /** pos turned a half turn about the centre (4, 4) of the corner-based frame. */
  function Reflect(pos: Vec, trig: Trig): (r: Vec)
    ensures Sub(r, CENTRE) == Rotate(Sub(pos, CENTRE), PI, trig)
  {
    var rotated := Rotate(Sub(pos, CENTRE), PI, trig);
    Vec(rotated.x + 4.0, rotated.y + 4.0)
  }

  /** With exact values of cos and sin at pi, reflecting mirrors through
      (4, 4), and reflecting twice gives the point back. */
  lemma ReflectExact(pos: Vec, trig: Trig)
    requires trig.cos(PI) == -1.0 && trig.sin(PI) == 0.0
    ensures Reflect(pos, trig) == Vec(8.0 - pos.x, 8.0 - pos.y)
    ensures Reflect(Reflect(pos, trig), trig) == pos
  {
    RotateHalfTurn(Sub(pos, CENTRE), trig);
    var once := Reflect(pos, trig);
    assert once == Vec(8.0 - pos.x, 8.0 - pos.y);
    RotateHalfTurn(Sub(once, CENTRE), trig);
  }

  /** The position the rotated copy of a wall is requested at: the
      reflection of the wall's far corner. */
  function RotatedPos(d: WallDetail, trig: Trig): Vec {
    Reflect(Add(d.pos, d.dims), trig)
  }

  /** With exact trigonometry the copy's requested corner is the original's
      rectangle turned about the centre: its near corner is the image of the
      original's far corner. */
  lemma RotatedPosExact(d: WallDetail, trig: Trig)
    requires trig.cos(PI) == -1.0 && trig.sin(PI) == 0.0
    ensures RotatedPos(d, trig) == Vec(8.0 - d.pos.x - d.dims.x, 8.0 - d.pos.y - d.dims.y)
  {
    ReflectExact(Add(d.pos, d.dims), trig);
  }

  /** The eight can locations: the four listed, then each of them turned by pi. */
  function TokenLocations(trig: Trig): (r: seq<Vec>)
    ensures |r| == 2 * |BASE_TOKEN_LOCATIONS|
    ensures r[..|BASE_TOKEN_LOCATIONS|] == BASE_TOKEN_LOCATIONS
    ensures forall i :: 0 <= i < |BASE_TOKEN_LOCATIONS| ==>
      r[|BASE_TOKEN_LOCATIONS| + i] == Rotate(BASE_TOKEN_LOCATIONS[i], PI, trig)
  {
    BASE_TOKEN_LOCATIONS + seq(|BASE_TOKEN_LOCATIONS|, i requires 0 <= i < |BASE_TOKEN_LOCATIONS| =>
      Rotate(BASE_TOKEN_LOCATIONS[i], PI, trig))
  }

  /** With exact trigonometry the turned cans are the first four negated. */
  lemma TokenLocationsExact(trig: Trig)
    requires trig.cos(PI) == -1.0 && trig.sin(PI) == 0.0
    ensures TokenLocations(trig) == BASE_TOKEN_LOCATIONS
      + [Vec(3.5, 3.2), Vec(2.8, 0.3), Vec(2.0, -3.7), Vec(0.6, -2.0)]
  {
    var r := TokenLocations(trig);
    forall i | 0 <= i < 4
      ensures r[4 + i] == Vec(-BASE_TOKEN_LOCATIONS[i].x, -BASE_TOKEN_LOCATIONS[i].y)
    {
      RotateHalfTurn(BASE_TOKEN_LOCATIONS[i], trig);
    }
    assert r[..4] == BASE_TOKEN_LOCATIONS;
  }

  /** With exact trigonometry the cans are point-symmetric about the
      arena's centre, and every one of them lies strictly inside the arena. */
  lemma {:induction false} TokenLocationsSymmetric(trig: Trig)
    requires trig.cos(PI) == -1.0 && trig.sin(PI) == 0.0
    ensures forall i :: 0 <= i < 4 ==>
      TokenLocations(trig)[4 + i] == Vec(-TokenLocations(trig)[i].x, -TokenLocations(trig)[i].y)
    ensures forall i :: 0 <= i < 8 ==> ArenaGeometry.ContainsPoint(Vec(8.0, 8.0), TokenLocations(trig)[i]).inside
  {
    TokenLocationsExact(trig);
    var r := TokenLocations(trig);
    assert r == [Vec(-3.5, -3.2), Vec(-2.8, -0.3), Vec(-2.0, 3.7), Vec(-0.6, 2.0),
                 Vec(3.5, 3.2), Vec(2.8, 0.3), Vec(2.0, -3.7), Vec(0.6, -2.0)];
    forall i | 0 <= i < 8 ensures ArenaGeometry.ContainsPoint(Vec(8.0, 8.0), r[i]).inside {
      assert -4.0 < r[i].x < 4.0 && -4.0 < r[i].y < 4.0;
    }
  }

  /** A plain or gold can at loc with heading 0, not held. */
  ghost predicate IsToken(o: Obj, loc: Vec, isGold: bool)
    reads o.Ref()
  {
    o.Tcr2018Token? && o.tcr2018Token.damping == TOKEN_DAMPING && o.tcr2018Token.isGold == isGold
    && o.tcr2018Token.Location() == loc && o.tcr2018Token.Heading() == 0.0 && !o.tcr2018Token.grabbed
  }

  /** items[n..] holds the eight cans at the eight locations, then the
      gold can left where its constructor put it. */
  ghost predicate CansAt(items: seq<Obj>, n: int, trig: Trig)
    reads Footprint(items)
  {
    0 <= n && |items| == n + 9
    && (forall k :: 0 <= k < 8 ==> IsToken(items[n + k], TokenLocations(trig)[k], false))
    && IsToken(items[n + 8], INITIAL_LOCATION, true)
  }

  /** Where a wall of the given size ends up whatever it was asked for: the
      base constructor's write of (0, 0) through the shifting setter. */
  function PlacedAt(dims: Vec): (r: Vec)
    ensures Sub(r, Vec(dims.x / 2.0, dims.y / 2.0)) == Vec(-4.0, -4.0)
  {
    ShiftedLocation(INITIAL_LOCATION, dims.x, dims.y)
  }

  /** A wall built from one of details: its size is one of theirs, its
      heading 0 and its location the one every wall of that size gets. */
  ghost predicate IsPlacedWall(w: TCRWall, details: seq<WallDetail>)
    reads w
  {
    (exists k :: 0 <= k < |details| && details[k].dims == Vec(w.Width(), w.Height()))
    && w.Location() == PlacedAt(Vec(w.Width(), w.Height())) && w.Heading() == 0.0
  }

  /** Every obstacle is 0.2 m square, so all eight of them, the turned
      copies included, end up centred on (-3.9, -3.9). */
  lemma {:induction false} ObstaclesCoincide(w: TCRWall)
    requires IsPlacedWall(w, OBSTACLE_DETAILS)
    ensures w.Location() == Vec(-3.9, -3.9)
  {
    var k :| 0 <= k < |OBSTACLE_DETAILS| && OBSTACLE_DETAILS[k].dims == Vec(w.Width(), w.Height());
    assert Vec(w.Width(), w.Height()) == Vec(0.2, 0.2);
  }

  /** w is the wall built for d: d's size, heading 0, and the location
      every wall of that size gets. */
  ghost predicate IsWallFor(w: TCRWall, d: WallDetail)
    reads w
  {
    Vec(w.Width(), w.Height()) == d.dims && w.Location() == PlacedAt(d.dims) && w.Heading() == 0.0
  }

  /** ws holds the walls of wseq, wseq[k] being the one built for
      details[k]; with |ws| == |details| they are all distinct. */
  ghost predicate WallPerDetail(ws: set<TCRWall>, wseq: seq<TCRWall>, details: seq<WallDetail>)
    reads ws
  {
    |wseq| == |details| && (forall w :: w in ws ==> w in wseq)
    && (forall k :: 0 <= k < |wseq| ==> wseq[k] in ws)
    && (forall k :: 0 <= k < |details| ==> IsWallFor(wseq[k], details[k]))
  }

  /** Two sets of walls built for the same details, joined. */
  lemma PerDetailConcat(ws: set<TCRWall>, wseq: seq<TCRWall>, vs: set<TCRWall>, vseq: seq<TCRWall>,
                        details: seq<WallDetail>)
    requires WallPerDetail(ws, wseq, details) && WallPerDetail(vs, vseq, details)
    ensures WallPerDetail(ws + vs, wseq + vseq, details + details)
  {
    var all := wseq + vseq;
    forall k | 0 <= k < |all| ensures IsWallFor(all[k], (details + details)[k]) {
      if k < |wseq| {
        assert all[k] == wseq[k];
      } else {
        assert all[k] == vseq[k - |wseq|];
      }
    }
  }

  /** A wall built for one of the details is one built from them. */
  lemma PlacedFromPerDetail(ws: set<TCRWall>, wseq: seq<TCRWall>, details: seq<WallDetail>)
    requires WallPerDetail(ws, wseq, details)
    ensures forall w :: w in ws ==> IsPlacedWall(w, details)
  {
    forall w | w in ws ensures IsPlacedWall(w, details) {
      var k :| 0 <= k < |wseq| && wseq[k] == w;
      assert details[k].dims == Vec(w.Width(), w.Height());
    }
  }

  /** One new wall per detail, each asked for at the detail's corner or,
      when mirrored, at the reflection of its far corner; all of them
      distinct new objects, wseq[k] the one for details[k]. */
  method MakeWalls(details: seq<WallDetail>, mirrored: bool, trig: Trig) returns (ws: set<TCRWall>, ghost wseq: seq<TCRWall>)
    ensures fresh(ws) && |ws| == |details|
    ensures forall w :: w in ws ==> IsPlacedWall(w, details)
    ensures WallPerDetail(ws, wseq, details)
  {
    ws, wseq := {}, [];
    for k := 0 to |details|
      invariant fresh(ws) && |ws| == k && |wseq| == k
      invariant forall w :: w in ws ==> w in wseq
      invariant forall j :: 0 <= j < k ==> wseq[j] in ws && IsWallFor(wseq[j], details[j])
    {
      var pos := if mirrored then RotatedPos(details[k], trig) else details[k].pos;
      var w := new TCRWall(details[k].dims, pos);
      ws, wseq := ws + {w}, wseq + [w];
    }
    PlacedFromPerDetail(ws, wseq, details);
  }

  /** The walls and obstacles with their turned copies: fourteen distinct
      new walls, wallOrder[k] and obstacleOrder[k] the ones built for the
      k-th entry of the lists repeated, the originals first. */
  method MakeWallSets(trig: Trig) returns (walls: set<TCRWall>, obstacles: set<TCRWall>,
                                           ghost wallOrder: seq<TCRWall>, ghost obstacleOrder: seq<TCRWall>)
    ensures fresh(walls) && fresh(obstacles)
    ensures |walls| == 6 && |obstacles| == 8 && walls !! obstacles
    ensures forall w :: w in walls ==> IsPlacedWall(w, WALL_DETAILS)
    ensures forall w :: w in obstacles ==> IsPlacedWall(w, OBSTACLE_DETAILS)
    ensures WallPerDetail(walls, wallOrder, WALL_DETAILS + WALL_DETAILS)
    ensures WallPerDetail(obstacles, obstacleOrder, OBSTACLE_DETAILS + OBSTACLE_DETAILS)
  {
    walls, wallOrder := MakeTurnedPairs(WALL_DETAILS, trig);
    obstacles, obstacleOrder := MakeTurnedPairs(OBSTACLE_DETAILS, trig);
    assert walls !! obstacles;
  }

  /** The walls of one list together with their turned copies, all new:
      one wall for each detail, then one more for each. */
  method MakeTurnedPairs(details: seq<WallDetail>, trig: Trig) returns (ws: set<TCRWall>, ghost wseq: seq<TCRWall>)
    ensures fresh(ws) && |ws| == 2 * |details|
    ensures forall w :: w in ws ==> IsPlacedWall(w, details)
    ensures WallPerDetail(ws, wseq, details + details)
  {
    var straight, s := MakeWalls(details, false, trig);
    var turned, t := MakeWalls(details, true, trig);
    assert straight !! turned;
    ws, wseq := straight + turned, s + t;
    PerDetailConcat(straight, s, turned, t, details);
    PlacedFromPerDetail(ws, wseq, details + details);
  }

  /** Where the wall for d would stand if the base constructor did not
      rewrite its location: the request read through the shifting setter,
      so that the wall's top-left corner is the requested one. */
  function IntendedAt(d: WallDetail, mirrored: bool, trig: Trig): (r: Vec)
    ensures Sub(r, Vec(d.dims.x / 2.0, d.dims.y / 2.0))
      == Sub(if mirrored then RotatedPos(d, trig) else d.pos, CENTRE)
  {
    ShiftedLocation(if mirrored then RotatedPos(d, trig) else d.pos, d.dims.x, d.dims.y)
  }

  /** Placed as intended, each turned copy would be its original turned a
      half turn about the arena's centre. */
  lemma IntendedCopiesTurned(d: WallDetail, trig: Trig)
    requires trig.cos(PI) == -1.0 && trig.sin(PI) == 0.0
    ensures IntendedAt(d, true, trig) == Vec(-IntendedAt(d, false, trig).x, -IntendedAt(d, false, trig).y)
  {
    RotatedPosExact(d, trig);
  }

  /** As built, each turned copy stands exactly on its original, and the
      first wall is neither where it nor its copy was meant to go. */
  lemma {:induction false} CopiesCoincide(ws: set<TCRWall>, wseq: seq<TCRWall>, trig: Trig)
    requires trig.cos(PI) == -1.0 && trig.sin(PI) == 0.0
    requires WallPerDetail(ws, wseq, WALL_DETAILS + WALL_DETAILS)
    ensures forall k :: 0 <= k < |WALL_DETAILS| ==> wseq[k].Location() == wseq[|WALL_DETAILS| + k].Location()
    ensures wseq[0].Location() != IntendedAt(WALL_DETAILS[0], false, trig)
    ensures wseq[|WALL_DETAILS|].Location() != IntendedAt(WALL_DETAILS[0], true, trig)
  {
    forall k | 0 <= k < |WALL_DETAILS|
      ensures wseq[k].Location() == wseq[|WALL_DETAILS| + k].Location()
    {
      assert IsWallFor(wseq[k], WALL_DETAILS[k]);
      assert IsWallFor(wseq[|WALL_DETAILS| + k], (WALL_DETAILS + WALL_DETAILS)[|WALL_DETAILS| + k]);
    }
    RotatedPosExact(WALL_DETAILS[0], trig);
    assert wseq[0].Location() == Vec(-3.4, -2.8);
  }

  /** The 2018 arena: the base arena plus the sets of walls and obstacles it
      keeps for drawing. */
  class TCRArena2018 {
    const arena: Arena
    var walls: set<TCRWall>
    var obstacles: set<TCRWall>
    /** The order the walls and obstacles were built in: the originals, then
        their turned copies. */
    ghost var wallOrder: seq<TCRWall>
    ghost var obstacleOrder: seq<TCRWall>

    /** Each wall and each obstacle was built for its detail, the originals
        first and then the turned copies, one distinct wall per entry. */
    ghost predicate WallsBuilt()
      reads this, walls, obstacles
    {
      WallPerDetail(walls, wallOrder, WALL_DETAILS + WALL_DETAILS)
      && WallPerDetail(obstacles, obstacleOrder, OBSTACLE_DETAILS + OBSTACLE_DETAILS)
    }

    /** TCRArena2018(objects): the base arena, then the walls and
        obstacles, then the cans. */
    constructor (objects: Option<ObjectList>, trig: Trig)
      modifies if objects.Some? then {objects.value} else {}
      ensures fresh(arena) && arena.size == Vec(8.0, 8.0)
      ensures objects.Some? ==> arena.objects == objects.value
      ensures objects.None? ==> fresh(arena.objects)
      ensures var n := if objects.Some? then |old(objects.value.items)| else 0;
        |arena.objects.items| == n + 14 + 9
        && (objects.Some? ==> arena.objects.items[..n] == old(objects.value.items))
      ensures |walls| == 6 && |obstacles| == 8 && walls !! obstacles && fresh(walls) && fresh(obstacles)
      ensures forall w :: w in walls ==> IsPlacedWall(w, WALL_DETAILS)
      ensures forall w :: w in obstacles ==> IsPlacedWall(w, OBSTACLE_DETAILS)
      ensures WallsBuilt()
      ensures WallsAt(arena.objects.items, if objects.Some? then |old(objects.value.items)| else 0, walls, obstacles)
      ensures CansAt(arena.objects.items, (if objects.Some? then |old(objects.value.items)| else 0) + 14, trig)
    {
      arena := new Arena(objects);
      walls, obstacles := {}, {};
      wallOrder, obstacleOrder := [], [];
      new;
      ghost var given := arena.objects.items;
      assert |given| == if objects.Some? then |old(objects.value.items)| else 0;
      Populate(trig);
    }

    /** The two steps of the constructor after the base arena: the walls
        and obstacles, then the cans, all after the objects already there. */
    method Populate(trig: Trig)
      modifies this, arena.objects
      ensures fresh(walls) && fresh(obstacles)
      ensures |walls| == 6 && |obstacles| == 8 && walls !! obstacles
      ensures forall w :: w in walls ==> IsPlacedWall(w, WALL_DETAILS)
      ensures forall w :: w in obstacles ==> IsPlacedWall(w, OBSTACLE_DETAILS)
      ensures WallsBuilt()
      ensures var n := |old(arena.objects.items)|;
        |arena.objects.items| == n + 14 + 9 && arena.objects.items[..n] == old(arena.objects.items)
        && WallsAt(arena.objects.items, n, walls, obstacles) && CansAt(arena.objects.items, n + 14, trig)
    {
      ghost var given := arena.objects.items;
      InitWalls(trig);
      ghost var walled := arena.objects.items;
      InitTokens(trig);
      assert WallsBuilt();
      WallsKept(given, walled, arena.objects.items, walls, obstacles);
    }

    /** Builds the walls and obstacles with their turned copies and appends
        every wall, then every obstacle, each set in an order it does not fix. */
    method InitWalls(trig: Trig)
      modifies this, arena.objects
      ensures |walls| == 6 && |obstacles| == 8 && walls !! obstacles && fresh(walls) && fresh(obstacles)
      ensures forall w :: w in walls ==> IsPlacedWall(w, WALL_DETAILS)
      ensures forall w :: w in obstacles ==> IsPlacedWall(w, OBSTACLE_DETAILS)
      ensures WallsBuilt()
      ensures var n := |old(arena.objects.items)|;
        |arena.objects.items| == n + 14 && arena.objects.items[..n] == old(arena.objects.items)
        && Appended(arena.objects.items, n, n + 6, walls)
        && Appended(arena.objects.items, n + 6, n + 14, obstacles)
    {
      var ws, os, wo, oo := MakeWallSets(trig);
      AppendWallSets(arena.objects, ws, os);
      walls, obstacles, wallOrder, obstacleOrder := ws, os, wo, oo;
    }

    /** Appends the eight cans at their locations, then the gold can at the
        location its constructor leaves. */
    method InitTokens(trig: Trig)
      modifies arena.objects
      ensures var n := |old(arena.objects.items)|;
        |arena.objects.items| == n + 9 && arena.objects.items[..n] == old(arena.objects.items)
      ensures CansAt(arena.objects.items, |old(arena.objects.items)|, trig)
    {
      var locations := TokenLocations(trig);
      var n0 := |arena.objects.items|;
      for k := 0 to |locations|
        invariant |arena.objects.items| == n0 + k
        invariant arena.objects.items[..n0] == old(arena.objects.items)
        invariant forall j :: 0 <= j < k ==> IsToken(arena.objects.items[n0 + j], locations[j], false)
      {
        var token := MakeToken(locations[k]);
        arena.objects.Append(Tcr2018Token(token));
      }
      var gold := new Token(TOKEN_DAMPING, true);
      arena.objects.Append(Tcr2018Token(gold));
    }
  }

  /** Token(self, damping=TOKEN_DAMPING), placed at loc facing 0. */
  method MakeToken(loc: Vec) returns (token: Token)
    ensures fresh(token) && IsToken(Tcr2018Token(token), loc, false)
  {
    token := new Token(TOKEN_DAMPING, false);
    token.SetLocation(loc);
    token.SetHeading(0.0);
  }

  /** items[lo..hi] holds exactly the walls of s, one entry each. */
  ghost predicate Appended(items: seq<Obj>, lo: int, hi: int, s: set<TCRWall>)
  {
    0 <= lo <= hi <= |items| && hi - lo == |s|
    && (forall i :: lo <= i < hi ==> items[i].Tcr2018Wall? && items[i].tcr2018Wall in s)
    && (forall w :: w in s ==> exists i :: lo <= i < hi && items[i] == Tcr2018Wall(w))
  }

  /** items[n..n+6] holds the walls and items[n+6..n+14] the obstacles. */
  ghost predicate WallsAt(items: seq<Obj>, n: int, walls: set<TCRWall>, obstacles: set<TCRWall>) {
    Appended(items, n, n + 6, walls) && Appended(items, n + 6, n + 14, obstacles)
  }

  /** items[n..] holds six walls of the listed wall sizes, then eight of the
      obstacle size, then the nine cans. */
  ghost predicate Layout(items: seq<Obj>, n: int, trig: Trig)
    reads Footprint(items)
  {
    0 <= n && |items| == n + 14 + 9
    && (forall i :: n <= i < n + 6 ==> items[i].Tcr2018Wall? && IsPlacedWall(items[i].tcr2018Wall, WALL_DETAILS))
    && (forall i :: n + 6 <= i < n + 14 ==>
          items[i].Tcr2018Wall? && IsPlacedWall(items[i].tcr2018Wall, OBSTACLE_DETAILS))
    && CansAt(items, n + 14, trig)
  }

  /** The arena's walls and obstacles, laid out in the list, give its layout. */
  lemma LayoutOf(items: seq<Obj>, n: int, walls: set<TCRWall>, obstacles: set<TCRWall>, trig: Trig)
    requires WallsAt(items, n, walls, obstacles) && CansAt(items, n + 14, trig)
    requires forall w :: w in walls ==> IsPlacedWall(w, WALL_DETAILS)
    requires forall w :: w in obstacles ==> IsPlacedWall(w, OBSTACLE_DETAILS)
    ensures Layout(items, n, trig)
  {
  }

  /** TCRArena2018(objects), seen as the list it fills: the given objects,
      then the walls, the obstacles and the cans. */
  method NewArena(objects: Option<ObjectList>, trig: Trig) returns (arena: Arena)
    modifies if objects.Some? then {objects.value} else {}
    ensures fresh(arena) && arena.size == Vec(8.0, 8.0)
    ensures objects.Some? ==> arena.objects == objects.value
    ensures objects.None? ==> fresh(arena.objects)
    ensures var given := if objects.Some? then old(objects.value.items) else [];
      |given| <= |arena.objects.items| && arena.objects.items[..|given|] == given
      && Layout(arena.objects.items, |given|, trig)
  {
    var a := new TCRArena2018(objects, trig);
    arena := a.arena;
    LayoutOf(arena.objects.items, if objects.Some? then |old(objects.value.items)| else 0, a.walls, a.obstacles, trig);
  }

  /** Appending the cans keeps the prefix and where the walls and the
      obstacles sit. */
  lemma WallsKept(given: seq<Obj>, walled: seq<Obj>, items: seq<Obj>, walls: set<TCRWall>, obstacles: set<TCRWall>)
    requires |walled| == |given| + 14 && walled[..|given|] == given
    requires Appended(walled, |given|, |given| + 6, walls) && Appended(walled, |given| + 6, |given| + 14, obstacles)
    requires |walled| <= |items| && items[..|walled|] == walled
    ensures items[..|given|] == given
    ensures WallsAt(items, |given|, walls, obstacles)
  {
    assert items[..|given|] == walled[..|given|];
    AppendedPrefix(items, walled, |given|, |given| + 6, walls);
    AppendedPrefix(items, walled, |given| + 6, |given| + 14, obstacles);
  }

  /** What holds of a prefix holds after more is appended. */
  lemma AppendedPrefix(items: seq<Obj>, prefix: seq<Obj>, lo: int, hi: int, s: set<TCRWall>)
    requires hi <= |prefix| <= |items| && items[..|prefix|] == prefix
    requires Appended(prefix, lo, hi, s)
    ensures Appended(items, lo, hi, s)
  {
    forall w | w in s
      ensures exists i :: lo <= i < hi && items[i] == Tcr2018Wall(w)
    {
      var i :| lo <= i < hi && prefix[i] == Tcr2018Wall(w);
      assert items[i] == prefix[i];
    }
  }

  /** Appends every wall, then every obstacle, each set in an order it does
      not fix. */
  method AppendWallSets(objects: ObjectList, walls: set<TCRWall>, obstacles: set<TCRWall>)
    modifies objects
    ensures var n := |old(objects.items)|;
      |objects.items| == n + |walls| + |obstacles| && objects.items[..n] == old(objects.items)
      && Appended(objects.items, n, n + |walls|, walls)
      && Appended(objects.items, n + |walls|, n + |walls| + |obstacles|, obstacles)
  {
    ghost var n := |objects.items|;
    AppendAll(objects, walls);
    ghost var mid := objects.items;
    AppendAll(objects, obstacles);
    assert objects.items[..n + |walls|] == mid;
    AppendedPrefix(objects.items, mid, n, n + |walls|, walls);
  }

  /** Appends every wall of s once, in an order the set does not fix. */
  method AppendAll(objects: ObjectList, s: set<TCRWall>)
    modifies objects
    ensures |objects.items| == |old(objects.items)| + |s|
    ensures objects.items[..|old(objects.items)|] == old(objects.items)
    ensures Appended(objects.items, |old(objects.items)|, |objects.items|, s)
  {
    var n0 := |objects.items|;
    var rest := s;
    while rest != {}
      invariant rest <= s
      invariant n0 <= |objects.items| && objects.items[..n0] == old(objects.items)
      invariant |objects.items| - n0 + |rest| == |s|
      invariant forall i :: n0 <= i < |objects.items| ==>
        objects.items[i].Tcr2018Wall? && objects.items[i].tcr2018Wall in s - rest
      invariant forall w :: w in s - rest ==> exists i :: n0 <= i < |objects.items| && objects.items[i] == Tcr2018Wall(w)
      decreases |rest|
    {
      var w :| w in rest;
      ghost var before := objects.items;
      objects.Append(Tcr2018Wall(w));
      assert objects.items[|before|] == Tcr2018Wall(w);
      forall v | v in s - (rest - {w})
        ensures exists i :: n0 <= i < |objects.items| && objects.items[i] == Tcr2018Wall(v)
      {
        if v != w {
          var i :| n0 <= i < |before| && before[i] == Tcr2018Wall(v);
          assert objects.items[i] == before[i];
        }
      }
      rest := rest - {w};
    }
    assert s - rest == s;
  }
}
