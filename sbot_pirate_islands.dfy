/** The sbot package's Pirate Islands arena. Its spot drawing and token
    placement are the same code as the simulator package's arena, so they
    are the members of PirateIslands; only the pedestals are its own class.
    The sbot package's base arena and token class are taken to be the
    simulator package's. */
module SbotPirateIslands {
  import opened Base
  import opened GameObjectBase
  import opened Sim
  import PirateIslands
  import SbotPirateIslandsObjects

  const START_LOCATIONS: seq<Vec> := [Vec(-3.6, -3.6), Vec(3.6, 3.6)]
  const START_HEADINGS: seq<real> := [PI / 2.0, -PI / 2.0]
  const PEDESTAL_LOCATIONS: seq<Vec> := [Vec(-2.0, 0.0), Vec(2.0, 0.0), Vec(0.0, -2.0), Vec(0.0, 2.0)]

  /** A pedestal at loc with heading 0. */
  ghost predicate IsPedestal(o: Obj, loc: Vec)
    reads o.Ref()
  {
    o.SbotPedestal? && o.sbotPedestal.Location() == loc && o.sbotPedestal.Heading() == 0.0
  }

  /** Appends the four pedestals at the listed locations, in order. */
  method InitPedestals(arena: Arena)
    modifies arena.objects
    ensures |arena.objects.items| == |old(arena.objects.items)| + |PEDESTAL_LOCATIONS|
    ensures arena.objects.items[..|old(arena.objects.items)|] == old(arena.objects.items)
    ensures forall k :: 0 <= k < |PEDESTAL_LOCATIONS| ==>
      IsPedestal(arena.objects.items[|old(arena.objects.items)| + k], PEDESTAL_LOCATIONS[k])
  {
    var n0 := |arena.objects.items|;
    for k := 0 to |PEDESTAL_LOCATIONS|
      invariant |arena.objects.items| == n0 + k
      invariant arena.objects.items[..n0] == old(arena.objects.items)
      invariant forall j :: 0 <= j < k ==> IsPedestal(arena.objects.items[n0 + j], PEDESTAL_LOCATIONS[j])
    {
      var pedestal := new SbotPirateIslandsObjects.Pedestal();
      pedestal.SetLocation(PEDESTAL_LOCATIONS[k]);
      arena.objects.Append(SbotPedestal(pedestal));
    }
  }

  /** PIArena(objects): the base arena, the pedestals, then the tokens. */
  method NewArena(objects: Option<ObjectList>, zones: seq<seq<int>>, trig: Trig, rand: seq<real>)
    returns (arena: Arena, r: Outcome)
    requires |zones| == 4
    modifies if objects.Some? then {objects.value} else {}
    ensures fresh(arena) && arena.size == Vec(8.0, 8.0)
    ensures objects.Some? ==> arena.objects == objects.value
    ensures objects.None? ==> fresh(arena.objects)
    ensures r == (if PirateIslands.Place(PirateIslands.SPOTS, PirateIslands.MIN_DIST, rand, []).None?
      then Fail(RandomExhausted) else Pass)
    ensures var n := if objects.Some? then |old(objects.value.items)| else 0;
      |arena.objects.items| >= n + 4
      && (objects.Some? ==> arena.objects.items[..n] == old(objects.value.items))
      && forall k :: 0 <= k < 4 ==> IsPedestal(arena.objects.items[n + k], PEDESTAL_LOCATIONS[k])
    ensures r.Pass? ==> var n := if objects.Some? then |old(objects.value.items)| else 0;
      var ps := PirateIslands.AllPlacements(
        PirateIslands.Place(PirateIslands.SPOTS, PirateIslands.MIN_DIST, rand, []).value, zones, trig);
      |arena.objects.items| == n + 4 + |ps|
      && forall j :: 0 <= j < |ps| ==> PirateIslands.IsZoneToken(arena.objects.items[n + 4 + j], ps[j])
  {
    arena := new Arena(objects);
    ghost var given := arena.objects.items;
    InitPedestals(arena);
    ghost var placed := arena.objects.items;
    r := PirateIslands.InitTokens(arena, zones, trig, rand);
    ghost var items := arena.objects.items;
    assert items[..|placed|] == placed;
    assert items[..|given|] == placed[..|given|];
    assert forall j :: |given| <= j < |given| + 4 ==> items[j] == placed[j];
  }
}
