/** The Pirate Islands arena: four pedestals round the centre and, in each
    of the four corner zones, tokens at the same randomly drawn spots turned
    a quarter turn further per zone. Random numbers come from a supplied
    stream; running out of it stands for a draw that never ends. */
module PirateIslands {
  import opened Base
  import opened GameObjectBase
  import opened Sim
  import Markers
  import PirateIslandsObjects

  const START_LOCATIONS: seq<Vec> := [Vec(-3.6, -3.6), Vec(3.6, 3.6)]
  const START_HEADINGS: seq<real> := [PI / 2.0, -PI / 2.0]
  const PEDESTAL_LOCATIONS: seq<Vec> := [Vec(-2.0, 0.0), Vec(2.0, 0.0), Vec(0.0, -2.0), Vec(0.0, 2.0)]
  const TOKEN_DAMPING: real := 5.0
  /** random_pos_spaced's default spacing and the number of spots drawn. */
  const MIN_DIST: real := 0.3
  const SPOTS: nat := 4

  /* ------------------------------------------------------------------ */
  /* Spaced random positions                                             */

  /** dist(a, b) > m, with dist the square root of the squared distance. */
  predicate FartherThan(a: Vec, b: Vec, m: real) {
    m < 0.0 || SqDist(a, b) > m * m
  }

  lemma FartherThanSymmetric(a: Vec, b: Vec, m: real)
    ensures FartherThan(a, b, m) <==> FartherThan(b, a, m)
  {
    assert SqDist(a, b) == SqDist(b, a);
  }

  /** A spot built from two draws: 0.07 + r * 1.7 on each axis. */
  function Candidate(r1: real, r2: real): Vec {
    Vec(0.07 + r1 * 1.7, 0.07 + r2 * 1.7)
  }

  /** The square every spot lies in when the draws are in [0, 1). */
  predicate InBox(p: Vec) {
    0.07 <= p.x < 1.77 && 0.07 <= p.y < 1.77
  }

  lemma CandidateInBox(r1: real, r2: real)
    requires 0.0 <= r1 < 1.0 && 0.0 <= r2 < 1.0
    ensures InBox(Candidate(r1, r2))
  {
  }

  /** The acceptance test: no spots yet, or the nearest one farther than m. */
  predicate Accepts(positions: seq<Vec>, pos: Vec, m: real) {
    positions == [] || forall i :: 0 <= i < |positions| ==> FartherThan(pos, positions[i], m)
  }

  /** Every pair of spots is more than m apart. */
  ghost predicate Spaced(ps: seq<Vec>, m: real) {
    forall i, j :: 0 <= i < j < |ps| ==> FartherThan(ps[j], ps[i], m)
  }

  predicate UnitDraws(rand: seq<real>) {
    forall i :: 0 <= i < |rand| ==> 0.0 <= rand[i] < 1.0
  }

  /** What drawing k more spots after acc yields: a candidate from the next
      two draws is kept when it passes the test and retried otherwise; None
      when the stream runs out first. */
  function Place(k: nat, m: real, rand: seq<real>, acc: seq<Vec>): Option<seq<Vec>>
    decreases |rand|
  {
    if k == 0 then Some(acc)
    else if |rand| < 2 then None
    else
      var c := Candidate(rand[0], rand[1]);
      if Accepts(acc, c, m) then Place(k - 1, m, rand[2..], acc + [c])
      else Place(k, m, rand[2..], acc)
  }

  /** What random_pos_spaced promises: exactly k more spots, the earlier
      ones kept, every pair more than m apart, every spot in the box. */
  lemma {:induction false} PlaceFacts(k: nat, m: real, rand: seq<real>, acc: seq<Vec>)
    requires Place(k, m, rand, acc).Some?
    ensures var ps := Place(k, m, rand, acc).value;
      |ps| == |acc| + k && ps[..|acc|] == acc
      && (Spaced(acc, m) ==> Spaced(ps, m))
      && (UnitDraws(rand) && (forall i :: 0 <= i < |acc| ==> InBox(acc[i])) ==>
            forall i :: 0 <= i < |ps| ==> InBox(ps[i]))
    decreases |rand|
  {
    if k == 0 {
    } else {
      var c := Candidate(rand[0], rand[1]);
      assert UnitDraws(rand) ==> UnitDraws(rand[2..]);
      if Accepts(acc, c, m) {
        var acc' := acc + [c];
        PlaceFacts(k - 1, m, rand[2..], acc');
        assert acc'[..|acc|] == acc;
        var ps := Place(k, m, rand, acc).value;
        assert ps[..|acc|] == acc' [..|acc'|][..|acc|];
        if Spaced(acc, m) {
          forall i, j | 0 <= i < j < |acc'|
            ensures FartherThan(acc'[j], acc'[i], m)
          {
            if j == |acc| {
              assert acc'[i] == acc[i];
            } else {
              assert acc'[j] == acc[j] && acc'[i] == acc[i];
            }
          }
        }
        if UnitDraws(rand) {
          CandidateInBox(rand[0], rand[1]);
        }
      } else {
        PlaceFacts(k, m, rand[2..], acc);
      }
    }
  }

  /** The first candidate is always kept: with nothing placed it passes. */
  lemma FirstCandidateAccepted(k: nat, m: real, rand: seq<real>)
    requires k > 0 && |rand| >= 2
    ensures Place(k, m, rand, []) == Place(k - 1, m, rand[2..], [Candidate(rand[0], rand[1])])
  {
    assert [] + [Candidate(rand[0], rand[1])] == [Candidate(rand[0], rand[1])];
  }

  /** random_pos_spaced(n, min_dist): for each of n spots, draws candidates
      until one is farther than min_dist from every spot kept so far. */
  method RandomPosSpaced(n: nat, minDist: real, rand: seq<real>) returns (r: Option<seq<Vec>>)
    ensures r == Place(n, minDist, rand, [])
  {
    var positions: seq<Vec> := [];
    var next := 0;
    for i := 0 to n
      invariant next <= |rand|
      invariant Place(n, minDist, rand, []) == Place(n - i, minDist, rand[next..], positions)
    {
      while true
        invariant next <= |rand|
        invariant Place(n, minDist, rand, []) == Place(n - i, minDist, rand[next..], positions)
        decreases |rand| - next
      {
        if next + 2 > |rand| {
          return None;
        }
        var pos := Candidate(rand[next], rand[next + 1]);
        assert rand[next..][2..] == rand[next + 2..];
        next := next + 2;
        if Accepts(positions, pos, minDist) {
          positions := positions + [pos];
          break;
        }
      }
    }
    return Some(positions);
  }

  /* ------------------------------------------------------------------ */
  /* Pedestals and tokens                                                */

  /** The centre pedestals, at the listed locations in order. */
  ghost predicate IsPedestal(o: Obj, loc: Vec)
    reads o.Ref()
  {
    o.Pedestal? && o.pedestal.Location() == loc && o.pedestal.Heading() == INITIAL_HEADING
  }

  method InitPedestals(arena: Arena)
    modifies arena.objects
    ensures |arena.objects.items| == |old(arena.objects.items)| + |PEDESTAL_LOCATIONS|
    ensures arena.objects.items[..|old(arena.objects.items)|] == old(arena.objects.items)
    ensures forall k :: 0 <= k < |PEDESTAL_LOCATIONS| ==>
      IsPedestal(arena.objects.items[|old(arena.objects.items)| + k], PEDESTAL_LOCATIONS[k])
  {
    var n0 := |arena.objects.items|;
    for k := 0 to |PEDESTAL_LOCATIONS|
      invariant |arena.objects.items| == n0 + k
      invariant arena.objects.items[..n0] == old(arena.objects.items)
      invariant forall j :: 0 <= j < k ==> IsPedestal(arena.objects.items[n0 + j], PEDESTAL_LOCATIONS[j])
    {
      var pedestal := new PirateIslandsObjects.Pedestal();
      pedestal.SetLocation(PEDESTAL_LOCATIONS[k]);
      arena.objects.Append(Pedestal(pedestal));
    }
  }

  /** A token's marker id and location. */
  datatype Placement = Placement(markerId: int, location: Vec)

  /** Where a spot lands in zone z: pushed 0.15 further from the centre,
      mirrored through the origin, then turned by z quarter turns. */
  function ZoneLocation(spot: Vec, z: nat, trig: Trig): Vec {
    Rotate(Vec(-(spot.x + 0.15), -(spot.y + 0.15)), z as real * (PI / 2.0), trig)
  }

  /** With exact trigonometry, zone 0's tokens lie in the square
      (-1.92, -0.22] on both axes. */
  lemma ZoneZeroSquare(spot: Vec, trig: Trig)
    requires trig.cos(0.0) == 1.0 && trig.sin(0.0) == 0.0
    requires InBox(spot)
    ensures var p := ZoneLocation(spot, 0, trig);
      -1.92 < p.x <= -0.22 && -1.92 < p.y <= -0.22
  {
    assert 0 as real * (PI / 2.0) == 0.0;
  }

  /** The tokens of zone z: the spots paired with the zone's ids, as far as
      the shorter of the two goes. */
  function ZonePlacements(spots: seq<Vec>, ids: seq<int>, z: nat, trig: Trig): (r: seq<Placement>)
    ensures |r| == Min(|spots|, |ids|)
    ensures forall i :: 0 <= i < |r| ==> r[i] == Placement(ids[i], ZoneLocation(spots[i], z, trig))
  {
    seq(Min(|spots|, |ids|), i requires 0 <= i < Min(|spots|, |ids|) =>
      Placement(ids[i], ZoneLocation(spots[i], z, trig)))
  }

  /** The tokens of every zone, zone 0 first. */
  function AllPlacements(spots: seq<Vec>, zones: seq<seq<int>>, trig: Trig): seq<Placement>
  {
    if zones == [] then []
    else
      var last := |zones| - 1;
      AllPlacements(spots, zones[..last], trig) + ZonePlacements(spots, zones[last], last, trig)
  }

  /** The tokens of the first z zones come first, unchanged. */
  lemma {:induction false} AllPlacementsPrefix(spots: seq<Vec>, zones: seq<seq<int>>, trig: Trig, z: nat)
    requires z <= |zones|
    ensures var front := AllPlacements(spots, zones[..z], trig);
      |front| <= |AllPlacements(spots, zones, trig)| && AllPlacements(spots, zones, trig)[..|front|] == front
    decreases |zones|
  {
    if z == |zones| {
      assert zones[..z] == zones;
    } else {
      var init := zones[..|zones| - 1];
      AllPlacementsPrefix(spots, init, trig, z);
      assert init[..z] == zones[..z];
    }
  }

  /** The first z + 1 zones place the first z zones' tokens, then zone z's. */
  lemma AllPlacementsStep(spots: seq<Vec>, zones: seq<seq<int>>, trig: Trig, z: nat)
    requires z < |zones|
    ensures AllPlacements(spots, zones[..z + 1], trig)
      == AllPlacements(spots, zones[..z], trig) + ZonePlacements(spots, zones[z], z, trig)
  {
    var zs := zones[..z + 1];
    assert zs[..|zs| - 1] == zones[..z];
  }

  /** Zone z's block starts after the tokens of the zones before it, holds
      min(spots, ids) tokens and carries the zone's ids in order. */
  lemma {:induction false} ZoneBlock(spots: seq<Vec>, zones: seq<seq<int>>, trig: Trig, z: nat)
    requires z < |zones|
    ensures |AllPlacements(spots, zones[..z + 1], trig)|
      == |AllPlacements(spots, zones[..z], trig)| + Min(|spots|, |zones[z]|)
    ensures |AllPlacements(spots, zones[..z + 1], trig)| <= |AllPlacements(spots, zones, trig)|
    ensures forall i :: 0 <= i < Min(|spots|, |zones[z]|) ==>
      AllPlacements(spots, zones, trig)[|AllPlacements(spots, zones[..z], trig)| + i]
        == Placement(zones[z][i], ZoneLocation(spots[i], z, trig))
  {
    AllPlacementsStep(spots, zones, trig, z);
    AllPlacementsPrefix(spots, zones, trig, z + 1);
    var front := AllPlacements(spots, zones[..z], trig);
    var block := ZonePlacements(spots, zones[z], z, trig);
    forall i | 0 <= i < |block|
      ensures AllPlacements(spots, zones, trig)[|front| + i] == block[i]
    {
      PrefixIndex(AllPlacements(spots, zones, trig), front, block, i);
    }
  }

  /** An element of the second part of a prefix, found in the whole. */
  lemma PrefixIndex<T>(all: seq<T>, front: seq<T>, block: seq<T>, i: nat)
    requires |front + block| <= |all| && all[..|front + block|] == front + block
    requires i < |block|
    ensures all[|front| + i] == block[i]
  {
    assert all[|front| + i] == all[..|front + block|][|front| + i];
  }

  /** A token with the given placement, heading 0 and not held. */
  ghost predicate IsZoneToken(o: Obj, p: Placement)
    reads o.Ref()
  {
    o.MarkerToken? && o.token.markerId == Some(p.markerId) && o.token.damping == TOKEN_DAMPING
    && o.token.Location() == p.location && o.token.Heading() == 0.0 && !o.token.grabbed
  }

  /** items[n..] holds the four pedestals at the listed locations, then
      one token per placement, in order. */
  ghost predicate Layout(items: seq<Obj>, n: int, ps: seq<Placement>)
    reads Footprint(items)
  {
    0 <= n && |items| == n + |PEDESTAL_LOCATIONS| + |ps|
    && (forall k :: 0 <= k < |PEDESTAL_LOCATIONS| ==> IsPedestal(items[n + k], PEDESTAL_LOCATIONS[k]))
    && forall j :: 0 <= j < |ps| ==> IsZoneToken(items[n + |PEDESTAL_LOCATIONS| + j], ps[j])
  }

  /** The inner loop of _init_tokens: one new token per placement of zone
      z, in order. */
  method AppendZone(arena: Arena, spots: seq<Vec>, ids: seq<int>, z: nat, trig: Trig)
    modifies arena.objects
    ensures var block := ZonePlacements(spots, ids, z, trig);
      |arena.objects.items| == |old(arena.objects.items)| + |block|
      && arena.objects.items[..|old(arena.objects.items)|] == old(arena.objects.items)
      && forall j :: 0 <= j < |block| ==> IsZoneToken(arena.objects.items[|old(arena.objects.items)| + j], block[j])
  {
    var n0 := |arena.objects.items|;
    ghost var block := ZonePlacements(spots, ids, z, trig);
    for i := 0 to Min(|spots|, |ids|)
      invariant |arena.objects.items| == n0 + i
      invariant arena.objects.items[..n0] == old(arena.objects.items)
      invariant forall j :: 0 <= j < i ==> IsZoneToken(arena.objects.items[n0 + j], block[j])
    {
      var token := new Markers.Token(TOKEN_DAMPING, Some(ids[i]));
      token.SetLocation(ZoneLocation(spots[i], z, trig));
      token.SetHeading(0.0);
      arena.objects.Append(MarkerToken(token));
    }
  }

  /** _init_tokens: draws four spots, then appends each zone's tokens; fails
      only when the random stream runs out. */
  method InitTokens(arena: Arena, zones: seq<seq<int>>, trig: Trig, rand: seq<real>) returns (r: Outcome)
    requires |zones| == 4
    modifies arena.objects
    ensures r == (if Place(SPOTS, MIN_DIST, rand, []).None? then Fail(RandomExhausted) else Pass)
    ensures r.Fail? ==> arena.objects.items == old(arena.objects.items)
    ensures r.Pass? ==> var ps := AllPlacements(Place(SPOTS, MIN_DIST, rand, []).value, zones, trig);
      |arena.objects.items| == |old(arena.objects.items)| + |ps|
      && arena.objects.items[..|old(arena.objects.items)|] == old(arena.objects.items)
      && forall j :: 0 <= j < |ps| ==> IsZoneToken(arena.objects.items[|old(arena.objects.items)| + j], ps[j])
  {
    var spots := RandomPosSpaced(SPOTS, MIN_DIST, rand);
    if spots.None? {
      return Fail(RandomExhausted);
    }
    var n0 := |arena.objects.items|;
    for z := 0 to |zones|
      invariant |arena.objects.items| == n0 + |AllPlacements(spots.value, zones[..z], trig)|
      invariant arena.objects.items[..n0] == old(arena.objects.items)
      invariant forall j :: 0 <= j < |AllPlacements(spots.value, zones[..z], trig)| ==>
        IsZoneToken(arena.objects.items[n0 + j], AllPlacements(spots.value, zones[..z], trig)[j])
    {
      ghost var before := AllPlacements(spots.value, zones[..z], trig);
      ghost var block := ZonePlacements(spots.value, zones[z], z, trig);
      assert zones[..z + 1][..z] == zones[..z];
      assert AllPlacements(spots.value, zones[..z + 1], trig) == before + block;
      ghost var prev := arena.objects.items;
      AppendZone(arena, spots.value, zones[z], z, trig);
      assert arena.objects.items[..n0 + |before|] == prev;
      assert forall j :: n0 <= j < n0 + |before| ==> arena.objects.items[j] == prev[j];
    }
    assert zones[..|zones|] == zones;
    return Pass;
  }

  /** PIArena(objects): the base arena, the pedestals, then the tokens. */
  method NewArena(objects: Option<ObjectList>, zones: seq<seq<int>>, trig: Trig, rand: seq<real>)
    returns (arena: Arena, r: Outcome)
    requires |zones| == 4
    modifies if objects.Some? then {objects.value} else {}
    ensures fresh(arena) && arena.size == Vec(8.0, 8.0)
    ensures objects.Some? ==> arena.objects == objects.value
    ensures objects.None? ==> fresh(arena.objects)
    ensures r == (if Place(SPOTS, MIN_DIST, rand, []).None? then Fail(RandomExhausted) else Pass)
    ensures var n := if objects.Some? then |old(objects.value.items)| else 0;
      |arena.objects.items| >= n + 4
      && (objects.Some? ==> arena.objects.items[..n] == old(objects.value.items))
      && forall k :: 0 <= k < 4 ==> IsPedestal(arena.objects.items[n + k], PEDESTAL_LOCATIONS[k])
    ensures r.Pass? ==> var n := if objects.Some? then |old(objects.value.items)| else 0;
      var ps := AllPlacements(Place(SPOTS, MIN_DIST, rand, []).value, zones, trig);
      |arena.objects.items| == n + 4 + |ps|
      && forall j :: 0 <= j < |ps| ==> IsZoneToken(arena.objects.items[n + 4 + j], ps[j])
    ensures r.Pass? ==> Layout(arena.objects.items, if objects.Some? then |old(objects.value.items)| else 0,
      AllPlacements(Place(SPOTS, MIN_DIST, rand, []).value, zones, trig))
  {
    arena := new Arena(objects);
    ghost var given := arena.objects.items;
    InitPedestals(arena);
    ghost var placed := arena.objects.items;
    r := InitTokens(arena, zones, trig, rand);
    ghost var items := arena.objects.items;
    assert items[..|placed|] == placed;
    assert items[..|given|] == placed[..|given|];
    assert forall j :: |given| <= j < |given| + 4 ==> items[j] == placed[j];
  }
}
