# sr-turtle core, modelled in Dafny

This project models the robot-facing logic of the sr-turtle robot simulator, a
Python program. It covers the following:

- **The simulated robot (`SimRobot`):**
  - its motor channels and its motor board, with the voltage check and clamping;
  - the servo board's ultrasound pin table and the 21-ray ultrasound fan;
  - the grab/release state machine;
  - the camera's filter, map and sort pipeline;
  - the per-tick wheel dispatch.
- **The arena base class:** bounds, corners, `contains_point`, the colour helpers, the constructor's list handling, and the tick order.
- **The game objects:** tokens, walls, wall markers and pedestals of the three games.
- **Arena construction for the three games:** Tin Can Rally, Tin Can Rally 2018 and Pirate Islands, including Pirate Islands' rejection sampler `random_pos_spaced`.
- **Game selection:** the `Simulator` constructor and its `run` guard.
- **The sbot package:** its `GameObject` base class and its Pirate Islands arena.

Modules follow the source files:

| module | models |
|---|---|
| `Base` | shared helpers: `Option`, `Result`, error kinds, 2-D vectors, and trigonometry supplied as a parameter |
| `Sorting` | a stable sort by key, which stands in for Python's `sorted`/`list.sort` |
| `Physics` | the few physics-world operations the core calls, recorded as a call log plus a joint set |
| `Motors` | the motor channel and motor board |
| `Vision` | the `PolarCoord` and `Marker` records, and `str(marker)` |
| `ArenaGeometry` | the pure helpers of `arena.py` |
| `GameObjectBase` | the base class's defaults and initial pose |
| `Markers`, `TinCanRallyObjects`, `TinCanRally2018Objects`, `PirateIslandsObjects` | the game objects |
| `TinCanRally`, `TinCanRally2018`, `PirateIslands` | arena construction for each game |
| `Sim` | the arena class, the object list, the robot, the servo board and the camera |
| `Simulator` | game selection |
| `SbotGameObject`, `SbotPirateIslandsObjects`, `SbotPirateIslands` | the sbot package |

**How the model represents what Python leaves dynamic:**

- **Arena objects of different classes** are one sum type, `Sim.Obj`. Its members answer the questions the robot asks of any object: location, marker id, grabbable, grabbed, and whether it has a body.
- **A physics body** is folded into its owner as position, angle and velocity.
- **`atan2`, `hypot`, `sin` and `cos`** are fields of a `Trig` value passed in, so they are uninterpreted. Results that need exact values take `cos(pi) == -1`, `sin(pi) == 0` and the like as preconditions.
- **Ray casts** come from a function parameter.
- **`random.random()`** is a finite stream of draws given as input.

## Model

| member | source | states |
|---|---|---|
| `Base.RotateHalfTurn` | sb/robot/arenas/tin_can_rally_2018.py:148-157 | with exact cos/sin of pi, rotating by pi negates both coordinates |
| `ArenaGeometry.TowardsZero` | sb/robot/arenas/arena.py:25-29 | for 0 <= dist <= |point|, the range every caller uses, the result is `dist` closer to zero: its magnitude drops by `dist` and its sign is kept; 0 takes the subtracting branch and gives `-dist` |
| `ArenaGeometry.Lerp` | sb/robot/arenas/arena.py:43-44 | `lerp(0,a,b) = a`, `lerp(1,a,b) = b`, and the result moves from a by `delta` times `b - a` |
| `ArenaGeometry.LerpBetween` | sb/robot/arenas/arena.py:43-44 | for `delta` in [0,1] the result lies between a and b, whichever is larger |
| `ArenaGeometry.ApplyTransparency` | sb/robot/arenas/arena.py:32-35 | component-wise lerp over the shorter of the two colours (as `map` stops at the shorter); opacity 1 gives the foreground, opacity 0 the background |
| `ArenaGeometry.Corners` | sb/robot/arenas/arena.py:92-113 | exactly four corners, in the order (left,top), (right,top), (right,bottom), (left,bottom), with left = -w/2, right = w/2, top = -h/2, bottom = h/2 |
| `ArenaGeometry.ContainsPoint` | sb/robot/arenas/arena.py:161-168 | inside iff strictly within both bounds, and then no axis and no clamp; a failing x reports axis 0 even when y fails too; only a passing x with a failing y reports axis 1; the clamped value lies within the failing axis's bounds |
| `ArenaGeometry.CornersOutside` | sb/robot/arenas/arena.py:161-168 | every corner of the arena counts as outside, on axis 0, clamped to its own x |
| `Sorting.SortByFacts` | sb/robot/sim_robot.py:191-192 | the sort's output is sorted by key and is a permutation of its input, and elements with equal keys keep their input order (stability) |
| `Sorting.SortByHead` | sb/robot/sim_robot.py:257-260 | the first element after sorting a non-empty list has the smallest key of all elements |
| `Motors.ClampPower` | sb/robot/sim_robot.py:37-41 | the stored power lies in [-100,100], equals the value when already in range, and saturates at the nearer bound otherwise |
| `Motors.MotorChannel.constructor` | sb/robot/sim_robot.py:29-31 | a channel starts at power 0 |
| `Motors.MotorChannel.SetPower` | sb/robot/sim_robot.py:37-41 | the power becomes the clamped value |
| `Motors.CheckVoltage` | sb/robot/sim_robot.py:58-61 | a value passes iff it is COAST or a number in [-1,1]; anything else is a ValueError |
| `Motors.WriteMotor` | sb/robot/sim_robot.py:67-79 | a valid value is stored at its index only; a rejected value leaves every entry unchanged |
| `Motors.MotorBoard.constructor` | sb/robot/sim_robot.py:51-53 | both motors start at BRAKE, which is 0 |
| `Motors.MotorBoard.SetM0` | sb/robot/sim_robot.py:67-70 | reports the voltage check's verdict; m0 takes the value only when it passes, and m1 is untouched |
| `Motors.MotorBoard.SetM1` | sb/robot/sim_robot.py:76-79 | the same for m1, with m0 untouched |
| `Vision.MarkerTextNamesId` | sb/robot/vision.py:17-18 | the text of a marker begins "Marker {id}," and reading the id back from it gives the marker's id, whatever the float formatting |
| `Markers.TokenSurfaceName` | sb/robot/markers.py:49-51 | 'sb/token_grabbed.png' when grabbed and 'sb/token.png' otherwise |
| `Markers.Token.constructor` | sb/robot/markers.py:9-25 | a token keeps its damping and marker id, starts ungrabbed, and sits at (0,0) with heading 0, written by the base constructor through the body setters |
| `Markers.Token.SetLocation` | sb/robot/markers.py:31-33 | a location read returns the written position; heading and grabbed are unchanged |
| `Markers.Token.SetHeading` | sb/robot/markers.py:39-41 | a heading read returns the written angle; location and grabbed are unchanged |
| `Markers.Token.Grab` | sb/robot/markers.py:43-44 | grabbed becomes true; the body is untouched |
| `Markers.Token.Release` | sb/robot/markers.py:46-47 | grabbed becomes false; the body is untouched |
| `Markers.WallMarker.constructor` | sb/robot/markers.py:57-61 | the wall marker ends with exactly the given marker id, location and heading |
| `TinCanRallyObjects.TCRWall.constructor` | sb/robot/arenas/tin_can_rally.py:34-46 | a wall starts at (0,0) with heading 0 |
| `TinCanRallyObjects.TCRWall.SetLocation` | sb/robot/arenas/tin_can_rally.py:21-23 | get after set returns the written position; heading is unchanged |
| `TinCanRallyObjects.TCRWall.SetHeading` | sb/robot/arenas/tin_can_rally.py:30-32 | get after set returns the written heading; location is unchanged |
| `TinCanRallyObjects.Token.constructor` | sb/robot/arenas/tin_can_rally.py:68-83 | the number argument is accepted and dropped; a token keeps its damping and starts ungrabbed at (0,0) with heading 0 |
| `TinCanRallyObjects.Token.SetLocation` | sb/robot/arenas/tin_can_rally.py:56-58 | get after set returns the written position; heading and grabbed are unchanged |
| `TinCanRallyObjects.Token.SetHeading` | sb/robot/arenas/tin_can_rally.py:64-66 | get after set returns the written heading; location and grabbed are unchanged |
| `TinCanRallyObjects.Token.Grab` | sb/robot/arenas/tin_can_rally.py:85-86 | grabbed becomes true; the body is untouched |
| `TinCanRallyObjects.Token.Release` | sb/robot/arenas/tin_can_rally.py:88-89 | grabbed becomes false; the body is untouched |
| `TinCanRally.InitWalls` | sb/robot/arenas/tin_can_rally.py:125-130 | appends exactly one wall, at (0,0), after the existing objects |
| `TinCanRally.InitTokens` | sb/robot/arenas/tin_can_rally.py:108-123 | appends exactly six new tokens after the existing objects; the k-th (built with number k, which is dropped) is at the k-th listed location with heading 0 |
| `TinCanRally.NewArena` | sb/robot/arenas/tin_can_rally.py:103-106 | an 8x8 arena keeps the caller's list (or a fresh one) and its existing objects, then holds the wall at (0,0), then the six tokens in list order |
| `TinCanRally2018Objects.Translate` | sb/robot/arenas/tin_can_rally_2018.py:60-61 | each vertex is shifted by the offset, with count and order kept |
| `TinCanRally2018Objects.TranslateBack` | sb/robot/arenas/tin_can_rally_2018.py:60-61 | shifting by an offset and then by its negation gives back the vertices |
| `TinCanRally2018Objects.ShiftedLocation` | sb/robot/arenas/tin_can_rally_2018.py:20-23 | the stored position is the written one moved by (w/2 - 4, h/2 - 4) |
| `TinCanRally2018Objects.ShiftedLocationIdentity` | sb/robot/arenas/tin_can_rally_2018.py:20-23 | get after set is the identity iff the wall is 8 by 8 |
| `TinCanRally2018Objects.TCRWall.constructor` | sb/robot/arenas/tin_can_rally_2018.py:41-58 | width and height are the dims and the vertices form the centred rectangle; because the base constructor rewrites location (0,0) after `self.location = pos`, the wall ends at (w/2 - 4, h/2 - 4), whatever pos was |
| `TinCanRally2018Objects.TCRWall.SetLocation` | sb/robot/arenas/tin_can_rally_2018.py:20-23 | the location becomes the shifted position; heading is unchanged |
| `TinCanRally2018Objects.TCRWall.SetHeading` | sb/robot/arenas/tin_can_rally_2018.py:37-39 | get after set returns the written heading; location is unchanged |
| `TinCanRally2018Objects.TCRWall.GetCorners` | sb/robot/arenas/tin_can_rally_2018.py:60-61 | as many corners as vertices; shifting the corners back by the location gives the vertices |
| `TinCanRally2018Objects.NewWallCorners` | sb/robot/arenas/tin_can_rally_2018.py:41-61 | a newly built wall spans from (-4,-4) to (w - 4, h - 4) |
| `TinCanRally2018Objects.CanSurfaceName` | sb/robot/arenas/tin_can_rally_2018.py:105-108 | all four combinations: 'sb/can.png', 'sb/can_grabbed.png', 'sb/goldcan.png', 'sb/goldcan_grabbed.png' |
| `TinCanRally2018Objects.Token.constructor` | sb/robot/arenas/tin_can_rally_2018.py:83-97 | a can keeps its damping and gold flag, starts ungrabbed at (0,0) with heading 0 |
| `TinCanRally2018Objects.Token.SetLocation` | sb/robot/arenas/tin_can_rally_2018.py:71-73 | get after set returns the written position; heading and grabbed are unchanged |
| `TinCanRally2018Objects.Token.SetHeading` | sb/robot/arenas/tin_can_rally_2018.py:79-81 | get after set returns the written heading; location and grabbed are unchanged |
| `TinCanRally2018Objects.Token.Grab` | sb/robot/arenas/tin_can_rally_2018.py:99-100 | grabbed becomes true; the body is untouched |
| `TinCanRally2018Objects.Token.Release` | sb/robot/arenas/tin_can_rally_2018.py:102-103 | grabbed becomes false; the body is untouched |
| `TinCanRally2018.Reflect` | sb/robot/arenas/tin_can_rally_2018.py:142-146 | the reflected point, seen from the centre (4,4), is the original rotated by pi |
| `TinCanRally2018.ReflectExact` | sb/robot/arenas/tin_can_rally_2018.py:142-146 | with exact trigonometry, reflect maps (x,y) to (8 - x, 8 - y) and is an involution |
| `TinCanRally2018.RotatedPosExact` | sb/robot/arenas/tin_can_rally_2018.py:176-177 | the mirrored wall's requested position is (8 - x - w, 8 - y - h) |
| `TinCanRally2018.TokenLocations` | sb/robot/arenas/tin_can_rally_2018.py:122-131 | eight locations: the four listed, then each of them rotated by pi about the origin, in the same order |
| `TinCanRally2018.TokenLocationsExact` | sb/robot/arenas/tin_can_rally_2018.py:122-131 | with exact trigonometry the last four are the negations of the first four |
| `TinCanRally2018.TokenLocationsSymmetric` | sb/robot/arenas/tin_can_rally_2018.py:122-131 | the cans are point-symmetric about the arena's centre, and all eight lie strictly inside the arena |
| `TinCanRally2018.PlacedAt` | sb/robot/arenas/tin_can_rally_2018.py:57-58 | where a wall ends: its lower-left corner is (-4,-4) |
| `TinCanRally2018.ObstaclesCoincide` | sb/robot/arenas/tin_can_rally_2018.py:167-181 | every obstacle, original or mirrored, ends at (-3.9,-3.9) |
| `TinCanRally2018.MakeWalls` | sb/robot/arenas/tin_can_rally_2018.py:173-181 | one distinct new wall for each detail, the k-th built with the k-th detail's width and height, heading 0 and the location the constructor gives that size (`WallPerDetail`) |
| `TinCanRally2018.MakeWallSets` | sb/robot/arenas/tin_can_rally_2018.py:159-184 | 6 new walls and 8 new obstacles in disjoint sets: two walls built for each of the three wall details (two 1.20x2.40 pairs and one 1.22x1.22 pair) and two for each of the four 0.2x0.2 obstacle details |
| `TinCanRally2018.MakeTurnedPairs` | sb/robot/arenas/tin_can_rally_2018.py:173-184 | twice as many distinct new walls as details: one built for each detail, then one more for each, each with that detail's size, heading 0 and the location the constructor gives that size |
| `TinCanRally2018.AppendWallSets` | sb/robot/arenas/tin_can_rally_2018.py:186-187 | appends every wall and then every obstacle after the existing objects, each set once and in an order of its choosing |
| `TinCanRally2018.IntendedAt` | sb/robot/arenas/tin_can_rally_2018.py:57 | where a wall would stand if its requested corner were kept: the wall's corner is the requested one moved by (-4,-4) into the arena's centred frame |
| `TinCanRally2018.IntendedCopiesTurned` | sb/robot/arenas/tin_can_rally_2018.py:176-181 | placed as requested, each turned copy would be its original turned a half turn about the arena's centre |
| `TinCanRally2018.CopiesCoincide` | sb/robot/arenas/tin_can_rally_2018.py:57-58 | as built, each turned wall stands exactly on its original, and the first wall is at neither requested place |
| `TinCanRally2018.TCRArena2018.InitWalls` | sb/robot/arenas/tin_can_rally_2018.py:159-187 | builds the two sets, one wall per detail and one per turned copy with that detail's size (`WallsBuilt`), and appends all 14 walls after the existing objects, walls first, each set in some order |
| `TinCanRally2018.TCRArena2018.InitTokens` | sb/robot/arenas/tin_can_rally_2018.py:122-140 | appends the eight cans at the eight locations with heading 0, then a gold can last, which stays at (0,0) |
| `TinCanRally2018.TCRArena2018.constructor` | sb/robot/arenas/tin_can_rally_2018.py:117-120 | an 8x8 arena keeps the caller's list (or a fresh one) and its objects, then the 6 walls and then the 8 obstacles, each set new, built one per detail and per turned copy with that detail's size (`WallsBuilt`), and in some order, then the 9 cans |
| `TinCanRally2018.TCRArena2018.Populate` | sb/robot/arenas/tin_can_rally_2018.py:119-120 | after the objects already in the list: the 14 new walls (`WallsBuilt`, `WallsAt`), then the 9 cans (`CansAt`) |
| `TinCanRally2018.NewArena` | sb/robot/arenas/tin_can_rally_2018.py:117-120 | the list the 2018 arena fills: the given objects, then six walls of the wall sizes, eight of the obstacle size, and the nine cans (`Layout`) |
| `TinCanRally2018.AppendAll` | sb/robot/arenas/tin_can_rally_2018.py:186-187 | appends every element of a set exactly once, in an order of the set's choosing, after the existing objects |
| `PirateIslandsObjects.Pedestal.constructor` | sb/robot/arenas/pirate_islands.py:38-50 | a pedestal starts at (0,0) with heading 0 |
| `PirateIslandsObjects.Pedestal.SetLocation` | sb/robot/arenas/pirate_islands.py:26-28 | get after set returns the written position; heading is unchanged |
| `PirateIslandsObjects.Pedestal.SetHeading` | sb/robot/arenas/pirate_islands.py:34-36 | get after set returns the written heading; location is unchanged |
| `PirateIslands.FartherThanSymmetric` | sb/robot/arenas/pirate_islands.py:86-87 | the spacing test does not depend on argument order |
| `PirateIslands.CandidateInBox` | sb/robot/arenas/pirate_islands.py:91-92 | a candidate drawn from two values in [0,1) has both coordinates in [0.07, 1.77) |
| `PirateIslands.PlaceFacts` | sb/robot/arenas/pirate_islands.py:80-97 | when drawing finishes it yields exactly k more positions after the earlier ones; all pairs are more than min_dist apart; with draws in [0,1) every position is in the box |
| `PirateIslands.FirstCandidateAccepted` | sb/robot/arenas/pirate_islands.py:89-96 | the first candidate is always kept |
| `PirateIslands.RandomPosSpaced` | sb/robot/arenas/pirate_islands.py:80-97 | the retry loop computes `Place`: a rejected candidate leaves the list unchanged and is retried; the result is None only when the draws run out (sbot/arenas/pirate_islands.py:82-99 is the same loop) |
| `PirateIslands.InitPedestals` | sb/robot/arenas/pirate_islands.py:111-116 | appends four pedestals at (-2,0), (2,0), (0,-2), (0,2), in that order, after the existing objects |
| `PirateIslands.ZoneZeroSquare` | sb/robot/arenas/pirate_islands.py:105-107 | with exact trigonometry a zone-0 token from a spot in the box lies in (-1.92, -0.22] on both axes |
| `PirateIslands.ZonePlacements` | sb/robot/arenas/pirate_islands.py:103-109 | a zone places min(spots, ids) tokens; the i-th carries the zone's i-th id at the i-th spot rotated into the zone |
| `PirateIslands.AppendZone` | sb/robot/arenas/pirate_islands.py:103-109 | appends one zone's tokens, in order, with heading 0, after the existing objects |
| `PirateIslands.InitTokens` | sb/robot/arenas/pirate_islands.py:99-109 | draws four spots; if the draws run out nothing is appended; otherwise the tokens of the four zones are appended zone by zone, each with its zone's ids in order and heading 0 (sbot/arenas/pirate_islands.py:101-111 is the same method) |
| `PirateIslands.NewArena` | sb/robot/arenas/pirate_islands.py:63-66 | an 8x8 arena keeps the caller's list (or a fresh one) and its objects, then the four pedestals, then the tokens |
| `SbotGameObject.GameObject.constructor` | sbot/game_object.py:12-16 | the fields start at location (0,0) and heading 0, written directly |
| `SbotGameObject.GameObject.SetLocation` | sbot/game_object.py:32-34 | the surviving location setter writes the heading field and leaves the location field unchanged |
| `SbotGameObject.GameObject.SetHeading` | sbot/game_object.py:28-30 | heading has no setter: assigning it is an AttributeError |
| `SbotGameObject.ShadowedLocationWrite` | sbot/game_object.py:20-34 | on a new object, writing location (1,2) reads back (0,0), turns the heading into (1,2), and a heading write fails |
| `SbotGameObject.IntendedGameObject.SetLocation` | sbot/game_object.py:24-26 | with the intended setters, a location write reads back and leaves heading alone |
| `SbotGameObject.IntendedGameObject.SetHeading` | sbot/game_object.py:32-34 | with the intended setters, a heading write reads back and leaves location alone |
| `SbotGameObject.IntendedRoundTrip` | sbot/game_object.py:20-34 | with the intended class, writing a location and then a heading reads both back |
| `SbotPirateIslandsObjects.Pedestal.constructor` | sbot/arenas/pirate_islands.py:41-54 | an sbot pedestal starts at (0,0) with heading 0, and its base fields hold (0,0) and 0 |
| `SbotPirateIslandsObjects.Pedestal.SetLocation` | sbot/arenas/pirate_islands.py:29-31 | the pedestal's own property overrides the base class's, so get after set returns the position and the base fields are untouched |
| `SbotPirateIslandsObjects.Pedestal.SetHeading` | sbot/arenas/pirate_islands.py:37-39 | get after set returns the heading; location and base fields are untouched |
| `SbotPirateIslands.InitPedestals` | sbot/arenas/pirate_islands.py:113-118 | appends four sbot pedestals at (-2,0), (2,0), (0,-2), (0,2), in order |
| `SbotPirateIslands.NewArena` | sbot/arenas/pirate_islands.py:65-68 | the same arena as the simulator package's, with sbot pedestals |
| `Sim.Arena.constructor` | sb/robot/arenas/arena.py:155-157 | the arena is 8x8 with an empty world; it keeps the caller's list object when one is given, and a fresh empty list otherwise |
| `Sim.TickAllOnlyRobots` | sb/robot/arenas/arena.py:175-177 | only objects with a tick (robots) act, three calls each, every call on one of the robots' bodies |
| `Sim.Arena.Tick` | sb/robot/arenas/arena.py:170-177 | one world step with 8 velocity and 3 position iterations, then each robot's tick calls in list order; the object list is unchanged |
| `Sim.TickCalls` | sb/robot/sim_robot.py:333-351 | left wheel (-w/2, m0) before right wheel (+w/2, m1); each wheel coasts iff its value is COAST and is otherwise driven with value x 100; the lateral-cancelling impulse comes last |
| `Sim.SimRobot.Tick` | sb/robot/sim_robot.py:333-351 | logs exactly those calls, reading `motor_board` (not `motors[0]`), and changes no joint |
| `Sim.SimRobot.constructor` | sb/robot/sim_robot.py:266-287 | the robot starts at rest at (0,0) with heading 0, in zone 0, holding nothing; `motors[0]` and `motor_board` are two different boards at BRAKE; the robot is appended to the arena's objects |
| `Sim.SimRobot.SetLocation` | sb/robot/sim_robot.py:210-215 | get after set returns the written position; heading, velocity and holding are unchanged |
| `Sim.SimRobot.SetHeading` | sb/robot/sim_robot.py:222-227 | get after set returns the written heading; location, velocity and holding are unchanged |
| `Sim.UltrasoundOffset` | sb/robot/sim_robot.py:93-103 | a module exists exactly on the pin pairs (6,7), (8,9), (10,11), pointing 0, pi/2 and -pi/2 |
| `Sim.ServoBoard.ReadUltrasound` | sb/robot/sim_robot.py:99-123 | unknown pins give 0.0 without a ping; otherwise the ping's distance, with no echo reported as 0.0 |
| `Sim.SpreadOffsets` | sb/robot/sim_robot.py:235-244 | 21 offsets from -10 to +10 degrees, 0 in the middle, symmetric about the centre ray |
| `Sim.PingDistance` | sb/robot/sim_robot.py:254-264 | None iff there are no hits; otherwise 4.0 times a hit's fraction that no other hit undercuts, so it lies in [0,4] when the fractions are in [0,1] |
| `Sim.SimRobot.SendUltrasoundPing` | sb/robot/sim_robot.py:229-264 | the ping is the nearest hit over the whole fan cast from the body's centre, and None iff the fan has no hits |
| `Sim.GrabCandidates` | sb/robot/sim_robot.py:363-371 | exactly the indices, in increasing arena order, of objects that are grabbable, within 0.4 (inclusive), strictly inside the ±pi/4 sector by raw angle difference, and not grabbed |
| `Sim.SimRobot.Grab` | sb/robot/sim_robot.py:355-385 | already holding: AlreadyHolding and nothing changes; no candidate: False and nothing changes; otherwise it holds the first candidate, marks only that object grabbed with its heading kept, welds a new joint iff the object has a body, returns True, and leaves every other listed object unchanged; pose, zone, boards, camera, list and physics log are kept |
| `Sim.SimRobot.Attach` | sb/robot/sim_robot.py:372-383 | holds the target, creates the joint at the grabber offset iff it has a body, marks it grabbed with its pose kept, keeps the robot's pose, zone, boards and camera, and leaves every other listed object unchanged |
| `Sim.SimRobot.Release` | sb/robot/sim_robot.py:387-397 | returns whether something was held; idle: nothing changes; otherwise the held object is ungrabbed with its pose kept, its joint destroyed iff it has a body, nothing is held, and every other listed object is unchanged; pose, zone, boards and camera are kept |
| `Sim.SimRobot.Detach` | sb/robot/sim_robot.py:389-394 | the held object is ungrabbed with its pose kept and every other listed object is unchanged; the weld is destroyed iff the object has a body; nothing is held afterwards; pose, zone, boards and camera are kept |
| `Sim.MarkGrabbedRestores` | sb/robot/sim_robot.py:382-394 | marking an ungrabbed object grabbed and then ungrabbed restores every object's state |
| `Sim.GrabReleaseGrab` | sb/robot/sim_robot.py:355-397 | grab, release, grab again succeeds each time and ends holding the same first candidate |
| `Sim.Visible` | sb/robot/sim_robot.py:155-161 | exactly the objects with a marker, strictly inside the ±pi/6 field of view by raw angle difference, and not blurred |
| `Sim.VisibleCount` | sb/robot/sim_robot.py:155-161 | an object in view is kept once per occurrence in the list, and an object out of view not at all |
| `Sim.VisibleAppend` | sb/robot/sim_robot.py:155-161 | filtering a concatenation is filtering each part, in order, so the kept objects keep the arena's order |
| `Sim.ToMarkers` | sb/robot/sim_robot.py:169-191 | one marker per visible object, in order, each with its id, its size from the table, and its distance and bearing |
| `Sim.SeeMarkers` | sb/robot/sim_robot.py:133-192 | KeyError iff a visible marker has no size; otherwise the markers of the visible objects, sorted by distance, a permutation of them, and stable on ties |
| `Sim.SeeWhileMoving` | sb/robot/sim_robot.py:144-161 | a robot moving faster than 5 sees nothing |
| `Sim.SeeOnlyInView` | sb/robot/sim_robot.py:155-161 | every reported marker comes from an object in view, with its bearing strictly inside ±pi/6 |
| `Sim.SeeAllInView` | sb/robot/sim_robot.py:155-192 | every object in view is reported |
| `Simulator.LookupGame` | sb/robot/simulator.py:10-26 | the three listed names select their arenas; any other text or None is a KeyError; an unhashable list is a TypeError |
| `Simulator.GameOf` | sb/robot/simulator.py:19-26 | a missing 'game' entry selects 'tin-can-rally-2018' |
| `Simulator.ArenaObjects` | sb/robot/simulator.py:27 | any keyword other than `objects` is a TypeError; a given list is used as is; None or no entry gives a fresh list |
| `Simulator.Selection` | sb/robot/simulator.py:19-27 | succeeds iff the game is known and the remaining entries are acceptable arguments; an unknown game fails before any arena exists |
| `Simulator.DefaultSelection` | sb/robot/simulator.py:8-27 | with no configuration the 2018 arena is built on a fresh list |
| `Simulator.SelectedGameListed` | sb/robot/simulator.py:8-26 | every selected game is one of the listed ones |
| `Simulator.Simulator.Run` | sb/robot/simulator.py:40-44 | RuntimeError iff the simulator runs in the background |
| `Simulator.TakeGameName` | sb/robot/simulator.py:19-25 | the 'game' entry, deleted from the caller's dictionary, or the default name when there is none; the entries left are the rest |
| `Simulator.BuildArena` | sb/robot/simulator.py:26-27 | builds the arena class of the game on the given list or a fresh one: 8x8, the given objects kept in front, then the game's own layout (`ArenaLayout`); only Pirate Islands fails, exactly when its draws run out |
| `Simulator.StartGame` | sb/robot/simulator.py:26-32 | a new simulator around that arena, with the game, background flag and frame rate, or the arena's failure |
| `Simulator.NewSimulator` | sb/robot/simulator.py:17-38 | removes 'game' from the caller's dictionary; fails with the selection's error before building anything; otherwise builds the selected 8x8 arena on the given list or a fresh one, keeping the given objects in front of the selected game's layout (`Built`): the centre wall and six cans for Tin Can Rally, fourteen walls and nine cans for 2018, four pedestals and the zone tokens for Pirate Islands; Pirate Islands fails only when the draws run out |

## Left out

- Physics: the physics world's step, ray casting, joints, forces and impulses are a foreign library. `Physics.World` only records the calls made on it and the joints that exist. The wheel-force arithmetic and the lateral-impulse arithmetic are not modelled, only which call is made, with which wheel offset and power.
- Floating point: all numbers are exact reals. `atan2`, `hypot`, `sin` and `cos` are uninterpreted functions supplied as a `Trig` value, and `degrees` is exact.
- Square root: the distance test in `random_pos_spaced` is stated on squared distances, which is equivalent for non-negative reals.
- A body's world centre is taken to be its position.
- The arena's four boundary walls built in `_init_physics` are physics bodies only and are not modelled.
- Locks: the per-object locks and `physics_lock` are not modelled, and neither is the simulator's background thread.
- Timing: the camera's `time.sleep(0.2)` and `time.time()` are not modelled.
- Drawing: `draw_background`, `draw_triangular_corner_zones`, `draw_motif`, `fade_to_white`, the display and `_main_loop` are pygame rendering.
- `Simulator.NewSimulator`: the `size` argument is unused by the source and is left out. The display is not built. The layout it states for the 2018 arena gives each wall's size, not the pairing of each wall with its own detail, which the 2018 arena's constructor states.
- `random.random()`: modelled as a finite stream of draws. When the stream runs out before enough spots are accepted, the result is None, or the RandomExhausted error. In the source the loop would keep drawing, and it need not terminate.
- `game_specific`: `MARKER_SIZES`, the `WALL`/`TOKEN` id sets and `TOKEN_ZONE_*` are not part of this model. They are parameters: the camera's `MarkerTable` and the `zones` argument.
- Camera predicates: the `is_wall_marker`/`is_token_marker` closures and the "NOT SUPPORTED" pixel and cartesian fields are carried as plain values.
- `Sim.Camera.See` reads the robot's state and hands it to `Sim.SeeMarkers`. It carries no contract of its own; the properties are stated on `Sim.SeeMarkers` and its lemmas.
- `Sim.Camera.See`: the `o is not self` test compares objects with the camera, so it never excludes anything. The model drops it; the robot is left out only because it has no marker id.
- Set iteration order: the order in which `_init_walls` appends its two sets is arbitrary in the source. `TinCanRally2018.AppendAll` chooses each next element nondeterministically, so the contracts hold for every order.
- `TinCanRally.NewArena`: the contract does not restate that the tokens are new objects (the constructor of each token does). It states their locations and headings.
- The SimRobot constructor's writes of location (0,0) and heading 0 through the base constructor happen while the body does not exist yet, and are dropped as in the source. The robot starts at the body's (0,0) and 0.
- sb/robot/arenas/__init__.py does not export `TCRArena2018`, although simulator.py imports it. The model assumes the import succeeds.
- The run.py script, test.py and test2.py: user-facing scripts with input, threads and infinite loops.
- sbot/arenas/scavengers.py: it does not parse.
- sbot/vision.py: its record field lists are set literals, so their order is not fixed.
- The sbot package's base arena (sbot/arenas/arena.py) and token class (sbot/markers.py) are not part of this model. The sbot Pirate Islands arena is built on the simulator package's arena and token classes.
- `Sim.ServoBoard.ReadUltrasound`: the help listing of valid pin pairs printed for unknown pins is console output and is not modelled. Only the 0.0 result is.
- `TinCanRally2018Objects.TCRWall.constructor`: the vertices are the polygon fixture's vertices as the physics library returns them. The model assumes the library keeps the four given corners in the given order. `TinCanRally2018Objects.NewWallCorners` relies on that order for "the first corner is (-4,-4)".
- `Sim.SimRobot.Valid` does not state that the held object's joint is in the world's joint set. `Sim.SimRobot.Release` therefore removes the recorded joint from the set without promising that the set held it.
- `TinCanRally2018.IntendedAt` is not used to build the arena. The arena is modelled as written, with every wall at the location the base constructor gives its size; see "## Findings".
- `Motors.MotorBoard`: the motor values are numbers or COAST. A non-numeric value other than COAST, which Python would reject with a TypeError, cannot be written.

## Findings

| source | as written | input that shows it | evidently intended | confidence | as-written member | corrected member |
|---|---|---|---|---|---|---|
| sbot/game_object.py:32-34 | the second property setter is declared as `@location.setter`, so it replaces the location setter, and heading gets no setter | on a new object, `o.location = (1, 2)` leaves `o.location == (0, 0)` and makes `o.heading == (1, 2)`; `o.heading = 0.5` raises AttributeError | `@heading.setter` writing `_heading`, so each property reads back what was written | not executed | `SbotGameObject.ShadowedLocationWrite` | `SbotGameObject.IntendedRoundTrip` |
| sb/robot/arenas/tin_can_rally_2018.py:57-58 | the wall's constructor stores the requested corner, then calls the base constructor, which writes (0,0) through the same setter | every wall ends at (w/2 - 4, h/2 - 4): the 1.20x2.40 wall requested at (1.50, 1.55) and its turned copy both end at (-3.4, -2.8), and all eight obstacles at (-3.9, -3.9) | each wall keeps its requested corner, so the turned copies stand a half turn away from their originals | not executed | `TinCanRally2018.CopiesCoincide` | `TinCanRally2018.IntendedCopiesTurned` |
