/** Game selection: the simulator takes the game's name out of the
    caller's configuration, looks the arena class up by that name and
    builds it from the remaining entries as keyword arguments. The
    background thread and the display are not modelled. */
module Simulator {
  import opened Base
  import opened Sim
  import PirateIslands
  import TinCanRally
  import TinCanRally2018

  /** The three arena classes. */
  datatype Game = TinCanRally2018Game | TinCanRallyGame | PirateIslandsGame

  const DEFAULT_GAME: string := "tin-can-rally-2018"

  const GAMES: map<string, Game> := map[
    "tin-can-rally-2018" := TinCanRally2018Game,
    "tin-can-rally" := TinCanRallyGame,
    "pirate-islands" := PirateIslandsGame]

  /** A value in the configuration dictionary: text, an object list, or None. */
  datatype ConfigValue = Text(s: string) | Objects(list: ObjectList) | NoneValue

  /** The caller's configuration dictionary, which the simulator edits. */
  class Config {
    var entries: map<string, ConfigValue>

    constructor (entries: map<string, ConfigValue>)
      ensures this.entries == entries
    {
      this.entries := entries;
    }
  }

  /** GAMES[name]: a known name selects its arena; any other text or None
      is a missing key; a list cannot be hashed. */
  function LookupGame(name: ConfigValue): (r: Result<Game>)
    ensures r.Success? <==> name.Text? && name.s in GAMES
    ensures r.Success? ==> r.value == GAMES[name.s]
    ensures r.Failure? ==> r.error == (if name.Objects? then TypeError else KeyError)
  {
    match name
    case Text(s) => if s in GAMES then Success(GAMES[s]) else Failure(KeyError)
    case NoneValue => Failure(KeyError)
    case Objects(_) => Failure(TypeError)
  }

  /** The game a configuration selects: its 'game' entry, or the default
      when there is none. */
  function GameOf(entries: map<string, ConfigValue>): (r: Result<Game>)
    ensures "game" !in entries ==> r == Success(TinCanRally2018Game)
    ensures "game" in entries ==> r == LookupGame(entries["game"])
  {
    LookupGame(if "game" in entries then entries["game"] else Text(DEFAULT_GAME))
  }

  /** Every arena class takes only `objects`: any other keyword is a
      TypeError. None or no entry gives a fresh list, a list is used as it
      is, and text is kept as the list until the first append fails. */
  function ArenaObjects(rest: map<string, ConfigValue>): (r: Result<Option<ObjectList>>)
    ensures r.Failure? <==>
      (exists k :: k in rest && k != "objects") || ("objects" in rest && rest["objects"].Text?)
    ensures r.Success? && r.value.Some? <==> "objects" in rest && rest["objects"].Objects? && r.Success?
    ensures r.Success? && r.value.Some? ==> rest["objects"] == Objects(r.value.value)
  {
    if exists k :: k in rest && k != "objects" then Failure(TypeError)
    else if "objects" !in rest then Success(None)
    else match rest["objects"]
      case NoneValue => Success(None)
      case Objects(list) => Success(Some(list))
      case Text(_) => Failure(AttributeError)
  }

  /** The entries left once 'game' is taken out. */
  function Rest(entries: map<string, ConfigValue>): map<string, ConfigValue> {
    entries - {"game"}
  }

  /** What a configuration selects: the game and the objects argument, or
      the exception raised before any arena exists. */
  function Selection(entries: map<string, ConfigValue>): (r: Result<(Game, Option<ObjectList>)>)
    ensures r.Success? <==> GameOf(entries).Success? && ArenaObjects(Rest(entries)).Success?
    ensures r.Success? ==> r.value == (GameOf(entries).value, ArenaObjects(Rest(entries)).value)
    ensures GameOf(entries).Failure? ==> r == Failure(GameOf(entries).error)
  {
    match GameOf(entries)
    case Failure(e) => Failure(e)
    case Success(game) =>
      match ArenaObjects(Rest(entries))
      case Failure(e) => Failure(e)
      case Success(objects) => Success((game, objects))
  }

  /** With no configuration, or one naming no game, the 2018 arena is
      built on a fresh list. */
  lemma DefaultSelection()
    ensures Selection(map[]) == Success((TinCanRally2018Game, None))
  {
    assert !(exists k :: k in Rest(map[]) && k != "objects");
  }

  /** Every selected game is one of the listed ones, by the name given or
      by the default, and the default is listed. */
  lemma {:induction false} SelectedGameListed(entries: map<string, ConfigValue>)
    requires GameOf(entries).Success?
    ensures exists name :: name in GAMES && GAMES[name] == GameOf(entries).value
  {
    if "game" in entries {
      var name := entries["game"].s;
      assert name in GAMES && GAMES[name] == GameOf(entries).value;
    } else {
      assert DEFAULT_GAME in GAMES && GAMES[DEFAULT_GAME] == GameOf(entries).value;
    }
  }

  /** items[n..] holds what the arena class of game appends after the n
      objects it was given. */
  ghost predicate ArenaLayout(game: Game, items: seq<Obj>, n: int, trig: Trig, zones: seq<seq<int>>, rand: seq<real>)
    reads Footprint(items)
  {
    match game
    case TinCanRallyGame => TinCanRally.Layout(items, n)
    case TinCanRally2018Game => TinCanRally2018.Layout(items, n, trig)
    case PirateIslandsGame =>
      var spots := PirateIslands.Place(PirateIslands.SPOTS, PirateIslands.MIN_DIST, rand, []);
      spots.Some? && PirateIslands.Layout(items, n, PirateIslands.AllPlacements(spots.value, zones, trig))
  }

  /** items starts with given. */
  ghost predicate Extends(items: seq<Obj>, given: seq<Obj>) {
    |given| <= |items| && items[..|given|] == given
  }

  /** arena is an 8x8 arena of game's class on the objects argument (when
      one was given), holding the given objects and then what the class
      appends. */
  ghost predicate Built(arena: Arena, game: Game, objects: Option<ObjectList>, given: seq<Obj>,
                        trig: Trig, zones: seq<seq<int>>, rand: seq<real>)
    reads arena, arena.objects, Footprint(arena.objects.items)
  {
    arena.size == Vec(8.0, 8.0) && (objects.Some? ==> arena.objects == objects.value)
    && Extends(arena.objects.items, given) && ArenaLayout(game, arena.objects.items, |given|, trig, zones, rand)
  }

  /** GAMES[game](objects=...): builds the arena class of game on the given
      list or a fresh one; only Pirate Islands can fail, when its random
      draws run out. */
  method BuildArena(game: Game, objects: Option<ObjectList>, trig: Trig, zones: seq<seq<int>>, rand: seq<real>)
    returns (arena: Arena, r: Outcome)
    requires |zones| == 4
    modifies if objects.Some? then {objects.value} else {}
    ensures r == if game == PirateIslandsGame
      && PirateIslands.Place(PirateIslands.SPOTS, PirateIslands.MIN_DIST, rand, []).None?
      then Fail(RandomExhausted) else Pass
    ensures fresh(arena) && arena.size == Vec(8.0, 8.0)
    ensures objects.Some? ==> arena.objects == objects.value
    ensures objects.None? ==> fresh(arena.objects)
    ensures r.Pass? ==> Built(arena, game, objects, if objects.Some? then old(objects.value.items) else [],
                              trig, zones, rand)
  {
    match game {
      case TinCanRally2018Game =>
        arena := TinCanRally2018.NewArena(objects, trig);
        r := Pass;
      case TinCanRallyGame =>
        arena := TinCanRally.NewArena(objects);
        r := Pass;
      case PirateIslandsGame =>
        arena, r := PirateIslands.NewArena(objects, zones, trig, rand);
    }
  }

  /** Builds the arena of game and a simulator around it, or fails as the
      arena does. */
  method StartGame(game: Game, objects: Option<ObjectList>, background: bool, framesPerSecond: int,
                   trig: Trig, zones: seq<seq<int>>, rand: seq<real>) returns (r: Result<Simulator>)
    requires |zones| == 4
    modifies if objects.Some? then {objects.value} else {}
    ensures r.Failure? <==>
      game == PirateIslandsGame && PirateIslands.Place(PirateIslands.SPOTS, PirateIslands.MIN_DIST, rand, []).None?
    ensures r.Failure? ==> r.error == RandomExhausted
    ensures r.Success? ==>
      fresh(r.value) && r.value.game == game
      && r.value.background == background && r.value.framesPerSecond == framesPerSecond
      && (objects.None? ==> fresh(r.value.arena.objects))
      && Built(r.value.arena, game, objects, if objects.Some? then old(objects.value.items) else [], trig, zones, rand)
  {
    var arena, outcome := BuildArena(game, objects, trig, zones, rand);
    if outcome.Fail? {
      return Failure(outcome.error);
    }
    var sim := new Simulator(arena, game, background, framesPerSecond);
    r := Success(sim);
  }

  /** The lists a configuration can hand to an arena. */
  function ObjectsArgument(config: Option<Config>): set<object>
    reads if config.Some? then {config.value} else {}
  {
    if config.Some? && "objects" in config.value.entries && config.value.entries["objects"].Objects?
    then {config.value.entries["objects"].list} else {}
  }

  class Simulator {
    /** The arena, and the class it was built from. */
    const arena: Arena
    const game: Game
    const background: bool
    const framesPerSecond: int

    constructor (arena: Arena, game: Game, background: bool, framesPerSecond: int)
      ensures this.arena == arena && this.game == game
      ensures this.background == background && this.framesPerSecond == framesPerSecond
    {
      this.arena := arena;
      this.game := game;
      this.background := background;
      this.framesPerSecond := framesPerSecond;
    }

    /** A simulator that runs in the background refuses to run in the
        foreground; otherwise the display loop runs. */
    method Run() returns (r: Outcome)
      ensures r == Fail(RuntimeError) <==> background
      ensures !background ==> r == Pass
    {
      if background {
        return Fail(RuntimeError);
      }
      r := Pass;
    }
  }

  /** The name of the game the configuration asks for, taken out of the
      caller's dictionary when it is there, else the default; and the
      entries left for the arena. */
  method TakeGameName(config: Option<Config>) returns (name: ConfigValue, entries: map<string, ConfigValue>)
    modifies if config.Some? then {config.value} else {}
    ensures var given := if config.Some? then old(config.value.entries) else map[];
      name == (if "game" in given then given["game"] else Text(DEFAULT_GAME)) && entries == Rest(given)
    ensures config.Some? ==> config.value.entries == entries
  {
    entries := map[];
    if config.Some? {
      entries := config.value.entries;
    }
    name := Text(DEFAULT_GAME);
    if "game" in entries {
      name := entries["game"];
      entries := entries - {"game"};
      if config.Some? {
        config.value.entries := entries;
      }
    }
  }

  /** Simulator(config, size, frames_per_second, background): takes 'game'
      out of the caller's dictionary, even when the name turns out to be
      unknown, then builds the selected arena. */
  method NewSimulator(config: Option<Config>, background: bool, framesPerSecond: int,
                      trig: Trig, zones: seq<seq<int>>, rand: seq<real>) returns (r: Result<Simulator>)
    requires |zones| == 4
    modifies (if config.Some? then {config.value} else {}) + ObjectsArgument(config)
    ensures config.Some? ==> config.value.entries == Rest(old(config.value.entries))
    ensures var sel := Selection(if config.Some? then old(config.value.entries) else map[]);
      (sel.Failure? ==> r == Failure(sel.error))
      && (sel.Success? && sel.value.0 == PirateIslandsGame
            && PirateIslands.Place(PirateIslands.SPOTS, PirateIslands.MIN_DIST, rand, []).None?
          ==> r == Failure(RandomExhausted))
      && (sel.Success? && (sel.value.0 != PirateIslandsGame
            || PirateIslands.Place(PirateIslands.SPOTS, PirateIslands.MIN_DIST, rand, []).Some?)
          ==> r.Success? && fresh(r.value) && r.value.game == sel.value.0
              && r.value.background == background && r.value.framesPerSecond == framesPerSecond
              && (sel.value.1.None? ==> fresh(r.value.arena.objects))
              && Built(r.value.arena, sel.value.0, sel.value.1,
                       if sel.value.1.Some? then old(sel.value.1.value.items) else [], trig, zones, rand))
  {
    var name, entries := TakeGameName(config);
    var game := LookupGame(name);
    if game.Failure? {
      return Failure(game.error);
    }
    var objects := ArenaObjects(entries);
    if objects.Failure? {
      return Failure(objects.error);
    }
    r := StartGame(game.value, objects.value, background, framesPerSecond, trig, zones, rand);
  }
}
