/**
 * `LevelManager` of core/levels.esm.js: levels are board sizes, starting at `startSize`; each
 * level owns one `Game2048`; the score can be carried from level to level; and the whole
 * manager serialises to a JSON object (`toJSON`) and is rebuilt from one (`fromJSON`,
 * `restore`), coercing every malformed field to a default.
 */
module Levels {
  import opened Wrappers
  import opened Json
  import opened Rng
  import opened RandomSource
  import opened Board
  import opened Weights
  import opened Engine
  import opened Game
  import opened Clone
  import opened Targets

  /** `Number.isInteger(n) && n > 1 ? n : 2` for `n = Number(x)`. */
  function SizeOf(x: Json): (s: nat)
    ensures s >= 2
  {
    match ToNumber(x)
    case Some(n) => if IsIntegral(n) && n > 1.0 then n.Floor else 2
    case None => 2
  }

  /** A valid size is kept as it is, and nothing but an integer above 1 is. */
  lemma SizeOfFacts(x: Json, n: nat)
    ensures n >= 2 ==> SizeOf(JNum(n as real)) == n
    ensures SizeOf(x) != 2 ==>
      ToNumber(x).Some? && IsIntegral(ToNumber(x).value) && ToNumber(x).value == SizeOf(x) as real
  {
  }

  /** `carryScore`, which defaults to true when absent, as `Boolean(carryScore)`. */
  function CarryOf(x: Json): bool {
    if x.JUndefined? then true else Truthy(x)
  }

  /** `typeof key === 'string' ? key : 'power'`. */
  function KeyOf(x: Json): string {
    if x.JStr? then x.s else "power"
  }

  /**
   * The stored seed: `''` for `null`, `undefined` and `''`, `String(x)` otherwise; `None` when
   * that text is not modelled (a non-integer number).
   */
  function SeedString(x: Json): Option<string> {
    if x.JNull? || x.JUndefined? || x == JStr("") then Some("") else ToJsString(x)
  }

  /** The options object of `new LevelManager({ ... })`; an absent option is `JUndefined`, an absent or non-function `targetFn` is `None`. */
  datatype Options = Options(
    startSize: Json, carryScore: Json, targetFn: Option<TargetFn>, targetFnKey: Json,
    weightsBySize: Json, rngSeed: Json, rngFactory: bool)

  /** `new LevelManager()`. */
  function NoOptions(): Options {
    Options(JUndefined, JUndefined, None, JUndefined, JUndefined, JUndefined, false)
  }

  /** The manager's settings: everything but the engine and the generator. */
  datatype Config = Config(
    size: nat, carryScore: bool, targetFn: TargetFn, targetFnKey: string,
    weightsBySize: WeightMap, rngFactory: bool, rngSeed: string, totalScoreBeforeThisLevel: real)

  /** The settings the constructor derives from its options. */
  function ConfigOf(opts: Options): Config
    requires SeedString(opts.rngSeed).Some?
  {
    Config(SizeOf(opts.startSize), CarryOf(opts.carryScore), opts.targetFn.GetOr(Power),
           KeyOf(opts.targetFnKey), CleanedMap(opts.weightsBySize), opts.rngFactory,
           SeedString(opts.rngSeed).value, 0.0)
  }

  /** `json && typeof json === 'object'`. */
  predicate IsLevelObject(json: Json) {
    Truthy(json) && IsObject(json)
  }

  /** What `fromJSON` needs of the seed field to be modelled. */
  predicate SeedModelled(json: Json) {
    !IsLevelObject(json) || SeedString(Get(json, "rngSeed")).Some?
  }

  /**
   * The settings `fromJSON(json, registry)` gives: the defaults for a non-object, otherwise each
   * field coerced (size, `Boolean(carryScore)`, the key and the function it resolves to, the
   * cleaned map, the seed, the registry's `rngFactory`, and a finite total or 0).
   */
  function ParsedConfig(json: Json, registry: Registry): Config
    requires SeedModelled(json)
  {
    if !IsLevelObject(json) then ConfigOf(NoOptions())
    else
      var key := KeyOf(Get(json, "targetFnKey"));
      Config(SizeOf(Get(json, "size")), Truthy(Get(json, "carryScore")),
             ResolveTargetFn(key, registry), key,
             CleanedMap(Get(json, "randomTileWeightsBySize")), registry.rngFactory,
             SeedString(Get(json, "rngSeed")).value,
             ToNumber(Get(json, "totalScoreBeforeThisLevel")).GetOr(0.0))
  }

  /** A non-object rebuilds the default manager; malformed fields fall back one by one. */
  lemma ParsedConfigDefaults(json: Json, registry: Registry)
    requires SeedModelled(json)
    ensures !IsLevelObject(json) ==>
      ParsedConfig(json, registry) == Config(2, true, Power, "power", [], false, "", 0.0)
    ensures ToNumber(Get(json, "totalScoreBeforeThisLevel")).None? ==>
      ParsedConfig(json, registry).totalScoreBeforeThisLevel == 0.0
    ensures IsLevelObject(json) && !Get(json, "targetFnKey").JStr? ==>
      ParsedConfig(json, registry).targetFnKey == "power" &&
      ParsedConfig(json, registry).targetFn == ResolveTargetFn("power", registry)
  {
  }

  /** `json.game` when it is an object, else `{}`. */
  function GameData(json: Json): Json {
    var g := Get(json, "game");
    if Truthy(g) && IsObject(g) then g else JObj([])
  }

  /** The table `_createGame` hands to the engine: the cleaned table stored for the size, else `{1: 0.9, 2: 0.1}`. */
  function WeightsFor(m: WeightMap, size: nat): (t: WeightTable)
    requires MapClean(m)
    ensures t != [] && IsClean(t)
  {
    MapGetIn(m, NatToString(size));
    match MapGet(m, NatToString(size))
    case Some(t) => t
    case None => DefaultWeights()
  }

  /** The engine's table after `fromJSON`: the saved table when it cleans to something, else that of `_createGame`. */
  function RestoredWeights(gameData: Json, m: WeightMap, size: nat): (t: WeightTable)
    requires MapClean(m)
    ensures t != [] && IsClean(t)
  {
    var raw := Get(gameData, "randomTileWeights");
    var w := if Truthy(raw) then CleanedTable(raw) else [];
    if w != [] then w else WeightsFor(m, size)
  }

  /** `_createRngFromSeed()`: a seeded generator only when there is a factory and a non-empty seed. */
  method CreateRngFromSeed(factory: bool, seed: string) returns (r: Lcg?)
    ensures (r != null) == (factory && seed != "")
    ensures r != null ==> fresh(r) && r.Valid() && r.state == SeedOf(JStr(seed))
  {
    if !factory || seed == "" {
      return null;
    }
    r := new Lcg(JStr(seed));
  }

  /**
   * `_createGame()`: a new engine of side `size` with the table stored for that size (cleaned
   * once more), or the default table when there is none.
   */
  method CreateGame(size: nat, m: WeightMap, rng: Lcg?, oracle: Oracle, ghost xs: seq<real>) returns (g: Game)
    requires MapClean(m) && SourceValid(rng, oracle) && xs == UpcomingDraws(rng, oracle)
    modifies rng, oracle
    ensures fresh(g) && g.Valid()
    ensures g.size == size && g.weights == WeightsFor(m, size) && g.score == 0.0
    ensures g.rng == rng && g.oracle == oracle
    ensures var d := DealWith(EmptyGrid(size), size, WeightsFor(m, size), xs);
            g.grid == d.0 && Consumed(rng, oracle, d.1)
  {
    var stored := MapGet(m, NatToString(size));
    MapGetIn(m, NatToString(size));
    var custom: WeightTable := [];
    if stored.Some? {
      custom := CloneSingleWeights(TableToJson(stored.value));
      CleanRoundTrip(stored.value);
    }
    var weights := if |custom| != 0 then custom else DefaultWeights();
    DealtIsDealWith(EmptyGrid(size), size, weights, rng, oracle);
    g := new Game(Some(size), Some(weights), rng, oracle);
  }

  /** The largest cell, and 0 when every cell is below 0: the loop of `checkPass`. */
  method MaxCell(g: Grid) returns (max: real)
    ensures max >= 0.0
    ensures forall r, c :: 0 <= r < |g| && 0 <= c < |g[r]| ==> g[r][c] <= max
    ensures max == 0.0 || exists r, c :: 0 <= r < |g| && 0 <= c < |g[r]| && g[r][c] == max
  {
    max := 0.0;
    var r := 0;
    while r < |g|
      invariant 0 <= r <= |g| && max >= 0.0
      invariant forall i, c :: 0 <= i < r && 0 <= c < |g[i]| ==> g[i][c] <= max
      invariant max == 0.0 || exists i, c :: 0 <= i < r && 0 <= c < |g[i]| && g[i][c] == max
    {
      var c := 0;
      while c < |g[r]|
        invariant 0 <= c <= |g[r]| && max >= 0.0
        invariant forall i, k :: 0 <= i < r && 0 <= k < |g[i]| ==> g[i][k] <= max
        invariant forall k :: 0 <= k < c ==> g[r][k] <= max
        invariant max == 0.0 || exists i, k :: 0 <= i <= r && 0 <= k < |g[i]| && (i < r || k < c) && g[i][k] == max
      {
        if g[r][c] > max {
          max := g[r][c];
        }
        c := c + 1;
      }
      r := r + 1;
    }
  }

  /**
   * The part of `fromJSON` that overwrites the new engine: the saved table when it cleans to
   * something, the board when one is saved (read at the engine's size), and a finite score.
   */
  method RestoreEngine(g: Game, gameData: Json, m: WeightMap)
    requires g.Valid() && MapClean(m) && g.weights == WeightsFor(m, g.size)
    modifies g
    ensures g.Valid() && IsClean(g.weights)
    ensures g.weights == RestoredWeights(gameData, m, g.size)
    ensures g.grid == if Get(gameData, "grid").JArr? then RestoredGrid(Get(gameData, "grid"), g.size) else old(g.grid)
    ensures g.score == ToNumber(Get(gameData, "score")).GetOr(old(g.score))
  {
    var raw := Get(gameData, "randomTileWeights");
    if Truthy(raw) {
      var weights := CloneSingleWeights(raw);
      if |weights| != 0 {
        g.weights := weights;
      }
    }
    var gridSrc := Get(gameData, "grid");
    if gridSrc.JArr? {
      var grid := RestoreGridFrom(gridSrc, g.size);
      g.grid := grid;
    }
    var score := ToNumber(Get(gameData, "score"));
    if score.Some? {
      g.score := score.value;
    }
  }

  /** The body `toJSON` returns, from the parts it reads. */
  function Serialized(c: Config, gameSize: nat, gameScore: real, grid: Grid, gameWeights: WeightTable,
                      rngState: Option<nat>): Json
    requires IsClean(gameWeights) && MapClean(c.weightsBySize)
  {
    ManagerObject(
      JNum(c.size as real), JBool(c.carryScore), JNum(c.totalScoreBeforeThisLevel),
      GameObject(JNum(gameSize as real), JNum(gameScore), GridToJson(grid), TableToJson(gameWeights)),
      JStr(KeyFromState(c.targetFnKey, c.targetFn)), MapToJson(c.weightsBySize), JStr(c.rngSeed),
      match rngState case Some(s) => JNum(s as real) case None => JNull)
  }

  /** The object `toJSON` builds, for any field values. */
  function ManagerObject(size: Json, carry: Json, total: Json, game: Json, key: Json, bySize: Json,
                         seed: Json, state: Json): Json
  {
    JObj([("size", size), ("carryScore", carry), ("totalScoreBeforeThisLevel", total), ("game", game),
          ("targetFnKey", key), ("randomTileWeightsBySize", bySize), ("rngSeed", seed), ("rngState", state)])
  }

  /** Each field of that object is read back by name. */
  lemma ManagerObjectGets(size: Json, carry: Json, total: Json, game: Json, key: Json, bySize: Json,
                          seed: Json, state: Json)
    ensures var j := ManagerObject(size, carry, total, game, key, bySize, seed, state);
      Get(j, "size") == size && Get(j, "carryScore") == carry &&
      Get(j, "totalScoreBeforeThisLevel") == total && Get(j, "game") == game &&
      Get(j, "targetFnKey") == key && Get(j, "randomTileWeightsBySize") == bySize &&
      Get(j, "rngSeed") == seed && Get(j, "rngState") == state
  {
    var fs := ManagerObject(size, carry, total, game, key, bySize, seed, state).fields;
    ManagerFieldsFront(fs);
    ManagerFieldsBack(fs);
  }

  lemma ManagerFieldsFront(fs: seq<(string, Json)>)
    requires |fs| == 8 && fs[0].0 == "size" && fs[1].0 == "carryScore" && fs[2].0 == "totalScoreBeforeThisLevel"
    requires fs[3].0 == "game"
    ensures Lookup(fs, "size") == fs[0].1 && Lookup(fs, "carryScore") == fs[1].1
    ensures Lookup(fs, "totalScoreBeforeThisLevel") == fs[2].1 && Lookup(fs, "game") == fs[3].1
  {
    assert "size"[0] != "game"[0];
    LookupAt(fs, 0);
    LookupAt(fs, 1);
    LookupAt(fs, 2);
    LookupAt(fs, 3);
  }

  lemma ManagerFieldsBack(fs: seq<(string, Json)>)
    requires |fs| == 8 && fs[0].0 == "size" && fs[1].0 == "carryScore" && fs[2].0 == "totalScoreBeforeThisLevel"
    requires fs[3].0 == "game" && fs[4].0 == "targetFnKey" && fs[5].0 == "randomTileWeightsBySize"
    requires fs[6].0 == "rngSeed" && fs[7].0 == "rngState"
    ensures Lookup(fs, "targetFnKey") == fs[4].1 && Lookup(fs, "randomTileWeightsBySize") == fs[5].1
    ensures Lookup(fs, "rngSeed") == fs[6].1 && Lookup(fs, "rngState") == fs[7].1
  {
    assert "rngSeed"[4] != "rngState"[4];
    LookupAt(fs, 4);
    LookupAt(fs, 5);
    LookupAt(fs, 6);
    LookupAt(fs, 7);
  }

  /** The `game` object `toJSON` builds, for any field values. */
  function GameObject(size: Json, score: Json, grid: Json, weights: Json): Json {
    JObj([("size", size), ("score", score), ("grid", grid), ("randomTileWeights", weights)])
  }

  lemma GameObjectGets(size: Json, score: Json, grid: Json, weights: Json)
    ensures var j := GameObject(size, score, grid, weights);
      Get(j, "score") == score && Get(j, "grid") == grid && Get(j, "randomTileWeights") == weights
  {
    var fs := GameObject(size, score, grid, weights).fields;
    assert "size"[0] != "grid"[0] && "score"[1] != "size"[1];
    LookupAt(fs, 1);
    LookupAt(fs, 2);
    LookupAt(fs, 3);
  }

  /**
   * Reading back the settings `toJSON` wrote: `fromJSON` recovers the size, the carry flag, the
   * total, the map and the seed, and the key `toJSON` chose together with what it resolves to;
   * the factory is the registry's, since the saved object does not hold one.
   */
  lemma ParseSerializedConfig(c: Config, gameSize: nat, gameScore: real, grid: Grid, gameWeights: WeightTable,
                              rngState: Option<nat>, registry: Registry)
    requires IsClean(gameWeights)
    requires MapClean(c.weightsBySize) && UniqueKeys(c.weightsBySize)
    requires c.size >= 2
    ensures SeedModelled(Serialized(c, gameSize, gameScore, grid, gameWeights, rngState))
    ensures ParsedConfig(Serialized(c, gameSize, gameScore, grid, gameWeights, rngState), registry) ==
      c.(targetFn := ResolveTargetFn(KeyFromState(c.targetFnKey, c.targetFn), registry),
         targetFnKey := KeyFromState(c.targetFnKey, c.targetFn), rngFactory := registry.rngFactory)
  {
    ManagerObjectGets(JNum(c.size as real), JBool(c.carryScore), JNum(c.totalScoreBeforeThisLevel),
      GameObject(JNum(gameSize as real), JNum(gameScore), GridToJson(grid), TableToJson(gameWeights)),
      JStr(KeyFromState(c.targetFnKey, c.targetFn)), MapToJson(c.weightsBySize), JStr(c.rngSeed),
      match rngState case Some(s) => JNum(s as real) case None => JNull);
    ConfigParsed(Serialized(c, gameSize, gameScore, grid, gameWeights, rngState), c,
                 KeyFromState(c.targetFnKey, c.targetFn), registry);
  }

  /** The settings part of a saved manager, read from whatever object holds those fields. */
  lemma ConfigParsed(j: Json, c: Config, key: string, registry: Registry)
    requires MapClean(c.weightsBySize) && UniqueKeys(c.weightsBySize) && c.size >= 2
    requires j.JObj?
    requires Get(j, "size") == JNum(c.size as real) && Get(j, "carryScore") == JBool(c.carryScore)
    requires Get(j, "totalScoreBeforeThisLevel") == JNum(c.totalScoreBeforeThisLevel)
    requires Get(j, "targetFnKey") == JStr(key) && Get(j, "randomTileWeightsBySize") == MapToJson(c.weightsBySize)
    requires Get(j, "rngSeed") == JStr(c.rngSeed)
    ensures SeedModelled(j)
    ensures ParsedConfig(j, registry) ==
      c.(targetFn := ResolveTargetFn(key, registry), targetFnKey := key, rngFactory := registry.rngFactory)
  {
    assert IsLevelObject(j);
    assert SeedString(Get(j, "rngSeed")) == Some(c.rngSeed);
    SizeOfFacts(JNum(c.size as real), c.size);
    CleanMapRoundTrip(c.weightsBySize);
  }

  /** Reading back the engine `toJSON` wrote: the score, the board and the table come back as they were. */
  lemma ParseSerializedGame(c: Config, gameSize: nat, gameScore: real, grid: Grid, gameWeights: WeightTable,
                            rngState: Option<nat>)
    requires IsClean(gameWeights) && gameWeights != []
    requires MapClean(c.weightsBySize)
    requires IsGrid(grid, c.size)
    ensures var gd := GameData(Serialized(c, gameSize, gameScore, grid, gameWeights, rngState));
      ToNumber(Get(gd, "score")) == Some(gameScore) &&
      Get(gd, "grid").JArr? &&
      RestoredGrid(Get(gd, "grid"), c.size) == grid &&
      RestoredWeights(gd, c.weightsBySize, c.size) == gameWeights
  {
    var gd := GameObject(JNum(gameSize as real), JNum(gameScore), GridToJson(grid), TableToJson(gameWeights));
    ManagerObjectGets(JNum(c.size as real), JBool(c.carryScore), JNum(c.totalScoreBeforeThisLevel), gd,
      JStr(KeyFromState(c.targetFnKey, c.targetFn)), MapToJson(c.weightsBySize), JStr(c.rngSeed),
      match rngState case Some(s) => JNum(s as real) case None => JNull);
    GameObjectGets(JNum(gameSize as real), JNum(gameScore), GridToJson(grid), TableToJson(gameWeights));
    GameDataParsed(Serialized(c, gameSize, gameScore, grid, gameWeights, rngState), gd, gameScore, grid,
                   gameWeights, c.weightsBySize, c.size);
  }

  /**
   * Reading back the generator state `toJSON` wrote: it comes back as it was, except that 0 is
   * read as 1; a manager without a generator wrote `null`, which restores state 1.
   */
  lemma ParseSerializedRngState(c: Config, gameSize: nat, gameScore: real, grid: Grid, gameWeights: WeightTable,
                                rngState: Option<nat>)
    requires IsClean(gameWeights) && MapClean(c.weightsBySize)
    requires rngState.Some? ==> rngState.value < MOD32
    ensures RestoredState(Get(Serialized(c, gameSize, gameScore, grid, gameWeights, rngState), "rngState")) ==
      Some(match rngState case Some(s) => NonZero(s) case None => 1)
  {
    var written := match rngState case Some(s) => JNum(s as real) case None => JNull;
    ManagerObjectGets(JNum(c.size as real), JBool(c.carryScore), JNum(c.totalScoreBeforeThisLevel),
      GameObject(JNum(gameSize as real), JNum(gameScore), GridToJson(grid), TableToJson(gameWeights)),
      JStr(KeyFromState(c.targetFnKey, c.targetFn)), MapToJson(c.weightsBySize), JStr(c.rngSeed), written);
    assert Get(Serialized(c, gameSize, gameScore, grid, gameWeights, rngState), "rngState") == written;
    if rngState.Some? {
      RestoredOfState(rngState.value);
    }
  }

  /** The engine part of a saved manager, read from whatever object holds those fields. */
  lemma GameDataParsed(j: Json, gd: Json, gameScore: real, grid: Grid, gameWeights: WeightTable,
                       m: WeightMap, size: nat)
    requires IsClean(gameWeights) && gameWeights != [] && MapClean(m) && IsGrid(grid, size)
    requires Get(j, "game") == gd && gd.JObj?
    requires Get(gd, "score") == JNum(gameScore) && Get(gd, "grid") == GridToJson(grid)
    requires Get(gd, "randomTileWeights") == TableToJson(gameWeights)
    ensures GameData(j) == gd
    ensures ToNumber(Get(gd, "score")) == Some(gameScore) && Get(gd, "grid").JArr?
    ensures RestoredGrid(Get(gd, "grid"), size) == grid
    ensures RestoredWeights(gd, m, size) == gameWeights
  {
    CleanRoundTrip(gameWeights);
    RestoreGridRoundTrip(grid, size);
  }

  /** The options `fromJSON` passes to the constructor give back the parsed settings, the total aside. */
  lemma OptionsFromJson(json: Json, registry: Registry)
    requires IsLevelObject(json) && SeedModelled(json)
    ensures var key := KeyOf(Get(json, "targetFnKey"));
      var size := SizeOf(Get(json, "size"));
      var opts := Options(JNum(size as real), JBool(Truthy(Get(json, "carryScore"))),
                          Some(ResolveTargetFn(key, registry)), JStr(key),
                          MapToJson(CleanedMap(Get(json, "randomTileWeightsBySize"))),
                          JStr(SeedString(Get(json, "rngSeed")).value), registry.rngFactory);
      SeedString(opts.rngSeed).Some? &&
      ConfigOf(opts) == ParsedConfig(json, registry).(totalScoreBeforeThisLevel := 0.0)
  {
    var key := KeyOf(Get(json, "targetFnKey"));
    var size := SizeOf(Get(json, "size"));
    var weights := CleanedMap(Get(json, "randomTileWeightsBySize"));
    var seed := SeedString(Get(json, "rngSeed")).value;
    var carry := Truthy(Get(json, "carryScore"));
    SizeOfFacts(JNum(size as real), size);
    CleanMapRoundTrip(weights);
    assert SeedString(JStr(seed)) == Some(seed);
    var opts := Options(JNum(size as real), JBool(carry), Some(ResolveTargetFn(key, registry)), JStr(key),
                        MapToJson(weights), JStr(seed), registry.rngFactory);
    assert ConfigOf(opts) == Config(size, carry, ResolveTargetFn(key, registry), key, weights,
                                    registry.rngFactory, seed, 0.0);
    assert ParsedConfig(json, registry) == Config(size, carry, ResolveTargetFn(key, registry), key, weights,
                                    registry.rngFactory, seed, ToNumber(Get(json, "totalScoreBeforeThisLevel")).GetOr(0.0));
  }

  class LevelManager {
    var size: nat
    var carryScore: bool
    var targetFn: TargetFn
    var targetFnKey: string
    var weightsBySize: WeightMap
    var totalScoreBeforeThisLevel: real
    var rngFactory: bool
    var rngSeed: string
    var rng: Lcg?
    var game: Game
    const oracle: Oracle

    ghost predicate Valid()
      reads this, game, rng, oracle
    {
      size >= 2 && UniqueKeys(weightsBySize) && MapClean(weightsBySize) &&
      game.rng == rng && game.oracle == oracle && game.Valid() &&
      game.size == size && IsClean(game.weights)
    }

    /** The settings the manager holds. */
    function Settings(): Config
      reads this
    {
      Config(size, carryScore, targetFn, targetFnKey, weightsBySize, rngFactory, rngSeed,
             totalScoreBeforeThisLevel)
    }

    /**
     * `new LevelManager(options)`: the settings derived from the options, a total of 0, a
     * seeded generator when a factory and a seed are given, and the first level's engine.
     */
    constructor (opts: Options, oracle: Oracle)
      requires oracle.Valid() && SeedString(opts.rngSeed).Some?
      modifies oracle
      ensures Valid() && this.oracle == oracle && fresh(game)
      ensures Settings() == ConfigOf(opts)
      ensures (rng != null) == (rngFactory && rngSeed != "") && (rng != null ==> fresh(rng))
      ensures game.weights == WeightsFor(weightsBySize, size) && game.score == 0.0
      ensures var xs := if rng != null then Draws(SeedOf(JStr(rngSeed)), 4) else old(UpcomingDraws(null, oracle));
              var d := DealWith(EmptyGrid(size), size, game.weights, xs);
              game.grid == d.0 &&
              (rng != null ==> rng.state == Iterate(SeedOf(JStr(rngSeed)), d.1) && oracle.used == old(oracle.used)) &&
              (rng == null ==> oracle.used == old(oracle.used) + d.1)
    {
      var sizeNum := SizeOf(opts.startSize);
      var seed := SeedString(opts.rngSeed).value;
      var cleaned := CloneWeightMap(opts.weightsBySize);
      var r, g := StartEngine(sizeNum, cleaned, opts.rngFactory, seed, oracle);
      size := sizeNum;
      carryScore := CarryOf(opts.carryScore);
      targetFn := opts.targetFn.GetOr(Power);
      targetFnKey := KeyOf(opts.targetFnKey);
      weightsBySize := cleaned;
      totalScoreBeforeThisLevel := 0.0;
      rngFactory := opts.rngFactory;
      rngSeed := seed;
      rng := r;
      game := g;
      this.oracle := oracle;
    }

    /**
     * The generator and the first engine of the constructor: `_createRngFromSeed()`, then
     * `_createGame()`, whose opening deal draws from the seeded generator when there is one.
     */
    static method StartEngine(size: nat, m: WeightMap, factory: bool, seed: string, oracle: Oracle)
      returns (r: Lcg?, g: Game)
      requires MapClean(m) && oracle.Valid()
      modifies oracle
      ensures (r != null) == (factory && seed != "") && (r != null ==> fresh(r))
      ensures fresh(g) && g.Valid() && g.rng == r && g.oracle == oracle
      ensures g.size == size && g.weights == WeightsFor(m, size) && g.score == 0.0
      ensures var xs := if r != null then Draws(SeedOf(JStr(seed)), 4) else old(UpcomingDraws(null, oracle));
              var d := DealWith(EmptyGrid(size), size, g.weights, xs);
              g.grid == d.0 &&
              (r != null ==> r.state == Iterate(SeedOf(JStr(seed)), d.1) && oracle.used == old(oracle.used)) &&
              (r == null ==> oracle.used == old(oracle.used) + d.1)
    {
      r := CreateRngFromSeed(factory, seed);
      ghost var xs := UpcomingDraws(r, oracle);
      if r != null {
        UpcomingSeeded(r, oracle);
      }
      DealtIsDealWith(EmptyGrid(size), size, WeightsFor(m, size), r, oracle);
      ghost var d := DealWith(EmptyGrid(size), size, WeightsFor(m, size), xs);
      g := CreateGame(size, m, r, oracle, xs);
      assert g.grid == d.0;
    }

    /** `getLevel()`: size 2 is level 1. */
    function GetLevel(): (level: int)
      requires Valid()
      reads this, game, rng, oracle
      ensures level == size - 1 && level >= 1
    {
      size - 1
    }

    /** `getTarget()`: the target function at the current size, at least 1. */
    method GetTarget() returns (t: nat)
      ensures t == Target(targetFn, size) && t >= 1
    {
      t := TargetOf(targetFn, size);
    }

    /** `getTotalScore()`: the carried total plus the current level's score. */
    function GetTotalScore(): (total: real)
      reads this, game
    {
      totalScoreBeforeThisLevel + game.score
    }

    /** `checkPass()`: whether some cell has reached the target. */
    method CheckPass() returns (pass: bool)
      requires Valid()
      ensures pass <==>
        exists r, c :: 0 <= r < size && 0 <= c < size && game.grid[r][c] >= Target(targetFn, size) as real
    {
      var grid := game.GetGrid();
      var max := MaxCell(grid);
      var target := GetTarget();
      pass := max >= target as real;
    }

    /**
     * `nextLevel()`: the score of the level is carried exactly when `carryScore` is set, the
     * size grows by 1, and a fresh engine of the new size replaces the old one.
     */
    method NextLevel()
      requires Valid()
      modifies this, rng, oracle
      ensures Valid() && fresh(game)
      ensures size == old(size) + 1 && GetLevel() == old(GetLevel()) + 1
      ensures totalScoreBeforeThisLevel ==
        old(totalScoreBeforeThisLevel) + if carryScore then old(game.score) else 0.0
      ensures Settings() == old(Settings()).(size := size, totalScoreBeforeThisLevel := totalScoreBeforeThisLevel)
      ensures rng == old(rng)
      ensures game.weights == WeightsFor(weightsBySize, size) && game.score == 0.0
      ensures var d := DealWith(EmptyGrid(size), size, WeightsFor(weightsBySize, size), old(UpcomingDraws(rng, oracle)));
              game.grid == d.0 && Consumed(rng, oracle, d.1)
      ensures GetTotalScore() == if carryScore then old(GetTotalScore()) else old(totalScoreBeforeThisLevel)
    {
      var g := CreateGame(size + 1, weightsBySize, rng, oracle, UpcomingDraws(rng, oracle));
      Advance(g);
    }

    /** The field updates of `nextLevel()`: the carry, the new size and the new engine. */
    method Advance(g: Game)
      requires size >= 2 && UniqueKeys(weightsBySize) && MapClean(weightsBySize)
      requires g.rng == rng && g.oracle == oracle && g.Valid() && g.size == size + 1 && IsClean(g.weights)
      modifies this
      ensures Valid() && game == g
      ensures size == old(size) + 1
      ensures totalScoreBeforeThisLevel ==
        old(totalScoreBeforeThisLevel) + if carryScore then old(game.score) else 0.0
      ensures Settings() == old(Settings()).(size := size, totalScoreBeforeThisLevel := totalScoreBeforeThisLevel)
      ensures rng == old(rng)
    {
      if carryScore {
        totalScoreBeforeThisLevel := totalScoreBeforeThisLevel + game.GetScore();
      }
      size := size + 1;
      game := g;
    }

    /** `toJSON()`. */
    function ToJson(): Json
      requires Valid()
      reads this, game, rng, oracle
    {
      Serialized(Settings(), game.size, game.score, game.grid, game.weights,
                 if rng != null then Some(rng.state) else None)
    }

    /** The engine and generator parts of what `fromJSON(json)` rebuilds, as this manager holds them. */
    ghost predicate RestoredFrom(json: Json)
      requires Valid()
      reads this, game, rng, oracle
    {
      if !IsLevelObject(json) then
        game.weights == DefaultWeights() && game.score == 0.0
      else
        var gd := GameData(json);
        game.weights == RestoredWeights(gd, weightsBySize, size) &&
        game.score == ToNumber(Get(gd, "score")).GetOr(0.0) &&
        (Get(gd, "grid").JArr? ==> game.grid == RestoredGrid(Get(gd, "grid"), size)) &&
        (rng != null && RestoredState(Get(json, "rngState")).Some? ==>
           rng.state == RestoredState(Get(json, "rngState")).value)
    }

    /**
     * What `fromJSON` keeps of the constructor's opening deal, `xs` and `used` being what
     * `Math.random` would have returned next and how often it had been called: without a saved
     * grid array the board is the deal from the seed's draws (or from `xs`, which are then
     * taken), and without a usable saved `rngState` the generator is where that deal left it.
     */
    ghost predicate KeptOpening(json: Json, xs: seq<real>, used: nat)
      requires Valid()
      reads this, game, rng, oracle
    {
      |xs| == 4 && (forall i :: 0 <= i < 4 ==> 0.0 <= xs[i] < 1.0) &&
      var ds := if rng != null then Draws(SeedOf(JStr(rngSeed)), 4) else xs;
      var d := DealWith(EmptyGrid(size), size, WeightsFor(weightsBySize, size), ds);
      (!Get(GameData(json), "grid").JArr? ==> game.grid == d.0) &&
      (rng != null && RestoredState(Get(json, "rngState")).None? ==>
         rng.state == Iterate(SeedOf(JStr(rngSeed)), d.1)) &&
      (rng != null ==> oracle.used == used) &&
      (rng == null ==> oracle.used == used + d.1)
    }

    /** `_applyRngState(value)`: ignored without a generator or for a non-finite value. */
    method ApplyRngState(value: Json)
      requires Valid()
      modifies rng
      ensures Valid()
      ensures rng != null ==> rng.state == RestoredState(value).GetOr(old(rng.state))
    {
      if rng == null {
        return;
      }
      var num := ToNumber(value);
      if num.None? {
        return;
      }
      rng.RestoreState(JNum(num.value));
    }

    /**
     * `LevelManager.fromJSON(json, registry)`: a manager with the parsed settings whose engine
     * takes the saved table, board and score where these are usable.
     */
    static method FromJson(json: Json, registry: Registry, oracle: Oracle) returns (m: LevelManager)
      requires oracle.Valid() && SeedModelled(json)
      modifies oracle
      ensures fresh(m) && m.Valid() && m.oracle == oracle && fresh(m.game)
      ensures m.rng != null ==> fresh(m.rng)
      ensures m.Settings() == ParsedConfig(json, registry)
      ensures (m.rng != null) == (m.rngFactory && m.rngSeed != "")
      ensures m.RestoredFrom(json)
      ensures m.KeptOpening(json, old(UpcomingDraws(null, oracle)), old(oracle.used))
    {
      if !IsLevelObject(json) {
        m := DefaultManager(json, registry, oracle);
      } else {
        m := FromLevelObject(json, registry, oracle);
      }
    }

    /** The `new LevelManager()` that `fromJSON` returns for anything but an object. */
    static method DefaultManager(json: Json, registry: Registry, oracle: Oracle) returns (m: LevelManager)
      requires oracle.Valid() && !IsLevelObject(json)
      modifies oracle
      ensures fresh(m) && m.Valid() && m.oracle == oracle && fresh(m.game) && m.rng == null
      ensures m.Settings() == ParsedConfig(json, registry) && !m.rngFactory
      ensures m.RestoredFrom(json)
      ensures m.KeptOpening(json, old(UpcomingDraws(null, oracle)), old(oracle.used))
    {
      m := new LevelManager(NoOptions(), oracle);
    }

    /** `fromJSON` of an object: the constructor with the coerced fields, then the saved state. */
    static method FromLevelObject(json: Json, registry: Registry, oracle: Oracle) returns (m: LevelManager)
      requires oracle.Valid() && IsLevelObject(json) && SeedModelled(json)
      modifies oracle
      ensures fresh(m) && m.Valid() && m.oracle == oracle && fresh(m.game)
      ensures m.rng != null ==> fresh(m.rng)
      ensures m.Settings() == ParsedConfig(json, registry)
      ensures (m.rng != null) == (m.rngFactory && m.rngSeed != "")
      ensures m.RestoredFrom(json)
      ensures m.KeptOpening(json, old(UpcomingDraws(null, oracle)), old(oracle.used))
    {
      m := FromParsedOptions(json, registry, oracle);
      RestoreSaved(m, json);
    }

    /** The rest of `fromJSON`: the saved total, then the engine, then the generator state. */
    static method RestoreSaved(m: LevelManager, json: Json)
      requires m.Valid() && IsLevelObject(json)
      requires m.game.weights == WeightsFor(m.weightsBySize, m.size) && m.game.score == 0.0
      modifies m, m.game, m.rng
      ensures m.Valid() && m.game == old(m.game) && m.rng == old(m.rng)
      ensures m.Settings() ==
        old(m.Settings()).(totalScoreBeforeThisLevel := ToNumber(Get(json, "totalScoreBeforeThisLevel")).GetOr(0.0))
      ensures m.RestoredFrom(json)
      ensures !Get(GameData(json), "grid").JArr? ==> m.game.grid == old(m.game.grid)
      ensures m.rng != null && RestoredState(Get(json, "rngState")).None? ==> m.rng.state == old(m.rng.state)
    {
      m.totalScoreBeforeThisLevel := ToNumber(Get(json, "totalScoreBeforeThisLevel")).GetOr(0.0);
      RestoreEngine(m.game, GameData(json), m.weightsBySize);
      var rngState := Get(json, "rngState");
      if !rngState.JUndefined? {
        m.ApplyRngState(rngState);
      }
    }

    /** The `new LevelManager({ ... })` of `fromJSON`, from the coerced fields of `json`. */
    static method FromParsedOptions(json: Json, registry: Registry, oracle: Oracle) returns (m: LevelManager)
      requires oracle.Valid() && IsLevelObject(json) && SeedModelled(json)
      modifies oracle
      ensures fresh(m) && m.Valid() && m.oracle == oracle && fresh(m.game)
      ensures m.rng != null ==> fresh(m.rng)
      ensures m.Settings() == ParsedConfig(json, registry).(totalScoreBeforeThisLevel := 0.0)
      ensures (m.rng != null) == (m.rngFactory && m.rngSeed != "")
      ensures m.game.weights == WeightsFor(m.weightsBySize, m.size) && m.game.score == 0.0
      ensures var xs := if m.rng != null then Draws(SeedOf(JStr(m.rngSeed)), 4) else old(UpcomingDraws(null, oracle));
              var d := DealWith(EmptyGrid(m.size), m.size, m.game.weights, xs);
              m.game.grid == d.0 &&
              (m.rng != null ==> m.rng.state == Iterate(SeedOf(JStr(m.rngSeed)), d.1) && oracle.used == old(oracle.used)) &&
              (m.rng == null ==> oracle.used == old(oracle.used) + d.1)
    {
      var size := SizeOf(Get(json, "size"));
      var carry := Truthy(Get(json, "carryScore"));
      var targetKey := KeyOf(Get(json, "targetFnKey"));
      var targetFn := ResolveTargetFn(targetKey, registry);
      var weightMap := CloneWeightMap(Get(json, "randomTileWeightsBySize"));
      var seed := SeedString(Get(json, "rngSeed")).value;
      var opts := Options(JNum(size as real), JBool(carry), Some(targetFn), JStr(targetKey),
                          MapToJson(weightMap), JStr(seed), registry.rngFactory);
      OptionsFromJson(json, registry);
      m := new LevelManager(opts, oracle);
    }

    /** The field-by-field replacement at the end of `restore`, the map being cloned once more. */
    method TakeOver(restored: LevelManager)
      requires restored.Valid() && restored.oracle == oracle && restored != this
      modifies this
      ensures Valid() && Settings() == old(restored.Settings())
      ensures game == restored.game && rng == restored.rng
    {
      var cleaned := RecloneMap(restored.weightsBySize);
      size, carryScore, targetFn, targetFnKey := restored.size, restored.carryScore, restored.targetFn,
                                                 restored.targetFnKey;
      weightsBySize, totalScoreBeforeThisLevel := cleaned, restored.totalScoreBeforeThisLevel;
      rngFactory, rngSeed, rng, game := restored.rngFactory, restored.rngSeed, restored.rng, restored.game;
    }

    /** `_cloneWeightMap` of a map already cleaned: the copy is the map itself. */
    static method RecloneMap(m: WeightMap) returns (cleaned: WeightMap)
      requires UniqueKeys(m) && MapClean(m)
      ensures cleaned == m
    {
      cleaned := CloneWeightMap(MapToJson(m));
      CleanMapRoundTrip(m);
    }

    /** `restore(json, registry)`: take over everything `fromJSON` rebuilds; always true. */
    method Restore(json: Json, registry: Registry) returns (ok: bool)
      requires Valid() && SeedModelled(json)
      modifies this, oracle
      ensures ok && Valid() && fresh(game)
      ensures Settings() == ParsedConfig(json, registry)
      ensures (rng != null) == (rngFactory && rngSeed != "")
      ensures RestoredFrom(json)
      ensures KeptOpening(json, old(UpcomingDraws(null, oracle)), old(oracle.used))
    {
      var restored := FromJson(json, registry, oracle);
      TakeOver(restored);
      return true;
    }
  }

  /**
   * `fromJSON(toJSON(m))` with the default registry: the same size, the same total score and
   * the same board.
   */
  method SerializeRoundTrip(m: LevelManager) returns (r: LevelManager)
    requires m.Valid()
    modifies m.oracle
    ensures fresh(r) && r.Valid()
    ensures r.size == m.size && r.game.size == m.game.size
    ensures r.GetTotalScore() == m.GetTotalScore()
    ensures r.game.grid == m.game.grid
    ensures r.carryScore == m.carryScore && r.weightsBySize == m.weightsBySize && r.rngSeed == m.rngSeed
    ensures r.game.score == m.game.score && r.totalScoreBeforeThisLevel == m.totalScoreBeforeThisLevel
  {
    var json := m.ToJson();
    var rngState := if m.rng != null then Some(m.rng.state) else None;
    ParseSerializedConfig(m.Settings(), m.game.size, m.game.score, m.game.grid, m.game.weights, rngState, DefaultRegistry());
    ParseSerializedGame(m.Settings(), m.game.size, m.game.score, m.game.grid, m.game.weights, rngState);
    ghost var gd := GameData(json);
    assert IsLevelObject(json);
    r := LevelManager.FromJson(json, DefaultRegistry(), m.oracle);
    assert r.size == m.size;
    assert r.game.grid == RestoredGrid(Get(gd, "grid"), m.size);
    assert r.game.score == m.game.score;
  }
}
