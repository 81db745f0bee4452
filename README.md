# stage-2048 in Dafny

This project models the game core of stage-2048, a level-based 2048 game:

- **The engine.** `Game2048` keeps a square board of side `size` and a score. It slides and merges each row or column with each tile merging at most once. It reports whether any move is possible. After every move that changed the board it spawns one tile: one draw picks an empty cell, a second draw picks the tile value from a weight table.
- **The seeded generator.** It is a 32-bit linear congruential generator with `peekState` and `restoreState`.
- **The level managers.** Each level is one board size with its own engine. The score can be carried from level to level. The ES-module manager serialises itself with `toJSON` and rebuilds itself with `fromJSON` and `restore`, coercing every malformed field to a default.
- **The settings page's rules.** These are `cloneSettings`, `mergeSettings` and `validateAndNormalizeSettings`.

## Modules

- **Value models.** Each is checked by lemmas.
  - `Line` squashes and merges one line.
  - `Board` models the grid: moves, the movability test, tile counts and spawns.
  - `Weights` holds the weight tables and the weighted draw.
  - `Json` models a JavaScript value with `Number()`, `String()`, truthiness and property access.
  - `Clone` and `Targets` cover the helpers and the target-function registry of `core/levels.esm.js`.
  - `Settings` and `Validation` cover the settings rules.
- **Imperative models.** Each is proved against those value models.
  - `Engine` holds the loops of the engine.
  - `Game` (core/game2048.esm.js) and `MiniGame` (miniprogram/core/game2048.cjs.js) are classes holding the board, the score and the generator.
  - `Rng.Lcg` models core/rng.cjs.js.
  - `Levels.LevelManager` (core/levels.esm.js) and `LevelsCjs.LevelManagerCjs` (core/levels.cjs.js) model the two managers.
- **Outside inputs.**
  - `Math.random` is a parameter: an `Oracle` object holding a fixed but unknown sequence of values in [0, 1).
  - A user-supplied generator factory is a flag on the registry, standing for `makeLCG`.
  - The board's cells, the score and the weights are real numbers.

## Model

| member | source | states |
|---|---|---|
| Line.SquashFacts | core/game2048.esm.js:128-144 | `_squashMerge` returns `size` cells with the tiles first in the direction of travel and zeros after; the total value is kept; one tile is lost per merge; `reverse` mirrors the forward squash of the mirrored line |
| Line.ForwardFacts | core/game2048.esm.js:128-144 | the left-to-right squash keeps the length and the total value, loses one tile per merge, and leaves no tile after a zero |
| Line.MergeRunLength | core/game2048.esm.js:133-140 | each merge removes exactly one tile, and no more than half the tiles can merge |
| Line.MergeRunSum | core/game2048.esm.js:133-140 | merging conserves the total value of the tiles |
| Line.SingleMerge | core/game2048.esm.js:133-140 | the input tiles are cut into blocks of one or two; each output tile is a moved tile or the double of two equal tiles; the score gain is the sum of the merged tiles |
| Line.MergeRunIdentity | core/game2048.esm.js:133-140 | without equal neighbours the scan changes nothing and merges nothing |
| Line.MergeRunMerges | core/game2048.esm.js:133-140 | equal neighbouring tiles always produce a merge |
| Line.SquashFixpoint | core/game2048.esm.js:128-144 | a full line without equal neighbours is unchanged in both directions |
| Line.SquashMergesNeighbours | core/game2048.esm.js:128-144 | a line with two equal neighbouring tiles changes when squashed toward its start |
| Line.SquashMovesIntoGap | core/game2048.esm.js:128-144 | a line with a gap and a tile changes in at least one direction |
| Line.SquashChangeLeavesGap | core/game2048.esm.js:128-144 | a squash that changes a line leaves an empty cell in it |
| Line.SquashGainNonNegative | core/game2048.esm.js:128-144 | the score never goes down on non-negative tiles |
| Line.NoChainedMergeOfThree | core/game2048.esm.js:133-140 | `[v, v, v]` becomes `[2v, v, 0]` and scores `2v` |
| Line.NoChainedMergeOfFour | core/game2048.esm.js:133-140 | `[v, v, v, v]` becomes `[2v, 2v, 0, 0]` and scores `4v` |
| Line.CompactReverse | core/game2048.esm.js:129-131 | dropping zeros commutes with reversing the line |
| Board.TransposeTranspose | core/game2048.esm.js:81-95 | reading the columns of the columns gives the board back |
| Board.DirOf | core/game2048.esm.js:72-93 | exactly the four direction names are accepted |
| Board.SlideIsLines | core/game2048.esm.js:73-95 | a move's lines are the squashed lines of the old board |
| Board.SlideChanged | core/game2048.esm.js:72-95 | a move changes the board exactly when it changes one of its lines |
| Board.SlideCount | core/game2048.esm.js:73-95 | a move loses exactly one tile per merge before the spawn |
| Board.GainNonNegative | core/game2048.esm.js:73-95 | on non-negative tiles no move lowers the score |
| Board.StuckBoardDoesNotMove | core/game2048.esm.js:36-50 | when `canMove` is false, no direction changes the board or merges |
| Board.MovableBoardMoves | core/game2048.esm.js:36-50 | when `canMove` is true and there is a tile, some direction changes the board |
| Board.EmptyBoardNeverMoves | core/game2048.esm.js:36-50 | on an all-empty board `canMove` is true, yet no direction changes anything |
| Board.EmptyCellsExact | core/game2048.esm.js:54-59 | the collected list holds exactly the empty cells; it is empty exactly on a full board |
| Board.SpawnSlot | core/game2048.esm.js:62 | `floor(x * k)` is a valid slot for a draw in [0, 1) |
| Board.AddTile | core/game2048.esm.js:53-66 | the spawn writes the new value into exactly one cell that was empty; every other cell is unchanged |
| Board.PlaceCount | core/game2048.esm.js:62-64 | placing a tile on an empty cell adds one tile |
| Board.EmptyGrid | core/game2048.esm.js:102-104 | `_createEmpty` builds `size` rows of `size` zeros |
| Engine.SquashLine | core/game2048.esm.js:128-144 | the `_squashMerge` loops compute the specified squash and its gain |
| Engine.MergeScan | core/game2048.esm.js:133-140 | the merge loop computes the merge run and its score |
| Engine.PadZeros | core/game2048.esm.js:142 | the padding loop pads with zeros |
| Engine.ArrEq | core/game2048.esm.js:107-113 | `_arrEq` is true exactly when the lines are equal |
| Engine.CanMoveOn | core/game2048.esm.js:36-50 | the loops return whether some cell is empty or equals its right or lower neighbour |
| Engine.CollectEmpty | core/game2048.esm.js:54-59 | the loops collect the empty cells row by row |
| Engine.PickFrom | core/game2048.esm.js:116-125 | the subtraction loop returns the weighted pick, falling back to the first entry |
| Engine.SlideRows | core/game2048.esm.js:72-80 | the row branch squashes every row, records whether any changed, and sums the gains |
| Engine.SlideColumns | core/game2048.esm.js:81-90 | the column branch reads, squashes and writes back every column |
| Engine.SlideBoard | core/game2048.esm.js:72-93 | the squashes of a move give the specified board, `moved` exactly when it differs from the old one, and the specified gain |
| Engine.RestoreGridFrom | core/game2048.esm.js:158-167 | the nested loops rebuild a `size × size` board with non-numeric cells as 0 |
| Engine.RestoreGridRoundTrip | core/game2048.esm.js:147-167 | restoring a board from its own JSON form gives it back |
| Engine.RestoreFromNonArray | core/game2048.esm.js:158-167 | without an array the restored board is empty |
| Weights.PickIsSlice | core/game2048.esm.js:116-125 | with positive weights draw `x` picks entry `i` exactly when `x * total` falls in the `i`th slice of the prefix sums, so the fallback never applies |
| Weights.ScanFindsSlice | core/game2048.esm.js:119-123 | the subtraction scan stops at entry `i` exactly when the value lies in slice `i` |
| Weights.Put | core/levels.esm.js:16-18 | `table[v] = w` keeps an ascending table ascending; its keys are the old ones plus `v` |
| Weights.PutLookup | core/levels.esm.js:16-18 | after `table[v] = w`, `v` maps to `w` and every other value is unchanged |
| Game.SnapshotRoundTrip | core/game2048.esm.js:147-171 | `restoreState(peekState())` gives back the board and the score |
| Game.RestoreIgnoresNonObjects | core/game2048.esm.js:155-157 | a falsy or non-object state is ignored |
| Game.MoveAccounting | core/game2048.esm.js:69-97 | a changing move loses one tile per merge, always finds room for the spawn, and gains one tile |
| Game.SpawnWithRoom | core/game2048.esm.js:53-66 | with room, a spawn draws two values and adds one tile on an empty cell |
| Game.DealOnEmptyBoard | core/game2048.esm.js:7-15 | the opening deal on an empty board of side at least 2 takes four draws and leaves two tiles, whatever the draws |
| Game.OpeningDeal | core/game2048.esm.js:7-15 | on an empty board of side at least 2 both opening spawns find room; the board ends with two tiles |
| Game.Game.constructor | core/game2048.esm.js:7-15 | size 4 and table `{1: 0.9, 2: 0.1}` by default, score 0, and the board and draw count of two spawns on an empty board (`Game.Dealt`) |
| Game.Game.Reset | core/game2048.esm.js:18-23 | score 0 and the board and draw count of two spawns on an empty board (`Game.Dealt`); size and weights stay |
| Game.Game.DealTwo | core/game2048.esm.js:13-14 | two `addRandomTile` calls in turn, the second taking the draws after the first's (`Game.Dealt`) |
| Game.Game.GetGrid | core/game2048.esm.js:26-28 | a copy of the board with `size` rows of `size` cells |
| Game.Game.CanMove | core/game2048.esm.js:36-50 | the result is the movability test on the current board |
| Game.Game.WeightedRandom | core/game2048.esm.js:116-125 | one draw is taken, mapped to a tile value of the table |
| Game.Game.AddRandomTile | core/game2048.esm.js:53-66 | false on a full board, which stays unchanged with nothing drawn; otherwise the first draw picks the cell and the second the value |
| Game.Game.SpawnInto | core/game2048.esm.js:62-65 | the chosen empty cell takes the picked value; exactly two draws are taken |
| Game.Game.SquashMerge | core/game2048.esm.js:128-144 | the squashed line is returned and its gain added to the score; `Move` reaches the same step through `Engine.SlideBoard`, whose lines are proved to be this squash (`Board.SlideIsLines`) |
| Game.Game.Move | core/game2048.esm.js:69-97 | an unknown direction changes nothing; otherwise the score gains the merges, and the result is true exactly when the board changed, which is exactly when one tile is spawned |
| Game.Game.PeekState | core/game2048.esm.js:147-152 | the snapshot restores to the current board and score |
| Game.Game.RestoreState | core/game2048.esm.js:155-171 | the board is rebuilt from `state.grid`; the score is replaced only by a finite number; a non-object state is ignored |
| MiniGame.MiniGame.constructor | miniprogram/core/game2048.cjs.js:6-13 | the defaults and the two opening spawns, drawing from `Math.random` |
| MiniGame.MiniGame.Reset | miniprogram/core/game2048.cjs.js:16-21 | score 0 and a fresh board with two spawns |
| MiniGame.MiniGame.DealTwo | miniprogram/core/game2048.cjs.js:11-12 | two `addRandomTile` calls in turn |
| MiniGame.MiniGame.GetGrid | miniprogram/core/game2048.cjs.js:24-26 | a copy of the board |
| MiniGame.MiniGame.CanMove | miniprogram/core/game2048.cjs.js:34-48 | the movability test |
| MiniGame.MiniGame.WeightedRandom | miniprogram/core/game2048.cjs.js:114-123 | one `Math.random` call mapped through the table |
| MiniGame.MiniGame.AddRandomTile | miniprogram/core/game2048.cjs.js:51-64 | false on a full board; otherwise one empty cell takes the picked value |
| MiniGame.MiniGame.SpawnInto | miniprogram/core/game2048.cjs.js:60-63 | the chosen cell takes the picked value; exactly two calls of `Math.random` |
| MiniGame.MiniGame.SquashMerge | miniprogram/core/game2048.cjs.js:126-142 | the squashed line, its gain added to the score; `Move` reaches the same step through `Engine.SlideBoard` |
| MiniGame.MiniGame.Move | miniprogram/core/game2048.cjs.js:67-95 | the same move contract as the core engine |
| RandomSource.Oracle.Next | core/game2048.esm.js:9 | `Math.random` returns the next value of its sequence, in [0, 1) |
| RandomSource.Pull | core/game2048.esm.js:9 | one call of the generator in use returns its next value and consumes one |
| Rng.ToUint32 | core/rng.cjs.js:10-11 | `x >>> 0` lies below 2^32 and keeps integers already in range |
| Rng.SeedHashIsPolynomial | core/rng.cjs.js:14-17 | reducing at every step equals reducing the polynomial hash once |
| Rng.NormalizeSeed | core/rng.cjs.js:9-21 | the seed is a finite number `>>> 0`, the rolling hash over the string's UTF-16 code units, or 1; never 0, always below 2^32 |
| Rng.AstralSeedHashesSurrogates | core/rng.cjs.js:14-16 | a character above U+FFFF is hashed as its two UTF-16 surrogates, as `charCodeAt` reads them: "\u{1F3B2}" normalises to 0xD83C · 31 + 0xDFB2 |
| Rng.Utf16OfBasicText | core/rng.cjs.js:14-16 | text below U+10000 has one code unit per character, its code point |
| Rng.DrawsSplit | core/rng.cjs.js:26-29 | drawing `j + k` values is drawing `j` and then `k` from the state reached |
| Rng.DrawsAt | core/rng.cjs.js:26-29 | the `i`th future draw is the state after `i + 1` steps over 2^32 |
| Rng.RestorePeekedState | core/rng.cjs.js:30-36 | `restoreState(peekState())` keeps a nonzero state and the draws that follow |
| Rng.ZeroStateIsNotRestored | core/rng.cjs.js:27-34 | state 0 is reachable, peeks as 0 and restores as 1, changing the draws that follow |
| Rng.Lcg.constructor | core/rng.cjs.js:24-25 | the state starts at the normalised seed, a string being hashed over its UTF-16 code units |
| Rng.Lcg.Next | core/rng.cjs.js:26-29 | the state takes one LCG step; the draw is state / 2^32 in [0, 1) |
| Rng.Lcg.PeekState | core/rng.cjs.js:30 | the state is read without advancing it |
| Rng.Lcg.RestoreState | core/rng.cjs.js:31-36 | a non-finite value is ignored; otherwise the state becomes `n >>> 0`, or 1 for 0 |
| Rng.SameSeedSameSequence | core/rng.cjs.js:24-29 | two generators made from the same seed return the same values, the draws from the seed normalised over UTF-16 code units |
| Clone.CloneSingleWeights | core/levels.esm.js:10-20 | the loop computes the cleaned table |
| Clone.CleanedTableExact | core/levels.esm.js:10-20 | exactly the entries whose key and value are finite numbers are kept, the last winning; a non-object gives nothing |
| Clone.CleanRoundTrip | core/levels.esm.js:10-20 | cleaning a cleaned table again gives it back |
| Clone.CloneWeightMap | core/levels.esm.js:23-32 | the loop computes the cleaned map, whose keys are unique and whose tables are clean and non-empty |
| Clone.CleanedMapExact | core/levels.esm.js:23-32 | sizes whose cleaned table is empty are dropped; every other key keeps the cleaned table of its last entry |
| Clone.CleanMapRoundTrip | core/levels.esm.js:23-32 | cleaning a cleaned map again gives it back |
| Clone.SetKey | core/levels.esm.js:29 | `map[key] = t` maps `key` to `t` and every other key as before |
| Targets.PowerTargetSteps | core/levels.esm.js:6 | `2 ** (size + 3)` doubles per level: 32, 64, 128 at sizes 2, 3, 4 |
| Targets.FibonacciTarget | core/levels.esm.js:48-58 | the loop returns F(max(0, size + 7)), or 1 in place of 0 |
| Targets.FibonacciTargetFacts | core/levels.esm.js:48-58 | the target is at least 1, is F(size + 7) above size -7, never decreases with size, and is 34 and 55 at sizes 2 and 3 |
| Targets.TargetOf | core/levels.esm.js:125-127 | calling the target function held gives a target of at least 1 |
| Targets.ResolveTargetFn | core/levels.esm.js:35-38 | a name not among the registry's target functions resolves to the default power target |
| Targets.ResolveDefault | core/levels.esm.js:35-59 | with the default registry, "fibonacci" resolves to Fibonacci and every other name that is not inherited from `Object.prototype` to the power target |
| Targets.KeyFromState | core/levels.esm.js:157 | the key `toJSON` writes is never empty |
| Targets.KeyFromStateResolves | core/levels.esm.js:157 | without a stored key, the written key resolves back to the function held |
| Levels.SizeOfFacts | core/levels.esm.js:72-73 | a valid size is kept; nothing but an integer above 1 is |
| Levels.ParsedConfigDefaults | core/levels.esm.js:176-206 | a non-object rebuilds the default manager; a non-finite total becomes 0; a non-string key becomes "power" |
| Levels.WeightsFor | core/levels.esm.js:86-91 | the engine gets a clean, non-empty table: the stored one for its size, else the default |
| Levels.RestoredWeights | core/levels.esm.js:207-231 | the restored table is clean and non-empty |
| Levels.CreateRngFromSeed | core/levels.esm.js:94-104 | a seeded generator exists exactly when there is a factory and a non-empty seed; it starts at the normalised seed |
| Levels.CreateGame | core/levels.esm.js:86-91 | a fresh engine of the level's size, with the table for that size, score 0, and the board of two spawns on an empty board from the generator's next values, which are taken |
| Levels.MaxCell | core/levels.esm.js:135-144 | the loop's maximum bounds every cell; it is 0 or the value of some cell |
| Levels.RestoreEngine | core/levels.esm.js:207-231 | the saved table is used if it cleans to something, the saved board if it is an array, and the saved score if it is finite |
| Levels.ParseSerializedConfig | core/levels.esm.js:156-206 | `fromJSON` recovers every setting `toJSON` wrote, with the key `toJSON` chose and its function |
| Levels.ParseSerializedGame | core/levels.esm.js:156-232 | the score, board and table come back as written |
| Levels.ParseSerializedRngState | core/levels.esm.js:171 | the generator state comes back as written, except that 0 comes back as 1; a manager without a generator writes `null`, read as state 1 |
| Rng.RestoredOfState | core/rng.cjs.js:31-35 | `restoreState` of a 32-bit state sets that state, 0 becoming 1 |
| Levels.OptionsFromJson | core/levels.esm.js:182-206 | the options `fromJSON` passes to the constructor give back the parsed settings |
| Levels.LevelManager.constructor | core/levels.esm.js:63-83 | the settings are derived from the options, with a total of 0 and a generator exactly when a factory and a seed are given; the first engine's board is the deal from the seed's draws (or from `Math.random`), and the generator has advanced by the draws the deal took |
| Levels.LevelManager.GetLevel | core/levels.esm.js:120-122 | the level is size − 1, at least 1 |
| Levels.LevelManager.GetTarget | core/levels.esm.js:125-127 | the target function's value at the current size |
| Levels.LevelManager.CheckPass | core/levels.esm.js:135-144 | true exactly when some cell reaches the target |
| Levels.LevelManager.NextLevel | core/levels.esm.js:147-153 | the level's score is carried exactly when `carryScore` is set; the size grows by 1; other settings and the generator stay; the fresh engine holds the deal from the generator's next values, which are taken |
| Levels.LevelManager.ApplyRngState | core/levels.esm.js:107-112 | without a generator nothing happens; otherwise the state is restored as `restoreState` does |
| Levels.LevelManager.FromJson | core/levels.esm.js:176-237 | a manager with the parsed settings whose engine took the saved table, board and score where usable; a generator exists exactly when the registry has a factory and the seed is not empty; without a saved grid array the board is the constructor's deal, and without a usable `rngState` the generator is where that deal left it (`KeptOpening`) |
| Levels.LevelManager.DefaultManager | core/levels.esm.js:176-179 | a non-object gives the default manager, without a generator, holding the opening deal from `Math.random` |
| Levels.LevelManager.FromLevelObject | core/levels.esm.js:181-236 | an object gives the constructor with the coerced fields, then the saved state, with the same promises as `FromJson` |
| Levels.LevelManager.FromParsedOptions | core/levels.esm.js:182-206 | the constructor call of `fromJSON`, from the coerced fields: a generator exactly when there is a factory and a seed, and the opening deal from the seed's draws or from `Math.random` |
| Levels.LevelManager.RestoreSaved | core/levels.esm.js:204-234 | the saved total is taken, the engine takes the saved table, board and score where usable, and the generator the saved state; without a grid array the board stays, without a usable state the generator stays; the other settings stay |
| Levels.LevelManager.RecloneMap | core/levels.esm.js:252 | cloning a map that is already clean gives it back |
| Levels.LevelManager.TakeOver | core/levels.esm.js:248-257 | every field is taken over from the rebuilt manager |
| Levels.LevelManager.Restore | core/levels.esm.js:245-259 | the manager becomes what `fromJSON` rebuilds, generator and kept opening deal included, and the call returns true |
| Levels.SerializeRoundTrip | core/levels.esm.js:156-237 | `fromJSON(toJSON(m))` has the same size, board, game score, carried total, total score, carry policy, weight map and seed, for every valid manager |
| LevelsCjs.ChosenWeights | core/levels.cjs.js:23-26 | the stored table for the size, even an empty one, else the default |
| LevelsCjs.EmptyTableContrast | core/levels.cjs.js:23-26 | for `{2: {}}` this manager passes the empty table while the ES-module one falls back to the default |
| LevelsCjs.DefaultTarget | core/levels.cjs.js:11 | the default target is `2 ** (size + 3)` |
| LevelsCjs.LevelManagerCjs.constructor | core/levels.cjs.js:8-20 | the options are stored as given (2, true, the power target when absent), with a total of 0; the first engine holds the deal of two spawns from `Math.random` |
| LevelsCjs.LevelManagerCjs.CreateGame | core/levels.cjs.js:23-26 | an engine of side `size` with the chosen table, score 0 and the deal of two spawns from `Math.random` |
| LevelsCjs.LevelManagerCjs.GetLevel | core/levels.cjs.js:34-36 | the level is size − 1 |
| LevelsCjs.LevelManagerCjs.GetTarget | core/levels.cjs.js:39-41 | the target function at the current size |
| LevelsCjs.LevelManagerCjs.GetTotalScore | core/levels.cjs.js:44-46 | the carried total plus the level's score |
| LevelsCjs.LevelManagerCjs.CheckPass | core/levels.cjs.js:49-58 | true exactly when some cell reaches the target |
| LevelsCjs.LevelManagerCjs.NextLevel | core/levels.cjs.js:61-67 | the score is carried when `carryScore` is truthy; the size grows by 1; the fresh engine holds the deal of two spawns from `Math.random` |
| Settings.CopyWeightTables | web/rules.mjs:109-122 | the nested copy loops compute the copied map |
| Settings.CloneSettings | web/rules.mjs:91-125 | the loops compute the specified copy |
| Settings.CloneRoundTrip | web/rules.mjs:91-125 | cloning serialised settings gives them back: the copy is deep and exact |
| Settings.CloneIdempotent | web/rules.mjs:91-125 | a copy of a copy is the copy |
| Settings.CloneDefaults | web/rules.mjs:93 | a falsy source gives the defaults |
| Settings.MergeSettings | web/rules.mjs:127-160 | the field-by-field overwrites compute the merge |
| Settings.MergeLevels | web/rules.mjs:139-157 | the `LEVELS` overwrites compute the merged level settings |
| Settings.MergeKeepsDefaults | web/rules.mjs:127-160 | nothing stored, or nothing of the expected types, leaves the copied defaults |
| Settings.MergedLevelsRoundTrip | web/rules.mjs:139-157 | a stored `LEVELS` object with fields of the expected types replaces the defaults' one |
| Settings.MergeRoundTrip | web/rules.mjs:127-160 | settings stored with every field of the expected type come back unchanged, whatever the defaults |
| Settings.StringsOnlyKeepsStrings | web/rules.mjs:137 | filtering an all-string list keeps it |
| Validation.ScalarRules | web/rules.mjs:580-609 | canvas size accepted exactly when finite in [200, 1024], stored rounded, else 480 and an error; gap likewise in [0, 48], else 12; start size exactly when an integer in [2, 10], else 2 and an error |
| Validation.FieldRules | web/rules.mjs:594-617 | `animate` and `carryScore` are truthiness; the seed is its text; the key is the given string or "power"; plugins are the non-empty strings of an array |
| Validation.ThrowsRule | web/rules.mjs:628-634 | the call throws exactly when the map is walked and some valid size holds `null` |
| Validation.EmptyMapRule | web/rules.mjs:619-665 | a non-object or falsy map gives the "cannot be empty" error and no tables; a walked map never gives it |
| Validation.TableRules | web/rules.mjs:620-665 | the tables stored are valid and ascending by size; they are exactly the sizes some key stores, each built by a key of that size; every key's errors are reported |
| Validation.KeyRules | web/rules.mjs:622-660 | an invalid key, a non-table value and a table with no surviving item are reported and skipped; a surviving table is stored, with an error when its sum is off by more than 0.001 |
| Validation.CheckSizeRules | web/rules.mjs:622-660 | the rules for one key: skipped, throwing, or stored from the surviving pairs, with the sum error iff the sum is outside 1 ± 0.001 |
| Validation.CheckItems | web/rules.mjs:635-647 | every item is kept or reported; the kept pairs are exactly the accepted items, all with a probability in (0, 1] |
| Validation.NoPairsIffAllRejected | web/rules.mjs:635-651 | no pair survives exactly when every item is rejected |
| Validation.TableOf | web/rules.mjs:656-660 | the table built is ascending; it holds exactly the pairs' values and only entries of the pairs |
| Validation.TableOfLast | web/rules.mjs:658-660 | a value repeated among the pairs keeps the probability of its last pair |
| Validation.CheckSizesFacts | web/rules.mjs:622-661 | the walk throws exactly at a valid size holding `null`; otherwise it stores exactly the sizes some key stores, with valid tables in order, and it reports every key's errors |
| Validation.NonEmptyNames | web/rules.mjs:598-602 | the names kept are exactly the non-empty strings |
| Validation.CheckItemsOf | web/rules.mjs:635-647 | the `forEach` over the items computes the specified pairs and errors |
| Validation.BuildTable | web/rules.mjs:656-660 | the writes compute the specified table |
| Validation.CheckSizeOf | web/rules.mjs:623-660 | one iteration computes the specified outcome |
| Validation.NormalizeWeights | web/rules.mjs:619-665 | the loop over the keys computes the specified walk |
| Validation.CheckScalars | web/rules.mjs:577-617 | the scalar checks compute the specified fields and errors |
| Validation.ValidateAndNormalizeSettings | web/rules.mjs:576-667 | the whole validation computes `Validation(raw)`, which the rule lemmas above describe |

## Left out

- **The all-zero board.** `canMove` is true on an all-zero board although no move changes it. `Board.EmptyBoardNeverMoves` states this. Only `restoreState` or `fromJSON` can produce such a board.
- **LCG state 0.** The generator state can reach 0. `peekState` then reads 0, and `restoreState(0)` sets 1, so the draws that follow differ. `Rng.ZeroStateIsNotRestored` and `Levels.ParseSerializedRngState` state this.
- Rng.RestorePeekedState: requires a nonzero state, so the round trip is not claimed for state 0.
- Rng.NormalizeSeed: a string holding a lone surrogate code unit, which JavaScript allows, cannot be written as a Dafny string, so such seeds are not modelled. Every other string is hashed over its UTF-16 code units, as `charCodeAt` reads them.
- **Floating point.** Numbers are exact reals. Floating-point rounding of sums, products and `2 ** k` is not modelled.
- **`Number()` of strings.** Only the empty string and digit strings are read as numbers; every other string is treated as NaN. This covers signs, decimals, exponents, whitespace, hex and "Infinity".
- **`String()` of non-integer numbers.** It is not modelled. The seed rules require that a numeric seed be an integer (`SeedModelled`).
- Json.ToJsString: an integer is always written out in digits. JavaScript does so only below 10^21 and writes "1e+21" from there on, so a numeric seed of that magnitude (`rngSeed` in `Levels.ParsedConfig`, `Levels.ConfigOf` and `Levels.CreateRngFromSeed`, `seed` in `Settings` and `Validation`) is stored, and hashed, as a different text than JavaScript's.
- **Key order.** An object's own keys are taken in the order they were stored. JavaScript lists canonical array-index keys ("1", "2") first in ascending order, then the others. Keys that `Number` reads as the same value but that are not canonical ("01", "02", "1.0", and negative or fractional values) can therefore be visited in a different order: for `{"01": a, "1": b}` JavaScript visits "1" first and `cloneSingleWeights` keeps a, while the model keeps b. The same holds for size keys in `cloneWeightMap` and in the validator's walk.
- Validation.TableOf: stores entries in ascending value order for every value. JavaScript enumerates negative or fractional values after the integer ones, so for such values the stored order can differ from JavaScript's.
- **The sort.** The `pairs.sort` of `validateAndNormalizeSettings` is not a separate step. Writing the pairs into an ascending table gives the same table for any order in which equal values keep their order.
- **Messages.** Error messages are values of a datatype, not the localised strings. A message's `toFixed(3)` sum is kept as a real.
- **The `null` table.** A `null` per-size table makes `Object.entries(null)` throw. This is modelled as the `Threw` outcome, not as the caller's catch.
- Targets.ResolveTargetFn: names inherited from `Object.prototype` ("toString", "constructor", …) and the key "rngFactory" of a registry that carries a generator factory are not modelled. `typeof registry[key] === 'function'` holds for them, so JavaScript resolves such a key to that method or to the factory, `getTarget()` then returns something that is not a number, and `checkPass` is always false; the model resolves them to the power target. `Targets.ResolveDefault` excludes the inherited names, and the default registry carries no factory.
- Settings.CloneSettings: `Number(x) || 0` keeps ±Infinity in `canvasSize`, `gap` and `startSize`; the copy holds reals, so it stores 0 there. The copy is only made of the built-in defaults, whose fields are finite.
- **Target functions and generators.** Arbitrary user target functions and generator factories are not modelled. A target function is `Power` or `Fibonacci`, and a factory is `makeLCG`.
- **The empty weight table.** It is not modelled. `_weightedRandom` on an empty table reads `items[0].v` of nothing and throws.
  - `Game.Game.constructor` and `MiniGame.MiniGame.constructor` therefore require a non-empty table.
  - LevelsCjs.LevelManagerCjs.constructor: requires `NoEmptyTable`. The CommonJS manager hands a stored empty table to the engine, whose draw then throws. `LevelsCjs.EmptyTableContrast` states where the two managers differ.
- **The wall clock.** `snapshot` and the `Date.now` timestamp it records are not modelled.
- **`console.warn`.** The warning `fromJSON` logs for a non-object input is not modelled. The catch in `_createRngFromSeed` guards a failing user factory, and `makeLCG` never throws, so that path is not modelled either.
- **Aliasing.** The CommonJS manager stores the caller's weight map without copying it. The model holds it as a value, so later changes by the caller are not modelled.
- **The CommonJS engine.** core/game2048.cjs.js is not part of this model. The CommonJS manager uses the miniprogram engine, which has the same logic.
- **`cloneSettings` in the validator.** The validator calls `cloneSettings(DEFAULT_SETTINGS)`, so `Validation.ValidateAndNormalizeSettings` requires only the seed of `raw` to be modelled.
- **Level restore.** `Levels.LevelManager.Restore` always returns true. `fromJSON` always returns a manager, so the `instanceof` check that would return false cannot fail.
- **The page.** The DOM, the event listeners, local storage and the rest of `web/rules.mjs` are not part of this model.
