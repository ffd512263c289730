# Capture minigame and Pokémon list shaping, modelled in Dafny

This project models three parts of a Pokédex web application:

- **The capture minigame's per-throw logic** (`createGameActions`). This covers the collision poll, pointer following and the throw itself. It also covers the chain of completion callbacks and timers that follows a throw: throw stage 1, then throw stage 2 or a timed reset, then the hit test. On a hit the chain continues with move aside, open, close and drop, then the shake and the capture roll, and ends in the success or the escape path.
  - The ball's `inMotion` and `colision` flags are fields of a `Ball` object. The actions update them in place.
  - Every request the actions make to the page is appended to an effect log. This includes animations, class toggles, `state.resetState()` and the capture-success callback.
  - Every callback or timer handed out is kept in a list of pending continuations. `Fire` runs any one of them, in any order.
  - The source keeps no round counter. So a continuation that fires after a reset still runs, and the model lets it.
- **The list and detail data shaping** of `pokemonModel.js`. This covers query parsing, pagination, the search and ids filters, zero-padded codes, language selection, type and stat mapping, image URLs, game-configuration defaults and the final filter of list items.
- **The geometry helpers** of `GameUtils.js`. These are the centre of a bounding box, the translation between two centres and the bounded random integer.

Files:

- `js.dfy` (module `Js`): the JavaScript semantics the model relies on. This covers `undefined`, truthiness, `slice`, `filter`, `find`, `split`, `toLowerCase`, `includes`, `toString` and `padStart`.
- `game_utils.dfy` (module `GameUtils`): the geometry helpers.
- `game_actions.dfy` (module `GameActions`): the capture game.
- `pokemon_model.dfy` (module `PokemonModel`): the data shaping.

Three behaviours of the code that the model keeps as they are written:

- **Vertical travel.** `translateYValue` is `-0.75 * screen.height * scalePercent`, and only the horizontal drift uses it. `deltaY` goes on unchanged as `movementY`.
- **No round counter.** The code keeps no round counter, so pending continuations still run after `resetState`. The drop callback itself calls `state.resetState()` just before the outcome animation starts.
- **Collision while idle.** `checkBallColisions` does not read `inMotion`, so a collision can latch while the ball is only being aimed. `CaptureGame.CheckBallColisions` states this behaviour.

## Model

| member | source | states |
|---|---|---|
| GameUtils.CenterCoords | src/components/capture/game/GameUtils.js:5-15 | no centre without a rectangle; otherwise the point equidistant from the left and right edges and from the top and bottom edges, inside the rectangle when its width and height are non-negative |
| GameUtils.Translation | src/components/capture/game/GameUtils.js:74-77 | the translation carries the first point onto the second; from a point to itself it is (0, 0) |
| GameUtils.TranslationAntisymmetric | src/components/capture/game/GameUtils.js:74-77 | swapping the two points negates the translation |
| GameUtils.TranslationBetweenRects | src/components/capture/game/GameUtils.js:70-78 | defined exactly when both elements can be measured, and then carries the first centre onto the second |
| GameUtils.RandomNumber | src/components/capture/game/GameUtils.js:17-19 | for a draw in [0, 1) and min < max the result is an integer in [min, max) |
| GameUtils.RandomNumberReaches | src/components/capture/game/GameUtils.js:17-19 | every integer of [min, max) is produced by some draw in [0, 1) |
| GameActions.MaxVelocity | src/components/capture/game/GameActionsHelpers.js:48 | the velocity cap is non-negative and below a hundredth of the screen height for a non-negative height |
| GameActions.RollSucceeds | src/components/capture/game/GameActionsHelpers.js:145 | a seed passes iff it is at least one below the success rate (the floor taken into account), so a passing seed is below the rate and no seed ≥ 0 passes a rate ≤ 0 |
| GameActions.ClampVelocity | src/components/capture/game/GameActionsHelpers.js:48-52 | the effective velocity is min(\|velocity\|, maxVelocity), so it lies in [0, maxVelocity] when maxVelocity ≥ 0 |
| GameActions.TranslateY | src/components/capture/game/GameActionsHelpers.js:57 | the vertical travel is between -0.75·height and 0 for a scale in [0, 1], and 0 for a zero scale |
| GameActions.TranslateX | src/components/capture/game/GameActionsHelpers.js:58 | no drift at -90 degrees; for a non-zero vertical travel the drift is non-zero elsewhere and changes sign as the angle crosses -90 |
| GameActions.IsHit | src/components/capture/game/GameActionsHelpers.js:82-87 | hit iff both coordinate distances are strictly below the radius; the centre itself is a hit iff the radius is positive; a ball on any edge of the box is a miss |
| GameActions.Orientation | src/components/capture/game/GameActionsHelpers.js:94 | -1 iff the ball is left of the target's centre, else 1 |
| GameActions.SuccessRate | src/components/capture/game/GameActionsHelpers.js:140 | 100 for ring width 0, 0 for ring width 150, within [0, 100] between them |
| GameActions.SuccessRateAntitone | src/components/capture/game/GameActionsHelpers.js:140 | a smaller ring never gives a lower success rate |
| GameActions.CaptureSucceeds | src/components/capture/game/GameActionsHelpers.js:140-145 | with ring width 0 every seed below 100 succeeds; with ring width ≥ 150 no seed ≥ 0 succeeds |
| GameActions.PassingSeedsCount | src/components/capture/game/GameActionsHelpers.js:140-145 | of the seeds 0..n-1 exactly floor(successRate) pass the roll (clipped to [0, n]) |
| GameActions.DetermineThrowResult | src/components/capture/game/GameActionsHelpers.js:77-103 | an unmeasurable centre stops the chain with no effects; a miss requests nothing and schedules the reset timer; a hit pauses the target if it moves, saves the ball position, moves the ball aside by the radius towards `Orientation(ball, target)` and schedules the next stage |
| GameActions.AnimateCaptureState | src/components/capture/game/GameActionsHelpers.js:129-151 | schedules the outcome timer with the seed drawn now (in [0, 100) for a draw in [0, 1)) and the success rate of the current ring width; only class toggles and the shake are requested |
| GameActions.DecideOutcome | src/components/capture/game/GameActionsHelpers.js:142-177 | exactly one of the success path (iff the seed is below the floor of the rate) and the escape path starts; neither calls the success callback yet |
| GameActions.Resume | src/components/capture/game/GameActionsHelpers.js:62-186 | each continuation has at most one successor, of strictly lower rank, so a chain never re-enters a stage; only the drop callback resets the ball; after throw stage 1 the second stage runs iff movementY < 0, else a reset is scheduled; the shake timer continues to the confetti iff the roll passes and to the escape otherwise |
| GameActions.ResumeEffects | src/components/capture/game/GameActionsHelpers.js:62-186 | only the confetti callback calls the success callback; only the reset timer and the drop callback reset the game state; only the second throw stage, on a hit with a moving target, pauses the target's motion |
| GameActions.SuccessCount | src/components/capture/game/GameActionsHelpers.js:161-164 | one firing calls the success callback once if it is the confetti callback and never otherwise |
| GameActions.SuccessAtMostOnce | src/components/capture/game/GameActionsHelpers.js:153-165 | following one chain calls the capture-success callback at most once |
| GameActions.TailSuccess | src/components/capture/game/GameActionsHelpers.js:142-165 | from the shake timer the chain reaches the success callback iff the roll passes |
| GameActions.HitSucceedsIff | src/components/capture/game/GameActionsHelpers.js:105-165 | after a hit, the chain reaches the success callback iff the seed drawn at the drop passes the roll for the ring width measured then |
| GameActions.ThrowSucceedsIff | src/components/capture/game/GameActionsHelpers.js:62-165 | a throw ends in the success callback iff it went up the screen, both centres were measurable after stage 2, the ball hit, and the seed drawn at the drop passes the roll |
| GameActions.DownwardThrowOnlyResets | src/components/capture/game/GameActionsHelpers.js:62-67 | a throw with movementY ≥ 0 only schedules a reset |
| GameActions.Ball.Reset | src/components/capture/game/GameActionsHelpers.js:122-124 | the ball is back to idle: neither in motion nor collided |
| GameActions.CaptureGame.constructor | src/components/capture/game/GameActionsHelpers.js:19 | the actions start over the given ball and screen with no effects and no pending continuations |
| GameActions.CaptureGame.CheckBallColisions | src/components/capture/game/GameActionsHelpers.js:20-35 | once collided nothing changes (repeated polls are idempotent); without a centre or a collidable element nothing changes; otherwise the flag latches and the transform, particles and restore are requested; inMotion is never touched |
| GameActions.CaptureGame.PointerBall | src/components/capture/game/GameActionsHelpers.js:37-44 | moves the pointer iff coords are present, restores the ball iff final and not in motion, and changes nothing else |
| GameActions.CaptureGame.ThrowBall | src/components/capture/game/GameActionsHelpers.js:46-69 | sets inMotion; requests the ring-fill removal and throw stage 1 with the clamped velocity's scale and the derived drift, and schedules stage 1's callback |
| GameActions.CaptureGame.Fire | src/components/capture/game/GameActionsHelpers.js:62-186 | removes the fired continuation, appends its effects and its successor, and resets the ball's flags iff it was the drop callback |
| PokemonModel.ParseParams | src/models/pokemonModel.js:126-131 | copies every query field; limit is limit ?? pageSize ?? the page size; offset is the given offset, else limit·(pageIndex-1) for a truthy pageIndex, else 0 |
| PokemonModel.ParseParamsIdempotent | src/models/pokemonModel.js:126-131 | parsing already parsed parameters changes nothing |
| PokemonModel.GetChunk | src/models/pokemonModel.js:163-167 | the chunk is list[offset .. offset+size] clipped to the list, with size the truthy limit or the page size and offset defaulting to 0; it holds at most size entries |
| PokemonModel.PageOfQuery | src/models/pokemonModel.js:163-167 | for a positive limit and pageIndex p ≥ 1 the chunk is entries limit·(p-1) to limit·p of the list |
| PokemonModel.PagesCoverPrefix | src/models/pokemonModel.js:163-167 | the first n pages together are exactly the first n·size entries, none skipped or repeated |
| PokemonModel.ChunkSubMultiset | src/models/pokemonModel.js:163-167 | a chunk never holds an entry more often than the list it is taken from |
| PokemonModel.MatchesSearch | src/models/pokemonModel.js:52 | an entry matches iff its name contains the term (the text "undefined" when the term is absent) or one of its types is named the term; with no name and no term nothing matches |
| PokemonModel.SearchFilter | src/models/pokemonModel.js:50-53 | keeps exactly the entries whose name contains the lower-cased term or that have a type named the term: each matching entry as often as it occurs, no other entry, in the original order |
| PokemonModel.SearchFindsName | src/models/pokemonModel.js:50-53 | an entry whose name contains the lower-cased query is found |
| PokemonModel.IdsFilter | src/models/pokemonModel.js:38-41 | keeps exactly the entries whose name is one of the comma-separated ids: each such entry as often as it occurs, no other entry, in the original order |
| PokemonModel.ListSelection | src/models/pokemonModel.js:36-46 | without the random order the page is the requested chunk of the ids-filtered (or whole) catalogue; with it the page is that chunk of the reordered list, so it has the same length and never holds an entry more often than the filtered list; every entry comes from the catalogue and, when ids are given, is named by one of them |
| PokemonModel.SearchSelection | src/models/pokemonModel.js:49-55 | the page is the requested chunk of the search matches, so every entry comes from the search list and matches the term |
| PokemonModel.SelectEntries | src/models/pokemonModel.js:21-30 | with the parsed limit and offset: for a truthy q the page is the chunk of the search matches for the lower-cased q; otherwise it is the chunk of the ids-filtered (or whole) catalogue, reordered for the random list type but of the same length and never repeating an entry more often than that list, with every entry from the catalogue and named by the ids when given |
| PokemonModel.FormatCode | src/models/pokemonModel.js:169 | a falsy code is returned as is; a truthy one becomes its numeral left-padded with '0' to at least three characters |
| PokemonModel.FormatCodeRoundTrip | src/models/pokemonModel.js:169 | the padded code of a positive id reads back as that id |
| PokemonModel.FormatCodeWidth | src/models/pokemonModel.js:169 | codes of three or more digits are unchanged; shorter ones become exactly three characters |
| PokemonModel.CodeText | src/models/pokemonModel.js:189 | `${code}` is "undefined" for an undefined code, the string itself for a formatted code, and a numeral reading back as the number for a number ≥ 0 |
| PokemonModel.PokemonImage | src/models/pokemonModel.js:188-190 | the record's own image when truthy, else prefix, code, '.', image type |
| PokemonModel.ImageUrlNamesId | src/models/pokemonModel.js:188-190 | without its own image, the URL is the prefix, then a numeral of at least three digits whose value is the Pokémon's id, then '.' and the image type |
| PokemonModel.MapTypes | src/models/pokemonModel.js:176-180 | same length; null entries stay null; every other entry gets id = name = the type's name |
| PokemonModel.MapStats | src/models/pokemonModel.js:182-186 | same length; null entries stay null; every other entry keeps the stat's name and base value |
| PokemonModel.TranslateName | src/models/pokemonModel.js:171-174 | the name of the first translation in the requested language, or null when there is none |
| PokemonModel.PokemonDescription | src/models/pokemonModel.js:192-202 | the text of the first entry in the requested language, else of the first English entry, else the empty string |
| PokemonModel.MapGameConfig | src/models/pokemonModel.js:204-211 | attacks and audio are null when falsy; motionPath and maxSuccesRate take the given value when truthy, else the default, so they are truthy whenever the defaults are |
| PokemonModel.MapGameConfigStable | src/models/pokemonModel.js:204-211 | mapping a mapped configuration again gives it back |
| PokemonModel.CustomPokemonByName | src/models/pokemonModel.js:122-124 | the first bundled record with that name, or nothing when no record has it |
| PokemonModel.ItemOf | src/models/pokemonModel.js:133-147 | null for a missing record; otherwise name and slug are the record's name, the code its formatted id, the types its mapped types, the image its image URL for that code, and no evolvesFromId is set |
| PokemonModel.KeepListed | src/models/pokemonModel.js:156 | keeps exactly the present items without a truthy evolvesFromId, each as often as it occurs, in their original order |
| PokemonModel.KeepListedDropsOnlyNulls | src/models/pokemonModel.js:133-156 | on items built by getItem, which never carry evolvesFromId, the filter keeps exactly the present items, in order |
| Js.Slice | src/models/pokemonModel.js:166 | on in-range non-negative bounds the slice is the ordinary subsequence, and it is never longer than end - start |
| Js.SliceAdjacent | src/models/pokemonModel.js:166 | two slices meeting at one index make up the slice that spans both |
| Js.FilterIsSubsequence | src/models/pokemonModel.js:51-53 | filtering keeps the surviving elements in their original order |
| Js.FilterConcat | src/models/pokemonModel.js:51-53 | filtering a concatenation filters each part |
| Js.FilterHeadIsFind | src/models/pokemonModel.js:172-173 | the first element surviving the filter is the one find returns |
| Js.JoinSplit | src/models/pokemonModel.js:39 | joining the comma-split pieces gives back the ids string |
| Js.Filter | src/models/pokemonModel.js:40 | the result is no longer than the input; every element passes and comes from the input; every passing element of the input is kept |
| Js.FilterCounts | src/models/pokemonModel.js:51-53 | every passing element is kept as often as it occurs and every other element is dropped |
| Js.FindIndex | src/models/pokemonModel.js:123 | the index of the first element that passes, or none when no element passes |
| Js.Find | src/models/pokemonModel.js:123 | an element is found iff some element passes; the found element passes and no element before its first occurrence passes |
| Js.Split | src/models/pokemonModel.js:39 | at least one piece, and no piece contains the separator |
| Js.Includes | src/models/pokemonModel.js:52 | true iff the text occurs at some position of the string |
| Js.ToLower | src/models/pokemonModel.js:50 | same length, every character lower-cased, no upper-case ASCII letter left |
| Js.PadStart | src/models/pokemonModel.js:169 | the length is the larger of the string's and the width; the string is the suffix and everything before it is the fill character |
| Js.IntToString | src/models/pokemonModel.js:169 | a number ≥ 0 gives its numeral; a negative number gives '-' followed by the numeral of its magnitude |

## Left out

- Rendering and the DOM are not modelled. Animations, class toggles, background images, `innerHTML` clearing and element lookups become entries of the effect log.
- Timing is not modelled: the 400 ms and 1000 ms delays and the shake timer of six times 500 ms. Any pending continuation may fire at any moment, which includes every order the timers allow.
- Errors inside effects are not modelled, because the effect helpers' source is not part of this model. An effect's completion callback fires when `Fire` is called for it.
- `Math.log` is floating-point. The scale `Math.log(v + 1) / Math.log(maxVelocity + 1)` is the parameter `logScale`, applied to the clamped velocity.
- `Math.hypot` in `getDistanceBetweenElements` is floating-point and is not modelled.
- `Math.random()` is the parameter `draw` in [0, 1).
- The random order of `getRandomList` is nondeterministic. It is the parameter `shuffle`, which is required to return a permutation of its input, as `list.slice().sort(...)` does. Which order it picks is not modelled.
- `document.elementsFromPoint` with `findCollidableElement` is the parameter `findCollidable`. Its source is not part of this model.
- The Ball's own methods are not part of this model: `getCenterCoords`, `moveBallPointer`, `savePosition`, `getElement` and `resetBall`. Centres are readings, and the other calls are effects. `resetBall`'s source is not part of this model; `Ball.Reset` assumes it clears both flags.
- `state.resetState()` is recorded as an effect only. The game-state object is not part of this model, so its effect on the ball and the screen is not modelled.
- The event wiring of `GameEventsHelpers.js` is not modelled. This covers the gesture recognisers, resize, visibility changes and the self-rescheduling collision poll.
- The React component `PokemonCapture.js` is not modelled.
- The network layer is not modelled: `getPokemonsList`, `getPokemonByName`, `getPokemonSpeciesByName` and `Promise.all`. The bundled JSON data and the preferences file are parameters.
- The assembly of the detail record in `getDetails` is not modelled, because it needs fetched data (`getPokemonByName`, `getPokemonSpeciesByName`). Each of its pure helpers (`formatCode`, `mapTypes`, `mapStats`, `getPokemonImage`, `translateName`, `getPokemonDescription`, `mapGameConfig`) is modelled.
- Numbers are simplified. Counts, ids and offsets are integers, and coordinates and rates are reals. NaN, infinities, floating-point rounding and string-valued query fields are not modelled.
- `toLowerCase` is modelled for ASCII letters only.
- `TranslateName` and `PokemonDescription` take the language as a string, so an `undefined` language is not modelled.
- `PokemonDescription` does not model null entries of `flavor_text_entries`.
- `TranslateName` does not model a null entry of `names`, which makes `translateName` throw at `item.language`: a `Translation` is always an object.
- `MatchesSearch` keeps only the type names of a search entry, so a type object without a `name` is not represented. In the source such a type matches an absent search term, because `undefined === undefined`. The clause "with no name and no term nothing matches" therefore holds only for entries whose every type has a name.
- FormatCode, CodeText, CustomPokemonByName: `null` and `undefined` are the same `None`. Two differences of the source are therefore not captured. First, `formatCode(null)` is `null`, so a record with `id: null` gets the image URL `<prefix>null.<type>`; the model gives "undefined" in its place. Second, `item.name === name` does not match a record whose name is `null` when the name looked up is `undefined`; the model matches it.
- `PokemonModel.GetChunk`: its contract covers non-negative offsets and sizes only. Negative ones follow the count-from-the-end rule of `slice`, and only the body states that.
