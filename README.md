# Japanese vocabulary runner: the rule engine in Dafny

The game is an endless runner. Word orbs, gems and obstacles come down three lanes.
The player picks up an orb showing a word in one language, then its partner in the other language, to make a match.
Matches build combos and streaks. Every fifth match stops the run for a quiz.
Passing the quiz raises the level and adds harder words. Obstacles cost lives.

This project models three parts of the game and proves properties about them.

- **The progression store** (`progression.dfy`, module `Progression`). `class Store` holds the whole game record in one field, `state: GameState`.
  - Each store action is a method, and each method is proved equal to a pure function of the old state. Examples: `Started`, `Damaged`, `GemCollected`, `WordCollected`, `QuizStarted`, `QuizAnswered`, `ItemBought`, `AchievementsChecked`.
  - Lemmas state what those functions promise.
  - Every action keeps the invariant `Inv`:
    - lives stay within 0 and the lives ceiling, and the ceiling never drops below 3;
    - combo stays between 0 and 10 and never exceeds the best combo;
    - the achievement list stays aligned with the catalogue, with an entry unlocked exactly when it carries an unlock time;
    - the popup always shows an unlocked entry of the list.
  - `checkAchievements` copies the list and unlocks entries in a loop. That loop is `EvaluateAchievements`, proved against `Evaluated` and `LastUnlock`.
  - The padding loop of `startQuiz` is proved against `Padded`.
- **The track** (`level_manager.dfy`, module `LevelManager`). `class Track` holds the object list, the distance run, the next spawn threshold and the id counter.
  - `Frame` is one tick of the frame loop:
    1. clamp the step;
    2. advance the distance;
    3. move, test and cull every object, dispatching each hit into the store as it happens;
    4. try at most one spawn.
  - `Frame` is proved against these pure functions:
    - `Sweep`: move, collide and cull;
    - `Dispatched`: the store after the frame's hits;
    - `Spawn`: what a spawn attempt creates.
  - `TrackInv` is preserved by every frame:
    - at most 50 objects;
    - ids strictly increasing along the list and below the counter;
    - every object on one of the three lanes, between the spawn line and the removal line, at its kind's height.
- **The vocabulary queries** (`vocabulary.dfy`, module `Vocabulary`).
  - The three queries are order-preserving filters and a random sample.
  - The shipped table is checked to be well formed.
- **Helpers** (`choice.dfy`, module `Choice`). Filtering, JavaScript's `slice`, and a shuffle driven by injected draws.
  - `ShuffleReaches` proves that every permutation of the input is reachable, so the model leaves the random order open.
- **Shared types** (`types.dfy`, module `GameTypes`): enums, records and constants.

Outside inputs become parameters:

- `Date.now()` becomes `now`.
- `Math.random()` becomes draw sequences (`seq<nat>`, taken modulo the number of choices) or rolls in [0, 1) (`SpawnRolls`).
- The frame delta, the player's position and the bob of floating objects are also parameters.
- The two `setTimeout` callbacks become the explicit methods `ExpireImmortality` and `ClearPopupIfStill`.

Behaviour of the code worth knowing:

- **The popup shows the last unlock.** When several achievements unlock in one pass, the popup shows the last one unlocked, in list order (`store.ts:478-485`, `PopupShowsLastUnlock`).
- **Distractors are chosen by id.** Quiz distractors are the words with another id, so a word with the same text as the answer can be offered beside it. The fruit and the colour "Orange" are both オレンジ (`store.ts:309-313`, `CorrectTextCanRepeat`).
- **The immortality timer clears the flag outright.** Its callback sets the flag to false without looking at the state (`store.ts:402`, `ExpireImmortality`).
- **The toggle guard counts entries.** A selection is kept from emptying by its number of entries, so a selection holding one category twice can be emptied (`store.ts:414-418`, `ToggleCanEmptyRepeatedSelection`). Toggling never creates a repeat (`ToggleKeepsNoRepeats`), so this needs a caller of `setSelectedCategories` passing one, and nothing in these files calls it.

## Model

| member | source | states |
|---|---|---|
| `Choice.Filter` | vocabularyData.ts:167-169 | `Array.filter`: at most as long as the input, every element kept is from the input and passes, and no element is kept more often than it occurs |
| `Choice.FilterComplete` | vocabularyData.ts:167-169 | filtering drops no element that passes |
| `Choice.FilterCount` | vocabularyData.ts:167-169 | every passing element is kept exactly as often as it occurs, and no other element is kept |
| `Choice.Take` | vocabularyData.ts:181 | `slice(0, n)` is the prefix of the length JavaScript computes, negative `n` counting from the end, and takes no element more often than it occurs |
| `Choice.Shuffle` | vocabularyData.ts:180 | the random sort returns a permutation of its input |
| `Choice.ShuffleReaches` | vocabularyData.ts:180 | every permutation of the input is the result of some draws, so no order is excluded |
| `Choice.ShuffleKeepsDistinct` | vocabularyData.ts:180 | shuffling never creates two elements with the same key |
| `Choice.LastWhere` | store.ts:444-482 | the position found satisfies the test and nothing after it does; no position means nothing satisfies it |
| `Vocabulary.WordsByCategory` | vocabularyData.ts:167-169 | the result holds exactly the table entries of the category |
| `Vocabulary.WordsByCategoryKeepsOrder` | vocabularyData.ts:167-169 | selection keeps table order (it distributes over concatenation) |
| `Vocabulary.WordsByDifficulty` | vocabularyData.ts:172-174 | the result holds exactly the entries at or below the ceiling |
| `Vocabulary.WordsByDifficultyKeepsOrder` | vocabularyData.ts:172-174 | selection by ceiling keeps table order |
| `Vocabulary.TopDifficultyIsWholeTable` | vocabularyData.ts:172-174 | on a well-formed table, ceiling 3 (the default ceiling of `getRandomWords`) selects every entry, in order |
| `Vocabulary.RandomWords` | vocabularyData.ts:177-182 | every word drawn is a table entry of a chosen category within the ceiling; there are `min(count, pool size)` of them for `count >= 0`; none occurs more often than in the pool |
| `Vocabulary.RandomWordsDistinct` | vocabularyData.ts:177-182 | a draw from a table with distinct ids never repeats an id |
| `Vocabulary.DatabaseWellFormed` | vocabularyData.ts:9-150 | every entry of the shipped table has difficulty 1 to 3 and mastery 0, and all ids are distinct |
| `Vocabulary.SharedTextAcrossIds` | vocabularyData.ts:35-51 | entries 22 (f8, the fruit) and 36 (c7, the colour) have different ids and the same Japanese text オレンジ |
| `Progression.InitialStateValid` | store.ts:108-158 | the initial record satisfies the store invariant |
| `Progression.GetDisplayText` | store.ts:100-107 | hiragana mode shows the hiragana, romaji mode the romaji, and kanji (the default) the Japanese text |
| `Progression.DisplayTexts` | store.ts:311 | mapping display text over words keeps length and position |
| `Progression.StartResetsRun` | store.ts:160-189 | a new run is PLAYING with score 0, 3 lives, base speed, level 1, no held word, zero combo and streak, and `min(5, pool)` distinct unmastered words of the selected categories at difficulty 1 or 2; stats, achievements and the lives ceiling carry over |
| `Progression.StartedKeepsInv` | store.ts:171-188 | starting a run keeps the invariant |
| `Progression.DamageRules` | store.ts:195-208 | immortal: nothing changes; otherwise combo and streak drop to 0; above one life a life is lost and the held word dropped; on the last life lives become 0, status GAME_OVER, speed 0, held word kept |
| `Progression.DamagedKeepsInv` | store.ts:195-208 | damage keeps `0 <= lives <= maxLives`; lives reach 0 exactly on the last-life branch (or were 0) |
| `Progression.LastUnlockIsLast` | store.ts:441-482 | a pass publishes an entry exactly when some entry unlocks, and that entry is the last one in list order |
| `Progression.EvaluateAchievements` | store.ts:440-482 | the loop unlocks at `now` every locked entry whose test holds, leaves the rest, and remembers the last entry it unlocked |
| `Progression.AchievementsCheckedFrame` | store.ts:484-485 | a pass changes nothing but the achievement list and the popup |
| `Progression.AchievementsMonotonic` | store.ts:444-485 | unlocked entries are never touched; an entry changes only if it was locked and its test holds, and then it becomes unlocked at `now`; the popup changes only if something unlocked |
| `Progression.PopupShowsLastUnlock` | store.ts:478-485 | when entries unlock, the popup shows the last of them, as stored in the list |
| `Progression.AchievementsCheckedKeepsInv` | store.ts:438-492 | a pass keeps the list aligned and the popup on an unlocked entry of the list |
| `Progression.GemCollectedKeepsInv` | store.ts:212-224 | a gem adds its value to the score and one gem to the run count and to the lifetime count, and keeps the invariant |
| `Progression.ComboPointsExact` | store.ts:250-253 | `floor(200 * (1 + (combo - 1) * 0.25))` equals `150 + 50 * combo` |
| `Progression.ComboBounds` | store.ts:244-253 | the new combo is 1 after the 4-second window, otherwise one more (up to 10); it lies in 1 to 10, so a match is worth 200 to 650 points |
| `Progression.AddMastery` | store.ts:258-262 | exactly the active words with the matched id gain one mastery point; every other field and word is unchanged |
| `Progression.FirstHalfIsHeld` | store.ts:232-234 | with empty hands the orb is only remembered as held |
| `Progression.MatchIffSameWordOtherLanguage` | store.ts:236-296 | with a word held, a match happens exactly for the same id in the other language; anything else drops the held word, zeroes combo and streak, and takes 50 points without going below 0 |
| `Progression.MatchBookkeeping` | store.ts:237-289 | a match clears the hand, adds `150 + 50 * combo`, one match and one streak step; raises the combo records; counts one lifetime match; adds mastery to the matched word only; then enters the quiz exactly on the fifth match with a non-empty pool, otherwise adds 0.5 speed |
| `Progression.WordCollectedKeepsInv` | store.ts:226-298 | collecting an orb keeps the invariant |
| `Progression.PaddedShape` | store.ts:315 | padding yields two entries, the drawn ones first and `?` after |
| `Progression.Distractors` | store.ts:309-313 | two distractors when the pool holds at least two words with another id, otherwise as many as there are such words |
| `Progression.DistractorsFromOtherWords` | store.ts:309-313 | every distractor is the display text of a pool word with another id |
| `Progression.OptionsShape` | store.ts:308-317 | exactly three options, including the question's text; each is that text, `?`, or the text of a pool word with another id; with at least two other-id words in the pool, `?` is never padded in |
| `Progression.QuizShape` | store.ts:300-325 | an empty pool changes nothing; otherwise the status becomes QUIZ with speed 0, a question from the pool, and its options, with nothing else changed (the match counter included) |
| `Progression.OrangeDistractor` | store.ts:309-313 | with the fruit and the colour "Orange" in the pool, the only distractor is the question's own text |
| `Progression.OrangeOptions` | store.ts:317 | that pool offers the question's text twice among the options |
| `Progression.PairDistractor` | store.ts:309-313 | with a pool of two words with different ids, the only distractor for the first is the second's text |
| `Progression.PairOptions` | store.ts:308-317 | if those two words share a text other than `?`, the options offer it twice |
| `Progression.PairQuizRepeats` | store.ts:300-317 | a quiz started on such a pool with the first draw asks about the first word and offers its text twice |
| `Progression.CorrectTextCanRepeat` | store.ts:300-317 | a quiz on such a pool asks about the fruit and offers its text twice |
| `Progression.QuizStartedKeepsInv` | store.ts:300-325 | starting a quiz keeps the invariant |
| `Progression.AnswerOutcome` | store.ts:327-373 | with no question: no change and false; otherwise accepted exactly when the answer is the question's display text, and a wrong answer is `takeDamage` |
| `Progression.PassRewards` | store.ts:333-368 | answering a question with its display text succeeds and resumes PLAYING one level up with matches 0, 500 points, speed `20 + 2 * level`, and one more passed quiz and completed level; the active words only grow |
| `Progression.NewWordsRules` | store.ts:340-350 | at most three words are added, each a table entry of a selected category, within `min(3, level / 2 + 1)` for the new level, and none sharing an id with an active word |
| `Progression.NewWordsDistinct` | store.ts:342-346 | from a table with distinct ids, the added words have distinct ids |
| `Progression.PassedKeepsInv` | store.ts:352-365 | the pass bookkeeping keeps the invariant |
| `Progression.QuizAnsweredKeepsInv` | store.ts:327-373 | answering keeps the invariant |
| `Progression.PurchaseRules` | store.ts:382-396 | a purchase succeeds exactly when the score covers the cost; failure changes nothing; success takes exactly the cost and grants exactly one effect (heal capped at the ceiling); lives stay in bounds |
| `Progression.ImmortalityRules` | store.ts:398-404 | only an owned ability switches on, nothing else changes, and damage is ignored while it is on |
| `Progression.ToggleKeepsNoRepeats` | store.ts:411-423 | a selection without repeated categories has none after a toggle |
| `Progression.ToggleRules` | store.ts:411-423 | a new category is appended; a selected one is removed with the others kept (unless it is the only entry); a selection without repeats is never emptied |
| `Progression.ToggleCanEmptyRepeatedSelection` | store.ts:414-418 | toggling Food off `[Food, Food]` leaves no category (a repeat that only `setSelectedCategories` can supply) |
| `Progression.PopupClearGuard` | store.ts:487-491 | the delayed clear empties the popup exactly when it still shows the achievement that started it, and changes nothing else |
| `Progression.Store.constructor` | store.ts:108-158 | the store starts from the initial record |
| `Progression.Store.StartGame` | store.ts:160-189 | the new state is `Started` of the old one and the invariant holds |
| `Progression.Store.RestartGame` | store.ts:191-193 | restart is start |
| `Progression.Store.TakeDamage` | store.ts:195-208 | the new state is `Damaged` of the old one |
| `Progression.Store.AddScore` | store.ts:210 | only the score changes, by the amount |
| `Progression.Store.CollectGem` | store.ts:212-224 | the new state is the gem bookkeeping followed by an achievement pass |
| `Progression.Store.CollectWord` | store.ts:226-298 | the new state is `WordCollected` of the old one: hold, match (then achievements, then the quiz on the fifth match) or mismatch |
| `Progression.Store.StartQuiz` | store.ts:300-325 | the padding loop and shuffle produce `QuizStarted` of the old state |
| `Progression.Store.AnswerQuiz` | store.ts:327-374 | state and result are `QuizAnswered` of the old state |
| `Progression.Store.SetDistance` | store.ts:376 | only the distance changes |
| `Progression.Store.OpenShop` | store.ts:378 | only the status changes, to SHOP |
| `Progression.Store.CloseShop` | store.ts:380 | only the status changes, to PLAYING |
| `Progression.Store.BuyItem` | store.ts:382-396 | state and result are `ItemBought` of the old state |
| `Progression.Store.ActivateImmortality` | store.ts:398-404 | the flag switches on only for an owned, inactive ability |
| `Progression.Store.ExpireImmortality` | store.ts:402 | the timer callback clears the flag and nothing else |
| `Progression.Store.SetStatus` | store.ts:406 | only the status changes |
| `Progression.Store.SetWritingMode` | store.ts:409 | only the writing mode changes |
| `Progression.Store.ToggleCategory` | store.ts:411-429 | only the selection changes, to `Toggled` |
| `Progression.Store.SetSelectedCategories` | store.ts:431-435 | a non-empty list replaces the selection; an empty one changes nothing |
| `Progression.Store.CheckAchievements` | store.ts:438-493 | the new state is `AchievementsChecked` of the old one |
| `Progression.Store.ClearPopupIfStill` | store.ts:487-491 | the timer callback clears the popup only if it still shows its achievement |
| `Progression.Store.ClearNewAchievement` | store.ts:495 | only the popup changes, to none |
| `LevelManager.Step` | components/World/LevelManager.tsx:46 | the step is the delta clamped to 0.05 |
| `LevelManager.Travel` | components/World/LevelManager.tsx:46-48 | a frame moves the track forward by at most `speed * 0.05` |
| `LevelManager.SweepKeepsSurvivors` | components/World/LevelManager.tsx:59-99 | the objects left after a frame are, in order, exactly those neither hit nor past the removal line, each moved by exactly `speed * dt` |
| `LevelManager.SweepReportsHits` | components/World/LevelManager.tsx:66-99 | every hit object is dispatched exactly once, in list order, as player-hit, word or gem; an object culled at the line dispatches nothing |
| `LevelManager.JumpClearsObstacles` | components/World/LevelManager.tsx:70-71 | a player at obstacle height or above is never hit by an obstacle |
| `LevelManager.DispatchedKeepsInv` | components/World/LevelManager.tsx:158-168 | any sequence of hits keeps the store invariant |
| `LevelManager.LaneOf` | components/World/LevelManager.tsx:103 | the lane lies between `-floor(n / 2)` and `n - 1 - floor(n / 2)` |
| `LevelManager.ThreeLanes` | components/World/LevelManager.tsx:103 | with 3 lanes an object spawns at x = -2.2, 0 or 2.2 |
| `LevelManager.SpawnGap` | components/World/LevelManager.tsx:154 | the next spawn is due 20 to 40 (exclusive) ahead |
| `LevelManager.FindWord` | components/World/LevelManager.tsx:113 | the word found is the first active word with the id; none found means no active word has it |
| `LevelManager.HeldWordBringsPartner` | components/World/LevelManager.tsx:110-126 | holding a word, a roll below 0.85 spawns exactly when the word is active, and the orb completes the pair with the word's text in the other language |
| `LevelManager.HeldWordOtherwiseObstacle` | components/World/LevelManager.tsx:127-129 | holding a word, any other roll spawns an obstacle |
| `LevelManager.FreshSpawnKinds` | components/World/LevelManager.tsx:130-148 | holding nothing, a roll below 0.5 spawns an orb for an active word (Japanese exactly below 0.95) and throws exactly when no word is active; otherwise a gem below 0.3, else an obstacle |
| `LevelManager.SweepKeepsTrack` | components/World/LevelManager.tsx:59-99 | the pass keeps the track invariant and never lengthens the list |
| `LevelManager.SpawnPlaced` | components/World/LevelManager.tsx:103-148 | a spawned object is on a lane, at the spawn line, at its kind's height, with the counter as id |
| `LevelManager.SpawnKeepsTrack` | components/World/LevelManager.tsx:102-153 | appending a freshly numbered object to a list with room keeps the invariant |
| `LevelManager.Track.constructor` | components/World/LevelManager.tsx:26-31 | an empty track, distance 0, first spawn at 10, counter 0 |
| `LevelManager.Track.StatusChanged` | components/World/LevelManager.tsx:33-41 | entering PLAYING empties the list, zeroes the distance and counter and sets the threshold to 10; other statuses change nothing |
| `LevelManager.Track.HandleCollision` | components/World/LevelManager.tsx:158-168 | obstacle: no store call; orb: `collectWord` with its word, text and language; gem: `collectGem(50)` |
| `LevelManager.Track.SweepObjects` | components/World/LevelManager.tsx:56-99 | the loop yields `Sweep` and leaves the store as the hits, applied in order, make it |
| `LevelManager.Track.SpawnStep` | components/World/LevelManager.tsx:101-155 | a spawn is tried only when the distance reached the threshold and the frame began with under 50 objects; the counter always advances; the threshold moves 20 to 40 ahead unless the attempt threw |
| `LevelManager.Track.Frame` | components/World/LevelManager.tsx:43-156 | outside PLAYING nothing changes; otherwise the distance grows by `speed * min(delta, 0.05)`, the hits are dispatched in order, the list becomes the survivors plus the spawn, and the track invariant holds |

## Left out

- Sound and speech are not modelled. This covers `audio.speak` and the `play…` calls in the store and in `handleCollision`; `speak` only logs anyway.
- The audio-loading and audio-error flags are not modelled. This covers `isAudioLoading`, `audioError` and `setAudioError`, plus the unused preload draw in `toggleCategory`. None of them affects the rules.
- Achievements carry only their id and unlock state. Names, descriptions, icons and condition texts are display text. Ids are an enum, so the `switch` in `checkAchievements` has no unreachable default.
- Each action reads the clock once. In `collectWord` the source reads it for the match time and again, inside the achievement pass, for the unlock time; the model uses the same `now` for both.
- `Progression.EvaluateAchievements` stamps every entry it unlocks with the same `now`. The source reads the clock once per unlocked entry (`store.ts:479`), so entries unlocked in one pass may get slightly different times there.
- The two timers are explicit methods the caller invokes: the five-second immortality timer and the three-second popup timer. Real time and their scheduling are not modelled.
- `LevelManager.Track.Frame` returns the player-hit events instead of raising the damage. `components/World/Player.tsx` reacts to `player-hit` by calling `takeDamage` behind its own invincibility window; that file is not part of this model.
- `LevelManager.Track.Frame` takes a sequence of quiz draws and hands the k-th hit of the frame the k-th draw (`QuizDrawAt`), counting hits of every kind (obstacles and gems too); only a word collection uses its draw, standing for the `Math.random` calls of a quiz started mid-frame.
- The model assumes React applies the list updates and re-renders between frames. So the status, active words and lane count the frame reads equal the store at its start.
  - Every listed object is therefore mounted and active. The source's `!group || !obj.active` skip and the `active` flag are not modelled.
  - The per-object `objectRefs` map is not modelled.
  - The frame keeps reading the active words and the list length it started with, as the source does.
- Rendering state is not modelled: object colours, rotation and `GameEntity`. The bob of gems and orbs is the parameter `sway` in [-0.1, 0.1], which stands for `sin(3t) * 0.1`. Collisions test the height left by the previous frame's bob, as in the source.
- Positions and speeds are exact reals. JavaScript's floating point could round a position differently from the model right at a collision threshold.
- `LevelManager.Spawn` returns `Thrown` when an orb is picked from an empty active-word list. The source throws a `TypeError` there, having already bumped the counter, and the model does not require the list to be non-empty. This case needs an empty selection of categories. `ToggleCanEmptyRepeatedSelection` shows that toggling can empty a selection holding a repeated category, but only an outside caller of `setSelectedCategories` can put such a repeat there.
- Object ids are the counter values themselves. The string `obj_<n>` is not modelled.
- `laneCount` is always 3: it is only ever set to 3, and the store invariant records this.
- `totalWordsLearned` and `totalPlayTime` are never updated by these files, and the model leaves them as they are.
- The random sort's real distribution is not modelled, because its comparator is inconsistent. The model admits every permutation (`ShuffleReaches`), which is what the rules rely on.
