# Pyramid solitaire rules, modelled in Dafny

This project models the rule engine of the pyramid card-elimination game
twolaps/solitaire. Twenty-one cards lie in a pyramid of six rows. A card is
face-up only when every card lying on it has been eliminated. The player
holds one hand rank and may eliminate any face-up card whose rank is one
above or one below it, where 13 and 1 count as neighbours. The eliminated
card's rank becomes the new hand.

The model covers four parts of the game.

- **Card state** (`card_view.dfy`, module `Card`). `CardView` is a class
  with the fields the rules read and write: `cfgKey`, `value`, `isClear`,
  `side` and `touchable`. `side` stands for the selected index of the side
  controller: 0 shows the front, 1 the back. The card map
  (`Map<string, CardView>`) is an insertion-ordered sequence of
  (key, card) pairs. `Snapshot` reads its state as a value, a `Board`.
  `KeyIndex` is `Map.get`: it finds the first entry with a given key.
- **Visibility resolver** (`board_layout.dfy`, module `BoardLayout`).
  - `CheckSide` is `checkSide`. It is a loop over the live card map that
    calls `SetFront` or `SetBack` on every card.
  - It is proved against `Resolved`, the board it must leave behind.
  - Lemmas about `Resolved` state what the resolver promises: which cards
    end face-up, that a second run changes nothing, and that eliminating
    more cards never hides a card.
- **Rules** (`game_state.dfy`, module `Game`).
  - `GameState` is a class with the five session fields.
  - Its query methods (`IsAllCleared`, `IsDeadlock`, `GetOneEliminable`,
    `GetGuaranteedHandValue`, `IsWinByTime`) are loops or tests over the
    card map. Each method's result is tied to a specification over the
    map's snapshot. `IsAllCleared`, `IsDeadlock` and `IsWinByTime` return
    exactly a predicate's value. `GetGuaranteedHandValue` returns exactly a
    function's value. `GetOneEliminable` returns null iff the board is
    deadlocked, and otherwise the card at the first position that
    satisfies `FirstEliminableAt`.
  - The queries have no `modifies` clause, so they change neither the
    session fields nor any card.
  - `Math.random()` is a parameter `rand` in [0, 1). `Date.now()` is a
    parameter `now`.
- **Level data** (`card_config.dfy` and `level_scenarios.dfy`).
  - `cardCfg` and each level's `cards` object are written as sequences of
    (key, value) entries in declaration order, which is the order a
    `for ... in` loop visits them. `EntryMap` turns such a sequence into
    the object's map. `CardKeys` is the key list card1..card21, proved
    equal to the declared key order.
  - Facts about the data are proved from the literal constants: the keys
    are distinct, slot `i` (0-based) has id `i + 1` and is covered by the
    two slots of the row below, the cover graph is acyclic, the bottom row
    is the only uncovered row, and every level ranks every slot with a
    rank in 1..13.
  - The comments of levels 2 to 5 describe an opening that ends in a
    deadlock. Each opening is proved on the model of `checkSide` and
    `isDeadlock`.

`wrappers.dfy` holds the `Option` type used for `T | null`.

## Model

| member | source | states |
|---|---|---|
| Card.CardView.constructor | assets/src/ui/components/CardView.ts:8-13 | A fresh card has rank 0 and is not eliminated. |
| Card.CardView.SetDigital | assets/src/ui/components/CardView.ts:27-31 | Sets the rank to `v`. May change only `value`, so the cleared flag, side and touchable flag stay as they were. |
| Card.CardView.SetFront | assets/src/ui/components/CardView.ts:54-57 | Sets the side to 0 (front) and `touchable` to true. Nothing else changes; in particular `isClear` is never written. |
| Card.CardView.SetBack | assets/src/ui/components/CardView.ts:59-62 | Sets the side to 1 (back) and `touchable` to false. Nothing else changes. |
| Card.KeyIndex | assets/src/game/BoardLayout.ts:24 | `Map.get` as an index: the result is the first entry with the key, and it is absent exactly when no entry has the key. |
| Card.KeyIndexSameKeys | assets/src/game/BoardLayout.ts:24 | A lookup depends only on the keys and their order, so the live map and its snapshot look a key up alike. |
| BoardLayout.Resolved | assets/src/game/BoardLayout.ts:15-32 | The board checkSide leaves. Keys, order, ranks and cleared flags are kept. Every card, eliminated or not, ends face-up and touchable or face-down and untouchable. |
| BoardLayout.CoverCardClearedMatches | assets/src/game/BoardLayout.ts:23-26 | The `every` callback on the live map gives the same answer as the cover test on the snapshot. |
| BoardLayout.CheckSide | assets/src/game/BoardLayout.ts:11-33 | checkSide on the live card map: afterwards the map's state is `Resolved` of its state before. It changes only the side and touchable flag of the cards. |
| BoardLayout.CoverClearedIff | assets/src/game/BoardLayout.ts:23-26 | With distinct keys, a cover key counts as cleared iff it names a card of the map that is eliminated. |
| BoardLayout.CoverClearedGrows | assets/src/game/BoardLayout.ts:23-26 | When cleared flags only go from false to true, a cleared cover key stays cleared. |
| BoardLayout.UncoveredShowsFront | assets/src/game/BoardLayout.ts:16-21 | A card with no layout, no cover list or an empty cover list ends face-up and touchable. |
| BoardLayout.CoveredShowsFrontIff | assets/src/game/BoardLayout.ts:23-31 | A card with a non-empty cover list ends face-up iff every cover key names an eliminated card of the map. |
| BoardLayout.MissingCoverHides | assets/src/game/BoardLayout.ts:23-30 | A cover key that names no card keeps the covered card face-down and untouchable. |
| BoardLayout.ResolvedSidesDependOnClearedOnly | assets/src/game/BoardLayout.ts:15-32 | Two boards with the same keys and the same cleared flags get the same sides and touchable flags. |
| BoardLayout.ResolvedIdempotent | assets/src/game/BoardLayout.ts:15-32 | Running checkSide a second time with no elimination in between changes nothing. |
| BoardLayout.ResolvedMonotone | assets/src/game/BoardLayout.ts:23-31 | If cards are only eliminated between two runs, every card face-up after the first run is face-up after the second. |
| Game.PickIndex | assets/src/game/GameState.ts:90 | `Math.floor(Math.random() * n)` is a valid index: below `n`. |
| Game.GameState.constructor | assets/src/game/GameState.ts:9-18 | The session starts with hand 0, no deadlocked shuffles, no start time, not won, and no elimination yet. |
| Game.GameState.IsAllCleared | assets/src/game/GameState.ts:38-43 | The answer is true iff every card of the map is eliminated; true for an empty map. |
| Game.GameState.IsDeadlock | assets/src/game/GameState.ts:50-57 | The answer is true iff no card is at once uneliminated, face-up and matching the hand. |
| Game.GameState.GetOneEliminable | assets/src/game/GameState.ts:64-71 | Returns null iff the board is deadlocked. Otherwise it returns the card of the first entry, in map order, that is uneliminated, face-up and matching. |
| Game.GameState.GetGuaranteedHandValue | assets/src/game/GameState.ts:78-91 | The loop builds the list `GoodValues` and returns its entry at the drawn index, or null when the list is empty. |
| Game.GameState.IsWinByTime | assets/src/game/GameState.ts:97-101 | The answer is the time-win predicate on the start time and the clock reading. |
| Game.CanEliminateIff | assets/src/game/GameState.ts:25-31 | Two ranks match iff they are one apart or are exactly the pair {1, 13}. |
| Game.CanEliminateSymmetric | assets/src/game/GameState.ts:26-30 | Swapping card rank and hand rank gives the same answer. |
| Game.CanEliminateIsRingAdjacency | assets/src/game/GameState.ts:25-31 | On ranks 1..13, matching is adjacency on the ring 1, 2, ..., 13, 1. |
| Game.AllClearedIsDeadlocked | assets/src/game/GameState.ts:50-57 | On a board where every card is eliminated, isDeadlock is true. |
| Game.DeadlockedIgnoresUnplayable | assets/src/game/GameState.ts:50-57 | Eliminated and face-down cards, and their ranks, do not affect isDeadlock. |
| Game.NeighboursMatch | assets/src/game/GameState.ts:83-87 | Every value pushed for a card matches that card, and at least one value is pushed. |
| Game.NeighboursOfRank | assets/src/game/GameState.ts:83-87 | For a rank, the values pushed are exactly the ranks it matches. |
| Game.NeighboursAreRanks | assets/src/game/GameState.ts:83-87 | The values pushed for a rank are ranks. |
| Game.GoodValuesIff | assets/src/game/GameState.ts:79-88 | A value is in `goodValues` iff it is pushed for some uneliminated face-up card. |
| Game.GoodValuesEmptyIff | assets/src/game/GameState.ts:79-89 | `goodValues` is empty iff no card is both uneliminated and face-up. |
| Game.GuaranteedNoneIff | assets/src/game/GameState.ts:89 | getGuaranteedHandValue returns null iff no card is both uneliminated and face-up. |
| Game.GuaranteedBreaksDeadlock | assets/src/game/GameState.ts:74-76 | The value returned matches some uneliminated face-up card, so with it as the hand the board is not deadlocked. |
| Game.GuaranteedIsRank | assets/src/game/GameState.ts:76-90 | When the face-up uneliminated cards carry ranks in 1..13, the value returned is a rank too. |
| Game.PickIndexHits | assets/src/game/GameState.ts:90 | The draw k/n picks index k. |
| Game.EveryGoodValueCanBeDrawn | assets/src/game/GameState.ts:90 | Every entry of `goodValues` is returned for some random draw. |
| Game.ThresholdShuffleMatches | assets/src/game/GameState.ts:11-12 | From DEADLOCK_THRESHOLD (2) consecutive deadlocked shuffles on, the next shuffle card matches a board card whenever some card is uneliminated and face-up. |
| Game.WinByTimeIff | assets/src/game/GameState.ts:97-101 | Before the first tap there is no time win. After it, the time win holds iff now ≥ start + 30000 ms. |
| Game.WinByTimeStaysWon | assets/src/game/GameState.ts:97-101 | Once the time win holds, it keeps holding as the clock advances. |
| Game.CanEliminate | assets/src/game/GameState.ts:25-31 | The match test on a card rank and the hand rank. Its meaning is stated by `Game.CanEliminateIff`, `Game.CanEliminateSymmetric` and `Game.CanEliminateIsRingAdjacency`. |
| Game.NextShuffleValue | assets/src/game/GameState.ts:11-12 | The next shuffle card's rank. `Game.ThresholdShuffleMatches` states what it guarantees. |
| BoardLayout.CardLayoutCfg | assets/src/game/BoardLayout.ts:4 | A slot's layout: an optional list of cover keys. A missing list is `None` and is treated like an empty list (`BoardLayout.UncoveredShowsFront`). |
| CardConfig.CardCfg | assets/src/config/CardConfig.ts:7-29 | The cover graph, as the map of the 21 declared entries. `CardConfig.CardCfgIsPyramid` states its shape. |
| CardConfig.LevelConfigs | assets/src/config/CardConfig.ts:37-100 | The five levels, each a hand rank and a list of (key, rank) entries. `CardConfig.LevelsWellFormed` states what holds of them. |
| CardConfig.CardKeys | assets/src/ui/GameWindow.ts:30-33 | The order in which `for (const key in cardCfg)` inserts the cards into the card map. `CardConfig.CardKeysInDeclarationOrder` ties it to cardCfg. |
| CardConfig.PropertyAt | assets/src/config/CardConfig.ts:7-29 | In an object literal with distinct keys, each declared key maps to the value declared with it. |
| CardConfig.PropertyKeys | assets/src/config/CardConfig.ts:7-29 | An object literal has exactly the declared keys. |
| CardConfig.EntriesListed | assets/src/config/CardConfig.ts:37-100 | If a key list names the entries of an object literal in order, every listed key is a property with its declared value, and the properties are exactly the listed keys. |
| CardConfig.CardKeysInDeclarationOrder | assets/src/ui/GameWindow.ts:30-33 | The insertion order card1..card21 is the declaration order of cardCfg's keys. |
| CardConfig.CardKeysDistinct | assets/src/config/CardConfig.ts:8-28 | The 21 keys card1..card21 are pairwise different. |
| CardConfig.CardCfgKeysDistinct | assets/src/config/CardConfig.ts:7-29 | cardCfg declares no key twice, so each key has one slot. |
| CardConfig.Row | assets/src/config/CardConfig.ts:7-29 | The pyramid row (1..6) of a 0-based slot. Row 6 holds exactly slots 15..20, and for a slot above it the cover positions i + r and i + r + 1 are slots. |
| CardConfig.RowBelow | assets/src/config/CardConfig.ts:8-22 | For a slot above the bottom row, both cover positions i + Row(i) and i + Row(i) + 1 lie in the next row down. |
| CardConfig.CoverSlots | assets/src/config/CardConfig.ts:8-28 | The positions of a slot's cover keys: two later positions for slots 0..14, none for the bottom row. |
| CardConfig.PyramidCoverSlots | assets/src/config/CardConfig.ts:8-28 | The pyramid cover list of a slot names the keys at its cover positions. |
| CardConfig.PyramidCovers | assets/src/config/CardConfig.ts:8-28 | Entry `i` of cardCfg has id `i + 1` and covers the two slots of the row below, or none on the bottom row. |
| CardConfig.CardCfgIsPyramid | assets/src/config/CardConfig.ts:7-29 | cardCfg has exactly the keys card1..card21, and the slot of key `i` has id `i + 1` and its pyramid cover list. |
| CardConfig.PyramidIdsIncrease | assets/src/config/CardConfig.ts:8-28 | In any pyramid table, every cover key names a slot whose id is larger than the covered slot's id. |
| CardConfig.CoverKeysAreLaterSlots | assets/src/config/CardConfig.ts:8-22 | Every cover key names a slot, and its id is larger than the id of the covered slot. |
| CardConfig.ChainIdsIncrease | assets/src/config/CardConfig.ts:8-22 | Along any chain of cover edges, slot ids strictly increase. |
| CardConfig.CoverGraphAcyclic | assets/src/config/CardConfig.ts:8-28 | No card covers itself, directly or through other cards. |
| CardConfig.OnlyBottomRowUncovered | assets/src/config/CardConfig.ts:23-28 | Every key card1..card21 has a slot, and the slot's cover list is empty exactly for card16..card21. |
| CardConfig.LevelKeysAreSlots | assets/src/config/CardConfig.ts:35 | The cards object of a well-formed level declares no key twice, and its keys are exactly the keys of cardCfg. |
| CardConfig.LevelWellFormedAt | assets/src/config/CardConfig.ts:37-100 | Each level lists the 21 slot keys in order, and its hand and every rank lie in 1..13. |
| CardConfig.LevelsWellFormed | assets/src/config/CardConfig.ts:37-100 | All five levels are well formed. |
| LevelScenarios.FreshBoardReadsLevel | assets/src/config/CardConfig.ts:35 | Each card of a fresh board carries the rank that the level's cards object gives the card's key. |
| LevelScenarios.ClearKey | assets/src/ui/components/CardView.ts:13 | Setting the `isClear` flag of the card with a key keeps every key and rank. A card ends eliminated iff it was already eliminated or has that key. |
| LevelScenarios.Take | assets/src/game/BoardLayout.ts:11-33 | One elimination followed by checkSide keeps every key and rank. A card ends eliminated iff it was already eliminated or has the taken key. |
| LevelScenarios.CoverClearedAt | assets/src/game/BoardLayout.ts:23-26 | On a board in slot order, the key at a position counts as cleared iff the card at that position is eliminated. |
| LevelScenarios.TakeClearsOne | assets/src/game/BoardLayout.ts:11-33 | On a board in slot order, taking the card at one position keeps the order and eliminates exactly that card in addition. |
| LevelScenarios.CoverOfLayout | assets/src/game/BoardLayout.ts:14-24 | The cover list checkSide reads for the slot at a position is its pyramid cover list. |
| LevelScenarios.FreshBoardShowsBottomRow | assets/src/config/CardConfig.ts:23-28 | On a fresh board of any well-formed level, checkSide turns face-up exactly the cards at positions 15..20, which are card16..card21. |
| LevelScenarios.StuckIsDeadlocked | assets/src/game/GameState.ts:50-57 | Suppose every card matching the hand is taken or lies under a card not taken. Then the resolved board is deadlocked. |
| LevelScenarios.UnlockStep | assets/src/game/BoardLayout.ts:23-31 | A card covered by two cards stays face-down while the second remains and turns face-up once both are eliminated. |
| LevelScenarios.UncoveredTakeable | assets/src/game/BoardLayout.ts:16-21 | An uncovered, uneliminated card that matches the hand can be taken after checkSide. |
| LevelScenarios.OpeningBoards | assets/src/config/CardConfig.ts:48-51 | Before the opening and after each of its two taps, the board keeps the level's keys and ranks, and exactly the taken cards are eliminated. |
| LevelScenarios.OpeningTakesLegal | assets/src/config/CardConfig.ts:48-51 | Both taps of an opening hit a face-up card matching the current hand. |
| LevelScenarios.OpeningUnlocks | assets/src/config/CardConfig.ts:48-51 | The card the two tapped cards cover is face-down after the first tap and playable after the second. |
| LevelScenarios.OpeningDeadlocks | assets/src/config/CardConfig.ts:48-51 | After both taps no card matches the new hand. |
| LevelScenarios.OpeningFromData | assets/src/config/CardConfig.ts:48-51 | Data of this kind makes the opening hold: two uncovered cards that match in turn, the card they both cover, and a stuck position afterwards. |
| LevelScenarios.Level2OpensIntoDeadlock | assets/src/config/CardConfig.ts:48-59 | Level 2, hand 9: taking card16 (8) and then card17 (7) is legal. It turns card11 (2) face-up and leaves a deadlock with hand 7. |
| LevelScenarios.Level3OpensIntoDeadlock | assets/src/config/CardConfig.ts:61-72 | Level 3, hand 2: taking card21 (3) and then card20 (4) is legal. It turns card15 (9) face-up and leaves a deadlock with hand 4. |
| LevelScenarios.Level4OpensIntoDeadlock | assets/src/config/CardConfig.ts:74-85 | Level 4, hand 10: taking card18 (11) and then card19 (12) is legal. It turns card13 (6) face-up and leaves a deadlock with hand 12. |
| LevelScenarios.Level5OpensIntoDeadlock | assets/src/config/CardConfig.ts:87-98 | Level 5, hand 7: taking card16 (8) and then card17 (9) is legal. It turns card11 (2) face-up and leaves a deadlock with hand 9. |

## Edge behaviour of the code

- A cover key that names no card of the map counts as not eliminated,
  so the covered card stays face-down. The callback returns false for a
  missing card (assets/src/game/BoardLayout.ts:24-25), which agrees with
  the resolver's own description: face-up only with no cover or with every
  cover card cleared (assets/src/game/BoardLayout.ts:7).
  `BoardLayout.MissingCoverHides` states it.
- isDeadlock is true on a board where every card is eliminated. The scan
  finds no face-up uneliminated card and returns true
  (assets/src/game/GameState.ts:51-56), as its description "none of the
  face-up uneliminated cards matches" holds vacuously
  (assets/src/game/GameState.ts:48). `Game.AllClearedIsDeadlocked` states it.
- getOneEliminable is described as picking any one eliminable card
  (assets/src/game/GameState.ts:60). The code returns the first one in map
  insertion order (assets/src/game/GameState.ts:65-68), and
  `Game.GameState.GetOneEliminable` promises that first one.

## Left out

- Audio, hint timers, tweens, title and start-screen animation, window
  lifecycle and the generated UI bindings. They are presentation only.
- `CardView.playDropIn`, `playThrowToHand`, `playShake`: floating-point
  animation.
- The suit that `setDigital` picks with `Math.random()`, and
  `setDigitalLoader`. They are cosmetic.
- The `pos` coordinates of `cardCfg`. They are presentation only.
- The private `checkSide` of assets/src/ui/GameWindow.ts:43-58. It
  duplicates the resolver but writes the side controller without setting
  `touchable`. Only the BoardLayout version is modelled.
- The tap handlers, the shuffle-pile refill and the code that updates
  `shuffleDeadlockCount`, `gameSuccess`, `gameStartTime` and
  `isFirstEliminate`. They are not part of this model.
- `Game.NextShuffleValue`: models only the field comment at
  assets/src/game/GameState.ts:11-12. A guaranteed hand value replaces the
  drawn rank from DEADLOCK_THRESHOLD deadlocked shuffles on. The drawn
  rank is a parameter.
- `SHUFFLE_PILE_SIZE` is kept as a constant. No modelled operation uses it.
- `Math.random()` is a real parameter in [0, 1), not a random source.
  `Date.now()` is an integer parameter, not a clock.
- JavaScript numbers are modelled as unbounded integers. All values in the
  game are small ranks and millisecond counts. `rand` in
  `Math.floor(Math.random() * n)` is a free real parameter, and every index
  below `n` stays reachable (`Game.EveryGoodValueCanBeDrawn`).
- `BoardLayout.CheckSide` requires `DistinctViews`: no CardView object is
  stored under two keys. A map that holds one view under two keys is not modelled. The game
  builds its map with one new view per key
  (assets/src/ui/GameWindow.ts:30-33).
- The elimination itself happens in the tap handlers. The level scenarios
  model it as setting the card's cleared flag and running checkSide again.
- The second shuffle that the level comments predict for later in the
  game depends on the shuffle pile, which is not modelled.
