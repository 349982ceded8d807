# Simon game engine, modelled in Dafny

This project models the core of the "Simona Dice Kawaii" Android game, in
which the player repeats a growing sequence of coloured buttons. The model
covers three parts:

- the game state machine of `SimonViewModel`;
- the record value and the record-repository contract;
- the game configuration.

The view model keeps a phase (`IDLE`, `SIMON`, `PLAYER`, `GAMEOVER`), the
sequence of button ids, the player's cursor `playerStep`, the level, the
status message and a cached best `Record`. The record is a pair of the
highest level reached and a millisecond timestamp. It is kept by a
repository behind `getRecord`/`saveRecord`. There are three repositories:

- a key-value preferences file;
- a SQLite table;
- a built-in no-op default, used when no repository is injected.

Files (one module each):

- `wrappers.dfy`: `Option`.
- `config.dfy`: the `GameState` enum, the four `KawaiiColor` buttons, the symbol range and the timing constants.
- `records.dfy`: `Record` and its default `Record(0, epoch 0)`.
- `preferences_store.dfy`: the preferences repository, as a map from key to number.
- `sqlite_store.dfy`: the SQLite repository, as a list of rows.
- `repository.dfy`: the repository interface as a choice of the three implementations.
- `presentation.dfy`: the timed flash trace of a presentation.
- `engine.dfy`: the view model's transitions.
  - It also defines the invariant `Valid` and the run of a list of events.
  - `Valid` states that `level == |sequence|` and `playerStep <= |sequence|`, and that `sequence[playerStep]` exists in `PLAYER`.
- `rounds.dfy`: properties of whole rounds and example games.
- `session.dfy`: the view model connected to a repository.

Coroutines become discrete steps:

- `startGame` and `nextRound` end in `SIMON` with the "Watch" message. `viewModelScope` runs a launched block at once up to its first `delay`.
- The rest of `playSequence` is one step (`EndPresentation`, or the method `PlaySequence`). It yields the timed list of light/clear events and moves to `PLAYER`.
- The one-second pause after a completed round is one step (`Settle`) from `IDLE` into `nextRound`.
- `Random.nextInt(0, 4)` becomes a parameter `sym` with `0 <= sym < 4`.
- `Date()` becomes a parameter `now`, in milliseconds.

Where the code and its unit tests disagree, the model follows the code. Two further facts about the code:

- In `PLAYER`, a pressed id outside 0..3 never matches a sequence element and ends the game (`Rounds.OutOfRangeInputEndsGame`).
- `checkForNewRecord` has no path for a failed save.
- SimonViewModelSimpleTest.kt:109-122 forces `PLAYER` after `startGame` and presses the single symbol correctly, then expects `PLAYER`. In the code, that press completes the one-symbol round, so the phase becomes `IDLE` (`Rounds.FirstRoundScenario`).
- SimonViewModelSimpleTest.kt:78-96 presses a wrong button right after `startGame`. The phase is still `SIMON`, so the press is ignored (`Rounds.PressDuringPresentationIgnored`). The test then expects "NEW RECORD" against a stored record of 1. A loss at level 1 does not beat 1, so nothing is saved (`Rounds.EqualScoreNotSaved`).

## Model

| member | source | states |
|---|---|---|
| Config.Ordinal | app/src/main/java/com/example/simonadice/model/KawaiiColor.kt:18-23 | the four phases have distinct positions 0..3, each mapped back to its phase, so the enum has exactly four distinct values |
| Config.OrdinalBijection | app/src/main/java/com/example/simonadice/model/KawaiiColor.kt:18-23 | ordinals map 0..3 back onto themselves and distinct phases to distinct ordinals: a bijection between the enum and 0..3 |
| Config.Colors | app/src/main/java/com/example/simonadice/model/KawaiiColor.kt:32-37 | there are exactly four buttons and button i has id i |
| Config.ColorIdsAreSymbols | app/src/main/java/com/example/simonadice/model/KawaiiColor.kt:33-36 | button ids are pairwise distinct and are exactly the symbol range 0..3 from which the sequence is drawn |
| PreferencesStore.GetRecord | app/src/main/java/com/example/simonadice/data/RecordRepository.kt:39-44 | an empty file reads as the default record `(0, epoch 0)`; a stored key is read back as stored |
| PreferencesStore.SaveRecord | app/src/main/java/com/example/simonadice/data/RecordRepository.kt:53-59 | reading after a save gives the saved record; exactly the two keys `high_score` and `timestamp` are added and every other key keeps its value |
| PreferencesStore.SaveOverwritesHigherScore | app/src/main/java/com/example/simonadice/data/RecordRepository.kt:53-59 | saving does not compare scores: a lower score replaces a higher stored one |
| PreferencesStore.LastSaveWins | app/src/main/java/com/example/simonadice/data/RecordRepository.kt:53-59 | two saves leave the file as the second save alone would |
| SqliteStore.OnCreate | app/src/main/java/com/example/simonadice/data/SQLiteRecordRepository.kt:46-49 | a new table has no rows |
| SqliteStore.OnUpgrade | app/src/main/java/com/example/simonadice/data/SQLiteRecordRepository.kt:55-60 | dropping and recreating the table empties it, after which reading gives the default record |
| SqliteStore.TopRow | app/src/main/java/com/example/simonadice/data/SQLiteRecordRepository.kt:86-92 | `ORDER BY high_score DESC LIMIT 1` gives no row exactly for an empty table, otherwise a row of the table whose score no row exceeds |
| SqliteStore.GetRecord | app/src/main/java/com/example/simonadice/data/SQLiteRecordRepository.kt:80-108 | an empty table reads as the default record; otherwise the result is a row of the table with maximal score |
| SqliteStore.SaveRecord | app/src/main/java/com/example/simonadice/data/SQLiteRecordRepository.kt:120-145 | after delete-all and insert the table has at most one row; a successful insert reads back as the saved record, a failed one as the default |
| Repository.GetRecord | app/src/main/java/com/example/simonadice/viewmodel/SimonViewModel.kt:25-29 | the no-op default repository always reads the default record |
| Repository.SaveRecord | app/src/main/java/com/example/simonadice/data/RecordRepository.kt:13-16 | for the preferences and SQLite repositories, save then get returns the saved record; the no-op one still reads the default; a SQLite table holds exactly one row after a save |
| Repository.EmptyStoreGivesDefault | app/src/main/java/com/example/simonadice/model/Record.kt:13-16 | every repository reads `Record(0, epoch 0)` when nothing is stored |
| Presentation.FlashesShape | app/src/main/java/com/example/simonadice/viewmodel/SimonViewModel.kt:127-130 | symbol i is lit at pre-roll + i·750 ms and cleared 500 ms later, two events per symbol |
| Presentation.FlashesSnoc | app/src/main/java/com/example/simonadice/viewmodel/SimonViewModel.kt:127-130 | each further symbol of the loop adds its light event one 750 ms slot after the previous symbol's, and its clear event 500 ms after that |
| Presentation.FlashTime | app/src/main/java/com/example/simonadice/viewmodel/SimonViewModel.kt:125-130 | event k of a presentation happens at the pre-roll plus k/2 slots of 750 ms, plus 500 ms for a clear event |
| Presentation.FlashesLightSequence | app/src/main/java/com/example/simonadice/viewmodel/SimonViewModel.kt:127-130 | the presentation lights exactly the sequence's symbols, in order |
| Presentation.FlashesTimed | app/src/main/java/com/example/simonadice/viewmodel/SimonViewModel.kt:142-146 | event times strictly increase and all fall between the end of the pre-roll and the end of the presentation |
| Engine.Init | app/src/main/java/com/example/simonadice/viewmodel/SimonViewModel.kt:31-51 | a new view model is valid, `IDLE`, at level 0 with an empty sequence and the default record |
| Engine.UpdateStartMessage | app/src/main/java/com/example/simonadice/viewmodel/SimonViewModel.kt:186-196 | the start message carries the record's score, and its date exactly when the score is positive |
| Engine.LoadRecord | app/src/main/java/com/example/simonadice/viewmodel/SimonViewModel.kt:156-164 | the loaded record replaces the cached one; the message changes only in `IDLE`; nothing else changes |
| Engine.AddToSequence | app/src/main/java/com/example/simonadice/viewmodel/SimonViewModel.kt:114-116 | one symbol is appended after the kept prefix, and every element stays in 0..3 |
| Engine.StartGame | app/src/main/java/com/example/simonadice/viewmodel/SimonViewModel.kt:61-71 | a no-op in `SIMON`; from any other phase it gives sequence `[sym]`, cursor 0, level 1 and `SIMON`, whatever the previous sequence, and the result is valid |
| Engine.CheckForNewRecord | app/src/main/java/com/example/simonadice/viewmodel/SimonViewModel.kt:172-181 | saves `Record(level, now)` iff the level beats the cached score; then the cache is that record and the message gains the new-record suffix; otherwise nothing changes; the cached score becomes the max |
| Engine.HandlePlayerInput | app/src/main/java/com/example/simonadice/viewmodel/SimonViewModel.kt:78-103 | outside `PLAYER` nothing changes. A correct press advances the cursor and keeps the sequence; the phase becomes `IDLE` exactly when the round is complete. A wrong press gives `GAMEOVER` with sequence and cursor unchanged; the score is the level; it is saved iff it beats the record, which becomes the max |
| Engine.NextRound | app/src/main/java/com/example/simonadice/viewmodel/SimonViewModel.kt:107-112 | resets the cursor, adds 1 to the level and appends one symbol after the kept prefix, so the level keeps equal to the sequence length |
| Engine.Settle | app/src/main/java/com/example/simonadice/viewmodel/SimonViewModel.kt:91-94 | after a completed round the 1000 ms pause (`SettleMs`) starts the next round with one more symbol; otherwise nothing changes |
| Engine.EndPresentation | app/src/main/java/com/example/simonadice/viewmodel/SimonViewModel.kt:121-135 | ending a presentation lights exactly the sequence, two events per symbol, and hands over to `PLAYER` with the sequence unchanged |
| Engine.PlaySequence | app/src/main/java/com/example/simonadice/viewmodel/SimonViewModel.kt:121-146 | the `forEach` presentation loop produces the same trace and final state as `EndPresentation` |
| Engine.Step | app/src/main/java/com/example/simonadice/viewmodel/SimonViewModel.kt:61-135 | every event keeps the invariant: level equal to the sequence length, cursor within the sequence, and `sequence[playerStep]` defined in `PLAYER`; only presses save records |
| Engine.Run | app/src/main/java/com/example/simonadice/viewmodel/SimonViewModel.kt:61-135 | every state reached by any run of events is valid |
| Rounds.RunAppend | app/src/main/java/com/example/simonadice/viewmodel/SimonViewModel.kt:61-135 | running two event lists in turn is running their concatenation |
| Rounds.CorrectReplayCompletesRound | app/src/main/java/com/example/simonadice/viewmodel/SimonViewModel.kt:85-95 | pressing the rest of the sequence correctly ends in `IDLE` with the cursor at the end and saves nothing |
| Rounds.RoundAdvances | app/src/main/java/com/example/simonadice/viewmodel/SimonViewModel.kt:85-112 | a mistake-free round appends exactly the drawn symbol, keeps the prefix, raises the level by one and keeps the record |
| Rounds.PlayRounds | app/src/main/java/com/example/simonadice/viewmodel/SimonViewModel.kt:85-112 | repeated mistake-free rounds stay valid and end presenting |
| Rounds.RoundsGrowSequence | app/src/main/java/com/example/simonadice/viewmodel/SimonViewModel.kt:107-115 | after N rounds the sequence is the old one followed by the N drawn symbols and the level has risen by N |
| Rounds.LengthAfterRounds | app/src/main/java/com/example/simonadice/viewmodel/SimonViewModel.kt:61-71 | a game started from any phase but `SIMON` holds N + 1 symbols at level N + 1 after N rounds |
| Rounds.FirstRoundScenario | app/src/test/java/com/example/simonadice/viewmodel/SimonViewModelSimpleTest.kt:109-122 | start, presentation and one correct press complete the one-symbol round (`IDLE`, not `PLAYER`); the next round gives `[s0, s1]` at level 2 |
| Rounds.PressDuringPresentationIgnored | app/src/test/java/com/example/simonadice/viewmodel/SimonViewModelSimpleTest.kt:84-94 | a press right after `startGame` is ignored, because the phase is `SIMON` |
| Rounds.EqualScoreNotSaved | app/src/main/java/com/example/simonadice/viewmodel/SimonViewModel.kt:172-181 | with a stored record of 1, losing at level 1 saves nothing and keeps the record |
| Rounds.HigherScoreSaved | app/src/main/java/com/example/simonadice/viewmodel/SimonViewModel.kt:172-181 | with a stored record of 1, losing at level 2 saves `Record(2, now)`, caches it and shows the new-record notice |
| Rounds.OutOfRangeInputEndsGame | app/src/main/java/com/example/simonadice/viewmodel/SimonViewModel.kt:85-101 | in `PLAYER`, pressing an id outside 0..3 ends the game |
| Session.Open | app/src/main/java/com/example/simonadice/viewmodel/SimonViewModel.kt:54-56 | construction loads the repository's record, so the cache agrees with the repository |
| Session.SessionStep | app/src/main/java/com/example/simonadice/viewmodel/SimonViewModel.kt:172-181 | cache and repository stay in agreement, the stored score never drops, and a SQLite table never grows past one row |
| Session.SessionRun | app/src/main/java/com/example/simonadice/viewmodel/SimonViewModel.kt:172-181 | the same holds over any run of events |
| Session.LostGameStoresMax | app/src/main/java/com/example/simonadice/viewmodel/SimonViewModel.kt:96-101 | after a loss the stored score is the max of the old record and the level; the repository is written iff the level beats the record |
| Session.NoOpForgets | app/src/main/java/com/example/simonadice/viewmodel/SimonViewModel.kt:25-29 | with the no-op repository, a new view model always starts from the default record |
| Session.ReopenSeesRecord | app/src/main/java/com/example/simonadice/viewmodel/SimonViewModel.kt:54-56 | a new view model over the same persistent repository starts from the record the previous one cached |

## Left out

- The Compose screen, tone and audio playback, and the activity's wiring are not modelled. They are rendering and sound.
- `KawaiiColor`'s frequency, hex colours and emoji are not modelled. Only `id` and `name` are kept.
- Coroutine timing is collapsed into discrete steps, as described above. The race is not modelled where `startGame` runs during the settle pause and a `nextRound` is still pending.
- The feedback flash of a press is reported as the flashed id (`InputResult.feedback`), without its timing.
- Message text is modelled as tags, not strings. Date formatting is not modelled.
- Engine.HandlePlayerInput: only states reached through the transitions are modelled. Its requires excludes `PLAYER` with the cursor at the end of the sequence. That state arises only when `_gameState` is written from outside, and there the code's `sequence[playerStep]` would throw.
- Engine.CheckForNewRecord: the save is taken to complete within the game-over step. In the code it runs in a launched coroutine and may finish later.
- Engine.StartGame: the "Memorize" message is overwritten at once by "Watch", so only "Watch" is kept.
- Repository.SaveRecord: the SQLite insert is taken to succeed. Its failure is modelled only in `SqliteStore.SaveRecord`, where the code merely logs it.
- SqliteStore.TopRow: on tied scores the model returns the earliest row. SQLite leaves that order unspecified, so the contract promises only some row of maximal score.
- Android storage internals are not modelled: the open-helper lifecycle, logging, content values, the asynchronous `apply()` and the IO dispatcher.
- Engine.NextRound: `level` is a Kotlin `Int`, and its 32-bit wrap-around is not modelled. It would need 2^31 rounds.
- The unit test's mock repository is not modelled. It behaves like the preferences repository.
