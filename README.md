# Client-side persistence of the quiz game (Proyecto-vue)

A Dafny model of the browser persistence layer of the quiz game in `primerProyecto/src`:

- the storage capability (`save`, `load`, `remove`, `clear`) and its two adapters over
  `localStorage` and `sessionStorage`;
- the storage selector (`StorageType`, the two concrete factories, `getStorageFactory`);
- `GameRecordService`, the append-only history of finished games under `gameRecords`, with
  best score, average score, total games and win streak;
- `GameStateService`, the overwritable game snapshot under `gameStateBackup` and the
  `{won: true}` mini-game flag under `miniGameWon`.

## How it is modelled

- `WebStorage.WebStore` stands for one browser storage area. It is an object passed in, not a
  global. Its `items` map holds one text per key. Its `access` says how the browser answers:
  `Available`, `Full` (setItem throws a quota error) or `Denied` (every call throws).
  `WebStorage.Browser` holds the two distinct areas.
- JSON is abstract (`Json`). A stored `Text` is either `Serialized(v)` or `Unparsable(raw)`.
  `Encode` always succeeds, and `Decode` fails exactly on unparsable text. A `Value` is a record list, a
  game snapshot, or any other object. For another object only its `won` property is kept:
  missing, a boolean, or something else.
- `LocalStorageAdapter.ts` and `SessionStorageAdapter.ts` are the same code over different
  globals. One class, `Adapters.StorageAdapter`, models both. It is parameterised by its store
  and has no state of its own. Its methods change only `store.items`. Each method is proved
  against a pure function of the store's entries: `Loaded`, `Saved`, `Removed`, `Cleared`. The
  rows below cite either file for the same lines.
- The selector is pure. `Factories.GetStorageFactory` maps a kind string to a factory, and
  `CreateStorage` allocates a fresh adapter over the matching store.
- Each service is a class holding its adapter. Its queries are read-only methods. Each query is
  proved equal to a pure view of the store (`AllRecords`, `StoredState`, `MiniGameWon`), or proved
  to have that view's characteristic property. Each update is a method whose new store entries are
  a pure effect function of the old ones (`SaveRecordEffect`, `SaveStateEffect`, ...). The lemmas
  relate these functions.
- Scores are `nat`. `Math.round(total / n)` is `RoundHalfUp`, i.e. `(2 * total + n) / (2 * n)`.
  It is characterised as the nearest integer with halves rounded up.

## Model

| member | source | states |
|---|---|---|
| `Json.Encode` | primerProyecto/src/storage/LocalStorageAdapter.ts:7 | serialising a value always succeeds and parsing the text gives the value back |
| `Json.Decode` | primerProyecto/src/storage/LocalStorageAdapter.ts:20-24 | parsing fails exactly on text that is not a serialisation; otherwise it returns the value that text encodes |
| `Adapters.Loaded` | primerProyecto/src/storage/SessionStorageAdapter.ts:14-25 | load returns a value iff the store answers, the key is present and its text parses; a returned value is the one whose encoding is stored; an absent key gives None |
| `Adapters.Saved` | primerProyecto/src/storage/SessionStorageAdapter.ts:5-12 | after save, loading the key gives the saved value when the store accepts writes; a refused write leaves the store as it was; every other key keeps its entry |
| `Adapters.Removed` | primerProyecto/src/storage/SessionStorageAdapter.ts:27-33 | after remove the key loads None and is gone unless the store refused; removing an absent key changes nothing; every other key keeps its entry |
| `Adapters.Cleared` | primerProyecto/src/storage/SessionStorageAdapter.ts:35-41 | after clear no key of the store loads a value, whoever wrote it; the entries are empty unless the store refused the call |
| `Adapters.StorageAdapter.Save` | primerProyecto/src/storage/LocalStorageAdapter.ts:5-12 | the store's new entries are `Saved` of the old ones; nothing but the store's entries changes and no failure reaches the caller |
| `Adapters.StorageAdapter.Load` | primerProyecto/src/storage/LocalStorageAdapter.ts:14-25 | returns `Loaded` of the store: None for a missing key, an unparsable text or a store that throws |
| `Adapters.StorageAdapter.Remove` | primerProyecto/src/storage/LocalStorageAdapter.ts:27-33 | the store's new entries are `Removed` of the old ones |
| `Adapters.StorageAdapter.Clear` | primerProyecto/src/storage/LocalStorageAdapter.ts:35-41 | the store's new entries are `Cleared` of the old ones |
| `Adapters.SaveThenLoad` | primerProyecto/src/storage/LocalStorageAdapter.ts:7-20 | save followed by load on the same key returns the saved value |
| `Adapters.SaveKeepsOtherKeys` | primerProyecto/src/storage/LocalStorageAdapter.ts:5-8 | saving one key does not change what any other key loads |
| `Adapters.RemoveKeepsOtherKeys` | primerProyecto/src/storage/LocalStorageAdapter.ts:27-29 | removing one key does not change what any other key loads |
| `Factories.StorageType.Tag` | primerProyecto/src/factories/StorageFactory.ts:6-9 | the enum's string values: `'local'` exactly for LOCAL and `'session'` exactly for SESSION |
| `Factories.StorageFactory.StoreOf` | primerProyecto/src/factories/StorageFactory.ts:17-27 | the local factory's adapters use the local store; the session factory's adapters use the session store, and the local factory's never do |
| `Factories.StorageFactory.CreateStorage` | primerProyecto/src/factories/StorageFactory.ts:17-27 | each call returns a freshly allocated adapter over the factory's store |
| `Factories.GetStorageFactory` | primerProyecto/src/factories/StorageFactory.ts:31-40 | total; the session factory exactly for `'session'`, the local factory for `'local'` and for every unrecognised kind |
| `Factories.KindsResolve` | primerProyecto/src/factories/StorageFactory.ts:6-9 | the two tags differ, every kind resolves like one of the two recognised kinds, and an unrecognised kind resolves like `'local'` |
| `Factories.SessionAdapterIsolation` | primerProyecto/src/storage/SessionStorageAdapter.ts:5-41 | save, remove and clear through a session adapter change only the session store and leave the local store's entries unchanged |
| `RecordService.TotalScore` | primerProyecto/src/services/GameRecordService.ts:39 | the `reduce` sum of the scores, folded from the first record on; the reference fold for the average; every score is at most the total |
| `RecordService.MaxScore` | primerProyecto/src/services/GameRecordService.ts:32 | the maximum of a non-empty list's scores: at least every score and equal to one of them |
| `RecordService.RoundHalfUp` | primerProyecto/src/services/GameRecordService.ts:40 | the integer `r` with `r <= total/n + 1/2 < r + 1`, i.e. the mean rounded to nearest with halves up |
| `RecordService.WinStreak` | primerProyecto/src/services/GameRecordService.ts:49-61 | the length of the longest suffix of won records: at most the list length, every record in it won, and the record just before it lost |
| `RecordService.TotalAtMostCountTimesMax` | primerProyecto/src/services/GameRecordService.ts:29-41 | the sum of the scores is at most the number of records times the best score |
| `RecordService.AverageAtMostBest` | primerProyecto/src/services/GameRecordService.ts:29-41 | the average score never exceeds the best score |
| `RecordService.WinStreakAfterAppend` | primerProyecto/src/services/GameRecordService.ts:49-61 | appending a win extends the streak by one, appending a loss resets it to 0 |
| `RecordService.MaxScoreAfterAppend` | primerProyecto/src/services/GameRecordService.ts:29-33 | appending a record raises the best score to that record's score when it is higher |
| `RecordService.Examples` | primerProyecto/src/services/GameRecordService.ts:29-61 | scores 10, 50, 30 give best 50, average 30 and 3 games; wins T,F,T,T,T give streak 3 and T,F give 0 |
| `RecordService.AllRecords` | primerProyecto/src/services/GameRecordService.ts:24-26 | a record list stored under `gameRecords` is returned as it is; the result is empty whenever nothing loads; a non-empty result is exactly the stored list |
| `RecordService.SaveRecordEffect` | primerProyecto/src/services/GameRecordService.ts:17-21 | after saveRecord the list is the old list plus the record at the end (unchanged when the store refuses writes); every other key keeps its entry |
| `RecordService.SaveEachAppendsInOrder` | primerProyecto/src/services/GameRecordService.ts:17-21 | N saves append the N records in call order |
| `RecordService.ClearRecordsEffect` | primerProyecto/src/services/GameRecordService.ts:64-66 | after clearAllRecords the `gameRecords` key is gone unless the store refused, the list is empty, and every other key keeps its entry |
| `RecordService.GameRecordService.constructor` | primerProyecto/src/services/GameRecordService.ts:10-14 | the service's adapter is fresh and uses the store the kind selects |
| `RecordService.GameRecordService.SaveRecord` | primerProyecto/src/services/GameRecordService.ts:17-21 | the store's new entries are `SaveRecordEffect` of the old ones |
| `RecordService.GameRecordService.GetAllRecords` | primerProyecto/src/services/GameRecordService.ts:24-26 | returns the `AllRecords` view of the store, never an absent marker |
| `RecordService.GameRecordService.GetBestScore` | primerProyecto/src/services/GameRecordService.ts:29-33 | 0 on no records; otherwise at least every record's score and equal to one of them |
| `RecordService.GameRecordService.GetAverageScore` | primerProyecto/src/services/GameRecordService.ts:36-41 | 0 on no records; otherwise the sum of scores over the count, rounded to nearest with halves up |
| `RecordService.GameRecordService.GetTotalGames` | primerProyecto/src/services/GameRecordService.ts:44-46 | the number of stored records |
| `RecordService.GameRecordService.GetWinStreak` | primerProyecto/src/services/GameRecordService.ts:49-61 | the backward scan with `break` returns `WinStreak` of the stored records |
| `RecordService.GameRecordService.ClearAllRecords` | primerProyecto/src/services/GameRecordService.ts:64-66 | the store's new entries are `ClearRecordsEffect` of the old ones |
| `StateService.StoredState` | primerProyecto/src/services/GameStateService.ts:23-25 | a snapshot stored under `gameStateBackup` is returned as it is; a returned snapshot is the stored one; None when nothing loads |
| `StateService.MiniGameWon` | primerProyecto/src/services/GameStateService.ts:39-42 | true iff the store answers and the entry under `miniGameWon` is exactly the encoding of `{won: true}` |
| `StateService.SaveStateEffect` | primerProyecto/src/services/GameStateService.ts:18-20 | after saveGameState the snapshot loads back when the store accepts writes; a refused write changes nothing; every other key keeps its entry |
| `StateService.SetWonEffect` | primerProyecto/src/services/GameStateService.ts:34-36 | after setMiniGameWon the flag holds iff the write was accepted or it held before; every other key keeps its entry |
| `StateService.ClearStateEffect` | primerProyecto/src/services/GameStateService.ts:28-31 | after clearGameState no snapshot loads and the flag is false; both keys are gone unless the store refused; every other key keeps its entry |
| `StateService.SaveOverwrites` | primerProyecto/src/services/GameStateService.ts:18-20 | a second saveGameState replaces the first snapshot |
| `StateService.SnapshotAndFlagIndependent` | primerProyecto/src/services/GameStateService.ts:8-9 | saving the snapshot leaves the flag as it was, and setting the flag leaves the snapshot as it was |
| `StateService.ServicesIndependent` | primerProyecto/src/services/GameStateService.ts:28-31 | clearGameState leaves the record list unchanged, and saveRecord leaves the snapshot and the flag unchanged |
| `StateService.FlagLifecycle` | primerProyecto/src/services/GameStateService.ts:28-42 | on a fresh writable store the flag is false, true after setMiniGameWon and false again after clearGameState |
| `StateService.GameStateService.constructor` | primerProyecto/src/services/GameStateService.ts:11-15 | the service's adapter is fresh and uses the store the kind selects |
| `StateService.GameStateService.SaveGameState` | primerProyecto/src/services/GameStateService.ts:18-20 | the store's new entries are `SaveStateEffect` of the old ones |
| `StateService.GameStateService.LoadGameState` | primerProyecto/src/services/GameStateService.ts:23-25 | returns the `StoredState` view of the store |
| `StateService.GameStateService.ClearGameState` | primerProyecto/src/services/GameStateService.ts:28-31 | the store's new entries are `ClearStateEffect` of the old ones, each removal independent of the other |
| `StateService.GameStateService.SetMiniGameWon` | primerProyecto/src/services/GameStateService.ts:34-36 | the store's new entries are `SetWonEffect` of the old ones |
| `StateService.GameStateService.HasMiniGameWon` | primerProyecto/src/services/GameStateService.ts:39-42 | returns the `MiniGameWon` view of the store |

## Left out

- The diagnostics written with `console.error` in every catch block are not modelled. The catch
  blocks are modelled as returning normally with the store as the failed call left it.
- The browser globals are not modelled as globals: each store is an injected object, and the
  `router.js`, `router.ts` and `main.js` wiring is not part of this model.
- Whether a given write fits the browser's quota is not modelled. Each store has one access mode,
  set when it is built, and the core never changes it. Multi-tab sharing of `localStorage` is not
  modelled either.
- The JSON grammar is not modelled. `JSON.stringify` cannot fail on the model's values because they
  are finite trees. The contents of `questions: any[]` are opaque strings.
- `RecordService.AllRecords`: a stored value of another shape under `gameRecords` (a snapshot,
  another object) is read as the empty list. The source returns that value unchecked. Then
  `push` (saveRecord), `map` (getBestScore) and `reduce` (getAverageScore) throw. `length`
  does not throw: getTotalGames returns `undefined`, and getWinStreak returns 0. On such a value
  the model's getTotalGames answers 0 where the source answers `undefined`. The same falsy-value rule (`|| []`) for
  JSON `null`, `false`, `0` and `""` is out of scope, since `Value` has none of these.
- `StateService.StoredState`: a stored value other than a snapshot under `gameStateBackup` is read
  as absent. The source returns it unchecked as a `GameState`.
- `RecordService.RoundHalfUp`: the float division and `Math.round` are exact integer arithmetic
  here. Rounding error on huge totals is not modelled, and neither is the `RangeError` that
  spreading a huge array into `Math.max` can raise.
- The record `null` check in `getWinStreak` is not modelled: a record list cannot hold null here.
- The `IStorage` interface and the abstract `StorageFactory` class are not modelled as types. A
  tagged datatype chooses the store of the single adapter class.
- The services' default constructor argument (`StorageType.LOCAL`) is not modelled: callers pass
  the kind explicitly.
