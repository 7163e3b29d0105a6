/**
 * GameStateService: one overwritable snapshot of the game in progress under
 * "gameStateBackup", and the mini-game flag {won: true} under "miniGameWon".
 */
module StateService {
  import opened Wrappers
  import opened Models
  import opened Json
  import opened WebStorage
  import opened Adapters
  import opened Factories
  import RecordService

  const StateKey: string := "gameStateBackup"
  const MiniGameKey: string := "miniGameWon"

  /** The flag object setMiniGameWon writes. */
  const WonFlag: Value := Object(Boolean(true))

  /** loadGameState: the stored snapshot, or None when there is none to load. */
  function StoredState(items: map<string, Text>, access: Access): (r: Option<GameState>)
    ensures r.Some? ==> Loaded(items, access, StateKey) == Some(Snapshot(r.value))
    ensures Loaded(items, access, StateKey) == None ==> r == None
    ensures var l := Loaded(items, access, StateKey);
            l.Some? && l.value.Snapshot? ==> r == Some(l.value.state)
  {
    match Loaded(items, access, StateKey)
    case Some(Snapshot(state)) => Some(state)
    case _ => None
  }

  /** hasMiniGameWon: an entry exists under the flag key and its `won` is exactly true. */
  function MiniGameWon(items: map<string, Text>, access: Access): (won: bool)
    ensures won <==> access != Denied && MiniGameKey in items && items[MiniGameKey] == Encode(WonFlag)
  {
    var loaded := Loaded(items, access, MiniGameKey);
    loaded.Some? && loaded.value.Object? && loaded.value.won == Boolean(true)
  }

  /** The store's entries after saveGameState(state). */
  function SaveStateEffect(items: map<string, Text>, access: Access, state: GameState): (r: map<string, Text>)
    ensures access == Available ==> StoredState(r, access) == Some(state)
    ensures access != Available ==> r == items
    ensures AgreeOutside(r, items, {StateKey})
  {
    Saved(items, access, StateKey, Snapshot(state))
  }

  /** The store's entries after setMiniGameWon(). */
  function SetWonEffect(items: map<string, Text>, access: Access): (r: map<string, Text>)
    ensures MiniGameWon(r, access) <==> access == Available || MiniGameWon(items, access)
    ensures AgreeOutside(r, items, {MiniGameKey})
  {
    Saved(items, access, MiniGameKey, WonFlag)
  }

  /** The store's entries after clearGameState(): both keys go, each removal on its own. */
  function ClearStateEffect(items: map<string, Text>, access: Access): (r: map<string, Text>)
    ensures StoredState(r, access) == None && !MiniGameWon(r, access)
    ensures access != Denied ==> StateKey !in r && MiniGameKey !in r
    ensures AgreeOutside(r, items, {StateKey, MiniGameKey})
  {
    Removed(Removed(items, access, StateKey), access, MiniGameKey)
  }

  /** A later save replaces the earlier snapshot. */
  lemma SaveOverwrites(items: map<string, Text>, access: Access, first: GameState, second: GameState)
    requires access == Available
    ensures StoredState(SaveStateEffect(SaveStateEffect(items, access, first), access, second), access)
         == Some(second)
  {
  }

  /** The snapshot and the flag live under distinct keys: writing one leaves the other as it was. */
  lemma SnapshotAndFlagIndependent(items: map<string, Text>, access: Access, state: GameState)
    ensures MiniGameWon(SaveStateEffect(items, access, state), access) == MiniGameWon(items, access)
    ensures StoredState(SetWonEffect(items, access), access) == StoredState(items, access)
  {
    var afterSave := SaveStateEffect(items, access, state);
    assert MiniGameKey !in {StateKey};
    assert Loaded(afterSave, access, MiniGameKey) == Loaded(items, access, MiniGameKey) by {
      if MiniGameKey in items {
        assert MiniGameKey in afterSave;
      }
    }
    var afterSet := SetWonEffect(items, access);
    assert StateKey !in {MiniGameKey};
    assert Loaded(afterSet, access, StateKey) == Loaded(items, access, StateKey) by {
      if StateKey in items {
        assert StateKey in afterSet;
      }
    }
  }

  /** The game state service and the record service own disjoint keys of a shared store. */
  lemma ServicesIndependent(items: map<string, Text>, access: Access, record: GameRecord)
    ensures RecordService.AllRecords(ClearStateEffect(items, access), access)
         == RecordService.AllRecords(items, access)
    ensures StoredState(RecordService.SaveRecordEffect(items, access, record), access)
         == StoredState(items, access)
    ensures MiniGameWon(RecordService.SaveRecordEffect(items, access, record), access)
         == MiniGameWon(items, access)
  {
    var key := RecordService.RecordsKey;
    assert key != StateKey && key != MiniGameKey;
    assert Loaded(ClearStateEffect(items, access), access, key) == Loaded(items, access, key);
    var saved := RecordService.SaveRecordEffect(items, access, record);
    assert Loaded(saved, access, StateKey) == Loaded(items, access, StateKey);
    assert Loaded(saved, access, MiniGameKey) == Loaded(items, access, MiniGameKey);
  }

  /** On a fresh store that accepts writes: no flag, then the flag, then none again after clearing. */
  lemma FlagLifecycle()
    ensures !MiniGameWon(map[], Available)
    ensures MiniGameWon(SetWonEffect(map[], Available), Available)
    ensures !MiniGameWon(ClearStateEffect(SetWonEffect(map[], Available), Available), Available)
  {
  }

  class GameStateService {
    const storage: StorageAdapter

    constructor (storageType: string, browser: Browser)
      ensures fresh(storage)
      ensures storage.store == GetStorageFactory(storageType).StoreOf(browser)
    {
      var factory := GetStorageFactory(storageType);
      var adapter := factory.CreateStorage(browser);
      storage := adapter;
    }

    method SaveGameState(state: GameState)
      modifies storage.store`items
      ensures storage.store.items == SaveStateEffect(old(storage.store.items), storage.store.access, state)
    {
      storage.Save(StateKey, Snapshot(state));
    }

    method LoadGameState() returns (state: Option<GameState>)
      ensures state == StoredState(storage.store.items, storage.store.access)
    {
      var loaded := storage.Load(StateKey);
      if loaded.Some? && loaded.value.Snapshot? {
        state := Some(loaded.value.state);
      } else {
        state := None;
      }
    }

    method ClearGameState()
      modifies storage.store`items
      ensures storage.store.items == ClearStateEffect(old(storage.store.items), storage.store.access)
    {
      storage.Remove(StateKey);
      storage.Remove(MiniGameKey);
    }

    method SetMiniGameWon()
      modifies storage.store`items
      ensures storage.store.items == SetWonEffect(old(storage.store.items), storage.store.access)
    {
      storage.Save(MiniGameKey, WonFlag);
    }

    method HasMiniGameWon() returns (won: bool)
      ensures won == MiniGameWon(storage.store.items, storage.store.access)
    {
      var result := storage.Load(MiniGameKey);
      won := result.Some? && result.value.Object? && result.value.won == Boolean(true);
    }
  }
}
