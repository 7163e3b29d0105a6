/**
 * LocalStorageAdapter and SessionStorageAdapter. The two differ only in the
 * browser store they delegate to, so one class parameterised by its store
 * models both. Every failure of the store is swallowed: save, remove and clear
 * leave the store as the failed call left it, and load answers None.
 */
module Adapters {
  import opened Wrappers
  import opened Json
  import opened WebStorage

  /** `a` and `b` hold the same entries under every key outside `keys`. */
  ghost predicate AgreeOutside(a: map<string, Text>, b: map<string, Text>, keys: set<string>)
  {
    forall k :: k !in keys ==> (k in a <==> k in b) && (k in a ==> a[k] == b[k])
  }

  /** What load(key) returns on a store holding `items` and answering with `access`. */
  function Loaded(items: map<string, Text>, access: Access, key: string): (r: Option<Value>)
    ensures key !in items ==> r == None
    ensures r.Some? <==> access != Denied && key in items && items[key].Serialized?
    ensures r.Some? ==> items[key] == Encode(r.value)
  {
    if access == Denied then None          // getItem threw
    else if key !in items then None        // getItem returned null
    else Decode(items[key])                // JSON.parse, None when it throws
  }

  /** The store's entries after save(key, v). */
  function Saved(items: map<string, Text>, access: Access, key: string, v: Value): (r: map<string, Text>)
    ensures access == Available ==> Loaded(r, access, key) == Some(v)
    ensures access != Available ==> r == items
    ensures AgreeOutside(r, items, {key})
  {
    if access == Available then items[key := Encode(v)] else items
  }

  /** The store's entries after remove(key). */
  function Removed(items: map<string, Text>, access: Access, key: string): (r: map<string, Text>)
    ensures Loaded(r, access, key) == None
    ensures access != Denied ==> key !in r
    ensures key !in items ==> r == items
    ensures AgreeOutside(r, items, {key})
  {
    if access == Denied then items else items - {key}
  }

  /** The store's entries after clear(): nothing, whoever wrote it, unless the store refused. */
  function Cleared(items: map<string, Text>, access: Access): (r: map<string, Text>)
    ensures forall k :: Loaded(r, access, k) == None
    ensures access != Denied ==> r == map[]
    ensures access == Denied ==> r == items
  {
    if access == Denied then items else map[]
  }

  /** A stateless wrapper around one browser store. */
  class StorageAdapter {
    const store: WebStore

    constructor (store: WebStore)
      ensures this.store == store
    {
      this.store := store;
    }

    method Save(key: string, data: Value)
      modifies store`items
      ensures store.items == Saved(old(store.items), store.access, key, data)
    {
      var text := Encode(data);
      var ok := store.SetItem(key, text);
      // a refused write is only reported on the console
    }

    method Load(key: string) returns (r: Option<Value>)
      ensures r == Loaded(store.items, store.access, key)
    {
      var fetched := store.GetItem(key);
      match fetched
      case Threw =>
        r := None;
      case Returned(None) =>
        r := None;
      case Returned(Some(text)) =>
        r := Decode(text);
    }

    method Remove(key: string)
      modifies store`items
      ensures store.items == Removed(old(store.items), store.access, key)
    {
      var ok := store.RemoveItem(key);
    }

    method Clear()
      modifies store`items
      ensures store.items == Cleared(old(store.items), store.access)
    {
      var ok := store.Clear();
    }
  }

  /** save then load on the same key gives back the saved value when the store accepts writes. */
  lemma SaveThenLoad(items: map<string, Text>, access: Access, key: string, v: Value)
    requires access == Available
    ensures Loaded(Saved(items, access, key, v), access, key) == Some(v)
  {
  }

  /** Saving under one key leaves what every other key loads unchanged. */
  lemma SaveKeepsOtherKeys(items: map<string, Text>, access: Access, key: string, other: string, v: Value)
    requires other != key
    ensures Loaded(Saved(items, access, key, v), access, other) == Loaded(items, access, other)
  {
  }

  /** Removing one key leaves what every other key loads unchanged. */
  lemma RemoveKeepsOtherKeys(items: map<string, Text>, access: Access, key: string, other: string)
    requires other != key
    ensures Loaded(Removed(items, access, key), access, other) == Loaded(items, access, other)
  {
  }
}
