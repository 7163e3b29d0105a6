/**
 * The storage selector: a backend kind picks a factory, and the factory creates
 * a fresh adapter over the matching browser store.
 */
module Factories {
  import opened WebStorage
  import opened Adapters

  /** The two recognised backend kinds and their string values. */
  datatype StorageType = LOCAL | SESSION {
    function Tag(): (s: string)
      ensures s == "local" <==> this == LOCAL
      ensures s == "session" <==> this == SESSION
    {
      match this
      case LOCAL => "local"
      case SESSION => "session"
    }
  }

  datatype StorageFactory = LocalStorageFactory | SessionStorageFactory {

    /** The browser store the adapters of this factory delegate to. */
    function StoreOf(browser: Browser): (s: WebStore)
      ensures this == LocalStorageFactory ==> s == browser.localStorage
      ensures browser.Valid() ==>
                (s == browser.sessionStorage <==> this == SessionStorageFactory)
    {
      match this
      case LocalStorageFactory => browser.localStorage
      case SessionStorageFactory => browser.sessionStorage
    }

    /** createStorage: a new adapter each call. */
    method CreateStorage(browser: Browser) returns (adapter: StorageAdapter)
      ensures fresh(adapter)
      ensures adapter.store == StoreOf(browser)
    {
      adapter := new StorageAdapter(StoreOf(browser));
    }
  }

  /**
   * getStorageFactory. The kind arrives as a string at run time; anything
   * other than the two tags takes the default branch, which is the local one.
   */
  function GetStorageFactory(kind: string): (f: StorageFactory)
    ensures f == SessionStorageFactory <==> kind == SESSION.Tag()
    ensures f == LocalStorageFactory <==> kind != SESSION.Tag()
  {
    if kind == LOCAL.Tag() then LocalStorageFactory
    else if kind == SESSION.Tag() then SessionStorageFactory
    else LocalStorageFactory
  }

  /** Every kind resolves to the factory of a recognised kind, and the tags tell the kinds apart. */
  lemma KindsResolve(kind: string)
    ensures exists t: StorageType :: GetStorageFactory(kind) == GetStorageFactory(t.Tag())
    ensures LOCAL.Tag() != SESSION.Tag()
    ensures kind != LOCAL.Tag() && kind != SESSION.Tag() ==>
              GetStorageFactory(kind) == GetStorageFactory(LOCAL.Tag())
  {
    if kind == SESSION.Tag() {
      assert GetStorageFactory(kind) == GetStorageFactory(SESSION.Tag());
    } else {
      assert GetStorageFactory(kind) == GetStorageFactory(LOCAL.Tag());
    }
  }

  /** Save, remove and clear through a session adapter change the session store and leave the local store as it was. */
  method SessionAdapterIsolation(browser: Browser, key: string, other: string, v: Json.Value)
    requires browser.Valid()
    modifies browser.sessionStorage`items
    ensures browser.localStorage.items == old(browser.localStorage.items)
    ensures browser.sessionStorage.items
         == Cleared(Removed(Saved(old(browser.sessionStorage.items), browser.sessionStorage.access, key, v),
                            browser.sessionStorage.access, other),
                    browser.sessionStorage.access)
  {
    var adapter := GetStorageFactory(SESSION.Tag()).CreateStorage(browser);
    adapter.Save(key, v);
    assert browser.localStorage.items == old(browser.localStorage.items);
    adapter.Remove(other);
    assert browser.localStorage.items == old(browser.localStorage.items);
    adapter.Clear();
  }
}
