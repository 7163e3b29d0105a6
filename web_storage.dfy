/**
 * The browser's key/value stores (window.localStorage and window.sessionStorage),
 * injected as objects instead of being reached as globals.
 */
module WebStorage {
  import opened Wrappers
  import opened Json

  /** How a store answers the calls made on it. */
  datatype Access =
    | Available   // every call succeeds
    | Full        // setItem throws (quota exceeded); reads and deletions succeed
    | Denied      // every call throws (storage disabled by the user or the browser)

  /** The result of getItem: the call threw, or it returned the text or null. */
  datatype Fetched = Threw | Returned(text: Option<Text>)

  /** One Web Storage area: a flat string-keyed map of texts. */
  class WebStore {
    var items: map<string, Text>
    var access: Access

    constructor (access: Access)
      ensures items == map[] && this.access == access
    {
      items := map[];
      this.access := access;
    }

    method GetItem(key: string) returns (r: Fetched)
      ensures r.Threw? <==> access == Denied
      ensures r.Returned? ==> (r.text.Some? <==> key in items)
      ensures r.Returned? && r.text.Some? ==> r.text.value == items[key]
    {
      if access == Denied {
        r := Threw;
      } else if key in items {
        r := Returned(Some(items[key]));
      } else {
        r := Returned(None);
      }
    }

    /** Returns false when the call threw. */
    method SetItem(key: string, text: Text) returns (ok: bool)
      modifies this`items
      ensures ok <==> access == Available
      ensures items == if ok then old(items)[key := text] else old(items)
    {
      ok := access == Available;
      if ok {
        items := items[key := text];
      }
    }

    /** Returns false when the call threw. */
    method RemoveItem(key: string) returns (ok: bool)
      modifies this`items
      ensures ok <==> access != Denied
      ensures items == if ok then old(items) - {key} else old(items)
    {
      ok := access != Denied;
      if ok {
        items := items - {key};
      }
    }

    /** Returns false when the call threw. */
    method Clear() returns (ok: bool)
      modifies this`items
      ensures ok <==> access != Denied
      ensures items == if ok then map[] else old(items)
    {
      ok := access != Denied;
      if ok {
        items := map[];
      }
    }
  }

  /** The window: its two distinct storage areas. */
  class Browser {
    const localStorage: WebStore
    const sessionStorage: WebStore

    predicate Valid() {
      localStorage != sessionStorage
    }

    constructor (localAccess: Access, sessionAccess: Access)
      ensures Valid()
      ensures fresh(localStorage) && fresh(sessionStorage)
      ensures localStorage.items == map[] && localStorage.access == localAccess
      ensures sessionStorage.items == map[] && sessionStorage.access == sessionAccess
    {
      localStorage := new WebStore(localAccess);
      sessionStorage := new WebStore(sessionAccess);
    }
  }
}
