/**
 * `with_error_handling` around each store call: a call that raises leaves the
 * store as it was, its exception goes to the error handler, and the call
 * yields what the handler returns (nil).
 */
module ErrorHandling {
  import opened PersistedQueries
  import opened StoreAdapters

  /** A guarded `fetch_query`: a raise yields nil and one handler call. */
  method GuardedFetch(store: MemoryStoreAdapter, raising: set<Failure>, key: string)
    returns (cached: Option<string>, handled: seq<Failure>)
    ensures Failure(Fetch, key) in raising ==> cached == None && handled == [Failure(Fetch, key)]
    ensures Failure(Fetch, key) !in raising ==> cached == Lookup(store.storage, key) && handled == []
  {
    if Failure(Fetch, key) in raising {
      cached, handled := None, [Failure(Fetch, key)];
    } else {
      cached := store.FetchQuery(key);
      handled := [];
    }
  }

  /** A guarded `save_query`: a raise leaves the store unchanged and makes one handler call. */
  method GuardedSave(store: MemoryStoreAdapter, raising: set<Failure>, key: string, payload: string)
    returns (handled: seq<Failure>)
    modifies store
    ensures Failure(Save, key) in raising ==> store.storage == old(store.storage) && handled == [Failure(Save, key)]
    ensures Failure(Save, key) !in raising ==> store.storage == old(store.storage)[key := payload] && handled == []
  {
    if Failure(Save, key) in raising {
      handled := [Failure(Save, key)];
    } else {
      store.SaveQuery(key, payload);
      handled := [];
    }
  }

  /** A guarded `delete_query`: a raise leaves the store unchanged and makes one handler call. */
  method GuardedDelete(store: MemoryStoreAdapter, raising: set<Failure>, key: string)
    returns (handled: seq<Failure>)
    modifies store
    ensures Failure(Delete, key) in raising ==> store.storage == old(store.storage) && handled == [Failure(Delete, key)]
    ensures Failure(Delete, key) !in raising ==> store.storage == old(store.storage) - {key} && handled == []
  {
    if Failure(Delete, key) in raising {
      handled := [Failure(Delete, key)];
    } else {
      var _ := store.DeleteQuery(key);
      handled := [];
    }
  }
}
