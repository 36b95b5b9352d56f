/** The reference key/value store the resolvers persist queries in. */
module StoreAdapters {
  import opened PersistedQueries

  /** An in-memory store: a hash from keys to stored payloads, updated in place. */
  class MemoryStoreAdapter {
    var storage: map<string, string>

    /** A new adapter holds nothing, so every fetch misses. */
    constructor ()
      ensures storage == map[]
    {
      storage := map[];
    }

    /** The payload stored under `hash`, or nil. */
    method FetchQuery(hash: string) returns (query: Option<string>)
      ensures hash in storage ==> query == Some(storage[hash])
      ensures hash !in storage ==> query == None
    {
      if hash in storage {
        query := Some(storage[hash]);
      } else {
        query := None;
      }
    }

    /** Stores `query` under `hash`, replacing what was there; other keys keep their entries. */
    method SaveQuery(hash: string, query: string)
      modifies this
      ensures storage == old(storage)[hash := query]
      ensures hash in storage && storage[hash] == query
      ensures forall k :: k != hash ==> Lookup(storage, k) == Lookup(old(storage), k)
    {
      storage := storage[hash := query];
    }

    /** Removes the entry under `hash` and answers what it held; other keys keep their entries. */
    method DeleteQuery(hash: string) returns (deleted: Option<string>)
      modifies this
      ensures storage == old(storage) - {hash}
      ensures hash !in storage
      ensures deleted == Lookup(old(storage), hash)
      ensures forall k :: k != hash ==> Lookup(storage, k) == Lookup(old(storage), k)
    {
      deleted := Lookup(storage, hash);
      storage := storage - {hash};
    }

    /** The memory adapter holds objects as they are: it never asks for marshalling. */
    function RequiresMarshaling(): (required: bool)
      ensures !required
    {
      false
    }
  }
}
