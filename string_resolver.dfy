/**
 * The text strategy: caches the raw query text under the client's hash, or
 * looks the text up by that hash.
 */
module StringResolver {
  import opened PersistedQueries
  import opened StoreAdapters
  import opened ErrorHandling

  /**
   * What `resolve` does to one item against a store holding `storage`.
   * A hash is only ever saved with text that hashes to it.
   */
  function Resolution<D>(params: QueryParams<D>, ext: Extensions, schema: Schema<D>, storage: map<string, string>)
    : (r: Run<D>)
    // no hash: the item passes through and the store is not touched
    ensures Sha256Hash(ext).None? ==> r == Run(Resolved(params), storage, [])
    // a mismatch is reported exactly when text is sent with a hash it does not have
    ensures r.outcome.WrongHash? <==>
      Sha256Hash(ext).Some? && params.query.Some? && schema.hashGenerator(params.query.value) != Sha256Hash(ext).value
    ensures r.outcome.WrongHash? ==> r.storage == storage && r.handled == []
    // a miss is reported exactly for hash-only items whose fetch yields nothing
    ensures r.outcome.NotFound? <==>
      Sha256Hash(ext).Some? && params.query.None? &&
      (Failure(Fetch, Sha256Hash(ext).value) in schema.raising || Sha256Hash(ext).value !in storage)
    ensures r.outcome.Resolved? && params.query.Some? ==> r.outcome.params == params
    ensures r.outcome.Resolved? && params.query.None? && Sha256Hash(ext).Some? ==>
      r.outcome.params == params.(query := Some(storage[Sha256Hash(ext).value]))
    ensures !r.outcome.ParseError?
    // the store changes only by saving verified text under its raw hash
    ensures r.storage == storage ||
      (params.query.Some? && Sha256Hash(ext) == Some(schema.hashGenerator(params.query.value)) &&
       r.storage == storage[schema.hashGenerator(params.query.value) := params.query.value])
    // a failing backend call reaches the handler once, and resolution still completes
    ensures |r.handled| <= 1
    ensures forall f :: f in r.handled ==> f in schema.raising && Some(f.key) == Sha256Hash(ext)
    // a hash-only item never changes the store; a raising fetch reaches the handler
    ensures Sha256Hash(ext).Some? && params.query.None? ==>
      var hash := Sha256Hash(ext).value;
      r.storage == storage && r.handled == (if Failure(Fetch, hash) in schema.raising then [Failure(Fetch, hash)] else [])
    // verified text is saved under its hash, or the raising save reaches the handler
    ensures Sha256Hash(ext).Some? && params.query.Some? && schema.hashGenerator(params.query.value) == Sha256Hash(ext).value ==>
      var hash := Sha256Hash(ext).value;
      r.outcome == Resolved(params) &&
      (if Failure(Save, hash) in schema.raising then r.storage == storage && r.handled == [Failure(Save, hash)]
       else r.storage == storage[hash := params.query.value] && r.handled == [])
  {
    match Sha256Hash(ext)
    case None => Run(Resolved(params), storage, [])
    case Some(hash) =>
      match params.query
      case Some(text) =>
        if schema.hashGenerator(text) != hash then Run(WrongHash, storage, [])
        else if Failure(Save, hash) in schema.raising then Run(Resolved(params), storage, [Failure(Save, hash)])
        else Run(Resolved(params), storage[hash := text], [])
      case None =>
        if Failure(Fetch, hash) in schema.raising then Run(NotFound, storage, [Failure(Fetch, hash)])
        else if hash in storage then Run(Resolved(params.(query := Some(storage[hash]))), storage, [])
        else Run(NotFound, storage, [])
  }

  /** `StringResolver#resolve` on `store`: the outcome and the error handler's calls. */
  method Resolve<D>(store: MemoryStoreAdapter, params: QueryParams<D>, ext: Extensions, schema: Schema<D>)
    returns (outcome: Outcome<D>, handled: seq<Failure>)
    modifies store
    ensures Run(outcome, store.storage, handled) == Resolution(params, ext, schema, old(store.storage))
  {
    var hash := Sha256Hash(ext);
    if hash.None? {
      return Resolved(params), [];
    }
    match params.query
    case Some(text) =>
      var matched;
      matched, handled := PersistQuery(store, hash.value, text, schema);
      outcome := if matched then Resolved(params) else WrongHash;
    case None =>
      var fetched;
      fetched, handled := GuardedFetch(store, schema.raising, hash.value);
      if fetched.None? {
        outcome := NotFound;
      } else {
        outcome := Resolved(params.(query := fetched));
      }
  }

  /**
   * `persist_query`: refuses text whose hash is not `hash` (the WrongHash
   * raise, reported as `matched == false`) and otherwise saves it under the raw hash.
   */
  method PersistQuery<D>(store: MemoryStoreAdapter, hash: string, text: string, schema: Schema<D>)
    returns (matched: bool, handled: seq<Failure>)
    modifies store
    ensures matched <==> schema.hashGenerator(text) == hash
    ensures !matched ==> store.storage == old(store.storage) && handled == []
    ensures matched && Failure(Save, hash) !in schema.raising ==> store.storage == old(store.storage)[hash := text] && handled == []
    ensures matched && Failure(Save, hash) in schema.raising ==> store.storage == old(store.storage) && handled == [Failure(Save, hash)]
  {
    if schema.hashGenerator(text) != hash {
      return false, [];
    }
    matched := true;
    handled := GuardedSave(store, schema.raising, hash, text);
  }

  /** Every cached text hashes to the key it is stored under. */
  ghost predicate Verified(storage: map<string, string>, hashGenerator: string -> string) {
    forall key :: key in storage ==> hashGenerator(storage[key]) == key
  }

  /** Resolving any item, whatever the client claims, keeps a verified store verified. */
  lemma ResolutionKeepsVerified<D>(params: QueryParams<D>, ext: Extensions, schema: Schema<D>, storage: map<string, string>)
    requires Verified(storage, schema.hashGenerator)
    ensures Verified(Resolution(params, ext, schema, storage).storage, schema.hashGenerator)
  {
  }

  /** On a verified store, a hash-only request gets back text whose hash is the one it sent. */
  lemma FetchedTextMatchesHash<D>(params: QueryParams<D>, ext: Extensions, schema: Schema<D>, storage: map<string, string>)
    requires Verified(storage, schema.hashGenerator)
    requires Sha256Hash(ext).Some? && params.query.None?
    requires Resolution(params, ext, schema, storage).outcome.Resolved?
    ensures var q := Resolution(params, ext, schema, storage).outcome.params.query;
      q.Some? && schema.hashGenerator(q.value) == Sha256Hash(ext).value
  {
  }

  /**
   * Sending the text with its correct hash and then the hash alone gives the
   * text back, when the store does not fail.
   */
  lemma SaveThenFetch<D>(text: string, first: QueryParams<D>, second: QueryParams<D>, ext: Extensions,
                         schema: Schema<D>, storage: map<string, string>)
    requires Sha256Hash(ext) == Some(schema.hashGenerator(text))
    requires first.query == Some(text) && second.query.None?
    requires var hash := schema.hashGenerator(text);
      Failure(Save, hash) !in schema.raising && Failure(Fetch, hash) !in schema.raising
    ensures var saved := Resolution(first, ext, schema, storage);
      saved.outcome == Resolved(first) &&
      Resolution(second, ext, schema, saved.storage).outcome == Resolved(second.(query := Some(text)))
  {
  }

  /** A hash-only request for a hash nobody saved fails with NotFound. */
  lemma UnsavedHashNotFound<D>(params: QueryParams<D>, ext: Extensions, schema: Schema<D>, storage: map<string, string>)
    requires Sha256Hash(ext).Some? && Sha256Hash(ext).value !in storage
    requires params.query.None?
    ensures Resolution(params, ext, schema, storage).outcome == NotFound
  {
  }
}
