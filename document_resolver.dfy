/**
 * The document strategy: caches the marshalled parsed document under a
 * namespaced key, or loads it back by hash; a payload that does not unmarshal
 * is purged and counts as a miss.
 */
module DocumentResolver {
  import opened PersistedQueries
  import opened StoreAdapters
  import opened ErrorHandling

  /** `NAMESPACE`: the cache generation tag, bound to the GraphQL library version. */
  function Namespace(version: string): (ns: string)
    ensures |ns| == 9 + |version|
    ensures ns[..9] == "document-" && ns[9..] == version
  {
    "document-" + version
  }

  /** `key`: the namespace, a colon, then the client's hash. */
  function Key(version: string, hash: string): (key: string)
    ensures |key| == |Namespace(version)| + 1 + |hash|
    ensures key[..|Namespace(version)|] == Namespace(version)
    ensures key[|Namespace(version)|] == ':'
    ensures key[|Namespace(version)| + 1..] == hash
  {
    Namespace(version) + ":" + hash
  }

  /** Under one version, different hashes never share a key. */
  lemma KeyInjective(version: string, h1: string, h2: string)
    requires Key(version, h1) == Key(version, h2)
    ensures h1 == h2
  {
  }

  /** The params `resolve` hands back once it has a document (or nil): query cleared, document set. */
  function WithDocument<D>(params: QueryParams<D>, document: Option<D>): (resolved: QueryParams<D>)
    ensures resolved.query.None? && resolved.document == document
    ensures resolved.extensions == params.extensions && resolved.rest == params.rest
  {
    params.(query := None, document := document)
  }

  /** What `resolve` does to one item against a store holding `storage`. */
  function Resolution<D>(params: QueryParams<D>, ext: Extensions, schema: Schema<D>, storage: map<string, string>)
    : (r: Run<D>)
    // no hash: the item passes through and the store is not touched
    ensures Sha256Hash(ext).None? ==> r == Run(Resolved(params), storage, [])
    // a mismatch is reported exactly when text is sent with a hash it does not have, before parsing or saving
    ensures r.outcome.WrongHash? <==>
      Sha256Hash(ext).Some? && params.query.Some? && schema.hashGenerator(params.query.value) != Sha256Hash(ext).value
    ensures r.outcome.WrongHash? ==> r.storage == storage && r.handled == []
    // text with its hash resolves to its parse, or to a nil document when parsing fails, never to an error
    ensures Sha256Hash(ext).Some? && params.query.Some? && schema.hashGenerator(params.query.value) == Sha256Hash(ext).value ==>
      r.outcome == Resolved(WithDocument(params, schema.parse(params.query.value)))
    ensures params.query.Some? && schema.parse(params.query.value).None? ==> r.storage == storage && r.handled == []
    // a hash-only item misses when the fetch raises, finds nothing, or finds a payload that does not unmarshal
    ensures r.outcome.NotFound? <==>
      Sha256Hash(ext).Some? && params.query.None? &&
      var key := Key(schema.graphqlVersion, Sha256Hash(ext).value);
      (Failure(Fetch, key) in schema.raising || key !in storage || schema.load(storage[key]).None?)
    ensures r.outcome.Resolved? && params.query.None? && Sha256Hash(ext).Some? ==>
      var key := Key(schema.graphqlVersion, Sha256Hash(ext).value);
      key in storage && r.outcome == Resolved(WithDocument(params, schema.load(storage[key])))
    ensures !r.outcome.ParseError?
    // the store changes only by saving the dump of the verified text's parse, or by purging an unloadable payload
    ensures r.storage == storage ||
      (Sha256Hash(ext).Some? && params.query.Some? &&
       schema.hashGenerator(params.query.value) == Sha256Hash(ext).value &&
       schema.parse(params.query.value).Some? &&
       r.storage == storage[Key(schema.graphqlVersion, Sha256Hash(ext).value) := schema.dump(schema.parse(params.query.value).value)]) ||
      (Sha256Hash(ext).Some? && params.query.None? &&
       var key := Key(schema.graphqlVersion, Sha256Hash(ext).value);
       key in storage && schema.load(storage[key]).None? && r.storage == storage - {key})
    // a failing backend call reaches the handler once per call, always about this item's key
    ensures |r.handled| <= 1
    ensures forall f :: f in r.handled ==>
      f in schema.raising && Sha256Hash(ext).Some? && f.key == Key(schema.graphqlVersion, Sha256Hash(ext).value)
    // a parsed, verified text is saved under the key, or the raising save reaches the handler
    ensures Sha256Hash(ext).Some? && params.query.Some? && schema.hashGenerator(params.query.value) == Sha256Hash(ext).value &&
            schema.parse(params.query.value).Some? ==>
      var key := Key(schema.graphqlVersion, Sha256Hash(ext).value);
      if Failure(Save, key) in schema.raising then r.storage == storage && r.handled == [Failure(Save, key)]
      else r.storage == storage[key := schema.dump(schema.parse(params.query.value).value)] && r.handled == []
    // a raising fetch reaches the handler and nothing else happens
    ensures Sha256Hash(ext).Some? && params.query.None? &&
            Failure(Fetch, Key(schema.graphqlVersion, Sha256Hash(ext).value)) in schema.raising ==>
      r.storage == storage && r.handled == [Failure(Fetch, Key(schema.graphqlVersion, Sha256Hash(ext).value))]
    // a fetch that answers: an unloadable payload is deleted, or the raising delete reaches the handler
    ensures Sha256Hash(ext).Some? && params.query.None? &&
            Failure(Fetch, Key(schema.graphqlVersion, Sha256Hash(ext).value)) !in schema.raising ==>
      var key := Key(schema.graphqlVersion, Sha256Hash(ext).value);
      if key in storage && schema.load(storage[key]).None? then
        if Failure(Delete, key) in schema.raising then r.storage == storage && r.handled == [Failure(Delete, key)]
        else r.storage == storage - {key} && r.handled == []
      else r.storage == storage && r.handled == []
  {
    match Sha256Hash(ext)
    case None => Run(Resolved(params), storage, [])
    case Some(hash) =>
      var key := Key(schema.graphqlVersion, hash);
      match params.query
      case Some(text) =>
        if schema.hashGenerator(text) != hash then Run(WrongHash, storage, [])
        else
          var result := Resolved(WithDocument(params, schema.parse(text)));
          (match schema.parse(text)
           case None => Run(result, storage, [])
           case Some(document) =>
             if Failure(Save, key) in schema.raising then Run(result, storage, [Failure(Save, key)])
             else Run(result, storage[key := schema.dump(document)], []))
      case None =>
        if Failure(Fetch, key) in schema.raising then Run(NotFound, storage, [Failure(Fetch, key)])
        else if key !in storage then Run(NotFound, storage, [])
        else match schema.load(storage[key])
          case Some(document) => Run(Resolved(WithDocument(params, Some(document))), storage, [])
          case None =>
            if Failure(Delete, key) in schema.raising then Run(NotFound, storage, [Failure(Delete, key)])
            else Run(NotFound, storage - {key}, [])
  }

  /** `DocumentResolver#resolve` on `store`: the outcome and the error handler's calls. */
  method Resolve<D>(store: MemoryStoreAdapter, params: QueryParams<D>, ext: Extensions, schema: Schema<D>)
    returns (outcome: Outcome<D>, handled: seq<Failure>)
    modifies store
    ensures Run(outcome, store.storage, handled) == Resolution(params, ext, schema, old(store.storage))
  {
    var hash := Sha256Hash(ext);
    if hash.None? {
      return Resolved(params), [];
    }
    var key := Key(schema.graphqlVersion, hash.value);
    match params.query
    case Some(text) =>
      var matched, document;
      matched, document, handled := PersistQuery(store, hash.value, key, text, schema);
      outcome := if matched then Resolved(WithDocument(params, document)) else WrongHash;
    case None =>
      var document;
      document, handled := FetchMarshaledObject(store, key, schema);
      if document.None? {
        outcome := NotFound;
      } else {
        outcome := Resolved(WithDocument(params, document));
      }
  }

  /**
   * `persist_query`: refuses text whose hash is not `hash` (the WrongHash
   * raise, reported as `matched == false`); otherwise parses it, saves the
   * dump of the document under `key`, and answers the document, or nil when
   * parsing fails (nothing is saved then).
   */
  method PersistQuery<D>(store: MemoryStoreAdapter, hash: string, key: string, text: string, schema: Schema<D>)
    returns (matched: bool, document: Option<D>, handled: seq<Failure>)
    modifies store
    ensures matched <==> schema.hashGenerator(text) == hash
    ensures !matched ==> store.storage == old(store.storage) && handled == []
    ensures matched ==> document == schema.parse(text)
    ensures matched && (document.None? || Failure(Save, key) in schema.raising) ==> store.storage == old(store.storage)
    ensures matched && document.Some? && Failure(Save, key) !in schema.raising ==>
      store.storage == old(store.storage)[key := schema.dump(document.value)] && handled == []
    ensures matched && document.Some? && Failure(Save, key) in schema.raising ==> handled == [Failure(Save, key)]
    ensures matched && document.None? ==> handled == []
  {
    if schema.hashGenerator(text) != hash {
      return false, None, [];
    }
    matched := true;
    document := schema.parse(text);
    if document.None? {
      handled := [];
    } else {
      handled := GuardedSave(store, schema.raising, key, schema.dump(document.value));
    }
  }

  /**
   * `fetch_marshaled_object`: loads the payload under `key`; a payload that
   * does not unmarshal is deleted and the fetch answers nil, like a miss.
   */
  method FetchMarshaledObject<D>(store: MemoryStoreAdapter, key: string, schema: Schema<D>)
    returns (document: Option<D>, handled: seq<Failure>)
    modifies store
    ensures Failure(Fetch, key) in schema.raising ==>
      document == None && store.storage == old(store.storage) && handled == [Failure(Fetch, key)]
    ensures Failure(Fetch, key) !in schema.raising && key !in old(store.storage) ==>
      document == None && store.storage == old(store.storage) && handled == []
    ensures Failure(Fetch, key) !in schema.raising && key in old(store.storage) ==>
      document == schema.load(old(store.storage)[key])
    ensures Failure(Fetch, key) !in schema.raising && key in old(store.storage) && document.Some? ==>
      store.storage == old(store.storage) && handled == []
    ensures Failure(Fetch, key) !in schema.raising && key in old(store.storage) && document.None? ==>
      if Failure(Delete, key) in schema.raising then store.storage == old(store.storage) && handled == [Failure(Delete, key)]
      else store.storage == old(store.storage) - {key} && handled == []
  {
    var cached;
    cached, handled := GuardedFetch(store, schema.raising, key);
    if cached.None? {
      return None, handled;
    }
    document := schema.load(cached.value);
    if document.None? {
      var purged := GuardedDelete(store, schema.raising, key);
      handled := handled + purged;
    }
  }

  /** `text` hashes to `hash` and parses to a document whose dump is `payload`. */
  ghost predicate Witness<D>(schema: Schema<D>, text: string, hash: string, payload: string) {
    schema.hashGenerator(text) == hash && schema.parse(text).Some? && schema.dump(schema.parse(text).value) == payload
  }

  /** Every payload under a namespaced key is the dump of the parse of some text with that key's hash. */
  ghost predicate Verified<D>(schema: Schema<D>, storage: map<string, string>) {
    forall hash :: Key(schema.graphqlVersion, hash) in storage ==>
      exists text :: Witness(schema, text, hash, storage[Key(schema.graphqlVersion, hash)])
  }

  /** Resolving any item, whatever the client claims, keeps a verified store verified. */
  lemma ResolutionKeepsVerified<D>(params: QueryParams<D>, ext: Extensions, schema: Schema<D>, storage: map<string, string>)
    requires Verified(schema, storage)
    ensures Verified(schema, Resolution(params, ext, schema, storage).storage)
  {
    var r := Resolution(params, ext, schema, storage);
    var v := schema.graphqlVersion;
    if r.storage != storage && params.query.Some? {
      var text := params.query.value;
      var saved := Sha256Hash(ext).value;
      assert Witness(schema, text, saved, r.storage[Key(v, saved)]);
      forall hash | Key(v, hash) in r.storage
        ensures exists t :: Witness(schema, t, hash, r.storage[Key(v, hash)])
      {
        if Key(v, hash) == Key(v, saved) {
          KeyInjective(v, hash, saved);
        } else {
          assert Key(v, hash) in storage && r.storage[Key(v, hash)] == storage[Key(v, hash)];
        }
      }
    }
  }

  /**
   * On a verified store, when loading undoes dumping, a hash-only request gets
   * back the parse of some text whose hash is the one it sent.
   */
  lemma FetchedDocumentMatchesHash<D>(params: QueryParams<D>, ext: Extensions, schema: Schema<D>, storage: map<string, string>)
    requires Verified(schema, storage)
    requires forall d :: schema.load(schema.dump(d)) == Some(d)
    requires Sha256Hash(ext).Some? && params.query.None?
    requires Resolution(params, ext, schema, storage).outcome.Resolved?
    ensures var document := Resolution(params, ext, schema, storage).outcome.params.document;
      exists text :: schema.hashGenerator(text) == Sha256Hash(ext).value && schema.parse(text) == document
  {
    var hash := Sha256Hash(ext).value;
    var key := Key(schema.graphqlVersion, hash);
    var text :| Witness(schema, text, hash, storage[key]);
    match schema.parse(text)
    case Some(parsed) =>
      assert schema.load(schema.dump(parsed)) == Some(parsed);
  }

  /**
   * Sending parseable text with its correct hash and then the hash alone gives
   * the same document back, when the store does not fail and loading undoes dumping.
   */
  lemma SaveThenFetch<D>(text: string, first: QueryParams<D>, second: QueryParams<D>, ext: Extensions,
                         schema: Schema<D>, storage: map<string, string>)
    requires Sha256Hash(ext) == Some(schema.hashGenerator(text))
    requires first.query == Some(text) && second.query.None?
    requires schema.parse(text).Some? && schema.load(schema.dump(schema.parse(text).value)) == schema.parse(text)
    requires var key := Key(schema.graphqlVersion, schema.hashGenerator(text));
      Failure(Save, key) !in schema.raising && Failure(Fetch, key) !in schema.raising
    ensures var saved := Resolution(first, ext, schema, storage);
      saved.outcome == Resolved(WithDocument(first, schema.parse(text))) &&
      Resolution(second, ext, schema, saved.storage).outcome == Resolved(WithDocument(second, schema.parse(text)))
  {
  }

  /**
   * A hash-only request whose cached payload does not unmarshal deletes that
   * key once and fails with NotFound.
   */
  lemma CorruptPayloadPurged<D>(params: QueryParams<D>, ext: Extensions, schema: Schema<D>, storage: map<string, string>)
    requires Sha256Hash(ext).Some? && params.query.None?
    requires var key := Key(schema.graphqlVersion, Sha256Hash(ext).value);
      Failure(Fetch, key) !in schema.raising && Failure(Delete, key) !in schema.raising &&
      key in storage && schema.load(storage[key]).None?
    ensures var r := Resolution(params, ext, schema, storage);
      r.outcome == NotFound && r.handled == [] &&
      r.storage == storage - {Key(schema.graphqlVersion, Sha256Hash(ext).value)}
  {
  }
}
