/**
 * Shared vocabulary of the persisted-query resolution subsystem: the query
 * item a client sends, its `extensions`, the outcome of resolving it, and the
 * collaborators the resolvers reach through the schema (hash generator,
 * parser, marshaller and the store's failures).
 */
module PersistedQueries {

  datatype Option<+T> = None | Some(value: T)

  datatype Result<+T, +E> = Ok(value: T) | Err(error: E)

  /** The `persistedQuery` object of a request's extensions. */
  datatype PersistedQuery = PersistedQuery(sha256Hash: Option<string>)

  /** A request's `extensions` mapping; only its `persistedQuery` entry is consulted. */
  datatype Extensions = Extensions(persistedQuery: Option<PersistedQuery>)

  /**
   * One query item (`query_params`): the query text, the parsed document a
   * resolver may add, the extensions, and every other key (variables,
   * operation name, context), which this subsystem passes through untouched.
   * A key that is absent and a key that holds nil are both `None`.
   */
  datatype QueryParams<D> = QueryParams(
    query: Option<string>,
    document: Option<D>,
    extensions: Option<Extensions>,
    rest: map<string, string>)

  /** What `resolve` gives back: the resolved params, or the exception it raises. */
  datatype Outcome<D> =
    | Resolved(params: QueryParams<D>)
    | NotFound
    | WrongHash
    | ParseError(details: map<string, string>)

  /** The three store-backend calls a resolver makes. */
  datatype StoreCall = Fetch | Save | Delete

  /** A backend exception handed to the error handler: which call raised, on which key. */
  datatype Failure = Failure(call: StoreCall, key: string)

  /**
   * What a resolver reaches through its schema. `parse` stands for
   * `GraphQL.parse` (None: it raised a parse error), `dump` and `load` for
   * `Marshal.dump` and `Marshal.load` (None: it raised a TypeError),
   * `graphqlVersion` for `GraphQL::VERSION`. `raising` is the set of store
   * calls, each on its key, that raise in this run: a raising call leaves the store as it was
   * and its exception goes to the error handler, which returns nil.
   */
  datatype Schema<!D> = Schema(
    hashGenerator: string -> string,
    parse: string -> Option<D>,
    dump: D -> string,
    load: string -> Option<D>,
    graphqlVersion: string,
    raising: set<Failure>)

  /** One resolution: its outcome, the store afterwards, and what the error handler received. */
  datatype Run<D> = Run(outcome: Outcome<D>, storage: map<string, string>, handled: seq<Failure>)

  /** Message carried by a `NotFound` exception (a stand-in text). */
  const NotFoundMessage: string := "PersistedQueryNotFound"

  /** Message carried by a `WrongHash` exception (a stand-in text). */
  const WrongHashMessage: string := "Wrong hash was passed"

  /** `extensions.dig("persistedQuery", "sha256Hash")`: nil when absent at either level. */
  function Sha256Hash(ext: Extensions): (hash: Option<string>)
    ensures hash.Some? <==> ext.persistedQuery.Some? && ext.persistedQuery.value.sha256Hash.Some?
    ensures hash.Some? ==> hash == ext.persistedQuery.value.sha256Hash
  {
    match ext.persistedQuery
    case None => None
    case Some(pq) => pq.sha256Hash
  }

  /** A Ruby Hash read: the value under `key`, or nil. */
  function Lookup(storage: map<string, string>, key: string): (v: Option<string>)
    ensures v.Some? <==> key in storage
    ensures v.Some? ==> v.value == storage[key]
  {
    if key in storage then Some(storage[key]) else None
  }
}
