# Persisted queries for graphql-ruby, in Dafny

This project models the server side of Automatic Persisted Queries as the
`graphql-persisted_queries` gem implements it. A client sends a query item
whose `extensions` carry `persistedQuery.sha256Hash`, with or without the
query text. With the text, the server checks that the text has that hash
and caches it. Without the text, the server looks the cached text (or parsed
document) up by the hash.

The modules follow the gem's files:

- `StoreAdapters` (`memory_store_adapter.dfy`): `MemoryStoreAdapter` is a class with a `storage` map that `SaveQuery` and `DeleteQuery` update in place.
- `ErrorHandling` (`error_handling.dfy`): `with_error_handling` around each store call. A call that raises leaves the store as it was, goes to the error handler, and yields the handler's nil.
- `StringResolver` (`string_resolver.dfy`): the text strategy.
  - `Resolution` is the pure specification of one `resolve`: outcome, store afterwards, handler calls.
  - The `Resolve` method runs against a `MemoryStoreAdapter` and is proved equal to that specification. `PersistQuery`, the save path it calls, has its own contract for each case.
- `DocumentResolver` (`document_resolver.dfy`): the document strategy.
  - Keys are namespaced as `document-<VERSION>:<hash>`, and the payload is the marshalled parse.
  - A parse failure on the save path gives a nil document.
  - A payload that does not unmarshal is purged and counts as a miss.
- `Resolvers` (`resolvers.dfy`): `build` and `build_by_name`, with the constant lookup as a finite registry.
- `Multiplex` (`multiplex_resolver.dfy`): `MultiplexResolver` is a class over the `queries` and memoised `results` arrays.
  - The fold `ResolvedUpTo` specifies the per-item loop.
  - `Pending`, `Batch` and `SpliceN` specify the single executor call and the write-back by position.

A raised `NotFound`, `WrongHash` or `GraphQL::ParseError` is an `Outcome` variant. The collaborators the gem calls without defining are fields of `Schema`:

- the hash generator;
- `GraphQL.parse` (None when it raises a parse error);
- `Marshal.dump` and `Marshal.load` (None when it raises `TypeError`);
- `GraphQL::VERSION`;
- the set of store calls that raise in a given run, each named by its kind and its key. Within one batch, one item's fetch can therefore fail while another item's fetch succeeds.

The executor (`multiplex_original`) is a function field of `MultiplexResolver`.

The central security property is proved for both strategies and for whole batches. It is stated as an invariant of the store. For the text strategy, every entry's key is the hash of the text it holds. For the document strategy, every entry under the strategy's own namespaced key holds the dump of the parse of some text whose hash is in that key. Resolving any item, whatever hash and text the client sends, keeps that invariant.

## Model

| member | source | states |
|---|---|---|
| StoreAdapters.MemoryStoreAdapter.constructor | lib/graphql/persisted_queries/store_adapters/memory_store_adapter.rb:8-10 | a new adapter holds no entry, so every fetch misses |
| StoreAdapters.MemoryStoreAdapter.FetchQuery | lib/graphql/persisted_queries/store_adapters/memory_store_adapter.rb:12-14 | a present key answers its payload, an absent key answers nil |
| StoreAdapters.MemoryStoreAdapter.SaveQuery | lib/graphql/persisted_queries/store_adapters/memory_store_adapter.rb:16-18 | afterwards the key holds the new payload whatever it held before (last write wins); every other key reads as before |
| StoreAdapters.MemoryStoreAdapter.DeleteQuery | lib/graphql/persisted_queries/store_adapters/memory_store_adapter.rb:20-22 | afterwards the key is absent; the answer is the removed payload or nil; every other key reads as before |
| StoreAdapters.MemoryStoreAdapter.RequiresMarshaling | lib/graphql/persisted_queries/store_adapters/memory_store_adapter.rb:24-26 | the memory adapter never asks for marshalling |
| PersistedQueries.Sha256Hash | lib/graphql/persisted_queries/string_resolver.rb:42-44 | a hash is found exactly when both `persistedQuery` and its `sha256Hash` are present, and it is that value |
| PersistedQueries.Lookup | lib/graphql/persisted_queries/store_adapters/memory_store_adapter.rb:13 | a Hash read is non-nil exactly for a present key and then gives its value |
| ErrorHandling.GuardedFetch | lib/graphql/persisted_queries/string_resolver.rb:30-34 | a raising fetch yields nil and exactly one handler call on the key; otherwise the store's answer and no handler call |
| ErrorHandling.GuardedSave | lib/graphql/persisted_queries/document_resolver.rb:55-57 | a raising save leaves the store unchanged and makes exactly one handler call; otherwise the key holds the payload |
| ErrorHandling.GuardedDelete | lib/graphql/persisted_queries/document_resolver.rb:46 | a raising delete leaves the store unchanged and makes exactly one handler call; otherwise the key is gone |
| StringResolver.Resolution | lib/graphql/persisted_queries/string_resolver.rb:13-26 | no hash: passthrough with the store untouched. WrongHash exactly for text whose hash differs, with no save. NotFound exactly for a hash-only item whose fetch raises or misses. A hit sets `:query` to the stored text. Never a parse error. The store only ever gains the text under its own raw hash. A raising fetch or save reaches the handler exactly once, on this item's hash, and a save that does not raise stores the text; no other call reaches the handler |
| StringResolver.Resolve | lib/graphql/persisted_queries/string_resolver.rb:13-26 | on a `MemoryStoreAdapter`, the outcome, new store and handler calls are exactly those of `Resolution` |
| StringResolver.PersistQuery | lib/graphql/persisted_queries/string_resolver.rb:36-40 | matched exactly when the text hashes to the hash. A mismatch leaves the store untouched. A match saves under the raw hash, or, when the save raises, leaves the store and calls the handler once |
| StringResolver.ResolutionKeepsVerified | lib/graphql/persisted_queries/string_resolver.rb:36-40 | whatever a client sends, a store whose every key is the hash of its text stays so |
| StringResolver.FetchedTextMatchesHash | lib/graphql/persisted_queries/string_resolver.rb:21-22 | on such a store, a hash-only hit returns text whose hash is the one requested |
| StringResolver.SaveThenFetch | lib/graphql/persisted_queries/string_resolver.rb:18-22 | with a store that does not fail, sending text with its hash and then the hash alone gives the text back |
| StringResolver.UnsavedHashNotFound | lib/graphql/persisted_queries/string_resolver.rb:21-22 | a hash-only request for a hash never saved fails with NotFound |
| DocumentResolver.Namespace | lib/graphql/persisted_queries/document_resolver.rb:7 | the namespace is `document-` followed by the library version |
| DocumentResolver.Key | lib/graphql/persisted_queries/document_resolver.rb:67-69 | the key is the namespace, a colon and the hash, each recoverable by position |
| DocumentResolver.KeyInjective | lib/graphql/persisted_queries/document_resolver.rb:67-69 | under one version, two hashes share a key only if they are equal |
| DocumentResolver.WithDocument | lib/graphql/persisted_queries/document_resolver.rb:19 | the resolved params have `:query` nil and `:document` set to the given document, and keep the item's extensions and every other key |
| DocumentResolver.Resolution | lib/graphql/persisted_queries/document_resolver.rb:16-29 | no hash: passthrough. WrongHash exactly for text whose hash differs, before parsing or saving. Text with its hash resolves to its parse with `:query` nil, or to a nil document when parsing fails, with no save. NotFound exactly when the fetch raises, misses, or finds a payload that does not unmarshal. A hit sets `:document` to the loaded payload. The store only gains the dump of a verified parse under the namespaced key, or loses an unloadable payload. A raising fetch, save or delete on this item's key reaches the handler exactly once; no other call reaches it |
| DocumentResolver.Resolve | lib/graphql/persisted_queries/document_resolver.rb:16-29 | on a `MemoryStoreAdapter`, the outcome, new store and handler calls are exactly those of `Resolution` |
| DocumentResolver.PersistQuery | lib/graphql/persisted_queries/document_resolver.rb:51-61 | matched exactly when the text hashes to the hash. A mismatch or a parse failure leaves the store untouched. Otherwise the dump of the parse is saved under the key, or the handler is called once |
| DocumentResolver.FetchMarshaledObject | lib/graphql/persisted_queries/document_resolver.rb:39-49 | a raising fetch or a miss gives nil. A payload that loads gives its document. A payload that does not load gives nil and is deleted, or, when the delete raises, kept with one handler call |
| DocumentResolver.ResolutionKeepsVerified | lib/graphql/persisted_queries/document_resolver.rb:51-61 | whatever a client sends, every namespaced entry stays the dump of the parse of some text with that hash |
| DocumentResolver.FetchedDocumentMatchesHash | lib/graphql/persisted_queries/document_resolver.rb:39-49 | on such a store, a hash-only hit (when the marshaller round-trips) returns the parse of some text with the requested hash |
| DocumentResolver.SaveThenFetch | lib/graphql/persisted_queries/document_resolver.rb:22-25 | with a store that does not fail and a marshaller that round-trips, sending parsable text with its hash and then the hash alone gives its document back |
| DocumentResolver.CorruptPayloadPurged | lib/graphql/persisted_queries/document_resolver.rb:41-47 | a cached payload that does not unmarshal is deleted and the request fails with NotFound |
| Resolvers.Constants | lib/graphql/persisted_queries/resolvers.rb:19 | the resolver constants the lookup can find are exactly `StringResolver` and `DocumentResolver` |
| Resolvers.Build | lib/graphql/persisted_queries/resolvers.rb:10-16 | a class comes back unchanged; a name succeeds exactly when its constant exists, and then gives that constant's class; a failure carries the descriptive message |
| Resolvers.BuildByName | lib/graphql/persisted_queries/resolvers.rb:18-22 | succeeds exactly when `camelize(name) + "Resolver"` is a resolver constant and answers that constant; otherwise a NameError naming the symbol |
| Resolvers.CamelizeFrom | lib/graphql/persisted_queries/resolvers.rb:19 | camel-casing from any position gives no more characters than remain and no underscore |
| Resolvers.ConstantName | lib/graphql/persisted_queries/resolvers.rb:19 | the constant name is the camel-cased name followed by `Resolver` |
| Resolvers.NotFoundText | lib/graphql/persisted_queries/resolvers.rb:21 | the message is `Persisted query resolver for :`, then the symbol, then ` haven't been found`; the symbol can be read back from between them |
| Resolvers.Camelize | lib/graphql/persisted_queries/resolvers.rb:19 | the camel-cased name is no longer than the name and holds no underscore |
| Resolvers.CamelizeKeepsLowerCase | lib/graphql/persisted_queries/resolvers.rb:19 | inside a word, lower-case letters are kept as they are |
| Resolvers.CamelizeLowerWord | lib/graphql/persisted_queries/resolvers.rb:19 | a single lower-case word camel-cases to itself with its first letter up |
| Resolvers.BuildString | lib/graphql/persisted_queries/resolvers.rb:18-22 | `build(:string)` is the text strategy |
| Resolvers.BuildDocument | lib/graphql/persisted_queries/resolvers.rb:18-22 | `build(:document)` is the document strategy |
| Resolvers.BuildUnknownName | lib/graphql/persisted_queries/resolvers.rb:18-22 | `build(:unknown)` fails with the NameError message naming `:unknown` |
| Multiplex.Resolution | lib/graphql/persisted_queries/multiplex_resolver.rb:35 | only a class other than the two strategies can raise a parse error. The strategies hand back the item's extensions as they got them. Another class does not touch the store. At most one handler call |
| Multiplex.ResolveWith | lib/graphql/persisted_queries/multiplex_resolver.rb:35 | on a `MemoryStoreAdapter`, the configured class's outcome, new store and handler calls are those of `Resolution` |
| Multiplex.Step | lib/graphql/persisted_queries/multiplex_resolver.rb:31-40 | An item without extensions is left alone. Otherwise its extensions are consumed. A resolved item becomes the resolver's params and keeps its slot. NotFound or WrongHash puts `{"errors" => [{"message" => msg}]}` in its own slot, and a parse error puts the error's hash there, with the extension-free item kept. The two strategies leave no extensions |
| Multiplex.Advance | lib/graphql/persisted_queries/multiplex_resolver.rb:31-40 | only the item at the position and its own slot change, as `Settled` describes; the handler's earlier calls stay and at most one is added |
| Multiplex.ResolvedUpTo | lib/graphql/persisted_queries/multiplex_resolver.rb:25-29 | after `n` items the later items and slots are untouched, the handler's earlier calls are a prefix, and at most one call was added per item |
| Multiplex.ResolvedItems | lib/graphql/persisted_queries/multiplex_resolver.rb:26-39 | each of the first `n` items is settled at its own position whatever its neighbours did: untouched without extensions, extension-free with the strategies, an error entry only where the item carried extensions |
| Multiplex.ResolvedAt | lib/graphql/persisted_queries/multiplex_resolver.rb:26-28 | once an item's own step has run, the later items never change its item or its slot |
| Multiplex.PartitionAt | lib/graphql/persisted_queries/multiplex_resolver.rb:31-40 | For an item whose slot starts empty, the slot ends non-empty exactly when the item carried extensions and its own resolution raised. That resolution runs against the store the earlier items left. The entry is the message of its NotFound or WrongHash, or the hash of its parse error. Otherwise the item becomes the resolver's params, or stays as it was without extensions, and its slot stays empty for the executor |
| Multiplex.StepKeepsTrusted | lib/graphql/persisted_queries/multiplex_resolver.rb:35 | resolving one item with either strategy keeps that strategy's store invariant |
| Multiplex.BatchKeepsTrusted | lib/graphql/persisted_queries/multiplex_resolver.rb:25-29 | however many items of a batch are bogus, the store never caches content under a hash it does not match |
| Multiplex.PendingFrom | lib/graphql/persisted_queries/multiplex_resolver.rb:43 | the positions from `from` on with an empty slot, each exactly once and in increasing order |
| Multiplex.Pending | lib/graphql/persisted_queries/multiplex_resolver.rb:43 | every position with an empty slot, and only those, in increasing order |
| Multiplex.Batch | lib/graphql/persisted_queries/multiplex_resolver.rb:45 | one batch item per listed position, the `j`-th being the item at the `j`-th position, so increasing positions keep the items' relative order |
| Multiplex.ResultAt | lib/graphql/persisted_queries/multiplex_resolver.rb:47 | the `j`-th executor answer as an entry, or nil past the end of the answer |
| Multiplex.SpliceN | lib/graphql/persisted_queries/multiplex_resolver.rb:47 | writing answers back keeps one slot per item |
| Multiplex.SpliceNAt | lib/graphql/persisted_queries/multiplex_resolver.rb:47 | after `n` write-backs, the `j`-th answer is at the `j`-th listed position and every unlisted slot is as before |
| Multiplex.Reassembly | lib/graphql/persisted_queries/multiplex_resolver.rb:42-48 | with one answer per pending item: one entry per item, every error entry kept where it was, the `j`-th answer at the `j`-th pending position, and no slot left empty |
| Multiplex.InterleavedBatch | lib/graphql/persisted_queries/multiplex_resolver.rb:42-48 | with items 0 and 2 failed, items 1 and 3 go to the executor and its two answers land at 1 and 3 |
| Multiplex.MultiplexResolver.constructor | lib/graphql/persisted_queries/multiplex_resolver.rb:21-23 | one empty result slot per query, no executor call and no handler call yet |
| Multiplex.MultiplexResolver.Resolve | lib/graphql/persisted_queries/multiplex_resolver.rb:13-17 | The answer has one entry per query. The items and store are those of the fold over every item. The executor is called exactly once, even on an empty batch, with the items whose slot stayed empty in their original order. Its answers are spliced back by position |
| Multiplex.MultiplexResolver.ResolvePersistedQueries | lib/graphql/persisted_queries/multiplex_resolver.rb:25-29 | the queries, results, store and handler calls become the fold `ResolvedUpTo` over every item; the executor is not called |
| Multiplex.MultiplexResolver.ResolvePersistedQuery | lib/graphql/persisted_queries/multiplex_resolver.rb:31-40 | the queries, results, store and handler calls advance by `Advance` at the position |
| Multiplex.MultiplexResolver.PerformMultiplex | lib/graphql/persisted_queries/multiplex_resolver.rb:42-48 | one executor call on the items with an empty slot, recorded once; its answers written back at those positions in order; the store untouched |

## Left out

- `Marshal.dump` and `Marshal.load` are schema parameters. A `Marshal.load` exception other than `TypeError` would escape `resolve`; the model does not cover it. `MARSHAL_SIGNATURE` is unused by the code.
- `GraphQL.parse`, the document node types and the SHA-256 hash generator are schema parameters. The model assumes only that they are deterministic.
- `requires_marshaling?` is never consulted by `DocumentResolver`, which always marshals on save and unmarshals on fetch. The model follows that code. The model does not satisfy the two document resolver examples that expect an adapter to skip marshalling (`spec/graphql/persisted_queries/document_resolver_spec.rb:67-77` and `:112-119`), since the code never reads the flag.
- The error handler's implementation is not part of this model. A handler call is an entry in the `handled` log, and the handler returns nil.
- The exception message texts live in `errors.rb`, which is not part of this model. `NotFoundMessage` and `WrongHashMessage` stand in for them.
- `BuilderHelpers.camelize` is not part of this model. `Camelize` follows `split("_").map(&:capitalize).join` on ASCII letters.
- `const_get` is a lookup in a two-entry registry of `StringResolver` and `DocumentResolver`. Ancestor lookup and other constants of the namespace are not modelled.
- Resolvers.BuildByName: `const_get` also finds the namespace's other constants. For example, `build(:multiplex)` returns `MultiplexResolver` in the source, while the model answers a NameError. The model therefore promises nothing about names whose constant is neither of the two strategies.
- `Multiplex.Resolution`: a resolver class other than the two strategies is a pure function of the item and its extensions. It does not use the store or the error handler.
- `Multiplex.Step`: `merge!` of the resolver's answer is modelled as replacing the item by that answer. This is exact for the two strategies, whose answer holds every key of the item. A key that another class drops from its answer is lost in the model and kept by `merge!`.
- Multiplex keyword arguments are folded into the executor function. Because the executor is a pure function of its batch, a call is fully described by the batch it received.
- Store failures are fixed per call kind and key for a whole run. A backend that fails the first fetch of a key and serves a later fetch of the same key in one batch is not modelled.
- Query items are Ruby hashes shared with the caller; the model holds each one as a value in the `queries` array and replaces it there.
- `extensions.dig` on non-Hash values and hashes that are not strings are not modelled.
- Schema plugin wiring and the default resolver choice are configuration and are not modelled. The source is sequential, so there is no concurrency to model.
